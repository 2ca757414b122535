/**
 * Rights over whole runs: no wallet is ever debited but on the rights of who acts, at the moment of the
 * debit, and none is ever funded but for a caller who had rights on it when the funding was opened.
 */
module Entitlements {
  import opened Wrappers
  import opened OrderedMaps
  import opened Domain
  import opened Ids
  import opened Ledgers
  import opened Settlements
  import opened Xvps
  import opened Pfods
  import opened Histories
  import opened Accounts
  import opened DraftTable
  import opened Lifecycle
  import opened PfodMatching
  import opened PfodLegs
  import opened Answers
  import opened XvpAnswers
  import Dcw

  /** Who acts when an action posts entry `tx`, and when; a matched trade is paid on its payer's own rights. */
  function ActingFor(l: Ledger, a: Action, tx: Transaction): (Caller, int) {
    match a
    case ApproveDraft(_, _, actor, _, now) => (actor.caller, now)
    case ExecuteNow(_, _, actor, _, now) => (actor.caller, now)
    case SettleXvp(_, p, now) => (p.caller, now)
    case SubmitLeg(_, _, now) =>
      (Caller(if l.HasWallet(tx.debitedWalletAlias) then l.wallets.entries[tx.debitedWalletAlias].ownerEntityID else "",
              ""), now)
    case _ => (Anonymous, 0)
  }

  /** Entry `tx`, if it debits, debits a wallet that who acts may debit, and that holds the amount. */
  predicate DebitedByRight(l: Ledger, a: Action, tx: Transaction) {
    tx.kind != FUNDING ==>
      MayPay(l, tx.debitedWalletAlias, tx.amount, ActingFor(l, a, tx).0, ActingFor(l, a, tx).1)
  }

  lemma ApprovalByRight(l: Ledger, a: Action)
    requires l.WellFormed() && Filed(l) && a.ApproveDraft?
    requires Approve(l, a.wf, a.id, a.actor, a.random, a.now).result.Success?
    ensures var m := Approve(l, a.wf, a.id, a.actor, a.random, a.now).ledger;
      |m.log| == |l.log| + 1 && DebitedByRight(l, a, m.log[|l.log|])
  {
    hide Approve, MayPay;
    ApprovesExactly(l, a.wf, a.id, a.actor, a.random, a.now);
    ApprovalIsSigned(l, a.wf, a.id, a.actor, a.random, a.now);
  }

  lemma ExecutionByRight(l: Ledger, a: Action)
    requires l.WellFormed() && a.ExecuteNow?
    requires Execute(l, a.wf, a.init, a.actor, a.random, a.now).result.Success?
    ensures var m := Execute(l, a.wf, a.init, a.actor, a.random, a.now).ledger;
      |m.log| == |l.log| + 1 && DebitedByRight(l, a, m.log[|l.log|])
  {
    hide Execute, MayPay, SettlementAnswer, CreationAnswer;
    ExecutionIsAnswered(l, a.wf, a.init, a.actor, a.random, a.now);
    SettlesWhenItCan(l, a.wf, a.init.debitedWalletAlias, a.init.creditedWalletAlias, a.init.amount, a.actor.caller,
                     a.now);
  }

  lemma SettlementByRight(l: Ledger, a: Action)
    requires l.WellFormed() && Filed(l) && a.SettleXvp?
    requires HasXvp(l, a.record.id) && a.record == Shape(l.drafts.entries[a.record.id])
    requires Settle(l, a.record, a.payment, a.now).result.Success?
    ensures var m := Settle(l, a.record, a.payment, a.now).ledger;
      |m.log| == |l.log| + 1 && DebitedByRight(l, a, m.log[|l.log|])
  {
    hide Settle, MayPay, Posts;
    var d := l.drafts.entries[a.record.id];
    SettlingIsAnswered(l, d, a.payment, a.now);
    SettlesExactlyWhenPaid(l, d, a.payment, a.now);
    SettleSettles(l, a.record, a.payment, a.now);
  }

  lemma MatchByRight(l: Ledger, deli: string, rece: string, tradeID: string, now: int, tx: Transaction)
    requires l.WellFormed() && Filed(l) && LegIds(l, deli, rece) && l.HasDraft(deli) && l.HasDraft(rece)
    requires Fire(l, deli, rece, tradeID, now).1 == Matched
    requires PaysDeliver(tx, l.drafts.entries[deli], l.drafts.entries[rece])
    ensures l.HasWallet(tx.debitedWalletAlias)
    ensures MayPay(l, tx.debitedWalletAlias, tx.amount,
                   Caller(l.wallets.entries[tx.debitedWalletAlias].ownerEntityID, ""), now)
  {
    hide Fire;
    FireSettlesExactly(l, deli, rece, tradeID, now);
  }

  lemma SubmissionByRight(l: Ledger, a: Action)
    requires l.WellFormed() && Filed(l) && a.SubmitLeg? && Submit(l, a.side, a.leg, a.now).1 == Matched
    ensures var m := Submit(l, a.side, a.leg, a.now).0;
      |m.log| == |l.log| + 1 && DebitedByRight(l, a, m.log[|l.log|])
  {
    hide Submit, MatchLegs, Fire, Posted, MayPay, Filed, FiledUnder;
    var stored, deli, rece := l.AddDraft(NewLeg(a.side, a.leg, a.now)), DeliverId(a.leg.tradeID),
        ReceiveId(a.leg.tradeID);
    RefusedExactly(l, a.side, a.leg, a.now);
    StoreLegAccounts(l, a.side, a.leg, a.now);
    TradeLegIds(stored, a.leg.tradeID);
    MatchPairs(stored, deli, rece, a.leg.tradeID, a.now, Submit(l, a.side, a.leg, a.now));
    MatchCases(stored, deli, rece, a.leg.tradeID, a.now);
    var tx := Submit(l, a.side, a.leg, a.now).0.log[|l.log|];
    MatchByRight(stored, deli, rece, a.leg.tradeID, a.now, tx);
    RightsAreAboutWallets(l, stored, tx, a.now);
  }

  lemma RightsAreAboutWallets(l: Ledger, m: Ledger, tx: Transaction, now: int)
    requires m.wallets == l.wallets
    ensures forall caller :: MayPay(l, tx.debitedWalletAlias, tx.amount, caller, now) <==>
                             MayPay(m, tx.debitedWalletAlias, tx.amount, caller, now)
  {
  }

  lemma ActDebitsByRight(h: History, a: Action)
    requires Sound(h) && Legal(h, a) && NewOrigin(h, a).Some?
    ensures var l, m := h.ledger, Act(h, a).ledger; |m.log| == |l.log| + 1 && DebitedByRight(l, a, m.log[|l.log|])
  {
    hide Approve, Execute, Settle, Submit, DebitedByRight, FiledUnder;
    match a
    case ApproveDraft(_, _, _, _, _) => ApprovalByRight(h.ledger, a);
    case ExecuteNow(_, _, _, _, _) => ExecutionByRight(h.ledger, a);
    case SubmitLeg(_, _, _) => SubmissionByRight(h.ledger, a);
    case SettleXvp(_, _, _) => SettlementByRight(h.ledger, a);
  }

  /**
   * Every log entry of every run that debits a wallet was written for a caller who might debit that wallet
   * of that amount at that moment.
   */
  lemma EveryDebitIsByRight(hs: seq<History>, actions: seq<Action>, i: nat)
    requires IsRun(hs, actions) && i < |actions| && hs[i + 1].ledger.log != hs[i].ledger.log
    ensures |hs[i + 1].ledger.log| == |hs[i].ledger.log| + 1
    ensures DebitedByRight(hs[i].ledger, actions[i], hs[i + 1].ledger.log[|hs[i].ledger.log|])
  {
    hide Act, Legal, NewOrigin, DebitedByRight, LeavesTheLog, Posted;
    EveryRunIsSound(hs, actions, i);
    ActAppends(hs[i], actions[i]);
    ActDebitsByRight(hs[i], actions[i]);
  }

  // ----- fundings -----

  /** The action opens draft `id`, and its caller may debit the wallet that draft credits. */
  ghost predicate OpensByRight(h: History, a: Action, id: string, credited: string) {
    && a.OpenDraft? && a.wf.Funding? && id == h.ledger.NextId("FRQ", a.day)
    && a.init.creditedWalletAlias == credited && h.ledger.HasWallet(credited)
    && MayDebit(h.ledger.wallets.entries[credited], a.actor.caller, a.now)
  }

  /** A funding that appears was opened by such an action. */
  lemma NewFundingByRight(h: History, a: Action, id: string)
    requires Sound(h) && Legal(h, a) && !h.ledger.HasDraft(id) && Act(h, a).ledger.HasDraft(id)
    requires Act(h, a).ledger.drafts.entries[id].kind == FUNDING
    ensures OpensByRight(h, a, id, Act(h, a).ledger.drafts.entries[id].creditedWalletAlias)
  {
    hide Create, CreationAnswer, Act, Legal;
    NewDraftsAreOpen(h, a, id);
    if a.OpenDraft? { OpenedFundingByRight(h, a, id); } else { InitOpensNoFunding(h, a, id); }
  }

  lemma InitOpensNoFunding(h: History, a: Action, id: string)
    requires a.InitXvp? && !h.ledger.HasDraft(id) && Act(h, a).ledger.HasDraft(id)
    ensures Act(h, a).ledger.drafts.entries[id].kind == XVP
  {
  }

  lemma OpenedFundingByRight(h: History, a: Action, id: string)
    requires Legal(h, a) && a.OpenDraft? && !h.ledger.HasDraft(id) && Act(h, a).ledger.HasDraft(id)
    requires Act(h, a).ledger.drafts.entries[id].kind == FUNDING
    ensures OpensByRight(h, a, id, Act(h, a).ledger.drafts.entries[id].creditedWalletAlias)
  {
    hide Create, MayDebit;
    var l, prefix := h.ledger, PrefixOf(a.wf);
    var m, init := l.AdvanceSequence(prefix, a.day), a.init.(id := l.NextId(prefix, a.day));
    CreatesExactly(m, a.wf, init, a.actor, a.now);
    FundsOnlyOwnWallets(m, init, a.actor, a.now);
  }

  /**
   * Every funding of every run, whatever has become of it, was opened by a caller who might debit the wallet
   * it credits when it was opened.
   */
  lemma {:induction false} EveryFundingIsByRight(hs: seq<History>, actions: seq<Action>, i: nat, id: string)
    requires IsRun(hs, actions) && i < |hs|
    requires hs[i].ledger.HasDraft(id) && hs[i].ledger.drafts.entries[id].kind == FUNDING
    ensures exists j ::
      0 <= j < i && OpensByRight(hs[j], actions[j], id, hs[i].ledger.drafts.entries[id].creditedWalletAlias)
  {
    hide Act, Legal, Sound, OpensByRight;
    NothingIsStoredFirst(hs, actions, id);
    if i == 0 {
    } else {
      EveryRunIsSound(hs, actions, i - 1);
      var h := hs[i - 1];
      if h.ledger.HasDraft(id) {
        WasFunding(h, actions[i - 1], id);
        EveryFundingIsByRight(hs, actions, i - 1, id);
      } else {
        NewFundingByRight(h, actions[i - 1], id);
      }
    }
  }

  lemma NothingIsStoredFirst(hs: seq<History>, actions: seq<Action>, id: string)
    requires IsRun(hs, actions)
    ensures !hs[0].ledger.HasDraft(id)
  {
  }

  lemma WasFunding(h: History, a: Action, id: string)
    requires Sound(h) && Legal(h, a) && h.ledger.HasDraft(id) && Act(h, a).ledger.HasDraft(id)
    requires Act(h, a).ledger.drafts.entries[id].kind == FUNDING
    ensures h.ledger.drafts.entries[id].kind == FUNDING
    ensures h.ledger.drafts.entries[id].creditedWalletAlias == Act(h, a).ledger.drafts.entries[id].creditedWalletAlias
  {
    hide Act, Legal;
    KindsStay(h, a, id);
    ActEvolves(h, a, id);
  }

  // ----- new wallets -----

  /** Of two texts the first that is given. */
  predicate IsFirstGiven(text: string, first: string, second: string) {
    if first != "" then text == first else text == second
  }

  /**
   * A new wallet is the entity's that is given as its owner, or else the participant's, or else nobody's known;
   * until somebody is granted rights, only users of that entity may debit it, and only while it is valid.
   */
  lemma NewWalletIsItsOwners(alias: string, opts: WalletOptions, now: int, caller: Caller, at: int)
    ensures var w := Dcw.CreateDcw(alias, opts, now);
      && w.alias == alias && w.balance == opts.availableBalance && w.lockedBalance == opts.lockedBalance
      && w.isMainWallet == opts.isMainWallet && w.createdAt == now
      && IsFirstGiven(w.currency, opts.currency, "EUR") && IsFirstGiven(w.managerNCB, opts.managerNCB, "UNKNOWN")
      && IsFirstGiven(w.ownerBIC, opts.ownerBIC, w.ownerEntityID)
      && (opts.ownerEntityID != "" ==> w.ownerEntityID == opts.ownerEntityID)
      && (opts.ownerEntityID == "" ==> IsFirstGiven(w.ownerEntityID, opts.ownerBIC, "UNKNOWN"))
      && (MayDebit(w, caller, at) <==>
            && caller.entityBIC == w.ownerEntityID
            && (match opts.validFrom case Some(from) => from <= at case None => now <= at)
            && (match opts.validTo case Some(to) => at <= to case None => true))
  {
  }
}
