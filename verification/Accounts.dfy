/**
 * What each operation does to the money: either nothing, or one new empty wallet, or exactly the
 * movement of the one log entry it appends, or, half-applied, a debit that no entry tells of.
 * Everything about balances follows from this.
 */
module Accounts {
  import opened Wrappers
  import opened OrderedMaps
  import opened Money
  import opened Domain
  import opened Ids
  import opened Ledgers
  import opened Settlements
  import opened Xvps
  import opened Pfods
  import opened Histories
  import Dcw

  ghost predicate Quiet(l: Ledger, m: Ledger) {
    m.wallets == l.wallets && m.log == l.log
  }

  ghost predicate OpenedWallet(l: Ledger, m: Ledger, w: Wallet) {
    && m.log == l.log
    && w.balance == 0 && !l.HasWallet(w.alias) && m.wallets == l.wallets.Set(w.alias, w)
  }

  ghost predicate Posted(l: Ledger, m: Ledger) {
    && |m.log| == |l.log| + 1 && m.log[..|l.log|] == l.log
    && Posts(l.wallets, m.wallets, m.log[|l.log|])
  }

  ghost predicate Accounted(l: Ledger, m: Ledger) {
    Quiet(l, m) || Posted(l, m) || exists w :: OpenedWallet(l, m, w)
  }

  // ----- where each kind of draft is filed -----

  /** The id shape, the statuses and the named wallets that go with each kind of draft. */
  ghost predicate FiledUnder(id: string, d: Draft) {
    match d.kind
    case XVP =>
      && IsXvp(d) && d.creditedWalletAlias != "" && !MintedShape(id) && !PfodShape(id)
      && d.status in {INITIALIZED, SETTLED, EXPIRED}
    case PFOD =>
      && d.supplementaryData.Text? && d.status in {PENDING_MATCH, SETTLED, EXPIRED}
      && (|| (id == DeliverId(d.supplementaryData.text) && d.debitedWalletAlias != "")
          || (id == ReceiveId(d.supplementaryData.text) && d.creditedWalletAlias != ""))
    case FUNDING => TwoStepFiled(id, d)
    case DEFUNDING => TwoStepFiled(id, d)
    case TRANSFER => TwoStepFiled(id, d)
    case DIRECT_RTGS => TwoStepFiled(id, d)
  }

  ghost predicate TwoStepFiled(id: string, d: Draft) {
    MintedShape(id) && d.status in {PENDING_APPROVAL, SETTLED, CANCELED}
  }

  ghost predicate Filed(l: Ledger) {
    forall id :: id in l.drafts.entries ==> FiledUnder(id, l.drafts.entries[id])
  }

  lemma LegShapes(tradeID: string)
    ensures PfodShape(DeliverId(tradeID)) && PfodShape(ReceiveId(tradeID))
    ensures !MintedShape(DeliverId(tradeID)) && !MintedShape(ReceiveId(tradeID))
  {
    forall prefix, day, n | IsPrefix(prefix) && IsDay(day)
      ensures MintedId(prefix, day, n) != DeliverId(tradeID) && MintedId(prefix, day, n) != ReceiveId(tradeID)
    {
      MintedIsNotPfod(prefix, day, n, tradeID);
    }
  }

  /** What is stored under a leg's id is that leg of that trade. */
  lemma LegsAreFiled(l: Ledger, tradeID: string)
    requires Filed(l)
    ensures var id := DeliverId(tradeID);
      l.HasDraft(id) ==>
        && l.drafts.entries[id].kind == PFOD && l.drafts.entries[id].debitedWalletAlias != ""
        && l.drafts.entries[id].supplementaryData == Text(tradeID)
    ensures var id := ReceiveId(tradeID);
      l.HasDraft(id) ==>
        && l.drafts.entries[id].kind == PFOD && l.drafts.entries[id].creditedWalletAlias != ""
        && l.drafts.entries[id].supplementaryData == Text(tradeID)
  {
    LegShapes(tradeID);
    var deli, rece := DeliverId(tradeID), ReceiveId(tradeID);
    if l.HasDraft(deli) {
      var d := l.drafts.entries[deli];
      assert FiledUnder(deli, d);
      if d.supplementaryData.Text? {
        LegIdsInjective(tradeID, d.supplementaryData.text);
      }
    }
    if l.HasDraft(rece) {
      var d := l.drafts.entries[rece];
      assert FiledUnder(rece, d);
      if d.supplementaryData.Text? {
        LegIdsInjective(d.supplementaryData.text, tradeID);
      }
    }
  }

  // ----- operation by operation -----

  lemma EnsureWalletAccounts(l: Ledger, alias: string, opts: WalletOptions, now: int)
    requires l.WellFormed() && Filed(l) && opts.availableBalance == 0
    ensures var m := l.EnsureWallet(alias, opts, now); m.WellFormed() && Filed(m) && Accounted(l, m)
  {
    if !l.HasWallet(alias) {
      var w := Dcw.CreateDcw(alias, opts, now);
      UpsertKeepsWellFormed(l, w);
      assert OpenedWallet(l, l.UpsertWallet(w), w);
    }
  }

  /** A settlement written down: one movement, one draft rewritten, one log entry. */
  ghost predicate Settles(l: Ledger, m: Ledger, d: Draft, tx: Transaction) {
    && m == l.(wallets := m.wallets, drafts := l.drafts.Set(d.id, d), log := l.log + [tx])
    && Posts(l.wallets, m.wallets, tx)
  }

  lemma SettlesAccounts(l: Ledger, m: Ledger, d: Draft, tx: Transaction)
    requires l.WellFormed() && Filed(l) && FiledUnder(d.id, d) && Settles(l, m, d, tx)
    ensures m.WellFormed() && Filed(m) && Posted(l, m)
  {
    MovesKeepWellFormed(l, m.wallets);
    AddDraftKeepsWellFormed(l.(wallets := m.wallets), d);
  }

  /** An approval that goes through is a settlement of its draft. */
  lemma ApproveSettles(l: Ledger, wf: Workflow, id: string, actor: Actor, random: string, now: int)
    requires l.WellFormed() && Approve(l, wf, id, actor, random, now).result.Success?
    ensures l.HasDraft(id)
    ensures var record := l.drafts.entries[id];
      var d := Merge(record, Approval(l, record, actor, now), now);
      && FourEyes(record, actor) && record.status == PENDING_APPROVAL && record.kind == wf.Kind()
      && Settles(l, Approve(l, wf, id, actor, random, now).ledger, d, TransactionOf(wf, record, random, now))
  {
    var record := l.drafts.entries[id];
    EffectPosts(l, wf, record, actor.caller, random, now);
  }

  /** A rejection leaves the ledger as it was, unless it half-applies, and then only the wallets differ. */
  ghost predicate LeavesAtMost(l: Ledger, m: Ledger, halfApplied: bool) {
    m == if halfApplied then l.(wallets := m.wallets) else l
  }

  lemma LossKeepsFiled(l: Ledger, m: Ledger, alias: string, cents: nat)
    requires l.WellFormed() && Filed(l) && Loses(l, m, alias, cents)
    ensures m.WellFormed() && Filed(m)
  {
    MovesKeepWellFormed(l, m.wallets);
  }

  lemma ApproveAccounts(l: Ledger, wf: Workflow, id: string, actor: Actor, random: string, now: int)
    requires l.WellFormed() && Filed(l)
    ensures var s := Approve(l, wf, id, actor, random, now);
      && s.ledger.WellFormed() && Filed(s.ledger)
      && (if s.result.Success? then Posted(l, s.ledger)
          else LeavesAtMost(l, s.ledger, HalfApproves(l, wf, id, actor, now)))
      && (HalfApproves(l, wf, id, actor, now) ==>
            && s.result.Failure? && l.HasDraft(id)
            && Loses(l, s.ledger, l.drafts.entries[id].debitedWalletAlias, CentsOf(l.drafts.entries[id].amount)))
  {
    hide Approve, HalfApproves, Moves, FiledUnder;
    var s := Approve(l, wf, id, actor, random, now);
    if HalfApproves(l, wf, id, actor, now) {
      HalfApprovedLosesTheAmount(l, wf, id, actor, random, now);
      LossKeepsFiled(l, s.ledger, l.drafts.entries[id].debitedWalletAlias, CentsOf(l.drafts.entries[id].amount));
    } else if s.result.Failure? {
      ApproveAllOrNothing(l, wf, id, actor, random, now);
    } else {
      ApproveSettles(l, wf, id, actor, random, now);
      var record := l.drafts.entries[id];
      ApprovalIsFiled(id, l, record, actor, now);
      SettlesAccounts(l, s.ledger, Merge(record, Approval(l, record, actor, now), now),
                      TransactionOf(wf, record, random, now));
    }
  }

  lemma ApprovalIsFiled(id: string, l: Ledger, record: Draft, actor: Actor, now: int)
    requires FiledUnder(id, record) && record.status == PENDING_APPROVAL
    ensures FiledUnder(id, Merge(record, Approval(l, record, actor, now), now))
  {
  }

  lemma ExecuteAccounts(l: Ledger, wf: Workflow, init: WorkflowInit, actor: Actor, random: string, now: int)
    requires l.WellFormed()
    ensures var s := Execute(l, wf, init, actor, random, now);
      && s.ledger.WellFormed() && s.ledger.drafts == l.drafts && s.ledger.sequences == l.sequences
      && s.ledger.day == l.day
      && (if s.result.Success? then
            && Posted(l, s.ledger)
            && s.ledger.log[|l.log|] == TransactionOf(wf, BuildRecord(wf, init, SETTLED, now), random, now)
          else LeavesAtMost(l, s.ledger, HalfExecutes(l, wf, init, actor, now)))
      && (HalfExecutes(l, wf, init, actor, now) ==>
            s.result.Failure? && Loses(l, s.ledger, init.debitedWalletAlias, CentsOf(init.amount)))
  {
    hide HalfExecutes, Effect, Refusal;
    var s := Execute(l, wf, init, actor, random, now);
    if HalfExecutes(l, wf, init, actor, now) {
      HalfExecutedLosesTheAmount(l, wf, init, actor, random, now);
      MovesKeepWellFormed(l, s.ledger.wallets);
    } else if s.result.Failure? {
      ExecuteAllOrNothing(l, wf, init, actor, random, now);
    } else {
      var record := BuildRecord(wf, init, SETTLED, now);
      EffectPosts(l, wf, record, actor.caller, random, now);
      MovesKeepWellFormed(l, s.ledger.wallets);
    }
  }

  lemma CreateAccounts(l: Ledger, wf: Workflow, init: WorkflowInit, actor: Actor, now: int)
    requires l.WellFormed() && Filed(l)
    requires IsTwoStep(wf) && MintedShape(init.id)
    ensures var s := Create(l, wf, init, actor, now);
      && s.ledger.WellFormed() && Filed(s.ledger) && Quiet(l, s.ledger)
  {
    var record := BuildRecord(wf, init, PENDING_APPROVAL, now);
    AddDraftKeepsWellFormed(l, record);
    assert FiledUnder(record.id, record);
  }

  /** Rewriting a stored draft without moving it elsewhere. */
  lemma UpdateAccounts(l: Ledger, id: string, update: DraftUpdate, now: int)
    requires l.WellFormed() && Filed(l)
    requires l.HasDraft(id) ==> FiledUnder(id, Merge(l.drafts.entries[id], update, now))
    ensures var m := l.UpdateDraft(id, update, now); m.WellFormed() && Filed(m) && Quiet(l, m)
  {
    UpdateDraftKeepsWellFormed(l, id, update, now);
  }

  lemma CancelAccounts(l: Ledger, wf: Workflow, id: string, now: int)
    requires l.WellFormed() && Filed(l)
    ensures var s := Cancel(l, wf, id, now); s.ledger.WellFormed() && Filed(s.ledger) && Quiet(l, s.ledger)
  {
    var loaded := LoadPending(l, wf, id);
    if loaded.Success? {
      assert FiledUnder(id, l.drafts.entries[id]);
      UpdateAccounts(l, id, Cancellation(l, loaded.value, now), now);
    }
  }

  // ----- XvP -----

  lemma InitAccounts(l: Ledger, p: XvpInitParams, s: Secrets, hash: string -> string, now: int)
    requires l.WellFormed() && Filed(l)
    requires p.sellerWalletAlias != "" && !MintedShape(p.xvpTransactionId) && !PfodShape(p.xvpTransactionId)
    ensures var m := Init(l, p, s, hash, now).ledger; m.WellFormed() && Filed(m) && Quiet(l, m)
  {
    AddDraftKeepsWellFormed(l, InitDraft(p, s, hash, now));
  }

  /** Observing an XvP changes at most its own status, once, from INITIALIZED to EXPIRED. */
  lemma ObserveAccounts(l: Ledger, id: string, now: int)
    requires l.WellFormed() && Filed(l)
    ensures var m := Observe(l, id, now).0; m.WellFormed() && Filed(m) && Quiet(l, m)
  {
    if HasXvp(l, id) && Overdue(l.drafts.entries[id], now) {
      assert FiledUnder(id, l.drafts.entries[id]);
      UpdateAccounts(l, id, NoUpdate.(status := Some(EXPIRED)), now);
    }
  }

  lemma MarkAccounts(l: Ledger, id: string, now: int)
    requires l.WellFormed() && Filed(l)
    ensures var m := MarkPaymentAttempted(l, id, now);
      && m.WellFormed() && Filed(m) && Quiet(l, m) && m.sequences == l.sequences && m.day == l.day
      && (HasXvp(l, id) ==>
            && HasXvp(m, id)
            && m.drafts.order == l.drafts.order
            && m.drafts.entries == l.drafts.entries[id := m.drafts.entries[id]]
            && m.drafts.entries[id].supplementaryData
               == l.drafts.entries[id].supplementaryData.(paymentAttempted := true)
            && m.drafts.entries[id].(updatedAt := 0, supplementaryData := NoData)
               == l.drafts.entries[id].(updatedAt := 0, supplementaryData := NoData))
  {
    if HasXvp(l, id) && !l.drafts.entries[id].supplementaryData.paymentAttempted {
      assert FiledUnder(id, l.drafts.entries[id]);
      var data := l.drafts.entries[id].supplementaryData.(paymentAttempted := true);
      UpdateAccounts(l, id, NoUpdate.(supplementaryData := Some(data)), now);
    } else if HasXvp(l, id) {
      assert l.drafts.entries == l.drafts.entries[id := l.drafts.entries[id]];
    }
  }

  /** The draft an XvP settlement leaves behind. */
  function SettledXvp(d: Draft, buyer: string, now: int): Draft
    requires IsXvp(d)
  {
    d.(status := SETTLED, debitedWalletAlias := buyer, updatedAt := now,
       supplementaryData := d.supplementaryData.(paymentAttempted := true))
  }

  /** A rejected XvP settlement leaves only the attempted flag behind. */
  lemma SettleRejected(l: Ledger, rec: XvpRecord, p: PaymentParams, now: int)
    requires l.WellFormed() && Filed(l)
    requires HasXvp(l, rec.id) && rec == Shape(l.drafts.entries[rec.id])
    requires Settle(l, rec, p, now).result.Failure?
    ensures Settle(l, rec, p, now).ledger == MarkPaymentAttempted(l, rec.id, now)
  {
    var marked := MarkPaymentAttempted(l, rec.id, now);
    MarkAccounts(l, rec.id, now);
    assert FiledUnder(rec.id, l.drafts.entries[rec.id]);
    if CreditWalletMissing(marked, rec.sellerWalletAlias).None? {
      MoveAllOrNothing(marked, p.buyerWalletAlias, rec.sellerWalletAlias, rec.amount, p.caller, now);
    }
  }

  /** An XvP settlement that goes through settles its draft. */
  lemma SettleSettles(l: Ledger, rec: XvpRecord, p: PaymentParams, now: int)
    requires l.WellFormed() && Filed(l)
    requires HasXvp(l, rec.id) && rec == Shape(l.drafts.entries[rec.id])
    requires Settle(l, rec, p, now).result.Success?
    ensures Settles(l, Settle(l, rec, p, now).ledger,
                    SettledXvp(l.drafts.entries[rec.id], p.buyerWalletAlias, now), SettlementOf(rec, p, now))
  {
    hide Move, Moves;
    var marked := MarkPaymentAttempted(l, rec.id, now);
    MarkAccounts(l, rec.id, now);
    MoveMoves(marked, p.buyerWalletAlias, rec.sellerWalletAlias, rec.amount, p.caller, now);
    var d := SettledXvp(l.drafts.entries[rec.id], p.buyerWalletAlias, now);
    assert Settle(l, rec, p, now).ledger.drafts.entries == l.drafts.entries[rec.id := d];
  }

  lemma SettleAccounts(l: Ledger, rec: XvpRecord, p: PaymentParams, now: int)
    requires l.WellFormed() && Filed(l)
    requires HasXvp(l, rec.id) && rec == Shape(l.drafts.entries[rec.id])
    ensures var s := Settle(l, rec, p, now);
      && s.ledger.WellFormed() && Filed(s.ledger)
      && (if s.result.Success? then Posted(l, s.ledger) else Quiet(l, s.ledger))
  {
    var s := Settle(l, rec, p, now);
    assert FiledUnder(rec.id, l.drafts.entries[rec.id]);
    if s.result.Success? {
      SettleSettles(l, rec, p, now);
      var d := SettledXvp(l.drafts.entries[rec.id], p.buyerWalletAlias, now);
      SettlesAccounts(l, s.ledger, d, SettlementOf(rec, p, now));
    } else {
      SettleRejected(l, rec, p, now);
      MarkAccounts(l, rec.id, now);
    }
  }

  // ----- PFoD -----

  lemma StoreLegAccounts(l: Ledger, side: Side, r: LegRequest, now: int)
    requires l.WellFormed() && Filed(l) && r.walletRef != ""
    ensures var m := l.AddDraft(NewLeg(side, r, now)); m.WellFormed() && Filed(m) && Quiet(l, m)
  {
    AddDraftKeepsWellFormed(l, NewLeg(side, r, now));
  }

  /** Two leg ids, and what stands under them if anything does. */
  ghost predicate LegIds(l: Ledger, deli: string, rece: string) {
    && deli != rece
    && (l.HasDraft(deli) ==> l.drafts.entries[deli].kind == PFOD && l.drafts.entries[deli].debitedWalletAlias != "")
    && (l.HasDraft(rece) ==> l.drafts.entries[rece].kind == PFOD && l.drafts.entries[rece].creditedWalletAlias != "")
  }

  lemma TradeLegIds(l: Ledger, tradeID: string)
    requires Filed(l)
    ensures LegIds(l, DeliverId(tradeID), ReceiveId(tradeID))
  {
    LegsAreFiled(l, tradeID);
    LegIdsInjective(tradeID, tradeID);
  }

  lemma MarkLegAccounts(l: Ledger, id: string, status: Status, now: int)
    requires l.WellFormed() && Filed(l) && (l.HasDraft(id) ==> l.drafts.entries[id].kind == PFOD)
    requires status in {SETTLED, EXPIRED}
    ensures var m := l.UpdateDraft(id, NoUpdate.(status := Some(status)), now);
      && m.WellFormed() && Filed(m) && Quiet(l, m)
      && (forall x :: x in m.drafts.entries <==> x in l.drafts.entries)
      && (forall x :: x in l.drafts.entries ==> m.drafts.entries[x].kind == l.drafts.entries[x].kind)
  {
    if l.HasDraft(id) {
      assert FiledUnder(id, l.drafts.entries[id]);
      UpdateAccounts(l, id, NoUpdate.(status := Some(status)), now);
    }
  }

  lemma MarkSettledAccounts(l: Ledger, deli: string, rece: string, now: int)
    requires l.WellFormed() && Filed(l) && LegIds(l, deli, rece)
    ensures var m := MarkSettled(l, deli, rece, now); m.WellFormed() && Filed(m) && Quiet(l, m)
  {
    MarkLegAccounts(l, deli, SETTLED, now);
    MarkLegAccounts(l.UpdateDraft(deli, NoUpdate.(status := Some(SETTLED)), now), rece, SETTLED, now);
  }

  lemma MarkExpiredAccounts(l: Ledger, deli: string, rece: string, now: int)
    requires l.WellFormed() && Filed(l) && LegIds(l, deli, rece)
    ensures var m := MarkExpired(MarkExpired(l, deli, now), rece, now); m.WellFormed() && Filed(m) && Quiet(l, m)
  {
    MarkLegAccounts(l, deli, EXPIRED, now);
    MarkLegAccounts(MarkExpired(l, deli, now), rece, EXPIRED, now);
  }

  /** The log entry of a match: the RECE wallet pays the DELI wallet. */
  ghost predicate PaysDeliver(tx: Transaction, deliver: Draft, receive: Draft) {
    && tx.kind == PFOD && tx.amount == deliver.amount && tx.currency == Dcw.OrElse(deliver.currency, "EUR")
    && tx.debitedWalletAlias == receive.creditedWalletAlias
    && tx.creditedWalletAlias == deliver.debitedWalletAlias
  }

  /** Both legs marked settled and one payment posted. */
  ghost predicate Matches(l: Ledger, m: Ledger, deli: string, rece: string, now: int) {
    && m == MarkSettled(l, deli, rece, now).(wallets := m.wallets, log := m.log)
    && Posted(l, m)
  }

  lemma MatchesAccounts(l: Ledger, m: Ledger, deli: string, rece: string, now: int)
    requires l.WellFormed() && Filed(l) && LegIds(l, deli, rece)
    requires Matches(l, m, deli, rece, now)
    ensures m.WellFormed() && Filed(m)
  {
    MarkSettledAccounts(l, deli, rece, now);
    MovesKeepWellFormed(MarkSettled(l, deli, rece, now), m.wallets);
  }

  lemma MarkingKeepsLog(l: Ledger, deli: string, rece: string, now: int)
    ensures var m := MarkSettled(l, deli, rece, now); m.wallets == l.wallets && m.log == l.log
  {
  }

  lemma MarkingIsAboutDrafts(l: Ledger, m: Ledger, deli: string, rece: string, now: int)
    requires m == l.(wallets := m.wallets, log := m.log)
    ensures MarkSettled(m, deli, rece, now) == MarkSettled(l, deli, rece, now).(wallets := m.wallets, log := m.log)
  {
  }

  /** A match either goes through, posting one payment and settling both legs, or changes nothing. */
  lemma FireAccounts(l: Ledger, deli: string, rece: string, tradeID: string, now: int)
    requires l.WellFormed() && Filed(l) && LegIds(l, deli, rece)
    requires l.HasDraft(deli) && l.HasDraft(rece)
    ensures var (m, answer) := Fire(l, deli, rece, tradeID, now);
      if answer == Matched then
        && Matches(l, m, deli, rece, now)
        && PaysDeliver(m.log[|l.log|], l.drafts.entries[deli], l.drafts.entries[rece])
        && m.log[|l.log|].settledAt == now
      else answer.SettlementRejected? && m == l
  {
    hide Execute, HalfExecutes, MarkSettled, Posts, Loses;
    var deliver, receive := l.drafts.entries[deli], l.drafts.entries[rece];
    var actor := Actor(OwnerOf(l, receive.creditedWalletAlias), "", "");
    NamedIsWhole(l, Pfod, MatchInit(tradeID, deliver, receive), actor, now);
    ExecuteAccounts(l, Pfod, MatchInit(tradeID, deliver, receive), actor, "", now);
    MarkingKeepsLog(l, deli, rece, now);
    MarkingIsAboutDrafts(l, Execute(l, Pfod, MatchInit(tradeID, deliver, receive), actor, "", now).ledger,
                         deli, rece, now);
  }

  predicate Ready(l: Ledger, deli: string, rece: string, now: int) {
    && l.HasDraft(deli) && l.HasDraft(rece)
    && !Expired(l.drafts.entries[deli], now) && !Expired(l.drafts.entries[rece], now)
    && l.drafts.entries[deli].status == l.drafts.entries[rece].status == PENDING_MATCH
    && l.drafts.entries[deli].amount == l.drafts.entries[rece].amount
    && l.drafts.entries[deli].currency == l.drafts.entries[rece].currency
  }

  /** Only two pending, unexpired legs that agree on amount and currency are ever settled. */
  lemma MatchCases(l: Ledger, deli: string, rece: string, tradeID: string, now: int)
    ensures var s := MatchLegs(l, deli, rece, tradeID, now);
      if Ready(l, deli, rece, now) then s == Fire(l, deli, rece, tradeID, now)
      else
        && s.1 != Matched && !s.1.SettlementRejected? && !s.1.Invalid?
        && s.0 == if s.1 == LegExpired then MarkExpired(MarkExpired(l, deli, now), rece, now) else l
  {
  }

  lemma MatchAccounts(l: Ledger, deli: string, rece: string, tradeID: string, now: int, s: (Ledger, Answer))
    requires l.WellFormed() && Filed(l) && LegIds(l, deli, rece)
    requires s == MatchLegs(l, deli, rece, tradeID, now)
    ensures s.0.WellFormed() && Filed(s.0)
    ensures if s.1 == Matched then Posted(l, s.0) else Quiet(l, s.0)
  {
    MatchCases(l, deli, rece, tradeID, now);
    if Ready(l, deli, rece, now) {
      FireAccounts(l, deli, rece, tradeID, now);
      if s.1 == Matched { MatchesAccounts(l, s.0, deli, rece, now); }
    } else {
      MarkExpiredAccounts(l, deli, rece, now);
    }
  }

  lemma SubmitStores(l: Ledger, side: Side, r: LegRequest, now: int)
    ensures var s := Submit(l, side, r, now);
      if s.1.Invalid? then s.0 == l
      else
        && l.HasWallet(r.walletRef) && r.walletRef != ""
        && (side == Receive ==>
              && l.HasDraft(DeliverId(r.tradeID))
              && l.drafts.entries[DeliverId(r.tradeID)].status == PENDING_MATCH)
        && s == TryMatch(l.AddDraft(NewLeg(side, r, now)), r.tradeID, now)
  {
  }

  lemma SubmitAccounts(l: Ledger, side: Side, r: LegRequest, now: int)
    requires l.WellFormed() && Filed(l)
    ensures var (m, answer) := Submit(l, side, r, now);
      && m.WellFormed() && Filed(m)
      && (if answer == Matched then Posted(l, m) else Quiet(l, m))
  {
    SubmitStores(l, side, r, now);
    if !Submit(l, side, r, now).1.Invalid? {
      StoreLegAccounts(l, side, r, now);
      var stored := l.AddDraft(NewLeg(side, r, now));
      TradeLegIds(stored, r.tradeID);
      MatchAccounts(stored, DeliverId(r.tradeID), ReceiveId(r.tradeID), r.tradeID, now, Submit(l, side, r, now));
    }
  }

  // ----- every action -----

  /** The action is a settlement that half-applies. */
  predicate LosesMoney(h: History, a: Action) {
    match a
    case ApproveDraft(wf, id, actor, _, now) => HalfApproves(h.ledger, wf, id, actor, now)
    case ExecuteNow(wf, init, actor, _, now) => HalfExecutes(h.ledger, wf, init, actor, now)
    case _ => false
  }

  /** Where a half-applied settlement takes the money from, and how much. */
  function LostFrom(h: History, a: Action): (string, nat) {
    match a
    case ApproveDraft(_, id, _, _, _) =>
      if h.ledger.HasDraft(id) then
        (h.ledger.drafts.entries[id].debitedWalletAlias, CentsOf(h.ledger.drafts.entries[id].amount))
      else ("", 0)
    case ExecuteNow(_, init, _, _, _) => (init.debitedWalletAlias, CentsOf(init.amount))
    case _ => ("", 0)
  }

  lemma OpenAccounts(h: History, wf: Workflow, clientId: string, init: WorkflowInit, actor: Actor, day: string,
        now: int)
    requires h.ledger.WellFormed() && Filed(h.ledger) && IsTwoStep(wf) && IsDay(day)
    ensures var m := Open(h, wf, clientId, init, actor, day, now).ledger;
      m.WellFormed() && Filed(m) && Quiet(h.ledger, m)
  {
    hide Create;
    var resolved := ResolveDraftId(h.ledger, PrefixOf(wf), clientId, day);
    if resolved.result.Success? {
      AdvanceKeepsWellFormed(h.ledger, PrefixOf(wf), day);
      assert IsPrefix(PrefixOf(wf));
      assert MintedShape(resolved.result.value);
      CreateAccounts(resolved.ledger, wf, init.(id := resolved.result.value), actor, now);
    }
  }

  /** Whatever happens to the store, the books stay straight, except exactly for what half-applies. */
  lemma ActAccounts(h: History, a: Action)
    requires h.ledger.WellFormed() && Filed(h.ledger) && Legal(h, a)
    ensures var m := Act(h, a).ledger;
      && m.WellFormed() && Filed(m)
      && if LosesMoney(h, a) then Loses(h.ledger, m, LostFrom(h, a).0, LostFrom(h, a).1) else Accounted(h.ledger, m)
  {
    hide HalfApproves, HalfExecutes, Loses, Posted, Approve, Execute, Cancel, Submit, Init, Observe, Settle, Open;
    var l := h.ledger;
    match a
    case NewWallet(alias, opts, now) => EnsureWalletAccounts(l, alias, opts, now);
    case SetDay(day) =>
    case OpenDraft(wf, clientId, init, actor, day, now) => OpenAccounts(h, wf, clientId, init, actor, day, now);
    case ApproveDraft(wf, id, actor, random, now) => ApproveAccounts(l, wf, id, actor, random, now);
    case CancelDraft(wf, id, now) => CancelAccounts(l, wf, id, now);
    case ExecuteNow(wf, init, actor, random, now) => ExecuteAccounts(l, wf, init, actor, random, now);
    case SubmitLeg(side, r, now) => SubmitAccounts(l, side, r, now);
    case InitXvp(p, s, hash, now) => InitAccounts(l, p, s, hash, now);
    case ObserveXvp(id, now) => ObserveAccounts(l, id, now);
    case AdmitXvp(id, p, now) => ObserveAccounts(l, id, now);
    case SettleXvp(rec, p, now) => SettleAccounts(l, rec, p, now);
  }
}
