/**
 * What becomes of a PFoD leg once it is settled, submission by submission and over whole runs, and
 * exactly when two legs settle.
 */
module PfodLegs {
  import opened Wrappers
  import opened Money
  import opened Domain
  import opened Ids
  import opened Ledgers
  import opened Settlements
  import opened Pfods
  import opened Histories
  import opened Accounts
  import opened DraftTable
  import opened Lifecycle
  import opened PfodMatching

  // ----- what becomes of a settled leg -----

  function LegStatusAt(l: Ledger, id: string): Status
    requires l.HasDraft(id)
  {
    l.drafts.entries[id].status
  }

  /** A match attempt settles both legs, or marks those expired that are past their window, or leaves them. */
  lemma MatchLegStatus(l: Ledger, deli: string, rece: string, tradeID: string, now: int, id: string)
    requires l.WellFormed() && Filed(l) && LegIds(l, deli, rece) && (id == deli || id == rece) && l.HasDraft(id)
    ensures var s := MatchLegs(l, deli, rece, tradeID, now);
      s.0.HasDraft(id) && LegStatusAt(s.0, id) ==
        if s.1 == Matched then SETTLED
        else if l.HasDraft(deli) && l.HasDraft(rece) && Expired(l.drafts.entries[id], now) then EXPIRED
        else LegStatusAt(l, id)
  {
    hide Fire;
    MatchCases(l, deli, rece, tradeID, now);
    if Ready(l, deli, rece, now) { FireAccounts(l, deli, rece, tradeID, now); }
  }

  /** What the handler of the DELI leg asks of a request. */
  predicate DeliverAccepted(l: Ledger, r: LegRequest) {
    r.tradeID != "" && r.amount != "" && r.currency != "" && r.walletRef != "" && l.HasWallet(r.walletRef)
  }

  /** And the handler of the RECE leg: more names, and a pending DELI leg. */
  predicate ReceiveAccepted(l: Ledger, r: LegRequest) {
    && DeliverAccepted(l, r) && r.sellerCAMBIC != ""
    && l.HasDraft(DeliverId(r.tradeID)) && LegStatusAt(l, DeliverId(r.tradeID)) == PENDING_MATCH
  }

  predicate IsAccepted(l: Ledger, side: Side, r: LegRequest) {
    if side == Deliver then DeliverAccepted(l, r) else ReceiveAccepted(l, r)
  }

  /** A submission is refused, and changes nothing, exactly when it is not one of those. */
  lemma RefusedExactly(l: Ledger, side: Side, r: LegRequest, now: int)
    requires l.WellFormed() && Filed(l)
    ensures IsAccepted(l, side, r) <==> !Submit(l, side, r, now).1.Invalid?
    ensures !IsAccepted(l, side, r) ==> Submit(l, side, r, now).0 == l
    ensures IsAccepted(l, side, r) ==>
      Submit(l, side, r, now) == TryMatch(l.AddDraft(NewLeg(side, r, now)), r.tradeID, now)
  {
    hide MatchLegs;
    MatchIsNoRefusal(l.AddDraft(NewLeg(side, r, now)), r.tradeID, now);
  }

  lemma MatchIsNoRefusal(l: Ledger, tradeID: string, now: int)
    ensures !TryMatch(l, tradeID, now).1.Invalid?
  {
    hide MatchLegs, Execute;
    MatchCases(l, DeliverId(tradeID), ReceiveId(tradeID), tradeID, now);
  }

  /** What an accepted submission makes of the leg submitted: settled if it matches, else pending. */
  lemma SubmittedLegStatus(l: Ledger, side: Side, r: LegRequest, now: int)
    requires l.WellFormed() && Filed(l) && IsAccepted(l, side, r)
    ensures var s := Submit(l, side, r, now);
      && s.0.HasDraft(LegId(side, r.tradeID))
      && LegStatusAt(s.0, LegId(side, r.tradeID)) == if s.1 == Matched then SETTLED else PENDING_MATCH
  {
    hide MatchLegs, Submit, Filed, LegIds;
    var stored := l.AddDraft(NewLeg(side, r, now));
    RefusedExactly(l, side, r, now);
    StoreLegAccounts(l, side, r, now);
    TradeLegIds(stored, r.tradeID);
    MatchLegStatus(stored, DeliverId(r.tradeID), ReceiveId(r.tradeID), r.tradeID, now, LegId(side, r.tradeID));
  }

  /** And of the other leg of the trade: settled if it matches, expired if past its window, else as it was. */
  lemma CounterpartStatus(l: Ledger, side: Side, other: Side, r: LegRequest, now: int)
    requires l.WellFormed() && Filed(l) && IsAccepted(l, side, r)
    requires other != side && l.HasDraft(LegId(other, r.tradeID))
    ensures var s, id := Submit(l, side, r, now), LegId(other, r.tradeID);
      && s.0.HasDraft(id)
      && LegStatusAt(s.0, id) ==
           if s.1 == Matched then SETTLED
           else if Expired(l.drafts.entries[id], now) then EXPIRED
           else LegStatusAt(l, id)
  {
    hide MatchLegs, Submit, Filed, LegIds;
    var stored := l.AddDraft(NewLeg(side, r, now));
    RefusedExactly(l, side, r, now);
    StoreLegAccounts(l, side, r, now);
    TradeLegIds(stored, r.tradeID);
    LegIdsInjective(r.tradeID, r.tradeID);
    MatchLegStatus(stored, DeliverId(r.tradeID), ReceiveId(r.tradeID), r.tradeID, now, LegId(other, r.tradeID));
  }

  /** A submission that is refused, or of another trade, leaves a leg alone. */
  lemma OtherLegsStay(l: Ledger, side: Side, r: LegRequest, now: int, own: Side, t: string)
    requires l.WellFormed() && Filed(l) && (r.tradeID != t || !IsAccepted(l, side, r))
    ensures Untouched(l, Submit(l, side, r, now).0, LegId(own, t))
  {
    hide Submit, Filed;
    RefusedExactly(l, side, r, now);
    if r.tradeID != t {
      LegIdsInjective(r.tradeID, t);
      LegIdsInjective(t, r.tradeID);
      SubmitFrame(l, side, r, now, LegId(own, t));
    }
  }

  /** A settled DELI leg is reopened exactly by an accepted resubmission that does not match, and never expires. */
  lemma SettledDeliverAfterSubmit(l: Ledger, side: Side, r: LegRequest, now: int, t: string)
    requires l.WellFormed() && Filed(l)
    requires l.HasDraft(DeliverId(t)) && LegStatusAt(l, DeliverId(t)) == SETTLED
    ensures var s := Submit(l, side, r, now);
      && s.0.HasDraft(DeliverId(t))
      && LegStatusAt(s.0, DeliverId(t)) ==
           if side == Deliver && r.tradeID == t && DeliverAccepted(l, r) && s.1 != Matched then PENDING_MATCH
               else SETTLED
  {
    hide Submit, Filed;
    if r.tradeID != t || !IsAccepted(l, side, r) {
      OtherLegsStay(l, side, r, now, Deliver, t);
    } else if side == Deliver {
      SubmittedLegStatus(l, side, r, now);
    }
  }

  /**
   * A settled RECE leg is relabelled EXPIRED exactly by an accepted submission of the DELI leg of its
   * trade after its own window.
   */
  lemma SettledReceiveAfterSubmit(l: Ledger, side: Side, r: LegRequest, now: int, t: string)
    requires l.WellFormed() && Filed(l)
    requires l.HasDraft(ReceiveId(t)) && LegStatusAt(l, ReceiveId(t)) == SETTLED
    ensures var s := Submit(l, side, r, now);
      && s.0.HasDraft(ReceiveId(t))
      && (LegStatusAt(s.0, ReceiveId(t)) == EXPIRED
          <==> && side == Deliver && r.tradeID == t && DeliverAccepted(l, r)
               && Expired(l.drafts.entries[ReceiveId(t)], now))
  {
    hide Submit, Filed;
    if r.tradeID != t || !IsAccepted(l, side, r) {
      OtherLegsStay(l, side, r, now, Receive, t);
    } else if side == Receive {
      SubmittedLegStatus(l, side, r, now);
    } else {
      CounterpartStatus(l, side, Receive, r, now);
      if Submit(l, side, r, now).1 == Matched { MatchedWasPending(l, r, now); }
    }
  }

  lemma MatchedWasPending(l: Ledger, r: LegRequest, now: int)
    requires l.WellFormed() && Filed(l) && Submit(l, Deliver, r, now).1 == Matched
    ensures l.HasDraft(ReceiveId(r.tradeID)) && LegStatusAt(l, ReceiveId(r.tradeID)) == PENDING_MATCH
  {
    hide MatchLegs, Submit, Filed, LegIds;
    var stored := l.AddDraft(NewLeg(Deliver, r, now));
    RefusedExactly(l, Deliver, r, now);
    StoreLegAccounts(l, Deliver, r, now);
    TradeLegIds(stored, r.tradeID);
    LegIdsInjective(r.tradeID, r.tradeID);
    MatchPairs(stored, DeliverId(r.tradeID), ReceiveId(r.tradeID), r.tradeID, now, TryMatch(stored, r.tradeID, now));
  }

  // ----- a settled leg over runs -----

  /** A settled DELI leg never stands beside a pending RECE leg. */
  ghost predicate SettledTogether(l: Ledger, t: string) {
    l.HasDraft(DeliverId(t)) && LegStatusAt(l, DeliverId(t)) == SETTLED ==>
      l.HasDraft(ReceiveId(t)) && LegStatusAt(l, ReceiveId(t)) != PENDING_MATCH
  }

  lemma SubmitKeepsTogether(l: Ledger, side: Side, r: LegRequest, now: int, t: string)
    requires l.WellFormed() && Filed(l) && SettledTogether(l, t)
    ensures SettledTogether(Submit(l, side, r, now).0, t)
  {
    hide Submit, Filed;
    if r.tradeID != t || !IsAccepted(l, side, r) {
      OtherLegsStay(l, side, r, now, Deliver, t);
      OtherLegsStay(l, side, r, now, Receive, t);
    } else {
      SubmittedLegStatus(l, side, r, now);
      if side == Deliver {
        if Submit(l, side, r, now).1 == Matched { MatchedWasPending(l, r, now); }
        if l.HasDraft(ReceiveId(t)) { CounterpartStatus(l, side, Receive, r, now); }
      } else {
        CounterpartStatus(l, side, Deliver, r, now);
      }
    }
  }

  lemma OthersKeepLeg(h: History, a: Action, own: Side, t: string)
    requires Sound(h) && Legal(h, a) && !a.SubmitLeg? && h.ledger.HasDraft(LegId(own, t))
    ensures Untouched(h.ledger, Act(h, a).ledger, LegId(own, t))
  {
    hide Act, Legal;
    LegsAreFiled(h.ledger, t);
    OthersKeepLegs(h, a, LegId(own, t));
  }

  lemma ActKeepsTogether(h: History, a: Action, t: string)
    requires Sound(h) && Legal(h, a) && SettledTogether(h.ledger, t)
    ensures SettledTogether(Act(h, a).ledger, t)
  {
    hide Submit, Filed;
    if a.SubmitLeg? {
      SubmitKeepsTogether(h.ledger, a.side, a.leg, a.now, t);
    } else {
      OthersKeepTogether(h, a, t);
    }
  }

  lemma OthersKeepTogether(h: History, a: Action, t: string)
    requires Sound(h) && Legal(h, a) && !a.SubmitLeg? && SettledTogether(h.ledger, t)
    ensures SettledTogether(Act(h, a).ledger, t)
  {
    hide Act, Legal, Accounted, LosesMoney, Loses;
    if Act(h, a).ledger.HasDraft(DeliverId(t)) {
      ActAccounts(h, a);
      LegsAreFiled(Act(h, a).ledger, t);
      OthersAddNoLeg(h, a, DeliverId(t));
      OthersKeepLeg(h, a, Deliver, t);
      if h.ledger.HasDraft(ReceiveId(t)) { OthersKeepLeg(h, a, Receive, t); }
    }
  }

  lemma {:induction false} LegsSettleTogether(hs: seq<History>, actions: seq<Action>, i: nat, t: string)
    requires IsRun(hs, actions) && i < |hs|
    ensures SettledTogether(hs[i].ledger, t)
  {
    hide Act, Legal, SettledTogether;
    if i == 0 {
      var day :| hs[0] == Start(day);
      NothingSettledYet(day, t);
    } else {
      LegsSettleTogether(hs, actions, i - 1, t);
      EveryRunIsSound(hs, actions, i - 1);
      ActKeepsTogether(hs[i - 1], actions[i - 1], t);
    }
  }

  lemma NothingSettledYet(day: BusinessDay, t: string)
    ensures SettledTogether(Start(day).ledger, t)
  {
  }

  /** The action is an accepted submission of the DELI leg of trade `t`. */
  predicate SubmitsDeliver(l: Ledger, a: Action, t: string) {
    a.SubmitLeg? && a.side == Deliver && a.leg.tradeID == t && DeliverAccepted(l, a.leg)
  }

  lemma SettledDeliverAfterAct(h: History, a: Action, t: string)
    requires Sound(h) && Legal(h, a) && SettledTogether(h.ledger, t)
    requires h.ledger.HasDraft(DeliverId(t)) && LegStatusAt(h.ledger, DeliverId(t)) == SETTLED
    ensures Act(h, a).ledger.HasDraft(DeliverId(t))
    ensures LegStatusAt(Act(h, a).ledger, DeliverId(t)) ==
      if SubmitsDeliver(h.ledger, a, t) then PENDING_MATCH else SETTLED
  {
    hide Act, Legal, Submit, Filed;
    if a.SubmitLeg? {
      LegActs(h, a);
      SettledDeliverAfterSubmit(h.ledger, a.side, a.leg, a.now, t);
      if SubmitsDeliver(h.ledger, a, t) && Submit(h.ledger, Deliver, a.leg, a.now).1 == Matched {
        MatchedWasPending(h.ledger, a.leg, a.now);
      }
    } else {
      OthersKeepLeg(h, a, Deliver, t);
    }
  }

  lemma LegActs(h: History, a: Action)
    requires a.SubmitLeg?
    ensures Act(h, a).ledger == Submit(h.ledger, a.side, a.leg, a.now).0
  {
    hide Submit;
  }

  /**
   * Over every run: a settled DELI leg stays settled until it is submitted again, which always makes
   * it pending; it is never relabelled EXPIRED.
   */
  lemma SettledDeliverOverRuns(hs: seq<History>, actions: seq<Action>, i: nat, t: string)
    requires IsRun(hs, actions) && i < |actions|
    requires hs[i].ledger.HasDraft(DeliverId(t)) && LegStatusAt(hs[i].ledger, DeliverId(t)) == SETTLED
    ensures hs[i + 1].ledger.HasDraft(DeliverId(t))
    ensures LegStatusAt(hs[i + 1].ledger, DeliverId(t)) ==
      if SubmitsDeliver(hs[i].ledger, actions[i], t) then PENDING_MATCH else SETTLED
  {
    hide Act, Legal, Sound, SettledTogether;
    EveryRunIsSound(hs, actions, i);
    LegsSettleTogether(hs, actions, i, t);
    SettledDeliverAfterAct(hs[i], actions[i], t);
  }

  /**
   * Over every run: a settled RECE leg is relabelled EXPIRED exactly when the DELI leg of its trade is
   * submitted again after the RECE leg's window.
   */
  lemma SettledReceiveOverRuns(hs: seq<History>, actions: seq<Action>, i: nat, t: string)
    requires IsRun(hs, actions) && i < |actions|
    requires hs[i].ledger.HasDraft(ReceiveId(t)) && LegStatusAt(hs[i].ledger, ReceiveId(t)) == SETTLED
    ensures hs[i + 1].ledger.HasDraft(ReceiveId(t))
    ensures LegStatusAt(hs[i + 1].ledger, ReceiveId(t)) == EXPIRED
      <==> SubmitsDeliver(hs[i].ledger, actions[i], t) && Expired(hs[i].ledger.drafts.entries[ReceiveId(t)],
          actions[i].now)
  {
    hide Act, Legal, Submit, Filed;
    var h, a := hs[i], actions[i];
    EveryRunIsSound(hs, actions, i);
    if a.SubmitLeg? {
      LegActs(h, a);
      SettledReceiveAfterSubmit(h.ledger, a.side, a.leg, a.now, t);
    } else {
      OthersKeepLeg(h, a, Receive, t);
    }
  }

  // ----- when two legs settle -----

  /** Two consistent pending legs settle exactly when both wallets exist and the RECE wallet can pay. */
  lemma FireSettlesExactly(l: Ledger, deli: string, rece: string, tradeID: string, now: int)
    requires l.WellFormed() && LegIds(l, deli, rece) && l.HasDraft(deli) && l.HasDraft(rece)
    ensures var deliver, receive := l.drafts.entries[deli], l.drafts.entries[rece];
      Fire(l, deli, rece, tradeID, now).1 == Matched
      <==> && l.HasWallet(deliver.debitedWalletAlias) && l.HasWallet(receive.creditedWalletAlias)
           && var payer := l.wallets.entries[receive.creditedWalletAlias];
           && MayDebit(payer, Caller(payer.ownerEntityID, ""), now)
           && ParseAmount(deliver.amount).Cents? && CentsOf(deliver.amount) <= payer.balance
  {
    var deliver, receive := l.drafts.entries[deli], l.drafts.entries[rece];
    var caller := OwnerOf(l, receive.creditedWalletAlias);
    DebitsExactlyWhenEntitled(l, receive.creditedWalletAlias, deliver.amount, caller, now);
    DebitMoves(l, receive.creditedWalletAlias, deliver.amount, caller, now);
    if l.HasWallet(receive.creditedWalletAlias) && l.HasWallet(deliver.debitedWalletAlias) {
      PaysExactly(l, tradeID, deliver, receive, caller, now);
    }
  }

  lemma PaysExactly(l: Ledger, tradeID: string, deliver: Draft, receive: Draft, caller: Caller, now: int)
    requires l.WellFormed()
    requires l.HasWallet(receive.creditedWalletAlias) && l.HasWallet(deliver.debitedWalletAlias)
    ensures Execute(l, Pfod, MatchInit(tradeID, deliver, receive), Actor(caller, "", ""), "", now).result.Success?
      <==> CheckedDebit(l, receive.creditedWalletAlias, deliver.amount, caller, now).result.Success?
  {
    DebitMoves(l, receive.creditedWalletAlias, deliver.amount, caller, now);
  }
}
