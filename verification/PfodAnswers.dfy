/**
 * What the handlers of the two PFoD legs answer, told from the request, the other leg as stored, and the
 * wallets.
 */
module PfodAnswers {
  import opened Wrappers
  import opened Domain
  import opened Ids
  import opened Ledgers
  import opened Settlements
  import opened Pfods
  import opened Histories
  import opened Accounts
  import opened PfodMatching
  import opened PfodLegs
  import opened Answers

  /** The RECE wallet pays the DELI wallet, on the rights of the RECE wallet's own owner. */
  function TradeAnswer(l: Ledger, deliverWallet: string, receiveWallet: string, amount: string, now: int): Answer {
    var owner := if l.HasWallet(receiveWallet) then l.wallets.entries[receiveWallet].ownerEntityID else "";
    match SettlementAnswer(l, Pfod, receiveWallet, deliverWallet, amount, Caller(owner, ""), now)
    case Some(e) => SettlementRejected(e)
    case None => Matched
  }

  /** What a request meets when the other leg stands as `other`: its window first, then its status, then its terms. */
  function MeetsAnswer(l: Ledger, side: Side, r: LegRequest, other: Draft, now: int): Answer {
    if other.expiresAt.Some? && other.expiresAt.value < now then LegExpired
    else if other.status != PENDING_MATCH then LegStatus(PENDING_MATCH)
    else if r.amount != other.amount || r.currency != other.currency then Inconsistent
    else if side == Deliver then TradeAnswer(l, r.walletRef, other.creditedWalletAlias, r.amount, now)
    else TradeAnswer(l, other.debitedWalletAlias, r.walletRef, r.amount, now)
  }

  function OtherId(side: Side, tradeID: string): string {
    if side == Deliver then ReceiveId(tradeID) else DeliverId(tradeID)
  }

  function SubmissionAnswer(l: Ledger, side: Side, r: LegRequest, now: int): Answer {
    if r.tradeID == "" || r.amount == "" || r.currency == "" || r.walletRef == ""
       || (side == Receive && r.sellerCAMBIC == "") then Invalid(Rejection(400, "HL-VAL-001"))
    else if !l.HasWallet(r.walletRef) then
      Invalid(Rejection(422, if side == Deliver then "HL-WAL-002" else "HL-WAL-003"))
    else if side == Receive && (!l.HasDraft(DeliverId(r.tradeID))
                                || l.drafts.entries[DeliverId(r.tradeID)].status != PENDING_MATCH) then
      Invalid(Rejection(500, "HL-GER-000"))
    else if !l.HasDraft(OtherId(side, r.tradeID)) then AwaitingMatch
    else MeetsAnswer(l, side, r, l.drafts.entries[OtherId(side, r.tradeID)], now)
  }

  lemma FiringIsAnswered(l: Ledger, deli: string, rece: string, tradeID: string, now: int)
    requires l.WellFormed() && LegIds(l, deli, rece) && l.HasDraft(deli) && l.HasDraft(rece)
    ensures var deliver, receive := l.drafts.entries[deli], l.drafts.entries[rece];
      Fire(l, deli, rece, tradeID, now).1
        == TradeAnswer(l, deliver.debitedWalletAlias, receive.creditedWalletAlias, deliver.amount, now)
  {
    hide Execute, SettlementAnswer, CreationAnswer, MarkSettled;
    var deliver, receive := l.drafts.entries[deli], l.drafts.entries[rece];
    var init := MatchInit(tradeID, deliver, receive);
    var caller := OwnerOf(l, receive.creditedWalletAlias);
    ExecutionIsAnswered(l, Pfod, init, Actor(caller, "", ""), "", now);
    MatchNeedsNoMore(l, init, caller, now);
  }

  /** A PFoD settlement asks nothing at its creation that it does not ask when it settles. */
  lemma MatchNeedsNoMore(l: Ledger, init: WorkflowInit, caller: Caller, now: int)
    ensures ExecutionAnswer(l, Pfod, init, caller, now)
      == SettlementAnswer(l, Pfod, init.debitedWalletAlias, init.creditedWalletAlias, init.amount, caller, now)
  {
    hide DebitAnswer, CreditAnswer;
  }

  lemma TradeIsAboutWallets(l: Ledger, m: Ledger, deliverWallet: string, receiveWallet: string, amount: string,
        now: int)
    requires m == l.(drafts := m.drafts)
    ensures TradeAnswer(m, deliverWallet, receiveWallet, amount, now)
      == TradeAnswer(l, deliverWallet, receiveWallet, amount, now)
  {
  }

  /** The stored leg waits for an hour, which is longer than no time at all. */
  lemma NewLegStands(side: Side, r: LegRequest, now: int)
    ensures var d := NewLeg(side, r, now);
      && d.id == LegId(side, r.tradeID) && d.expiresAt == Some(now + 3_600_000) && d.status == PENDING_MATCH
      && d.amount == r.amount && d.currency == r.currency && d.initiatorUserUUID == r.initiatorUserUUID
      && (if side == Deliver then d.debitedWalletAlias else d.creditedWalletAlias) == r.walletRef
      && !Expired(d, now)
  {
  }

  /** A match attempt while the DELI leg is pending, as it is whenever a leg has just been accepted. */
  lemma LegsMeet(l: Ledger, deli: string, rece: string, tradeID: string, now: int)
    requires l.WellFormed() && LegIds(l, deli, rece) && l.HasDraft(deli) && l.HasDraft(rece)
    requires l.drafts.entries[deli].status == PENDING_MATCH
    ensures var deliver, receive := l.drafts.entries[deli], l.drafts.entries[rece];
      MatchLegs(l, deli, rece, tradeID, now).1
        == if Expired(deliver, now) || Expired(receive, now) then LegExpired
           else if receive.status != PENDING_MATCH then LegStatus(PENDING_MATCH)
           else if deliver.amount != receive.amount || deliver.currency != receive.currency then Inconsistent
           else TradeAnswer(l, deliver.debitedWalletAlias, receive.creditedWalletAlias, deliver.amount, now)
  {
    hide Fire, TradeAnswer, LegIds;
    FiringIsAnswered(l, deli, rece, tradeID, now);
  }

  lemma DeliverIsAnswered(l: Ledger, r: LegRequest, now: int)
    requires l.WellFormed() && Filed(l) && DeliverAccepted(l, r)
    ensures TryMatch(l.AddDraft(NewLeg(Deliver, r, now)), r.tradeID, now).1
      == if l.HasDraft(ReceiveId(r.tradeID)) then
           MeetsAnswer(l, Deliver, r, l.drafts.entries[ReceiveId(r.tradeID)], now)
         else AwaitingMatch
  {
    hide Fire, TradeAnswer, Filed, NewLeg, DeliverId, ReceiveId, LegIds;
    var stored, rece := l.AddDraft(NewLeg(Deliver, r, now)), ReceiveId(r.tradeID);
    NewLegStands(Deliver, r, now);
    StoreLegAccounts(l, Deliver, r, now);
    TradeLegIds(stored, r.tradeID);
    LegIdsInjective(r.tradeID, r.tradeID);
    if l.HasDraft(rece) {
      LegsMeet(stored, DeliverId(r.tradeID), rece, r.tradeID, now);
      TradeIsAboutWallets(l, stored, r.walletRef, l.drafts.entries[rece].creditedWalletAlias, r.amount, now);
    }
  }

  lemma ReceiveIsAnswered(l: Ledger, r: LegRequest, now: int)
    requires l.WellFormed() && Filed(l) && ReceiveAccepted(l, r)
    ensures TryMatch(l.AddDraft(NewLeg(Receive, r, now)), r.tradeID, now).1
      == MeetsAnswer(l, Receive, r, l.drafts.entries[DeliverId(r.tradeID)], now)
  {
    hide Fire, TradeAnswer, Filed, NewLeg, DeliverId, ReceiveId, LegIds;
    var stored, deli := l.AddDraft(NewLeg(Receive, r, now)), DeliverId(r.tradeID);
    NewLegStands(Receive, r, now);
    StoreLegAccounts(l, Receive, r, now);
    TradeLegIds(stored, r.tradeID);
    LegIdsInjective(r.tradeID, r.tradeID);
    LegsMeet(stored, deli, ReceiveId(r.tradeID), r.tradeID, now);
    TradeIsAboutWallets(l, stored, l.drafts.entries[deli].debitedWalletAlias, r.walletRef, r.amount, now);
  }

  /**
   * A submission is answered so, whatever is stored. In particular an accepted one is never answered with
   * the other leg's status: it is awaiting its match, even beside a leg settled before.
   */
  lemma SubmissionIsAnswered(l: Ledger, side: Side, r: LegRequest, now: int)
    requires l.WellFormed() && Filed(l)
    ensures Submit(l, side, r, now).1 == SubmissionAnswer(l, side, r, now)
  {
    hide TryMatch, MeetsAnswer, Filed;
    RefusedExactly(l, side, r, now);
    if IsAccepted(l, side, r) {
      if side == Deliver { DeliverIsAnswered(l, r, now); } else { ReceiveIsAnswered(l, r, now); }
    } else {
      RefusalIsNamed(l, side, r, now);
    }
  }

  lemma RefusalIsNamed(l: Ledger, side: Side, r: LegRequest, now: int)
    requires !IsAccepted(l, side, r)
    ensures Submit(l, side, r, now).1 == SubmissionAnswer(l, side, r, now)
  {
    hide TryMatch, MeetsAnswer;
  }

  /** The log entry is that of the trade, as made now. */
  predicate LoggedAs(tx: Transaction, tradeID: string, now: int) {
    tx.id == "TX-PFOD-" + tradeID && tx.createdAt == tx.settledAt == now
  }

  lemma FiringLogs(l: Ledger, deli: string, rece: string, tradeID: string, now: int)
    requires l.HasDraft(deli) && l.HasDraft(rece) && Fire(l, deli, rece, tradeID, now).1 == Matched
    ensures var deliver, receive := l.drafts.entries[deli], l.drafts.entries[rece];
      var actor := Actor(OwnerOf(l, receive.creditedWalletAlias), "", "");
      var paid := Execute(l, Pfod, MatchInit(tradeID, deliver, receive), actor, "", now);
      paid.result.Success? && Fire(l, deli, rece, tradeID, now).0.log == paid.ledger.log
  {
    hide Execute;
  }

  lemma TradeIsLogged(l: Ledger, tradeID: string, deliver: Draft, receive: Draft, actor: Actor, now: int)
    requires l.WellFormed()
    ensures var paid := Execute(l, Pfod, MatchInit(tradeID, deliver, receive), actor, "", now);
      paid.result.Success? ==> |paid.ledger.log| == |l.log| + 1 && LoggedAs(paid.ledger.log[|l.log|], tradeID, now)
  {
    hide Execute, SettlementAnswer, CreationAnswer;
    ExecutionIsAnswered(l, Pfod, MatchInit(tradeID, deliver, receive), actor, "", now);
    assert "TX-" + ("PFOD-" + tradeID) == "TX-PFOD-" + tradeID;
  }

  /** The payment of a match is logged under the trade, as made now. */
  lemma MatchIsLogged(l: Ledger, deli: string, rece: string, tradeID: string, now: int)
    requires l.WellFormed() && Filed(l) && LegIds(l, deli, rece) && l.HasDraft(deli) && l.HasDraft(rece)
    requires Fire(l, deli, rece, tradeID, now).1 == Matched
    ensures var m := Fire(l, deli, rece, tradeID, now).0;
      && |m.log| == |l.log| + 1 && LoggedAs(m.log[|l.log|], tradeID, now)
      && PaysDeliver(m.log[|l.log|], l.drafts.entries[deli], l.drafts.entries[rece])
  {
    hide Fire, Execute, Posted, Filed, LegIds, PaysDeliver, LoggedAs, OwnerOf, MatchInit;
    var deliver, receive := l.drafts.entries[deli], l.drafts.entries[rece];
    FireAccounts(l, deli, rece, tradeID, now);
    FiringLogs(l, deli, rece, tradeID, now);
    TradeIsLogged(l, tradeID, deliver, receive, Actor(OwnerOf(l, receive.creditedWalletAlias), "", ""), now);
  }

  /** The trade goes on waiting. */
  predicate Awaits(a: Answer) {
    a == AwaitingMatch || a == LegStatus(PENDING_MATCH)
  }

  /**
   * An accepted DELI submission is left waiting exactly when no RECE leg stands, or one that is in its
   * window and settled or expired before: whatever became of that leg, it is not what is answered.
   */
  lemma DeliverAwaitsExactly(l: Ledger, r: LegRequest, now: int)
    requires l.WellFormed() && Filed(l) && DeliverAccepted(l, r)
    ensures var rece := ReceiveId(r.tradeID);
      Awaits(Submit(l, Deliver, r, now).1) <==>
        l.HasDraft(rece) ==>
          !Expired(l.drafts.entries[rece], now) && l.drafts.entries[rece].status != PENDING_MATCH
    ensures var a := Submit(l, Deliver, r, now).1;
      !Awaits(a) ==> a in {LegExpired, Inconsistent, Matched} || a.SettlementRejected?
  {
    hide Submit, SettlementAnswer, Filed;
    SubmissionIsAnswered(l, Deliver, r, now);
  }
}
