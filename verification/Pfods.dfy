/**
 * PFoD two-leg matching (src/routes/pfod.ts) as functions of the ledger. Each leg is a draft; a
 * resubmitted leg overwrites the stored one, and expiry is noticed only when a match is tried.
 */
module Pfods {
  import opened Wrappers
  import opened Domain
  import opened Ids
  import opened Ledgers
  import opened Settlements

  const MATCH_WINDOW_SEC: int := 3600

  datatype LegRequest = LegRequest(
    tradeID: string,
    amount: string,
    currency: string,
    walletRef: string,
    sellerCAMBIC: string,
    initiatorUserUUID: string)

  datatype Answer =
    | Invalid(rejection: Rejection)
    | AwaitingMatch
    | LegExpired
    | LegStatus(status: Status)
    | Inconsistent
    | SettlementRejected(rejection: Rejection)
    | Matched

  predicate Expired(leg: Draft, now: int) {
    leg.expiresAt.Some? && leg.expiresAt.value < now
  }

  function Leg(id: string, r: LegRequest, debited: string, credited: string, now: int): Draft {
    Draft(
      id, PFOD, PENDING_MATCH, r.amount, r.currency, credited, debited, now, now, r.initiatorUserUUID, "", "",
      Some(now + MATCH_WINDOW_SEC * 1000), Text(r.tradeID), "", "", "", None, map[], "")
  }

  function MarkExpired(l: Ledger, id: string, now: int): Ledger {
    if l.HasDraft(id) && Expired(l.drafts.entries[id], now) then
      l.UpdateDraft(id, NoUpdate.(status := Some(EXPIRED)), now)
    else l
  }

  function MarkSettled(l: Ledger, deli: string, rece: string, now: int): Ledger {
    l.UpdateDraft(deli, NoUpdate.(status := Some(SETTLED)), now)
     .UpdateDraft(rece, NoUpdate.(status := Some(SETTLED)), now)
  }

  /** The payment a match fires: the RECE wallet is debited and the DELI wallet credited. */
  function MatchInit(tradeID: string, deliver: Draft, receive: Draft): WorkflowInit {
    WorkflowInit(
      "PFOD-" + tradeID, deliver.amount, deliver.currency, deliver.debitedWalletAlias, receive.creditedWalletAlias,
      "", NoData, "", "", "", None, map[], "")
  }

  /** The match debits on behalf of the debited wallet's owner. */
  function OwnerOf(l: Ledger, alias: string): Caller {
    if l.HasWallet(alias) then Caller(l.wallets.entries[alias].ownerEntityID, "") else Anonymous
  }

  /** Match and settle two consistent pending legs. */
  function Fire(l: Ledger, deli: string, rece: string, tradeID: string, now: int): (Ledger, Answer)
    requires l.HasDraft(deli) && l.HasDraft(rece)
  {
    var deliver, receive := l.drafts.entries[deli], l.drafts.entries[rece];
    var caller := OwnerOf(l, receive.creditedWalletAlias);
    var paid := Execute(l, Pfod, MatchInit(tradeID, deliver, receive), Actor(caller, "", ""), "", now);
    match paid.result
    case Failure(e) => (paid.ledger, SettlementRejected(e))
    case Success(_) => (MarkSettled(paid.ledger, deli, rece, now), Matched)
  }

  /** `tryMatch` on the two leg ids of a trade. */
  function MatchLegs(l: Ledger, deli: string, rece: string, tradeID: string, now: int): (Ledger, Answer) {
    if !l.HasDraft(deli) || !l.HasDraft(rece) then (l, AwaitingMatch)
    else
      var deliver, receive := l.drafts.entries[deli], l.drafts.entries[rece];
      if Expired(deliver, now) || Expired(receive, now) then
        (MarkExpired(MarkExpired(l, deli, now), rece, now), LegExpired)
      else if deliver.status != PENDING_MATCH || receive.status != PENDING_MATCH then (l, LegStatus(deliver.status))
      else if deliver.amount != receive.amount || deliver.currency != receive.currency then (l, Inconsistent)
      else Fire(l, deli, rece, tradeID, now)
  }

  function TryMatch(l: Ledger, tradeID: string, now: int): (Ledger, Answer) {
    MatchLegs(l, DeliverId(tradeID), ReceiveId(tradeID), tradeID, now)
  }

  /** The DELI leg: stored, then matched if its counterpart is there. */
  function SubmitDeliver(l: Ledger, r: LegRequest, now: int): (Ledger, Answer) {
    if r.tradeID == "" || r.amount == "" || r.currency == "" || r.walletRef == "" then
      (l, Invalid(Rejection(400, "HL-VAL-001")))
    else if !l.HasWallet(r.walletRef) then (l, Invalid(Rejection(422, "HL-WAL-002")))
    else TryMatch(l.AddDraft(Leg(DeliverId(r.tradeID), r, r.walletRef, "", now)), r.tradeID, now)
  }

  /** The RECE leg: refused unless a pending DELI leg is already there. */
  function SubmitReceive(l: Ledger, r: LegRequest, now: int): (Ledger, Answer) {
    if r.tradeID == "" || r.amount == "" || r.currency == "" || r.walletRef == "" || r.sellerCAMBIC == "" then
      (l, Invalid(Rejection(400, "HL-VAL-001")))
    else if !l.HasWallet(r.walletRef) then (l, Invalid(Rejection(422, "HL-WAL-003")))
    else if !l.HasDraft(DeliverId(r.tradeID)) || l.drafts.entries[DeliverId(r.tradeID)].status != PENDING_MATCH then
      (l, Invalid(Rejection(500, "HL-GER-000")))
    else TryMatch(l.AddDraft(Leg(ReceiveId(r.tradeID), r, "", r.walletRef, now)), r.tradeID, now)
  }
}
