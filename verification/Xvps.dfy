/**
 * The XvP hash-time-lock as functions of the ledger. A payment runs in two synchronous segments,
 * admission and settlement, with an `await` between them; `Pay` is the two run back to back.
 */
module Xvps {
  import opened Wrappers
  import opened Domain
  import opened Ledgers
  import opened Settlements
  import Dcw

  const DEFAULT_TIMEOUT_SEC: int := 3600

  datatype XvpInitParams = XvpInitParams(
    xvpTransactionId: string,
    transactionType: string,
    amount: string,
    currency: string,
    sellerWalletAlias: string,
    sellerBic: string,
    buyerBic: string,
    seller: string,
    buyer: string,
    timeoutSec: Option<int>)

  /** The random draws of an init: the two secrets and the payment id. */
  datatype Secrets = Secrets(executionKey: string, cancellationKey: string, paymentId: string)

  datatype PaymentParams = PaymentParams(
    buyerWalletAlias: string,
    buyerBic: string,
    sellerBic: string,
    amount: string,
    currency: string,
    caller: Caller)

  datatype XvpRecord = XvpRecord(
    id: string,
    status: Status,
    amount: string,
    currency: string,
    sellerWalletAlias: string,
    buyerWalletAlias: string,
    timeout: Option<int>,
    terms: XvpTerms,
    paymentAttempted: bool)

  datatype PaymentResult = PaymentResult(executionKey: string, cancellationKey: string, paymentId: string)

  predicate IsXvp(d: Draft) {
    d.kind == XVP && d.supplementaryData.Xvp?
  }

  function InitDraft(p: XvpInitParams, s: Secrets, hash: string -> string, now: int): Draft {
    var timeout := now + (if p.timeoutSec.Some? then p.timeoutSec.value else DEFAULT_TIMEOUT_SEC) * 1000;
    Draft(
      p.xvpTransactionId, XVP, INITIALIZED, p.amount, p.currency, p.sellerWalletAlias, "", now, now,
      "", "", "", Some(timeout),
      Xvp(XvpTerms(p.transactionType, hash(s.executionKey), hash(s.cancellationKey), s.executionKey,
                   s.cancellationKey, s.paymentId, p.sellerBic, p.buyerBic, p.seller, p.buyer), false),
      "", "", "", None, map[], "")
  }

  /** `init` does not look for an existing draft of that id. */
  function Init(l: Ledger, p: XvpInitParams, s: Secrets, hash: string -> string, now: int): Step<Draft> {
    if p.transactionType != "DVP" && p.transactionType != "PVP" then Step(l, Failure(Rejection(400, "HL-XVP-001")))
    else
      var d := InitDraft(p, s, hash, now);
      Step(l.AddDraft(d), Success(d))
  }

  function Shape(d: Draft): XvpRecord
    requires IsXvp(d)
  {
    XvpRecord(
      d.id, d.status, d.amount, d.currency, d.creditedWalletAlias, d.debitedWalletAlias, d.expiresAt,
      d.supplementaryData.terms, d.supplementaryData.paymentAttempted)
  }

  /** Past the deadline: `timeout < now`, so the deadline itself is still in time. */
  predicate Overdue(d: Draft, now: int) {
    d.status == INITIALIZED && d.expiresAt.Some? && d.expiresAt.value < now
  }

  /** The first observation of an overdue record persists its expiry. */
  function MaybeExpire(l: Ledger, d: Draft, now: int): (Ledger, Draft) {
    if Overdue(d, now) then
      (l.UpdateDraft(d.id, NoUpdate.(status := Some(EXPIRED)), now), d.(status := EXPIRED))
    else (l, d)
  }

  predicate HasXvp(l: Ledger, id: string) {
    l.HasDraft(id) && IsXvp(l.drafts.entries[id])
  }

  /** `get`, run under the lock. */
  function Observe(l: Ledger, id: string, now: int): (Ledger, Option<XvpRecord>) {
    if !HasXvp(l, id) then (l, None)
    else
      var (m, d) := MaybeExpire(l, l.drafts.entries[id], now);
      (m, Some(Shape(d)))
  }

  /** Why a payment does not match the initialisation, if it does not. */
  function Mismatch(rec: XvpRecord, p: PaymentParams): Option<Rejection> {
    if rec.status != INITIALIZED then Some(Rejection(409, "HL-XVP-003"))
    else if rec.terms.buyerBic != "" && p.buyerBic != "" && p.buyerBic != rec.terms.buyerBic then
      Some(Rejection(400, "HL-XVP-006"))
    else if rec.terms.sellerBic != "" && p.sellerBic != "" && p.sellerBic != rec.terms.sellerBic then
      Some(Rejection(400, "HL-XVP-006"))
    else if p.amount != rec.amount then Some(Rejection(400, "HL-XVP-006"))
    else if p.currency != rec.currency then Some(Rejection(400, "HL-XVP-006"))
    else None
  }

  /** `pay` up to its `await`: the record a payment is admitted on, or its rejection. */
  function Admit(l: Ledger, id: string, p: PaymentParams, now: int): Step<XvpRecord> {
    var (m, seen) := Observe(l, id, now);
    if seen.None? then Step(m, Failure(Rejection(404, "HL-XVP-002")))
    else
      var mismatch := Mismatch(seen.value, p);
      Step(m, if mismatch.Some? then Failure(mismatch.value) else Success(seen.value))
  }

  function MarkPaymentAttempted(l: Ledger, id: string, now: int): Ledger {
    if !HasXvp(l, id) || l.drafts.entries[id].supplementaryData.paymentAttempted then l
    else
      var data := l.drafts.entries[id].supplementaryData.(paymentAttempted := true);
      l.UpdateDraft(id, NoUpdate.(supplementaryData := Some(data)), now)
  }

  function SettlementOf(rec: XvpRecord, p: PaymentParams, now: int): Transaction {
    Transaction(
      Dcw.OrElse(rec.terms.paymentId, "TX-" + rec.id), XVP, rec.amount, rec.currency,
      rec.sellerWalletAlias, p.buyerWalletAlias, now, now, Text(rec.id), "")
  }

  /** `pay` after its `await`, on the record it was admitted on. */
  function Settle(l: Ledger, rec: XvpRecord, p: PaymentParams, now: int): Step<PaymentResult> {
    var marked := MarkPaymentAttempted(l, rec.id, now);
    var missing := CreditWalletMissing(marked, rec.sellerWalletAlias);
    if missing.Some? then Step(marked, Failure(missing.value))
    else
      var moved := Move(marked, p.buyerWalletAlias, rec.sellerWalletAlias, rec.amount, p.caller, now);
      if moved.result.Failure? then Step(moved.ledger, Failure(moved.result.error))
      else
        var update := NoUpdate.(status := Some(SETTLED), debitedWalletAlias := Some(p.buyerWalletAlias));
        Step(moved.ledger.UpdateDraft(rec.id, update, now).AddTransaction(SettlementOf(rec, p, now)),
             Success(PaymentResult(rec.terms.executionKey, rec.terms.cancellationKey, rec.terms.paymentId)))
  }

  /** A payment as one atomic step: admitted on one clock reading, settled on another. */
  function Pay(l: Ledger, id: string, p: PaymentParams, admitted: int, settled: int): Step<PaymentResult> {
    var admission := Admit(l, id, p, admitted);
    match admission.result
    case Failure(e) => Step(admission.ledger, Failure(e))
    case Success(rec) => Settle(admission.ledger, rec, p, settled)
  }

  // ----- what the routes report and disclose -----

  datatype KeyType = EXECUTION | CANCELLATION

  datatype Report = ReportSettled | ReportPending | ReportUnsettled | ReportBurned

  function ReportOf(rec: XvpRecord): Report {
    if rec.status == SETTLED then ReportSettled
    else if rec.status == INITIALIZED then ReportPending
    else if rec.paymentAttempted then ReportUnsettled
    else ReportBurned
  }

  /** GET payment: the key the caller asked for, when the reported status allows it. */
  function DisclosedKey(rec: XvpRecord, requested: KeyType): Option<string> {
    var report := ReportOf(rec);
    if report == ReportSettled && requested != CANCELLATION then Some(rec.terms.executionKey)
    else if (report == ReportUnsettled || report == ReportBurned) && requested != EXECUTION then
      Some(rec.terms.cancellationKey)
    else None
  }
}
