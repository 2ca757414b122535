/**
 * What the XvP operations answer, told from what was registered, what is offered, the wallets and the
 * rights on them: when a payment is admitted and settles, which refusal comes first, and which key is
 * given out to whom.
 */
module XvpAnswers {
  import opened Wrappers
  import opened Money
  import opened OrderedMaps
  import opened Domain
  import opened Ids
  import opened Ledgers
  import opened Settlements
  import opened Xvps
  import opened Histories
  import opened Accounts
  import opened Lifecycle
  import opened XvpRuns
  import opened XvpTheorems
  import opened XvpPayments
  import opened Answers
  import L = XvpLocks

  // ----- paying -----

  /** The XvP is open, and not past its deadline. */
  predicate InTime(d: Draft, now: int) {
    d.status == INITIALIZED && (d.expiresAt.Some? ==> now <= d.expiresAt.value)
  }

  /** The payment offers what was agreed, and names nobody else as a party. */
  predicate OffersWhatWasAgreed(d: Draft, p: PaymentParams)
    requires IsXvp(d)
  {
    && p.amount == d.amount && p.currency == d.currency
    && SameParty(d.supplementaryData.terms.buyerBic, p.buyerBic)
    && SameParty(d.supplementaryData.terms.sellerBic, p.sellerBic)
  }

  /** The refusal of a payment that was admitted: the seller's wallet first, then the debit, then the credit. */
  function SettleAnswer(l: Ledger, d: Draft, p: PaymentParams, now: int): Option<Rejection> {
    if Missing(l, d.creditedWalletAlias) then Some(Rejection(422, "HL-WAL-003"))
    else if DebitAnswer(l, p.buyerWalletAlias, d.amount, p.caller, now).Some? then
      DebitAnswer(l, p.buyerWalletAlias, d.amount, p.caller, now)
    else CreditAnswer(l, d.creditedWalletAlias, d.amount)
  }

  function PaymentAnswer(l: Ledger, id: string, p: PaymentParams, admitted: int, settled: int): Option<Rejection> {
    if !HasXvp(l, id) then Some(Rejection(404, "HL-XVP-002"))
    else
      var d := l.drafts.entries[id];
      if !InTime(d, admitted) then Some(Rejection(409, "HL-XVP-003"))
      else if !OffersWhatWasAgreed(d, p) then Some(Rejection(400, "HL-XVP-006"))
      else SettleAnswer(l, d, p, settled)
  }

  lemma MarkingIsAboutDrafts(l: Ledger, id: string, now: int)
    ensures MarkPaymentAttempted(l, id, now) == l.(drafts := MarkPaymentAttempted(l, id, now).drafts)
    ensures l.WellFormed() ==> MarkPaymentAttempted(l, id, now).WellFormed()
  {
    if l.WellFormed() && HasXvp(l, id) {
      var data := l.drafts.entries[id].supplementaryData.(paymentAttempted := true);
      UpdateDraftKeepsWellFormed(l, id, NoUpdate.(supplementaryData := Some(data)), now);
    }
  }

  lemma DebitIsAboutWallets(l: Ledger, m: Ledger, alias: string, amount: string, caller: Caller, now: int)
    requires m == l.(drafts := m.drafts)
    ensures DebitAnswer(m, alias, amount, caller, now) == DebitAnswer(l, alias, amount, caller, now)
    ensures CreditAnswer(m, alias, amount) == CreditAnswer(l, alias, amount)
  {
  }

  lemma SettlingIsAnswered(l: Ledger, d: Draft, p: PaymentParams, now: int)
    requires l.WellFormed() && IsXvp(d)
    ensures AnswersWith(Settle(l, Shape(d), p, now).result, SettleAnswer(l, d, p, now))
  {
    hide Move, MarkPaymentAttempted, DebitAnswer, CreditAnswer;
    var marked := MarkPaymentAttempted(l, d.id, now);
    MarkingIsAboutDrafts(l, d.id, now);
    MoveIsAnswered(marked, p.buyerWalletAlias, d.creditedWalletAlias, d.amount, p.caller, now);
    DebitIsAboutWallets(l, marked, p.buyerWalletAlias, d.amount, p.caller, now);
    DebitIsAboutWallets(l, marked, d.creditedWalletAlias, d.amount, p.caller, now);
  }

  lemma AdmissionIsAnswered(l: Ledger, id: string, p: PaymentParams, now: int)
    ensures AnswersWith(Admit(l, id, p, now).result,
                    if HasXvp(l, id) && InTime(l.drafts.entries[id], now)
                       && OffersWhatWasAgreed(l.drafts.entries[id], p) then None
                    else PaymentAnswer(l, id, p, now, now))
  {
    hide SettleAnswer;
  }

  /** A payment answers so, whatever is stored and whoever pays. */
  lemma PaymentIsAnswered(l: Ledger, id: string, p: PaymentParams, admitted: int, settled: int)
    requires l.WellFormed()
    ensures AnswersWith(Pay(l, id, p, admitted, settled).result, PaymentAnswer(l, id, p, admitted, settled))
  {
    hide Admit, Settle, SettleAnswer;
    AdmissionIsAnswered(l, id, p, admitted);
    AdmittedExactlyAsAgreed(l, id, p, admitted);
    if Admit(l, id, p, admitted).result.Success? {
      SettlingIsAnswered(l, l.drafts.entries[id], p, settled);
    }
  }

  /**
   * A payment settles if and only if the XvP is open and in time, what is offered is what was agreed, the
   * payment's caller may pay the amount from the wallet it names, and the seller's wallet is there.
   */
  lemma PaysXvpExactly(l: Ledger, id: string, p: PaymentParams, admitted: int, settled: int)
    requires l.WellFormed()
    ensures Pay(l, id, p, admitted, settled).result.Success? <==>
      && HasXvp(l, id)
      && var d := l.drafts.entries[id];
      && InTime(d, admitted) && OffersWhatWasAgreed(d, p)
      && MayPay(l, p.buyerWalletAlias, d.amount, p.caller, settled) && l.HasWallet(d.creditedWalletAlias)
  {
    hide Pay, DebitAnswer, InTime, OffersWhatWasAgreed, MayPay;
    PaymentIsAnswered(l, id, p, admitted, settled);
    if HasXvp(l, id) {
      SettlesExactlyWhenPaid(l, l.drafts.entries[id], p, settled);
    }
  }

  lemma SettlesExactlyWhenPaid(l: Ledger, d: Draft, p: PaymentParams, now: int)
    ensures SettleAnswer(l, d, p, now).None? <==>
      MayPay(l, p.buyerWalletAlias, d.amount, p.caller, now) && l.HasWallet(d.creditedWalletAlias)
  {
    hide ParseAmount, MayDebit;
  }

  // ----- registering -----

  /** An hour, unless another number of seconds is given. */
  function Deadline(p: XvpInitParams, now: int): int {
    now + (match p.timeoutSec case Some(sec) => sec * 1000 case None => 3_600_000)
  }

  predicate TypeIsKnown(p: XvpInitParams) {
    p.transactionType in {"DVP", "PVP"}
  }

  /** An init is refused, changing nothing, exactly for an unknown type; else the XvP is stored under its id. */
  lemma RegistersExactly(l: Ledger, p: XvpInitParams, s: Secrets, hash: string -> string, now: int)
    ensures var r := Init(l, p, s, hash, now);
      && AnswersWith(r.result, if TypeIsKnown(p) then None else Some(Rejection(400, "HL-XVP-001")))
      && (r.result.Failure? ==> r.ledger == l)
      && (r.result.Success? ==>
            && r.ledger == l.AddDraft(r.result.value) && r.result.value.id == p.xvpTransactionId
            && HasXvp(r.ledger, p.xvpTransactionId))
  {
  }

  /**
   * After an init a payment is admitted if and only if it comes by the deadline and offers the amount and
   * currency of the init, and the parties it names are those of the init.
   */
  lemma AdmittedAfterInit(l: Ledger, p: XvpInitParams, s: Secrets, hash: string -> string, now: int, q: PaymentParams,
        at: int)
    requires TypeIsKnown(p)
    ensures Admit(Init(l, p, s, hash, now).ledger, p.xvpTransactionId, q, at).result.Success? <==>
      && at <= Deadline(p, now)
      && q.amount == p.amount && q.currency == p.currency
      && SameParty(p.buyerBic, q.buyerBic) && SameParty(p.sellerBic, q.sellerBic)
  {
    hide Admit, SameParty;
    AdmittedExactlyAsAgreed(Init(l, p, s, hash, now).ledger, p.xvpTransactionId, q, at);
  }

  /** And it settles if and only if, besides, its caller may pay and the wallet the init named is there. */
  lemma PaidAfterInit(l: Ledger, p: XvpInitParams, s: Secrets, hash: string -> string, now: int, q: PaymentParams,
        admitted: int, settled: int)
    requires l.WellFormed() && TypeIsKnown(p)
    ensures Pay(Init(l, p, s, hash, now).ledger, p.xvpTransactionId, q, admitted, settled).result.Success? <==>
      && admitted <= Deadline(p, now)
      && q.amount == p.amount && q.currency == p.currency
      && SameParty(p.buyerBic, q.buyerBic) && SameParty(p.sellerBic, q.sellerBic)
      && MayPay(l, q.buyerWalletAlias, p.amount, q.caller, settled) && l.HasWallet(p.sellerWalletAlias)
  {
    hide Pay, SameParty, MayDebit, ParseAmount;
    var m := Init(l, p, s, hash, now).ledger;
    AddDraftKeepsWellFormed(l, InitDraft(p, s, hash, now));
    PaysXvpExactly(m, p.xvpTransactionId, q, admitted, settled);
  }

  // ----- the keys -----

  /** What an observer is told of an XvP: its report, and the key that goes with it, if any. */
  predicate Tells(seen: Option<XvpRecord>, report: Report, execution: Option<string>, cancellation: Option<string>) {
    && seen.Some? && ReportOf(seen.value) == report
    && DisclosedKey(seen.value, EXECUTION) == execution && DisclosedKey(seen.value, CANCELLATION) == cancellation
  }

  /** The record publishes the hashes of the two secrets. */
  predicate Publishes(seen: Option<XvpRecord>, s: Secrets, hash: string -> string) {
    && seen.Some? && seen.value.terms.executionHash == hash(s.executionKey)
    && seen.value.terms.cancellationHash == hash(s.cancellationKey)
  }

  /** Unpaid, an XvP is pending to its deadline and burned after it: then the cancellation key is out. */
  lemma UnpaidIsBurned(l: Ledger, p: XvpInitParams, s: Secrets, hash: string -> string, now: int, at: int)
    requires TypeIsKnown(p)
    ensures var (_, seen) := Observe(Init(l, p, s, hash, now).ledger, p.xvpTransactionId, at);
      && Publishes(seen, s, hash)
      && if at <= Deadline(p, now) then Tells(seen, ReportPending, None, None)
         else Tells(seen, ReportBurned, None, Some(s.cancellationKey))
  {
  }

  /** The log entry of the cash leg of an XvP as it was registered. */
  predicate CashEntry(tx: Transaction, p: XvpInitParams, s: Secrets, q: PaymentParams, now: int) {
    && tx.kind == XVP && tx.amount == p.amount && tx.currency == p.currency
    && tx.creditedWalletAlias == p.sellerWalletAlias && tx.debitedWalletAlias == q.buyerWalletAlias
    && tx.createdAt == tx.settledAt == now && tx.supplementaryData == Text(p.xvpTransactionId)
    && (s.paymentId != "" ==> tx.id == s.paymentId)
  }

  /**
   * Registered and then paid: the payer gets the secrets of that init, the log gets the cash leg, and from
   * then on, whatever the clock says, the XvP is settled and the execution key alone is out.
   */
  lemma PaidGetsTheKey(l: Ledger, p: XvpInitParams, s: Secrets, hash: string -> string, now: int, q: PaymentParams,
        admitted: int, settled: int, at: int)
    requires l.WellFormed() && Filed(l) && TypeIsKnown(p)
    requires p.sellerWalletAlias != "" && !MintedShape(p.xvpTransactionId) && !PfodShape(p.xvpTransactionId)
    requires Pay(Init(l, p, s, hash, now).ledger, p.xvpTransactionId, q, admitted, settled).result.Success?
    ensures var r := Pay(Init(l, p, s, hash, now).ledger, p.xvpTransactionId, q, admitted, settled);
      && r.result == Success(PaymentResult(s.executionKey, s.cancellationKey, s.paymentId))
      && |r.ledger.log| == |l.log| + 1 && CashEntry(r.ledger.log[|l.log|], p, s, q, settled)
      && var (_, seen) := Observe(r.ledger, p.xvpTransactionId, at);
      && Publishes(seen, s, hash) && Tells(seen, ReportSettled, Some(s.executionKey), None)
  {
    hide Settle, Admit, Posts, FiledUnder, Filed;
    var m := Init(l, p, s, hash, now).ledger;
    InitAccounts(l, p, s, hash, now);
    AdmittedExactlyAsAgreed(m, p.xvpTransactionId, q, admitted);
    var rec := Shape(m.drafts.entries[p.xvpTransactionId]);
    SettleSettles(m, rec, q, settled);
    SettlingReturns(m, rec, q, settled);
  }

  lemma SettlingReturns(l: Ledger, rec: XvpRecord, p: PaymentParams, now: int)
    ensures var r := Settle(l, rec, p, now).result;
      r.Success? ==> r.value == PaymentResult(rec.terms.executionKey, rec.terms.cancellationKey, rec.terms.paymentId)
  {
    hide Move, MarkPaymentAttempted;
  }

  // ----- over interleavings -----

  /** Call `n` asked for that key of XvP `id` and was told of its record. */
  predicate Asked(w: World, n: nat, id: string, requested: KeyType) {
    && n < |w.calls| && n < |w.lock.tickets| && w.lock.tickets[n].id == id
    && w.calls[n].call == GetPayment(requested)
    && w.calls[n].outcome.Some? && w.calls[n].outcome.value.Found? && w.calls[n].outcome.value.record.Some?
  }

  /** Who asks for the execution key gets it, and gets the committed one, exactly if told the XvP is settled. */
  lemma ExecutionKeyExactly(w: World, n: nat, id: string, key: string)
    requires WorldInv(w) && Asked(w, n, id, EXECUTION)
    ensures HasXvp(w.h.ledger, id) && id in w.h.commitments
    ensures RevealsExecution(w, n, id, key) <==>
      w.calls[n].outcome.value.record.value.status == SETTLED && key == w.h.commitments[id].terms.executionKey
  {
    hide Sound, L.LockInv;
    assert CallSound(w.h.ledger, w.lock.tickets[n], w.calls[n]);
    KindIsXvp(w, id);
    assert KeepsTerms(w.h, id);
  }

  /** And the cancellation key exactly if told that it has expired. */
  lemma CancellationKeyExactly(w: World, n: nat, id: string, key: string)
    requires WorldInv(w) && Asked(w, n, id, CANCELLATION)
    ensures HasXvp(w.h.ledger, id) && id in w.h.commitments
    ensures RevealsCancellation(w, n, id, key) <==>
      w.calls[n].outcome.value.record.value.status == EXPIRED && key == w.h.commitments[id].terms.cancellationKey
  {
    hide Sound, L.LockInv;
    assert CallSound(w.h.ledger, w.lock.tickets[n], w.calls[n]);
    KindIsXvp(w, id);
    assert KeepsTerms(w.h, id);
  }

  lemma KindIsXvp(w: World, id: string)
    ensures HasXvp(w.h.ledger, id) ==> w.h.ledger.HasDraft(id) && w.h.ledger.drafts.entries[id].kind == XVP
  {
  }

  /** Event `e` is the settlement of call `n`, and its payer may pay at that moment. */
  predicate PaysByRight(w: World, e: Event, n: nat) {
    && e.Resume? && e.n == n && n < |w.calls| && w.calls[n].call.PostPayment? && w.calls[n].admission.Some?
    && var p := w.calls[n].call.payment;
    && MayPay(w.h.ledger, p.buyerWalletAlias, p.amount, p.caller, e.now)
    && w.h.ledger.HasWallet(w.calls[n].admission.value.record.sellerWalletAlias)
  }

  lemma SuspendedIsAsStored(w: World, n: nat, now: int)
    requires WorldInv(w) && Possible(w, Resume(n, now))
    ensures w.h.ledger.WellFormed()
    ensures var rec, p := w.calls[n].admission.value.record, w.calls[n].call.payment;
      && HasXvp(w.h.ledger, rec.id) && rec == Shape(w.h.ledger.drafts.entries[rec.id]) && p.amount == rec.amount
  {
    hide L.LockInv, Committed, Filed, Traced, AllSound;
    assert CallSound(w.h.ledger, w.lock.tickets[n], w.calls[n]);
  }

  lemma PaidNowByRight(w: World, e: Event, n: nat, id: string)
    requires WorldInv(w) && Possible(w, e) && PaidBy(Happen(w, e), n, id) && !PaidBy(w, n, id)
    ensures PaysByRight(w, e, n)
  {
    hide Settle, Happen, Possible, WorldInv, MayPay;
    PaidByPayment(w, e, n, id);
    SuspendedIsAsStored(w, n, e.now);
    var rec, p := w.calls[n].admission.value.record, w.calls[n].call.payment;
    var d := w.h.ledger.drafts.entries[rec.id];
    SettlingIsAnswered(w.h.ledger, d, p, e.now);
    SettlesExactlyWhenPaid(w.h.ledger, d, p, e.now);
  }

  /**
   * Whatever the scheduler does, a call that was answered with a payment came from a caller who might debit
   * the wallet it named, of the whole amount, at the moment its settlement ran.
   */
  lemma {:induction false} EveryPayerHadTheRight(ws: seq<World>, events: seq<Event>, i: nat, n: nat, id: string)
    requires IsWorldRun(ws, events) && i < |ws| && PaidBy(ws[i], n, id)
    ensures exists j :: 0 <= j < i && PaysByRight(ws[j], events[j], n) && ws[j].calls[n].call == ws[i].calls[n].call
  {
    hide Happen, Possible, WorldInv, PaysByRight, AnswersStand;
    NobodyCallsFirst(ws, events, n, id);
    if i == 0 {
    } else {
      EveryWorldIsSound(ws, events, i - 1);
      HappenKeepsAnswers(ws[i - 1], events[i - 1]);
      if PaidBy(ws[i - 1], n, id) {
        EveryPayerHadTheRight(ws, events, i - 1, n, id);
        CallStays(ws[i - 1], ws[i], n);
      } else {
        PaidNowByRight(ws[i - 1], events[i - 1], n, id);
        RightsAreOfACall(ws[i - 1], events[i - 1], n);
        CallStays(ws[i - 1], ws[i], n);
      }
    }
  }

  lemma NobodyCallsFirst(ws: seq<World>, events: seq<Event>, n: nat, id: string)
    requires IsWorldRun(ws, events)
    ensures !PaidBy(ws[0], n, id)
  {
  }

  lemma CallStays(w: World, v: World, n: nat)
    requires AnswersStand(w, v) && n < |w.calls|
    ensures n < |v.calls| && v.calls[n].call == w.calls[n].call
  {
  }

  lemma RightsAreOfACall(w: World, e: Event, n: nat)
    requires PaysByRight(w, e, n)
    ensures n < |w.calls|
  {
  }
}
