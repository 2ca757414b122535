/**
 * The XvP workflow class as it runs, segment by segment. The bodies of `get` and `pay` run under
 * the lock; `pay` is split at its one `await` into admission and settlement.
 */
module XvpWorkflows {
  import opened Wrappers
  import opened OrderedMaps
  import opened Domain
  import opened Ledgers
  import opened Settlements
  import opened Xvps
  import opened MemoryStores
  import opened LedgerWorkflows
  import Dcw

  class XvpWorkflow {
    /** The inherited helpers of the workflow base class, and the store. */
    const base: LedgerWorkflow

    constructor (base: LedgerWorkflow)
      ensures this.base == base
    {
      this.base := base;
    }

    method InitXvp(p: XvpInitParams, s: Secrets, hash: string -> string, now: int) returns (r: Result<Draft, Rejection>)
      requires base.store.Valid()
      modifies base.store`drafts, base.store.cache
      ensures base.store.Valid() && Step(base.store.State(), r) == Init(old(base.store.State()), p, s, hash, now)
      ensures old(base.store.Synced()) ==> base.store.Synced()
    {
      if p.transactionType != "DVP" && p.transactionType != "PVP" { return Failure(Rejection(400, "HL-XVP-001")); }
      var d := InitDraft(p, s, hash, now);
      base.store.AddDraft(d);
      r := Success(d);
    }

    /** First observation of an overdue record: persist the expiry. */
    method MaybeExpireDraft(d: Draft, now: int) returns (seen: Draft)
      requires base.store.Valid()
      modifies base.store`drafts, base.store.cache
      ensures base.store.Valid() && (base.store.State(), seen) == MaybeExpire(old(base.store.State()), d, now)
      ensures old(base.store.Synced()) ==> base.store.Synced()
    {
      if d.status != INITIALIZED { return d; }
      if d.expiresAt.None? || d.expiresAt.value >= now { return d; }
      base.store.UpdateDraft(d.id, NoUpdate.(status := Some(EXPIRED)), now);
      seen := d.(status := EXPIRED);
    }

    /** The body of `get`. */
    method GetBody(id: string, now: int) returns (r: Option<XvpRecord>)
      requires base.store.Valid()
      modifies base.store`drafts, base.store.cache
      ensures base.store.Valid() && (base.store.State(), r) == Observe(old(base.store.State()), id, now)
      ensures old(base.store.Synced()) ==> base.store.Synced()
    {
      var d := base.store.GetDraft(id);
      if d.None? || !IsXvp(d.value) { return None; }
      var seen := MaybeExpireDraft(d.value, now);
      r := Some(Shape(seen));
    }

    /** `pay` up to its `await`. */
    method AdmitPayment(id: string, p: PaymentParams, now: int) returns (r: Result<XvpRecord, Rejection>)
      requires base.store.Valid()
      modifies base.store`drafts, base.store.cache
      ensures base.store.Valid() && Step(base.store.State(), r) == Admit(old(base.store.State()), id, p, now)
      ensures old(base.store.Synced()) ==> base.store.Synced()
    {
      var d := base.store.GetDraft(id);
      if d.None? || !IsXvp(d.value) { return Failure(Rejection(404, "HL-XVP-002")); }
      var seen := MaybeExpireDraft(d.value, now);
      var rec := Shape(seen);
      if rec.status != INITIALIZED { return Failure(Rejection(409, "HL-XVP-003")); }
      if rec.terms.buyerBic != "" && p.buyerBic != "" && p.buyerBic != rec.terms.buyerBic {
        return Failure(Rejection(400, "HL-XVP-006"));
      }
      if rec.terms.sellerBic != "" && p.sellerBic != "" && p.sellerBic != rec.terms.sellerBic {
        return Failure(Rejection(400, "HL-XVP-006"));
      }
      if p.amount != rec.amount { return Failure(Rejection(400, "HL-XVP-006")); }
      if p.currency != rec.currency { return Failure(Rejection(400, "HL-XVP-006")); }
      r := Success(rec);
    }

    /** `pay` after its `await`: flag, guard, debit, credit, then the record and the log. */
    method SettlePayment(rec: XvpRecord, p: PaymentParams, now: int) returns (r: Result<PaymentResult, Rejection>)
      requires base.store.Valid()
      modifies base.store`wallets, base.store`drafts, base.store`transactions, base.store.cache
      ensures base.store.Valid() && Step(base.store.State(), r) == Settle(old(base.store.State()), rec, p, now)
      ensures old(base.store.Synced()) ==> base.store.Synced()
    {
      MarkAttempted(rec.id, now);
      var missing := base.RequireCreditWallet(rec.sellerWalletAlias);
      if missing.Some? { return Failure(missing.value); }
      var debited := base.CheckedDebitWallet(p.buyerWalletAlias, rec.amount, p.caller, now);
      if debited.Failure? { return Failure(debited.error); }
      var credited := base.RawCreditWallet(rec.sellerWalletAlias, rec.amount);
      if credited.Failure? { return Failure(credited.error); }
      var update := NoUpdate.(status := Some(SETTLED), debitedWalletAlias := Some(p.buyerWalletAlias));
      base.store.UpdateDraft(rec.id, update, now);
      base.store.AddTransaction(SettlementOf(rec, p, now));
      r := Success(PaymentResult(rec.terms.executionKey, rec.terms.cancellationKey, rec.terms.paymentId));
    }

    method MarkAttempted(id: string, now: int)
      requires base.store.Valid()
      modifies base.store`drafts, base.store.cache
      ensures base.store.Valid() && base.store.State() == MarkPaymentAttempted(old(base.store.State()), id, now)
      ensures old(base.store.Synced()) ==> base.store.Synced()
    {
      var d := base.store.GetDraft(id);
      if d.None? || !IsXvp(d.value) { return; }
      if d.value.supplementaryData.paymentAttempted { return; }
      var data := d.value.supplementaryData.(paymentAttempted := true);
      base.store.UpdateDraft(id, NoUpdate.(supplementaryData := Some(data)), now);
    }
  }
}
