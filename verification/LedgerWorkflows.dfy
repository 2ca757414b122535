/**
 * The workflow base class and its subclasses as they run: guards that throw, effects on the store
 * one after the other. Every method is proved to leave the store and give the answer that
 * Settlements describes, and never to put the cache out of step.
 */
module LedgerWorkflows {
  import opened Wrappers
  import opened OrderedMaps
  import opened Domain
  import opened Ledgers
  import opened Settlements
  import opened MemoryStores
  import Dcw

  lemma RawCreditCases(l: Ledger, alias: string, amount: string)
    ensures !l.HasWallet(alias) ==> RawCredit(l, alias, amount) == Step(l, Failure(Rejection(422, "HL-WAL-003")))
    ensures l.HasWallet(alias) && Dcw.PositiveAmount(amount).Failure? ==>
      RawCredit(l, alias, amount) == Step(l, Failure(MapDcwError(Dcw.PositiveAmount(amount).error)))
    ensures l.HasWallet(alias) && Dcw.PositiveAmount(amount).Success? ==>
      var w := l.wallets.entries[alias];
      var credited := w.(balance := w.balance + Dcw.PositiveAmount(amount).value);
      RawCredit(l, alias, amount) == Step(l.UpsertWallet(credited), Success(()))
  {
    hide MapDcwError, Dcw.PositiveAmount;
  }

  /** `kind` stands for the subclass: it answers its hooks. */
  class LedgerWorkflow {
    const store: MemoryStore
    const kind: Workflow

    constructor (store: MemoryStore, kind: Workflow)
      ensures this.store == store && this.kind == kind
    {
      this.store, this.kind := store, kind;
    }

    // ----- subclass hooks -----

    /** `conditions`: refuses a transition by throwing. */
    method CheckConditions(phase: Phase, record: Draft, caller: Caller, now: int) returns (thrown: Option<Rejection>)
      ensures thrown == Conditions(store.State(), kind, phase, record, caller, now)
    {
      if phase != CreatePhase { return None; }
      match kind
      case Funding =>
        var denial := store.CanDebit(record.creditedWalletAlias, caller, now);
        if denial.Some? { return Some(RejectionFor(denial.value)); }
        thrown := None;
      case Transfer =>
        thrown := CheckManagers(record);
      case _ =>
        thrown := None;
    }

    method CheckManagers(record: Draft) returns (thrown: Option<Rejection>)
      ensures thrown == TransferConditions(store.State(), record)
    {
      var debited := store.GetWallet(record.debitedWalletAlias);
      var credited := store.GetWallet(record.creditedWalletAlias);
      if debited.Some? && record.debitedCashWalletManagerID != ""
         && record.debitedCashWalletManagerID != debited.value.managerNCB {
        return Some(Rejection(400, "HL-WAL-004"));
      }
      if credited.Some? && record.creditedCashWalletManagerID != ""
         && record.creditedCashWalletManagerID != credited.value.managerNCB {
        return Some(Rejection(400, "HL-WAL-005"));
      }
      if debited.Some? && credited.Some? && record.cbdcRequestType != "" {
        var sameManager := debited.value.managerNCB == credited.value.managerNCB;
        if record.cbdcRequestType == "OPERATION" && !sameManager { return Some(Rejection(400, "HL-WAL-006")); }
        if record.cbdcRequestType == "PAYMENT" && sameManager { return Some(Rejection(400, "HL-WAL-006")); }
      }
      thrown := None;
    }

    /** `apply`: the wallet effect of a settlement. */
    method Apply(record: Draft, caller: Caller, now: int) returns (r: Result<(), Rejection>)
      requires store.Valid()
      modifies store`wallets, store.cache
      ensures store.Valid() && Step(store.State(), r) == Effect(old(store.State()), kind, record, caller, now)
      ensures old(store.Synced()) ==> store.Synced()
    {
      match kind
      case Funding =>
        r := RawCreditWallet(record.creditedWalletAlias, record.amount);
      case Defunding =>
        r := CheckedDebitWallet(record.debitedWalletAlias, record.amount, caller, now);
      case _ =>
        r := CheckedDebitWallet(record.debitedWalletAlias, record.amount, caller, now);
        if r.Success? { r := RawCreditWallet(record.creditedWalletAlias, record.amount); }
    }

    // ----- lifecycle -----

    method CreateDraft(init: WorkflowInit, actor: Actor, now: int) returns (r: Result<Draft, Rejection>)
      requires store.Valid()
      modifies store`drafts, store.cache
      ensures store.Valid() && Step(store.State(), r) == Create(old(store.State()), kind, init, actor, now)
      ensures old(store.Synced()) ==> store.Synced()
    {
      var record := BuildRecord(kind, init, PENDING_APPROVAL, now);
      var thrown := CheckTransition(CreatePhase, record, actor.caller, now);
      if thrown.Some? { return Failure(thrown.value); }
      store.AddDraft(record);
      r := Success(record);
    }

    method ApproveDraft(id: string, actor: Actor, random: string, now: int) returns (r: Result<Draft, Rejection>)
      requires store.Valid()
      modifies store`wallets, store`drafts, store`transactions, store.cache
      ensures store.Valid() && Step(store.State(), r) == Approve(old(store.State()), kind, id, actor, random, now)
      ensures old(store.Synced()) ==> store.Synced()
    {
      var loaded := LoadPendingDraft(id);
      if loaded.Failure? { return loaded; }
      var record := loaded.value;
      if actor.approverUserUUID == "" { return Failure(Rejection(403, "HL-GER-003")); }
      if record.initiatorUserUUID == "" { return Failure(Rejection(403, "HL-GER-003")); }
      if actor.approverUserUUID == record.initiatorUserUUID { return Failure(Rejection(403, "HL-GER-003")); }
      var thrown := CheckTransition(ApprovePhase, record, actor.caller, now);
      if thrown.Some? { return Failure(thrown.value); }
      var applied := Apply(record, actor.caller, now);
      if applied.Failure? { return Failure(applied.error); }
      var trail := AppendToTrail(record, SETTLED, now);
      var approver := (actor.approverUserUUID, actor.approverUserName);
      store.UpdateDraft(id, DraftUpdate(Some(SETTLED), None, Some(approver), None, trail), now);
      RecordTransaction(record, random, now);
      r := Success(store.drafts.Get(id));
    }

    method CancelDraft(id: string, now: int) returns (r: Result<Draft, Rejection>)
      requires store.Valid()
      modifies store`drafts, store.cache
      ensures store.Valid() && Step(store.State(), r) == Cancel(old(store.State()), kind, id, now)
      ensures old(store.Synced()) ==> store.Synced()
    {
      var loaded := LoadPendingDraft(id);
      if loaded.Failure? { return loaded; }
      // No subclass has a condition on cancelling, so this never throws.
      var thrown := CheckConditions(CancelPhase, loaded.value, Anonymous, now);
      assert thrown.None?;
      var trail := AppendToTrail(loaded.value, CANCELED, now);
      store.UpdateDraft(id, DraftUpdate(Some(CANCELED), None, None, None, trail), now);
      r := Success(store.drafts.Get(id));
    }

    method ExecuteNow(init: WorkflowInit, actor: Actor, random: string, now: int) returns (r: Result<Draft, Rejection>)
      requires store.Valid()
      modifies store`wallets, store`transactions, store.cache
      ensures store.Valid() && Step(store.State(), r) == Execute(old(store.State()), kind, init, actor, random, now)
      ensures old(store.Synced()) ==> store.Synced()
    {
      var record := BuildRecord(kind, init, SETTLED, now);
      var thrown := CheckTransition(CreatePhase, record, actor.caller, now);
      if thrown.Some? { return Failure(thrown.value); }
      var applied := Apply(record, actor.caller, now);
      if applied.Failure? { return Failure(applied.error); }
      RecordTransaction(record, random, now);
      r := Success(record);
    }

    // ----- helpers -----

    /** The conditions and then both existence guards; the first to throw wins. */
    method CheckTransition(phase: Phase, record: Draft, caller: Caller, now: int) returns (thrown: Option<Rejection>)
      ensures thrown == Refusal(store.State(), kind, phase, record, caller, now)
    {
      thrown := CheckConditions(phase, record, caller, now);
      if thrown.Some? { return; }
      thrown := AssertDebitWalletExists(record);
      if thrown.Some? { return; }
      thrown := AssertCreditWalletExists(record);
    }

    method AppendToTrail(record: Draft, status: Status, now: int)
        returns (trail: Option<(seq<Status>, map<Status, Stamp>)>)
      ensures trail == LifecycleAppend(store.State(), record, status, now)
    {
      if record.historicStatus.None? { return None; }
      var stamp := Stamp(now, store.businessWindow.businessDate);
      trail := Some((record.historicStatus.value + [status], record.timestamps[status := stamp]));
    }

    method LoadPendingDraft(id: string) returns (r: Result<Draft, Rejection>)
      ensures r == LoadPending(store.State(), kind, id)
    {
      var record := store.GetDraft(id);
      if record.None? || record.value.kind != kind.Kind() { return Failure(Rejection(404, "HL-GER-001")); }
      if record.value.status != PENDING_APPROVAL { return Failure(Rejection(409, "HL-GER-002")); }
      r := Success(record.value);
    }

    method AssertDebitWalletExists(record: Draft) returns (thrown: Option<Rejection>)
      ensures thrown == DebitWalletMissing(store.State(), kind, record)
    {
      if !kind.DebitsSource() { return None; }
      var alias := record.debitedWalletAlias;
      var w := store.GetWallet(alias);
      thrown := if alias != "" && w.None? then Some(Rejection(422, "HL-WAL-002")) else None;
    }

    method AssertCreditWalletExists(record: Draft) returns (thrown: Option<Rejection>)
      ensures thrown ==
        if kind.CreditsExistingWallet() then CreditWalletMissing(store.State(), record.creditedWalletAlias) else None
    {
      if !kind.CreditsExistingWallet() { return None; }
      thrown := RequireCreditWallet(record.creditedWalletAlias);
    }

    method RequireCreditWallet(alias: string) returns (thrown: Option<Rejection>)
      ensures thrown == CreditWalletMissing(store.State(), alias)
    {
      var w := store.GetWallet(alias);
      thrown := if alias != "" && w.None? then Some(Rejection(422, "HL-WAL-003")) else None;
    }

    method RecordTransaction(record: Draft, random: string, now: int)
      requires store.Valid()
      modifies store`transactions, store.cache
      ensures store.Valid()
      ensures store.State() == old(store.State()).AddTransaction(TransactionOf(kind, record, random, now))
      ensures old(store.Synced()) ==> store.Synced()
    {
      store.AddTransaction(Transaction(
        kind.TransactionId(record, random), kind.Kind(), record.amount, record.currency,
        record.creditedWalletAlias, record.debitedWalletAlias,
        record.createdAt, now, record.supplementaryData, record.passThrough));
    }

    /** Credit without asking for rights; a missing wallet throws. */
    method RawCreditWallet(alias: string, amount: string) returns (r: Result<(), Rejection>)
      requires store.Valid()
      modifies store`wallets, store.cache
      ensures store.Valid() && Step(store.State(), r) == RawCredit(old(store.State()), alias, amount)
      ensures old(store.Synced()) ==> store.Synced()
    {
      hide RawCredit, MapDcwError, Dcw.PositiveAmount;
      RawCreditCases(store.State(), alias, amount);
      var w := store.GetWallet(alias);
      if w.None? { return Failure(Rejection(422, "HL-WAL-003")); }
      var a := Dcw.PositiveAmount(amount);
      if a.Failure? { return Failure(MapDcwError(a.error)); }
      store.UpsertWallet(w.value.(balance := w.value.balance + a.value));
      r := Success(());
    }

    method CheckedDebitWallet(alias: string, amount: string, caller: Caller, now: int)
        returns (r: Result<(), Rejection>)
      requires store.Valid()
      modifies store`wallets, store.cache
      ensures store.Valid() && Step(store.State(), r) == CheckedDebit(old(store.State()), alias, amount, caller, now)
      ensures old(store.Synced()) ==> store.Synced()
    {
      var debited := store.Debit(alias, amount, caller, now);
      r := if debited.Success? then Success(()) else Failure(MapDcwError(debited.error));
    }
  }
}
