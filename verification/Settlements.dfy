/**
 * The settlement workflows as functions of the ledger: what create, approve, cancel and execute
 * leave behind and what they answer, a rejection included. A rejection part-way through is a
 * ledger like any other, so a half-applied settlement is visible. One clock reading stands for
 * all the readings of one synchronous call.
 */
module Settlements {
  import opened Wrappers
  import opened OrderedMaps
  import opened Money
  import opened Decimals
  import opened Domain
  import opened Ledgers
  import Dcw

  /** A call's effect: the ledger it leaves and its answer. */
  datatype Step<+T> = Step(ledger: Ledger, result: Result<T, Rejection>)

  datatype Phase = CreatePhase | ApprovePhase | CancelPhase

  /** The workflow subclasses; Payment shares the draft type of Transfer. */
  datatype Workflow = Transfer | Funding | Defunding | DirectRtgs | Payment | Pfod {
    function Kind(): DraftType {
      match this
      case Transfer => TRANSFER
      case Funding => FUNDING
      case Defunding => DEFUNDING
      case DirectRtgs => DIRECT_RTGS
      case Payment => TRANSFER
      case Pfod => PFOD
    }

    predicate DebitsSource() {
      !Funding?
    }

    predicate CreditsExistingWallet() {
      !Funding? && !Defunding?
    }

    /** `TransferWorkflow` alone draws a random transaction id. */
    function TransactionId(record: Draft, random: string): string {
      if Transfer? then "TX-" + random else "TX-" + record.id
    }
  }

  /** The fields a caller supplies to open a workflow record. */
  datatype WorkflowInit = WorkflowInit(
    id: string,
    amount: string,
    currency: string,
    creditedWalletAlias: string,
    debitedWalletAlias: string,
    initiatorUserUUID: string,
    supplementaryData: Supplement,
    debitedCashWalletManagerID: string,
    creditedCashWalletManagerID: string,
    cbdcRequestType: string,
    historicStatus: Option<seq<Status>>,
    timestamps: map<Status, Stamp>,
    passThrough: string)

  datatype Actor = Actor(caller: Caller, approverUserUUID: string, approverUserName: string)

  function BuildRecord(wf: Workflow, init: WorkflowInit, status: Status, now: int): Draft {
    Draft(
      init.id, wf.Kind(), status, init.amount, Dcw.OrElse(init.currency, "EUR"),
      init.creditedWalletAlias, init.debitedWalletAlias, now, now,
      init.initiatorUserUUID, "", "", None, init.supplementaryData,
      init.debitedCashWalletManagerID, init.creditedCashWalletManagerID, init.cbdcRequestType,
      init.historicStatus, init.timestamps, init.passThrough)
  }

  function RejectionFor(reason: Denial): Rejection {
    if reason == NoSuchWallet then Rejection(404, "HL-WAL-001") else Rejection(403, "HL-AUT-001")
  }

  function MapDcwError(e: DcwError): Rejection {
    match e
    case WalletNotFound => Rejection(404, "HL-WAL-001")
    case DebitDenied(reason) => RejectionFor(reason)
    case InsufficientAvailable => Rejection(422, "HL-BAL-001")
    case NegativeAmount => Rejection(400, "HL-VAL-002")
    case InvalidAmount => Rejection(400, "HL-VAL-003")
    case InsufficientLocked => Rejection(422, "HL-GER-000")
  }

  /** Why a transition is refused, if it is: the subclass hook, run before the base checks. */
  function Conditions(l: Ledger, wf: Workflow, phase: Phase, record: Draft, caller: Caller, now: int)
    : Option<Rejection>
  {
    if phase != CreatePhase then None
    else match wf
      case Funding =>
        var denial := l.CanDebit(record.creditedWalletAlias, caller, now);
        if denial.Some? then Some(RejectionFor(denial.value)) else None
      case Transfer => TransferConditions(l, record)
      case _ => None
  }

  function TransferConditions(l: Ledger, record: Draft): Option<Rejection> {
    var hasDebited := l.HasWallet(record.debitedWalletAlias);
    var hasCredited := l.HasWallet(record.creditedWalletAlias);
    if hasDebited && record.debitedCashWalletManagerID != ""
       && record.debitedCashWalletManagerID != l.wallets.entries[record.debitedWalletAlias].managerNCB then
      Some(Rejection(400, "HL-WAL-004"))
    else if hasCredited && record.creditedCashWalletManagerID != ""
       && record.creditedCashWalletManagerID != l.wallets.entries[record.creditedWalletAlias].managerNCB then
      Some(Rejection(400, "HL-WAL-005"))
    else if hasDebited && hasCredited then
      var sameManager := l.wallets.entries[record.debitedWalletAlias].managerNCB
                      == l.wallets.entries[record.creditedWalletAlias].managerNCB;
      if record.cbdcRequestType == "OPERATION" && !sameManager then Some(Rejection(400, "HL-WAL-006"))
      else if record.cbdcRequestType == "PAYMENT" && sameManager then Some(Rejection(400, "HL-WAL-006"))
      else None
    else None
  }

  function DebitWalletMissing(l: Ledger, wf: Workflow, record: Draft): Option<Rejection> {
    if wf.DebitsSource() && record.debitedWalletAlias != "" && !l.HasWallet(record.debitedWalletAlias)
    then Some(Rejection(422, "HL-WAL-002")) else None
  }

  /** An empty alias is not checked. */
  function CreditWalletMissing(l: Ledger, alias: string): Option<Rejection> {
    if alias != "" && !l.HasWallet(alias) then Some(Rejection(422, "HL-WAL-003")) else None
  }

  /** Conditions, then the two existence guards, in that order. */
  function Refusal(l: Ledger, wf: Workflow, phase: Phase, record: Draft, caller: Caller, now: int): Option<Rejection> {
    var condition := Conditions(l, wf, phase, record, caller, now);
    if condition.Some? then condition
    else
      var debit := DebitWalletMissing(l, wf, record);
      if debit.Some? then debit
      else if wf.CreditsExistingWallet() then CreditWalletMissing(l, record.creditedWalletAlias)
      else None
  }

  function RawCredit(l: Ledger, alias: string, amount: string): Step<()> {
    if !l.HasWallet(alias) then Step(l, Failure(Rejection(422, "HL-WAL-003")))
    else
      var next := Dcw.WithCredit(l.wallets.entries[alias], amount);
      Step(l.Store(next), if next.Success? then Success(()) else Failure(MapDcwError(next.error)))
  }

  function CheckedDebit(l: Ledger, alias: string, amount: string, caller: Caller, now: int): Step<()> {
    var next := l.Debit(alias, amount, caller, now);
    Step(l.Store(next), if next.Success? then Success(()) else Failure(MapDcwError(next.error)))
  }

  /** Debit then credit: a credit that throws leaves the debit in place. */
  function Move(l: Ledger, debited: string, credited: string, amount: string, caller: Caller, now: int): Step<()> {
    var debit := CheckedDebit(l, debited, amount, caller, now);
    if debit.result.Failure? then debit else RawCredit(debit.ledger, credited, amount)
  }

  /** The DCW effect of settling a record. */
  function Effect(l: Ledger, wf: Workflow, record: Draft, caller: Caller, now: int): Step<()> {
    match wf
    case Funding => RawCredit(l, record.creditedWalletAlias, record.amount)
    case Defunding => CheckedDebit(l, record.debitedWalletAlias, record.amount, caller, now)
    case _ => Move(l, record.debitedWalletAlias, record.creditedWalletAlias, record.amount, caller, now)
  }

  function TransactionOf(wf: Workflow, record: Draft, random: string, now: int): Transaction {
    Transaction(
      wf.TransactionId(record, random), wf.Kind(), record.amount, record.currency,
      record.creditedWalletAlias, record.debitedWalletAlias,
      record.createdAt, now, record.supplementaryData, record.passThrough)
  }

  function LifecycleAppend(l: Ledger, record: Draft, status: Status, now: int)
    : Option<(seq<Status>, map<Status, Stamp>)>
  {
    if record.historicStatus.None? then None
    else Some((record.historicStatus.value + [status],
               record.timestamps[status := Stamp(now, l.day.businessDate)]))
  }

  function LoadPending(l: Ledger, wf: Workflow, id: string): Result<Draft, Rejection> {
    if !l.HasDraft(id) || l.drafts.entries[id].kind != wf.Kind() then Failure(Rejection(404, "HL-GER-001"))
    else if l.drafts.entries[id].status != PENDING_APPROVAL then Failure(Rejection(409, "HL-GER-002"))
    else Success(l.drafts.entries[id])
  }

  /** Four-eyes: both identities must be known and distinct. */
  predicate FourEyes(record: Draft, actor: Actor) {
    && actor.approverUserUUID != ""
    && record.initiatorUserUUID != ""
    && actor.approverUserUUID != record.initiatorUserUUID
  }

  function Create(l: Ledger, wf: Workflow, init: WorkflowInit, actor: Actor, now: int): Step<Draft> {
    var record := BuildRecord(wf, init, PENDING_APPROVAL, now);
    var refusal := Refusal(l, wf, CreatePhase, record, actor.caller, now);
    if refusal.Some? then Step(l, Failure(refusal.value))
    else Step(l.AddDraft(record), Success(record))
  }

  function Approval(l: Ledger, record: Draft, actor: Actor, now: int): DraftUpdate {
    DraftUpdate(Some(SETTLED), None, Some((actor.approverUserUUID, actor.approverUserName)), None,
                LifecycleAppend(l, record, SETTLED, now))
  }

  function Approve(l: Ledger, wf: Workflow, id: string, actor: Actor, random: string, now: int): Step<Draft> {
    var loaded := LoadPending(l, wf, id);
    if loaded.Failure? then Step(l, Failure(loaded.error))
    else
      var record := loaded.value;
      var refusal := Refusal(l, wf, ApprovePhase, record, actor.caller, now);
      if !FourEyes(record, actor) then Step(l, Failure(Rejection(403, "HL-GER-003")))
      else if refusal.Some? then Step(l, Failure(refusal.value))
      else
        var effect := Effect(l, wf, record, actor.caller, now);
        if effect.result.Failure? then Step(effect.ledger, Failure(effect.result.error))
        else
          var settled := effect.ledger.UpdateDraft(id, Approval(l, record, actor, now), now);
          Step(settled.AddTransaction(TransactionOf(wf, record, random, now)),
               Success(Merge(record, Approval(l, record, actor, now), now)))
  }

  function Cancellation(l: Ledger, record: Draft, now: int): DraftUpdate {
    DraftUpdate(Some(CANCELED), None, None, None, LifecycleAppend(l, record, CANCELED, now))
  }

  function Cancel(l: Ledger, wf: Workflow, id: string, now: int): Step<Draft> {
    var loaded := LoadPending(l, wf, id);
    if loaded.Failure? then Step(l, Failure(loaded.error))
    else
      Step(l.UpdateDraft(id, Cancellation(l, loaded.value, now), now),
           Success(Merge(loaded.value, Cancellation(l, loaded.value, now), now)))
  }

  function Execute(l: Ledger, wf: Workflow, init: WorkflowInit, actor: Actor, random: string, now: int): Step<Draft> {
    var record := BuildRecord(wf, init, SETTLED, now);
    var refusal := Refusal(l, wf, CreatePhase, record, actor.caller, now);
    if refusal.Some? then Step(l, Failure(refusal.value))
    else
      var effect := Effect(l, wf, record, actor.caller, now);
      if effect.result.Failure? then Step(effect.ledger, Failure(effect.result.error))
      else Step(effect.ledger.AddTransaction(TransactionOf(wf, record, random, now)), Success(record))
  }

  // ----- what a settlement moves -----

  function Balance(l: Ledger, alias: string): int {
    if l.HasWallet(alias) then l.wallets.entries[alias].balance else 0
  }

  function CentsOf(amount: string): nat {
    match ParseAmount(amount) case Cents(n) => n case _ => 0
  }

  /** What one log entry does to one wallet: funding only credits, defunding only debits. */
  function Net(tx: Transaction, alias: string): int {
    (if tx.kind != DEFUNDING && tx.creditedWalletAlias == alias then CentsOf(tx.amount) else 0)
    - (if tx.kind != FUNDING && tx.debitedWalletAlias == alias then CentsOf(tx.amount) else 0)
  }

  /** Everything about a wallet but its balance. */
  function Fixed(w: Wallet): Wallet {
    w.(balance := 0)
  }

  /** Same wallets in the same order, with the same owners and rights: only balances may differ. */
  ghost predicate OnlyBalances(ws: OrderedMap<Wallet>, ws': OrderedMap<Wallet>) {
    && ws'.order == ws.order
    && (forall a :: a in ws'.entries <==> a in ws.entries)
    && (forall a :: a in ws.entries ==> Fixed(ws'.entries[a]) == Fixed(ws.entries[a]))
  }

  /** `cents` more on the credited wallet, `cents` less on the debited one, nothing else. */
  ghost predicate Moves(ws: OrderedMap<Wallet>, ws': OrderedMap<Wallet>, credited: Option<string>,
        debited: Option<string>, cents: nat)
  {
    && OnlyBalances(ws, ws')
    && (credited.Some? ==> credited.value in ws.entries)
    && (debited.Some? ==> debited.value in ws.entries && ws.entries[debited.value].balance >= cents)
    && (forall a :: a in ws.entries ==>
          ws'.entries[a].balance == ws.entries[a].balance
            + (if credited == Some(a) then cents else 0) - (if debited == Some(a) then cents else 0))
  }

  lemma CreditMoves(l: Ledger, alias: string, amount: string)
    requires l.WellFormed()
    ensures var e := RawCredit(l, alias, amount);
      if e.result.Success? then
        && e.ledger == l.(wallets := e.ledger.wallets)
        && ParseAmount(amount).Cents? && Moves(l.wallets, e.ledger.wallets, Some(alias), None, CentsOf(amount))
      else e.ledger == l
  {
  }

  lemma DebitMoves(l: Ledger, alias: string, amount: string, caller: Caller, now: int)
    requires l.WellFormed()
    ensures var e := CheckedDebit(l, alias, amount, caller, now);
      if e.result.Success? then
        && e.ledger == l.(wallets := e.ledger.wallets)
        && ParseAmount(amount).Cents? && Moves(l.wallets, e.ledger.wallets, None, Some(alias), CentsOf(amount))
      else e.ledger == l
  {
  }

  /** Rights on a wallet: unblocked, within its validity, and the owner, a grantee or a whitelisted operator. */
  predicate MayDebit(w: Wallet, caller: Caller, now: int) {
    && !w.isBlocked
    && (w.validFrom.Some? ==> w.validFrom.value <= now) && (w.validTo.Some? ==> now <= w.validTo.value)
    && (|| (caller.entityBIC != "" && (caller.entityBIC == w.ownerEntityID || caller.entityBIC in w.poaGrantees))
        || (caller.marketDLTOperator != "" && caller.marketDLTOperator in w.whitelistedOperators))
  }

  /** The caller has the rights on the wallet, and it holds the amount. */
  predicate MayPay(l: Ledger, alias: string, amount: string, caller: Caller, now: int) {
    && l.HasWallet(alias) && MayDebit(l.wallets.entries[alias], caller, now)
    && ParseAmount(amount).Cents? && CentsOf(amount) <= l.wallets.entries[alias].balance
  }

  /** A debit goes through exactly for a caller with the rights, on a wallet that holds the amount. */
  lemma DebitsExactlyWhenEntitled(l: Ledger, alias: string, amount: string, caller: Caller, now: int)
    ensures CheckedDebit(l, alias, amount, caller, now).result.Success? <==> MayPay(l, alias, amount, caller, now)
  {
  }

  lemma MovesKeepWellFormed(l: Ledger, ws: OrderedMap<Wallet>)
    requires l.WellFormed() && OnlyBalances(l.wallets, ws)
    ensures l.(wallets := ws).WellFormed()
  {
    forall a | a in ws.entries ensures ws.entries[a].alias == a {
      assert Fixed(ws.entries[a]).alias == Fixed(l.wallets.entries[a]).alias;
    }
  }

  /** A debit then a credit that both go through, the same wallet on both sides included. */
  lemma MoveMoves(l: Ledger, debited: string, credited: string, amount: string, caller: Caller, now: int)
    requires l.WellFormed()
    ensures var e := Move(l, debited, credited, amount, caller, now);
      e.result.Success? ==>
        && e.ledger == l.(wallets := e.ledger.wallets)
        && ParseAmount(amount).Cents?
        && Moves(l.wallets, e.ledger.wallets, Some(credited), Some(debited), CentsOf(amount))
  {
    var debit := CheckedDebit(l, debited, amount, caller, now);
    DebitMoves(l, debited, amount, caller, now);
    if debit.result.Success? {
      MovesKeepWellFormed(l, debit.ledger.wallets);
      CreditMoves(debit.ledger, credited, amount);
    }
  }

  function CreditSide(tx: Transaction): Option<string> {
    if tx.kind == DEFUNDING then None else Some(tx.creditedWalletAlias)
  }

  function DebitSide(tx: Transaction): Option<string> {
    if tx.kind == FUNDING then None else Some(tx.debitedWalletAlias)
  }

  /** The movement a log entry stands for. */
  ghost predicate Posts(ws: OrderedMap<Wallet>, ws': OrderedMap<Wallet>, tx: Transaction) {
    ParseAmount(tx.amount).Cents? && Moves(ws, ws', CreditSide(tx), DebitSide(tx), CentsOf(tx.amount))
  }

  /** A settlement that goes through moves exactly what its log entry says, and nothing else. */
  lemma EffectPosts(l: Ledger, wf: Workflow, record: Draft, caller: Caller, random: string, now: int)
    requires l.WellFormed()
    ensures var e := Effect(l, wf, record, caller, now);
      e.result.Success? ==>
        && e.ledger == l.(wallets := e.ledger.wallets)
        && Posts(l.wallets, e.ledger.wallets, TransactionOf(wf, record, random, now))
  {
    var tx := TransactionOf(wf, record, random, now);
    if wf.Funding? {
      assert CreditSide(tx) == Some(record.creditedWalletAlias) && DebitSide(tx) == None;
      CreditMoves(l, record.creditedWalletAlias, record.amount);
    } else if wf.Defunding? {
      assert CreditSide(tx) == None && DebitSide(tx) == Some(record.debitedWalletAlias);
      DebitMoves(l, record.debitedWalletAlias, record.amount, caller, now);
    } else {
      assert CreditSide(tx) == Some(record.creditedWalletAlias) && DebitSide(tx) == Some(record.debitedWalletAlias);
      MoveMoves(l, record.debitedWalletAlias, record.creditedWalletAlias, record.amount, caller, now);
      assert Effect(l, wf, record, caller, now)
        == Move(l, record.debitedWalletAlias, record.creditedWalletAlias, record.amount, caller, now);
    }
  }

  // ----- all or nothing -----

  /** The debit goes through but there is no wallet to credit: the one way to half-apply. */
  predicate LosesTheCredit(l: Ledger, debited: string, credited: string, amount: string, caller: Caller, now: int) {
    && l.Debit(debited, amount, caller, now).Success?
    && CentsOf(amount) > 0
    && !l.HasWallet(credited)
  }

  /** A movement that throws leaves the ledger as it was, except exactly when it loses the credit. */
  lemma MoveAllOrNothing(l: Ledger, debited: string, credited: string, amount: string, caller: Caller, now: int)
    requires l.WellFormed()
    requires Move(l, debited, credited, amount, caller, now).result.Failure?
    ensures Move(l, debited, credited, amount, caller, now).ledger == l
      <==> !LosesTheCredit(l, debited, credited, amount, caller, now)
  {
    var debit := CheckedDebit(l, debited, amount, caller, now);
    DebitMoves(l, debited, amount, caller, now);
    if debit.result.Success? {
      MovesKeepWellFormed(l, debit.ledger.wallets);
      CreditMoves(debit.ledger, credited, amount);
      assert debit.ledger.wallets.entries[debited].balance == l.wallets.entries[debited].balance - CentsOf(amount);
      if CentsOf(amount) == 0 {
        assert debit.ledger.wallets.entries == l.wallets.entries;
        assert debit.ledger.wallets == l.wallets;
      }
    }
  }

  /** What a caller can see beforehand: the debit would go through and the credited alias is empty. */
  predicate HalfApplies(l: Ledger, wf: Workflow, record: Draft, caller: Caller, now: int) {
    && wf.DebitsSource() && wf.CreditsExistingWallet()
    && record.creditedWalletAlias == ""
    && LosesTheCredit(l, record.debitedWalletAlias, "", record.amount, caller, now)
  }

  lemma EffectAllOrNothing(l: Ledger, wf: Workflow, phase: Phase, record: Draft, caller: Caller, now: int)
    requires l.WellFormed()
    requires Refusal(l, wf, phase, record, caller, now).None?
    requires Effect(l, wf, record, caller, now).result.Failure?
    ensures Effect(l, wf, record, caller, now).ledger == l <==> !HalfApplies(l, wf, record, caller, now)
  {
    if wf.Funding? {
      CreditMoves(l, record.creditedWalletAlias, record.amount);
    } else if wf.Defunding? {
      DebitMoves(l, record.debitedWalletAlias, record.amount, caller, now);
    } else {
      MoveAllOrNothing(l, record.debitedWalletAlias, record.creditedWalletAlias, record.amount, caller, now);
    }
  }

  /** `cents` are gone from one wallet, and nothing else has changed. */
  ghost predicate Loses(l: Ledger, m: Ledger, alias: string, cents: nat) {
    cents > 0 && m == l.(wallets := m.wallets) && Moves(l.wallets, m.wallets, None, Some(alias), cents)
  }

  /** A half-applied settlement throws for the missing wallet after its debit. */
  lemma EffectLoses(l: Ledger, wf: Workflow, record: Draft, caller: Caller, now: int)
    requires l.WellFormed() && HalfApplies(l, wf, record, caller, now)
    ensures var e := Effect(l, wf, record, caller, now);
      && e.result == Failure(Rejection(422, "HL-WAL-003"))
      && Loses(l, e.ledger, record.debitedWalletAlias, CentsOf(record.amount))
  {
    hide Dcw.DebitDenial, ParseAmount;
    DebitMoves(l, record.debitedWalletAlias, record.amount, caller, now);
  }

  /** An approval that passes every check and then half-applies. */
  predicate HalfApproves(l: Ledger, wf: Workflow, id: string, actor: Actor, now: int) {
    var loaded := LoadPending(l, wf, id);
    && loaded.Success? && FourEyes(loaded.value, actor)
    && Refusal(l, wf, ApprovePhase, loaded.value, actor.caller, now).None?
    && HalfApplies(l, wf, loaded.value, actor.caller, now)
  }

  /** And a one-step settlement. */
  predicate HalfExecutes(l: Ledger, wf: Workflow, init: WorkflowInit, actor: Actor, now: int) {
    var record := BuildRecord(wf, init, SETTLED, now);
    && Refusal(l, wf, CreatePhase, record, actor.caller, now).None?
    && HalfApplies(l, wf, record, actor.caller, now)
  }

  /** A settlement that names its credited wallet never half-applies. */
  lemma NamedIsWhole(l: Ledger, wf: Workflow, init: WorkflowInit, actor: Actor, now: int)
    requires init.creditedWalletAlias != ""
    ensures !HalfExecutes(l, wf, init, actor, now)
  {
    hide Refusal, LosesTheCredit;
  }

  /** A rejected approval changes nothing, except exactly when it half-applies. */
  lemma ApproveAllOrNothing(l: Ledger, wf: Workflow, id: string, actor: Actor, random: string, now: int)
    requires l.WellFormed()
    requires Approve(l, wf, id, actor, random, now).result.Failure?
    ensures Approve(l, wf, id, actor, random, now).ledger == l <==> !HalfApproves(l, wf, id, actor, now)
  {
    hide Refusal, HalfApplies, Effect, FourEyes;
    var loaded := LoadPending(l, wf, id);
    if loaded.Success? && Refusal(l, wf, ApprovePhase, loaded.value, actor.caller, now).None? {
      if HalfApplies(l, wf, loaded.value, actor.caller, now) {
        EffectLoses(l, wf, loaded.value, actor.caller, now);
      }
      if Effect(l, wf, loaded.value, actor.caller, now).result.Failure? {
        EffectAllOrNothing(l, wf, ApprovePhase, loaded.value, actor.caller, now);
      }
    }
  }

  /** The same for a one-step settlement. */
  lemma ExecuteAllOrNothing(l: Ledger, wf: Workflow, init: WorkflowInit, actor: Actor, random: string, now: int)
    requires l.WellFormed()
    requires Execute(l, wf, init, actor, random, now).result.Failure?
    ensures Execute(l, wf, init, actor, random, now).ledger == l <==> !HalfExecutes(l, wf, init, actor, now)
  {
    hide Refusal, HalfApplies, Effect;
    var record := BuildRecord(wf, init, SETTLED, now);
    if Refusal(l, wf, CreatePhase, record, actor.caller, now).None? {
      if HalfApplies(l, wf, record, actor.caller, now) { EffectLoses(l, wf, record, actor.caller, now); }
      if Effect(l, wf, record, actor.caller, now).result.Failure? {
        EffectAllOrNothing(l, wf, CreatePhase, record, actor.caller, now);
      }
    }
  }

  /** What a half-applied approval loses: the whole amount, from the debited wallet; the log says nothing. */
  lemma HalfApprovedLosesTheAmount(l: Ledger, wf: Workflow, id: string, actor: Actor, random: string, now: int)
    requires l.WellFormed() && HalfApproves(l, wf, id, actor, now)
    ensures l.HasDraft(id)
    ensures var e, record := Approve(l, wf, id, actor, random, now), l.drafts.entries[id];
      && e.result == Failure(Rejection(422, "HL-WAL-003"))
      && Loses(l, e.ledger, record.debitedWalletAlias, CentsOf(record.amount))
  {
    hide Refusal, HalfApplies, Effect, Loses;
    EffectLoses(l, wf, l.drafts.entries[id], actor.caller, now);
  }

  /** And what a half-applied one-step settlement loses. */
  lemma HalfExecutedLosesTheAmount(l: Ledger, wf: Workflow, init: WorkflowInit, actor: Actor, random: string, now: int)
    requires l.WellFormed() && HalfExecutes(l, wf, init, actor, now)
    ensures var e := Execute(l, wf, init, actor, random, now);
      && e.result == Failure(Rejection(422, "HL-WAL-003"))
      && Loses(l, e.ledger, init.debitedWalletAlias, CentsOf(init.amount))
  {
    hide Refusal, HalfApplies, Effect, Loses;
    EffectLoses(l, wf, BuildRecord(wf, init, SETTLED, now), actor.caller, now);
  }
}
