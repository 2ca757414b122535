/**
 * What each settlement workflow answers, told from the request, the wallets and the rights on them
 * alone: when it succeeds, and otherwise which refusal comes first.
 */
module Answers {
  import opened Wrappers
  import opened Money
  import opened OrderedMaps
  import opened Domain
  import opened Ledgers
  import opened Settlements
  import opened Histories
  import opened Accounts
  import opened DraftTable
  import opened Lifecycle
  import opened TransferManagers
  import Dcw

  // ----- one debit, one credit -----

  function AmountAnswer(amount: string): Option<Rejection> {
    match ParseAmount(amount)
    case Cents(_) => None
    case Negative => Some(Rejection(400, "HL-VAL-002"))
    case Invalid => Some(Rejection(400, "HL-VAL-003"))
  }

  /** A debit is refused for a missing wallet, for missing rights, for its amount, for missing funds. */
  function DebitAnswer(l: Ledger, alias: string, amount: string, caller: Caller, now: int): Option<Rejection> {
    if !l.HasWallet(alias) then Some(Rejection(404, "HL-WAL-001"))
    else if !MayDebit(l.wallets.entries[alias], caller, now) then Some(Rejection(403, "HL-AUT-001"))
    else if AmountAnswer(amount).Some? then AmountAnswer(amount)
    else if l.wallets.entries[alias].balance < CentsOf(amount) then Some(Rejection(422, "HL-BAL-001"))
    else None
  }

  function CreditAnswer(l: Ledger, alias: string, amount: string): Option<Rejection> {
    if !l.HasWallet(alias) then Some(Rejection(422, "HL-WAL-003")) else AmountAnswer(amount)
  }

  /** A step that is refused for this reason, or goes through when there is none. */
  predicate AnswersWith<T>(r: Result<T, Rejection>, refusal: Option<Rejection>) {
    match refusal
    case Some(e) => r.Failure? && r.error == e
    case None => r.Success?
  }

  lemma DebitIsAnswered(l: Ledger, alias: string, amount: string, caller: Caller, now: int)
    ensures AnswersWith(CheckedDebit(l, alias, amount, caller, now).result, DebitAnswer(l, alias, amount, caller, now))
  {
    hide ParseAmount;
  }

  lemma CreditIsAnswered(l: Ledger, alias: string, amount: string)
    ensures AnswersWith(RawCredit(l, alias, amount).result, CreditAnswer(l, alias, amount))
  {
    hide ParseAmount;
  }

  lemma MoveIsAnswered(l: Ledger, debited: string, credited: string, amount: string, caller: Caller, now: int)
    requires l.WellFormed()
    ensures AnswersWith(Move(l, debited, credited, amount, caller, now).result,
                    if DebitAnswer(l, debited, amount, caller, now).Some? then
                      DebitAnswer(l, debited, amount, caller, now)
                    else CreditAnswer(l, credited, amount))
  {
    hide CheckedDebit, RawCredit, DebitAnswer;
    var debit := CheckedDebit(l, debited, amount, caller, now);
    DebitIsAnswered(l, debited, amount, caller, now);
    DebitMoves(l, debited, amount, caller, now);
    CreditIsAnswered(debit.ledger, credited, amount);
  }

  // ----- settling -----

  /** A wallet that is named must be there. */
  predicate Missing(l: Ledger, alias: string) {
    alias != "" && !l.HasWallet(alias)
  }

  /** What a settlement of `amount` asks: of the named wallets first, then of the debit, then of the credit. */
  function SettlementAnswer(l: Ledger, wf: Workflow, debited: string, credited: string, amount: string, caller: Caller,
        now: int): Option<Rejection>
  {
    match wf
    case Funding => CreditAnswer(l, credited, amount)
    case Defunding =>
      if Missing(l, debited) then Some(Rejection(422, "HL-WAL-002")) else DebitAnswer(l, debited, amount, caller, now)
    case _ =>
      if Missing(l, debited) then Some(Rejection(422, "HL-WAL-002"))
      else if Missing(l, credited) then Some(Rejection(422, "HL-WAL-003"))
      else if DebitAnswer(l, debited, amount, caller, now).Some? then DebitAnswer(l, debited, amount, caller, now)
      else CreditAnswer(l, credited, amount)
  }

  /** The caller may debit what the workflow debits, and what it credits is there. */
  predicate CanSettle(l: Ledger, wf: Workflow, debited: string, credited: string, amount: string, caller: Caller,
        now: int)
  {
    match wf
    case Funding => l.HasWallet(credited) && ParseAmount(amount).Cents?
    case Defunding => MayPay(l, debited, amount, caller, now)
    case _ => MayPay(l, debited, amount, caller, now) && l.HasWallet(credited)
  }

  lemma SettlesWhenItCan(l: Ledger, wf: Workflow, debited: string, credited: string, amount: string, caller: Caller,
        now: int)
    ensures SettlementAnswer(l, wf, debited, credited, amount, caller, now).None?
      <==> CanSettle(l, wf, debited, credited, amount, caller, now)
  {
    hide ParseAmount, MayDebit;
  }

  /** Guards and effect together answer so. */
  lemma SettlementIsAnswered(l: Ledger, wf: Workflow, record: Draft, caller: Caller, now: int)
    requires l.WellFormed()
    ensures var refusal := Refusal(l, wf, ApprovePhase, record, caller, now);
      AnswersWith(if refusal.Some? then Failure(refusal.value) else Effect(l, wf, record, caller, now).result,
                  SettlementAnswer(l, wf, record.debitedWalletAlias, record.creditedWalletAlias, record.amount,
                                   caller, now))
  {
    hide Move, CheckedDebit, RawCredit, DebitAnswer, CreditAnswer;
    CreditIsAnswered(l, record.creditedWalletAlias, record.amount);
    DebitIsAnswered(l, record.debitedWalletAlias, record.amount, caller, now);
    MoveIsAnswered(l, record.debitedWalletAlias, record.creditedWalletAlias, record.amount, caller, now);
  }

  // ----- approving and cancelling -----

  /** The kinds of draft the workflows keep. */
  predicate KeptBy(wf: Workflow, kind: DraftType) {
    match kind
    case FUNDING => wf.Funding?
    case DEFUNDING => wf.Defunding?
    case TRANSFER => wf.Transfer? || wf.Payment?
    case DIRECT_RTGS => wf.DirectRtgs?
    case PFOD => wf.Pfod?
    case XVP => false
  }

  predicate StoredFor(l: Ledger, wf: Workflow, id: string) {
    l.HasDraft(id) && KeptBy(wf, l.drafts.entries[id].kind)
  }

  function PendingAnswer(l: Ledger, wf: Workflow, id: string): Option<Rejection> {
    if !StoredFor(l, wf, id) then Some(Rejection(404, "HL-GER-001"))
    else if l.drafts.entries[id].status != PENDING_APPROVAL then Some(Rejection(409, "HL-GER-002"))
    else None
  }

  lemma PendingIsAnswered(l: Ledger, wf: Workflow, id: string)
    ensures AnswersWith(LoadPending(l, wf, id), PendingAnswer(l, wf, id))
    ensures LoadPending(l, wf, id).Success? ==> l.HasDraft(id) && LoadPending(l, wf, id).value == l.drafts.entries[id]
  {
  }

  /** Two people who are known, and are not the same. */
  predicate TwoPeople(record: Draft, actor: Actor) {
    record.initiatorUserUUID != "" && actor.approverUserUUID !in {"", record.initiatorUserUUID}
  }

  function ApprovalAnswer(l: Ledger, wf: Workflow, id: string, actor: Actor, now: int): Option<Rejection> {
    if PendingAnswer(l, wf, id).Some? then PendingAnswer(l, wf, id)
    else
      var d := l.drafts.entries[id];
      if !TwoPeople(d, actor) then Some(Rejection(403, "HL-GER-003"))
      else SettlementAnswer(l, wf, d.debitedWalletAlias, d.creditedWalletAlias, d.amount, actor.caller, now)
  }

  /** An approval answers so, for every workflow, draft and caller. */
  lemma ApprovalIsAnswered(l: Ledger, wf: Workflow, id: string, actor: Actor, random: string, now: int)
    requires l.WellFormed()
    ensures AnswersWith(Approve(l, wf, id, actor, random, now).result, ApprovalAnswer(l, wf, id, actor, now))
  {
    hide Refusal, Effect, LoadPending, PendingAnswer, SettlementAnswer;
    PendingIsAnswered(l, wf, id);
    PendingIsStored(l, wf, id);
    if LoadPending(l, wf, id).Success? {
      SettlementIsAnswered(l, wf, l.drafts.entries[id], actor.caller, now);
    }
  }

  lemma PendingIsStored(l: Ledger, wf: Workflow, id: string)
    ensures PendingAnswer(l, wf, id).None? <==>
      l.HasDraft(id) && KeptBy(wf, l.drafts.entries[id].kind) && l.drafts.entries[id].status == PENDING_APPROVAL
  {
  }

  /**
   * An approval succeeds if and only if the draft is one of the workflow's and pending, a second known
   * person approves it, and that person's caller may debit what it debits while what it credits is there.
   */
  lemma ApprovesExactly(l: Ledger, wf: Workflow, id: string, actor: Actor, random: string, now: int)
    requires l.WellFormed()
    ensures Approve(l, wf, id, actor, random, now).result.Success? <==>
      && StoredFor(l, wf, id)
      && var d := l.drafts.entries[id];
      && d.status == PENDING_APPROVAL && TwoPeople(d, actor)
      && CanSettle(l, wf, d.debitedWalletAlias, d.creditedWalletAlias, d.amount, actor.caller, now)
  {
    hide Approve, SettlementAnswer, CanSettle, PendingAnswer;
    ApprovalIsAnswered(l, wf, id, actor, random, now);
    PendingIsStored(l, wf, id);
    if l.HasDraft(id) {
      var d := l.drafts.entries[id];
      SettlesWhenItCan(l, wf, d.debitedWalletAlias, d.creditedWalletAlias, d.amount, actor.caller, now);
    }
  }

  /** The trail of a draft after one more status, where it has one; the new status is stamped now. */
  predicate TrailGrown(l: Ledger, d: Draft, e: Draft, status: Status, now: int) {
    && (d.historicStatus.None? ==> e.historicStatus.None? && e.timestamps == d.timestamps)
    && (d.historicStatus.Some? ==>
          && e.historicStatus == Some(d.historicStatus.value + [status])
          && e.timestamps == d.timestamps[status := Stamp(now, l.day.businessDate)])
  }

  /** The approved draft carries the approver's name and the time, and its log entry says what the draft says. */
  lemma ApprovalIsSigned(l: Ledger, wf: Workflow, id: string, actor: Actor, random: string, now: int)
    requires l.WellFormed() && Approve(l, wf, id, actor, random, now).result.Success?
    ensures var s := Approve(l, wf, id, actor, random, now);
      && l.HasDraft(id) && s.ledger.HasDraft(id) && s.result.value == s.ledger.drafts.entries[id]
      && var (d, e) := (l.drafts.entries[id], s.ledger.drafts.entries[id]);
      && e.status == SETTLED && e.approverUserUUID == actor.approverUserUUID
      && e.approverUserName == actor.approverUserName && e.updatedAt == now && TrailGrown(l, d, e, SETTLED, now)
      && SameAgreement(d, e)
      && |s.ledger.log| == |l.log| + 1
      && EntryOf(s.ledger.log[|l.log|], wf, d, random, now)
  {
    hide Approve, Posts;
    ApproveSettles(l, wf, id, actor, random, now);
    ApprovalReturns(l, wf, id, actor, random, now);
  }

  lemma ApprovalReturns(l: Ledger, wf: Workflow, id: string, actor: Actor, random: string, now: int)
    requires l.WellFormed() && Approve(l, wf, id, actor, random, now).result.Success?
    ensures l.HasDraft(id)
    ensures Approve(l, wf, id, actor, random, now).result.value
      == Merge(l.drafts.entries[id], Approval(l, l.drafts.entries[id], actor, now), now)
  {
    hide Refusal, Effect, FourEyes;
  }

  /** The log entry of a settlement made now; only a transfer's id is random. */
  ghost predicate EntryOf(tx: Transaction, wf: Workflow, d: Draft, random: string, now: int) {
    && tx.id == "TX-" + (if wf == Transfer then random else d.id)
    && Records(tx, d) && tx.createdAt == d.createdAt && tx.settledAt == now
    && tx.supplementaryData == d.supplementaryData && tx.passThrough == d.passThrough
  }

  /** A cancellation asks only that the draft be one of the workflow's and pending, and moves no money. */
  lemma CancelsExactly(l: Ledger, wf: Workflow, id: string, now: int)
    requires l.WellFormed()
    ensures var s := Cancel(l, wf, id, now);
      && AnswersWith(s.result, PendingAnswer(l, wf, id))
      && (s.result.Failure? ==> s.ledger == l)
      && (s.result.Success? ==>
            && l.HasDraft(id) && s.ledger == l.AddDraft(s.result.value)
            && var (d, e) := (l.drafts.entries[id], s.result.value);
            && e.status == CANCELED && e.updatedAt == now && TrailGrown(l, d, e, CANCELED, now)
            && SameAgreement(d, e) && e.approverUserUUID == d.approverUserUUID)
  {
    PendingIsAnswered(l, wf, id);
  }

  // ----- creating, and settling in one step -----

  /** What a transfer says of the managers of its wallets, wallet by wallet and then of both. */
  function ManagersAnswer(l: Ledger, init: WorkflowInit): Option<Rejection> {
    var debited, credited := init.debitedWalletAlias, init.creditedWalletAlias;
    if l.HasWallet(debited) && !ManagedAsClaimed(l, debited, init.debitedCashWalletManagerID) then
      Some(Rejection(400, "HL-WAL-004"))
    else if l.HasWallet(credited) && !ManagedAsClaimed(l, credited, init.creditedCashWalletManagerID) then
      Some(Rejection(400, "HL-WAL-005"))
    else if l.HasWallet(debited) && l.HasWallet(credited)
            && !RequestTypeFits(l, debited, credited, init.cbdcRequestType) then
      Some(Rejection(400, "HL-WAL-006"))
    else None
  }

  function NamedAnswer(l: Ledger, debited: string, credited: string): Option<Rejection> {
    if Missing(l, debited) then Some(Rejection(422, "HL-WAL-002"))
    else if Missing(l, credited) then Some(Rejection(422, "HL-WAL-003"))
    else None
  }

  /** What opening a draft asks, workflow by workflow: a funding asks for rights on the wallet it credits. */
  function CreationAnswer(l: Ledger, wf: Workflow, init: WorkflowInit, caller: Caller, now: int): Option<Rejection> {
    match wf
    case Funding =>
      if !l.HasWallet(init.creditedWalletAlias) then Some(Rejection(404, "HL-WAL-001"))
      else if !MayDebit(l.wallets.entries[init.creditedWalletAlias], caller, now) then
        Some(Rejection(403, "HL-AUT-001"))
      else None
    case Defunding =>
      if Missing(l, init.debitedWalletAlias) then Some(Rejection(422, "HL-WAL-002")) else None
    case Transfer =>
      if ManagersAnswer(l, init).Some? then ManagersAnswer(l, init)
      else NamedAnswer(l, init.debitedWalletAlias, init.creditedWalletAlias)
    case _ => NamedAnswer(l, init.debitedWalletAlias, init.creditedWalletAlias)
  }

  lemma CreationIsAnswered(l: Ledger, wf: Workflow, init: WorkflowInit, status: Status, caller: Caller, now: int)
    ensures Refusal(l, wf, CreatePhase, BuildRecord(wf, init, status, now), caller, now)
      == CreationAnswer(l, wf, init, caller, now)
  {
  }

  /** The draft is as asked for, and its currency is the euro if none was given. */
  predicate AsAsked(d: Draft, wf: Workflow, init: WorkflowInit, now: int) {
    && d.id == init.id && KeptBy(wf, d.kind) && d.amount == init.amount
    && (init.currency != "" ==> d.currency == init.currency) && (init.currency == "" ==> d.currency == "EUR")
    && d.creditedWalletAlias == init.creditedWalletAlias && d.debitedWalletAlias == init.debitedWalletAlias
    && d.debitedCashWalletManagerID == init.debitedCashWalletManagerID
    && d.creditedCashWalletManagerID == init.creditedCashWalletManagerID && d.cbdcRequestType == init.cbdcRequestType
    && d.initiatorUserUUID == init.initiatorUserUUID && d.approverUserUUID == "" && d.expiresAt.None?
    && d.createdAt == d.updatedAt == now && d.supplementaryData == init.supplementaryData
    && d.historicStatus == init.historicStatus && d.timestamps == init.timestamps && d.passThrough == init.passThrough
  }

  /** A creation answers so; refused it changes nothing, else it stores one pending draft as asked for. */
  lemma CreatesExactly(l: Ledger, wf: Workflow, init: WorkflowInit, actor: Actor, now: int)
    ensures var s := Create(l, wf, init, actor, now);
      && AnswersWith(s.result, CreationAnswer(l, wf, init, actor.caller, now))
      && (s.result.Failure? ==> s.ledger == l)
      && (s.result.Success? ==>
            && s.ledger == l.AddDraft(s.result.value)
            && s.result.value.status == PENDING_APPROVAL && AsAsked(s.result.value, wf, init, now))
  {
    hide Refusal, CreationAnswer;
    CreationIsAnswered(l, wf, init, PENDING_APPROVAL, actor.caller, now);
  }

  /** A funding can be opened if and only if its wallet is there and its caller may debit it at that moment. */
  lemma FundsOnlyOwnWallets(l: Ledger, init: WorkflowInit, actor: Actor, now: int)
    ensures Create(l, Funding, init, actor, now).result.Success? <==>
      l.HasWallet(init.creditedWalletAlias)
      && MayDebit(l.wallets.entries[init.creditedWalletAlias], actor.caller, now)
  {
    hide Create;
    CreatesExactly(l, Funding, init, actor, now);
  }

  /** A transfer can be opened if and only if the wallets it names are there and its managers agree with them. */
  lemma OpensAgreeingTransfers(l: Ledger, init: WorkflowInit, actor: Actor, now: int)
    requires init.debitedWalletAlias != "" && init.creditedWalletAlias != ""
    ensures Create(l, Transfer, init, actor, now).result.Success? <==>
      && l.HasWallet(init.debitedWalletAlias) && l.HasWallet(init.creditedWalletAlias)
      && ManagedAsClaimed(l, init.debitedWalletAlias, init.debitedCashWalletManagerID)
      && ManagedAsClaimed(l, init.creditedWalletAlias, init.creditedCashWalletManagerID)
      && RequestTypeFits(l, init.debitedWalletAlias, init.creditedWalletAlias, init.cbdcRequestType)
  {
    hide Create;
    CreatesExactly(l, Transfer, init, actor, now);
  }

  function ExecutionAnswer(l: Ledger, wf: Workflow, init: WorkflowInit, caller: Caller, now: int): Option<Rejection> {
    if CreationAnswer(l, wf, init, caller, now).Some? then CreationAnswer(l, wf, init, caller, now)
    else SettlementAnswer(l, wf, init.debitedWalletAlias, init.creditedWalletAlias, init.amount, caller, now)
  }

  /** A one-step settlement answers as its creation and then its settlement would. */
  lemma ExecutionIsAnswered(l: Ledger, wf: Workflow, init: WorkflowInit, actor: Actor, random: string, now: int)
    requires l.WellFormed()
    ensures var s := Execute(l, wf, init, actor, random, now);
      && AnswersWith(s.result, ExecutionAnswer(l, wf, init, actor.caller, now))
      && (s.result.Success? ==>
            && s.result.value.status == SETTLED && AsAsked(s.result.value, wf, init, now)
            && |s.ledger.log| == |l.log| + 1
            && EntryOf(s.ledger.log[|l.log|], wf, s.result.value, random, now))
  {
    hide Refusal, Effect, CreationAnswer, SettlementAnswer;
    var record := BuildRecord(wf, init, SETTLED, now);
    CreationIsAnswered(l, wf, init, SETTLED, actor.caller, now);
    if CreationAnswer(l, wf, init, actor.caller, now).None? {
      AdmittedPassesTheGuards(l, wf, init, actor.caller, now);
      SettlementIsAnswered(l, wf, record, actor.caller, now);
    }
    ExecutionIsLogged(l, wf, init, actor, random, now);
  }

  lemma AdmittedPassesTheGuards(l: Ledger, wf: Workflow, init: WorkflowInit, caller: Caller, now: int)
    requires CreationAnswer(l, wf, init, caller, now).None?
    ensures Refusal(l, wf, ApprovePhase, BuildRecord(wf, init, SETTLED, now), caller, now).None?
  {
  }

  lemma ExecutionIsLogged(l: Ledger, wf: Workflow, init: WorkflowInit, actor: Actor, random: string, now: int)
    requires l.WellFormed()
    ensures var s := Execute(l, wf, init, actor, random, now);
      s.result.Success? ==>
        && s.result.value == BuildRecord(wf, init, SETTLED, now)
        && |s.ledger.log| == |l.log| + 1 && s.ledger.log[|l.log|] == TransactionOf(wf, s.result.value, random, now)
  {
    hide Refusal, Effect, Posts;
    ExecuteAccounts(l, wf, init, actor, random, now);
  }

  /** A one-step payment goes through if and only if its caller may pay from the one wallet and the other is there. */
  lemma PaysExactly(l: Ledger, init: WorkflowInit, actor: Actor, random: string, now: int)
    requires l.WellFormed()
    ensures Execute(l, Payment, init, actor, random, now).result.Success? <==>
      MayPay(l, init.debitedWalletAlias, init.amount, actor.caller, now) && l.HasWallet(init.creditedWalletAlias)
  {
    hide Execute, DebitAnswer, CanSettle, MayPay;
    ExecutionIsAnswered(l, Payment, init, actor, random, now);
    SettlesWhenItCan(l, Payment, init.debitedWalletAlias, init.creditedWalletAlias, init.amount, actor.caller, now);
    CanPayAndCredit(l, init, actor.caller, now);
  }

  lemma CanPayAndCredit(l: Ledger, init: WorkflowInit, caller: Caller, now: int)
    ensures CanSettle(l, Payment, init.debitedWalletAlias, init.creditedWalletAlias, init.amount, caller, now) <==>
      MayPay(l, init.debitedWalletAlias, init.amount, caller, now) && l.HasWallet(init.creditedWalletAlias)
    ensures MayPay(l, init.debitedWalletAlias, init.amount, caller, now) ==> l.HasWallet(init.debitedWalletAlias)
  {
  }
}
