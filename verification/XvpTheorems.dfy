/**
 * What holds of every interleaving of XvP calls with everything else: it has the effect of the
 * same operations run one at a time, it never gives away both keys of an XvP, and what it once
 * reports as final stays so.
 */
module XvpTheorems {
  import opened Wrappers
  import opened Domain
  import opened Ledgers
  import opened Settlements
  import opened Xvps
  import opened Histories
  import opened Accounts
  import opened DraftTable
  import opened Lifecycle
  import opened XvpRuns
  import opened Reconciliation
  import opened PfodMatching
  import L = XvpLocks

  // ----- refinement to atomic operations -----

  /** An operation run whole: a payment reads the clock once to be admitted, once to settle. */
  datatype AtomicOp =
    | Sync(action: Action)
    | AtomicGet(n: nat, id: string, now: int)
    | AtomicPay(n: nat, id: string, payment: PaymentParams, admitted: int, settled: int)

  /** The store and the answers given, by call. */
  datatype Atomic = Atomic(h: History, answers: map<nat, Outcome>)

  function PayOutcome(s: Step<PaymentResult>): Outcome {
    match s.result
    case Success(result) => Paid(result)
    case Failure(e) => Refused(e)
  }

  /** The history of one whole payment: its admission, and its settlement if it was admitted. */
  function PayHistory(h: History, id: string, p: PaymentParams, admitted: int, settled: int): History {
    var h' := Act(h, AdmitXvp(id, p, admitted));
    match Admit(h.ledger, id, p, admitted).result
    case Failure(_) => h'
    case Success(rec) => Act(h', SettleXvp(rec, p, settled))
  }

  function Run(s: Atomic, op: AtomicOp): Atomic {
    match op
    case Sync(a) => s.(h := Act(s.h, a))
    case AtomicGet(n, id, now) =>
      Atomic(Act(s.h, ObserveXvp(id, now)), s.answers[n := Found(Observe(s.h.ledger, id, now).1)])
    case AtomicPay(n, id, p, admitted, settled) =>
      Atomic(PayHistory(s.h, id, p, admitted, settled),
             s.answers[n := PayOutcome(Pay(s.h.ledger, id, p, admitted, settled))])
  }

  function RunAll(day: BusinessDay, ops: seq<AtomicOp>): Atomic {
    if ops == [] then Atomic(Histories.Start(day), map[])
    else Run(RunAll(day, ops[..|ops| - 1]), ops[|ops| - 1])
  }

  /** The atomic operation an event commits, if it commits one. */
  function CommitOf(w: World, e: Event): Option<AtomicOp> {
    match e
    case Other(a) => Some(Sync(a))
    case Begin(n, now) =>
      if n >= |w.calls| || n >= |w.lock.tickets| then None
      else
        var id := w.lock.tickets[n].id;
        (match w.calls[n].call
         case PostPayment(p) =>
           if Admit(w.h.ledger, id, p, now).result.Success? then None else Some(AtomicPay(n, id, p, now, now))
         case _ => Some(AtomicGet(n, id, now)))
    case Resume(n, now) =>
      if n >= |w.calls| || n >= |w.lock.tickets| || !w.calls[n].call.PostPayment? || w.calls[n].admission.None? then
        None
      else Some(AtomicPay(n, w.lock.tickets[n].id, w.calls[n].call.payment, w.calls[n].admission.value.now, now))
    case _ => None
  }

  /** The operations committed by the first `i` events, in the order they commit. */
  function Commits(ws: seq<World>, events: seq<Event>, i: nat): seq<AtomicOp>
    requires |ws| == |events| + 1 && i <= |events|
  {
    if i == 0 then []
    else
      var op := CommitOf(ws[i - 1], events[i - 1]);
      Commits(ws, events, i - 1) + if op.Some? then [op.value] else []
  }

  /** The answers given so far. */
  function Answers(w: World): map<nat, Outcome> {
    map n: nat | n < |w.calls| && w.calls[n].outcome.Some? :: w.calls[n].outcome.value
  }

  /** The ledger of a payment run whole is the one `Pay` describes. */
  lemma PayHistoryIsPay(h: History, id: string, p: PaymentParams, admitted: int, settled: int)
    ensures PayHistory(h, id, p, admitted, settled).ledger == Pay(h.ledger, id, p, admitted, settled).ledger
  {
  }

  /** A suspended payment would be admitted again, on the same record, without changing anything. */
  lemma AdmittedAgain(w: World, n: nat, now: int)
    requires WorldInv(w) && Possible(w, Resume(n, now))
    ensures var c, id := w.calls[n], w.lock.tickets[n].id;
      var s := Admit(w.h.ledger, id, c.call.payment, c.admission.value.now);
      s == Step(w.h.ledger, Success(c.admission.value.record))
  {
    assert CallSound(w.h.ledger, w.lock.tickets[n], w.calls[n]);
  }

  /** Admitting it again and settling is one whole payment. */
  lemma AdmittedPayIsWhole(h: History, id: string, p: PaymentParams, admitted: int, settled: int, rec: XvpRecord)
    requires Admit(h.ledger, id, p, admitted) == Step(h.ledger, Success(rec))
    ensures PayHistory(h, id, p, admitted, settled) == Act(h, SettleXvp(rec, p, settled))
    ensures Pay(h.ledger, id, p, admitted, settled) == Settle(h.ledger, rec, p, settled)
  {
    assert Act(h, AdmitXvp(id, p, admitted)) == h;
  }

  lemma ResumeCommitsPay(w: World, n: nat, now: int)
    requires WorldInv(w) && Possible(w, Resume(n, now))
    ensures var v := ResumeCall(w, n, now);
      Run(Atomic(w.h, Answers(w)), CommitOf(w, Resume(n, now)).value) == Atomic(v.h, Answers(v))
  {
    hide Sound, Committed, L.LockInv, Settle;
    var c, id := w.calls[n], w.lock.tickets[n].id;
    AdmittedAgain(w, n, now);
    AdmittedPayIsWhole(w.h, id, c.call.payment, c.admission.value.now, now, c.admission.value.record);
    AnswerGiven(w, ResumeCall(w, n, now), n);
  }

  /** Recording one call's answer. */
  lemma AnswerGiven(w: World, v: World, n: nat)
    requires n < |w.calls| == |v.calls| && v.calls == w.calls[n := v.calls[n]]
    ensures v.calls[n].outcome.Some? ==> Answers(v) == Answers(w)[n := v.calls[n].outcome.value]
    ensures v.calls[n].outcome == w.calls[n].outcome ==> Answers(v) == Answers(w)
  {
  }

  lemma BeginCommits(w: World, n: nat, now: int)
    requires WorldInv(w) && Possible(w, Begin(n, now))
    ensures var v, op := BeginCall(w, n, now), CommitOf(w, Begin(n, now));
      if op.Some? then Run(Atomic(w.h, Answers(w)), op.value) == Atomic(v.h, Answers(v))
      else v.h == w.h && Answers(v) == Answers(w)
  {
    AnswerGiven(w, BeginCall(w, n, now), n);
    if w.calls[n].call.PostPayment? {
      AdmissionChangesNothing(w.h, w.lock.tickets[n].id, w.calls[n].call.payment, now);
    }
  }

  /** Admitting a payment writes nothing; only a refusal can leave an expiry behind. */
  lemma AdmissionChangesNothing(h: History, id: string, p: PaymentParams, now: int)
    requires h.ledger.WellFormed() && Filed(h.ledger)
    ensures Admit(h.ledger, id, p, now).result.Success? ==> Act(h, AdmitXvp(id, p, now)) == h
  {
    ObserveAnswers(h.ledger, id, now);
  }

  /** Each event either commits one atomic operation or changes neither the store nor an answer. */
  lemma EventCommits(w: World, e: Event)
    requires WorldInv(w) && Possible(w, e)
    ensures var v, op := Happen(w, e), CommitOf(w, e);
      if op.Some? then Run(Atomic(w.h, Answers(w)), op.value) == Atomic(v.h, Answers(v))
      else v.h == w.h && Answers(v) == Answers(w)
  {
    hide Act, Observe, Admit, Settle, Sound, Committed, L.LockInv;
    match e
    case Begin(n, now) => BeginCommits(w, n, now);
    case Resume(n, now) => ResumeCommitsPay(w, n, now);
    case Invoke(_, _) => assert Answers(Happen(w, e)) == Answers(w);
    case Other(_) => assert Answers(Happen(w, e)) == Answers(w);
    case _ => assert Answers(Happen(w, e)) == Answers(w);
  }

  /**
   * Refinement: every interleaved run leaves the same wallets, drafts and log, and gives every call
   * the same answer, as its operations run whole, one after the other, in the order they commit.
   */
  lemma {:induction false} InterleavingIsAtomic(ws: seq<World>, events: seq<Event>, i: nat, day: BusinessDay)
    requires IsWorldRun(ws, events) && i < |ws| && ws[0] == NewWorld(day)
    ensures RunAll(day, Commits(ws, events, i)) == Atomic(ws[i].h, Answers(ws[i]))
  {
    hide Run, CommitOf, Happen, Possible, WorldInv, Act;
    if i == 0 {
      assert Answers(ws[0]) == map[];
    } else {
      InterleavingIsAtomic(ws, events, i - 1, day);
      EveryWorldIsSound(ws, events, i - 1);
      EventCommits(ws[i - 1], events[i - 1]);
      var before, op := Commits(ws, events, i - 1), CommitOf(ws[i - 1], events[i - 1]);
      if op.Some? {
        assert Commits(ws, events, i)[..|Commits(ws, events, i)| - 1] == before;
      } else {
        assert Commits(ws, events, i) == before;
      }
    }
  }

  // ----- the two keys -----

  /** Call `n` has told its caller the execution key `key` of XvP `id`. */
  predicate RevealsExecution(w: World, n: nat, id: string, key: string) {
    && n < |w.calls| && n < |w.lock.tickets| && w.lock.tickets[n].id == id && w.calls[n].outcome.Some?
    && match w.calls[n].outcome.value
       case Found(Some(rec)) =>
         w.calls[n].call == GetPayment(EXECUTION) && DisclosedKey(rec, EXECUTION) == Some(key)
       case Paid(result) => result.executionKey == key
       case _ => false
  }

  /**
   * Call `n` has told its caller the cancellation key `key` of XvP `id`. A payment's result holds both
   * keys, but the route passes on the execution key only, so a payment never reveals this one.
   */
  predicate RevealsCancellation(w: World, n: nat, id: string, key: string) {
    && n < |w.calls| && n < |w.lock.tickets| && w.lock.tickets[n].id == id && w.calls[n].outcome.Some?
    && w.calls[n].outcome.value.Found? && w.calls[n].outcome.value.record.Some?
    && w.calls[n].call == GetPayment(CANCELLATION)
    && DisclosedKey(w.calls[n].outcome.value.record.value, CANCELLATION) == Some(key)
  }

  /** A revealed execution key: the XvP is settled, and the key is the committed one. */
  lemma ExecutionMeansSettled(w: World, n: nat, id: string, key: string)
    requires WorldInv(w) && RevealsExecution(w, n, id, key)
    ensures HasXvp(w.h.ledger, id) && w.h.ledger.drafts.entries[id].status == SETTLED
    ensures id in w.h.commitments && key == w.h.commitments[id].terms.executionKey
    ensures w.h.commitments[id].hash(key) == w.h.commitments[id].terms.executionHash
  {
    assert CallSound(w.h.ledger, w.lock.tickets[n], w.calls[n]);
    assert KeepsTerms(w.h, id);
  }

  /** A revealed cancellation key: the XvP has expired, and the key is the committed one. */
  lemma CancellationMeansExpired(w: World, n: nat, id: string, key: string)
    requires WorldInv(w) && RevealsCancellation(w, n, id, key)
    ensures HasXvp(w.h.ledger, id) && w.h.ledger.drafts.entries[id].status == EXPIRED
    ensures id in w.h.commitments && key == w.h.commitments[id].terms.cancellationKey
    ensures w.h.commitments[id].hash(key) == w.h.commitments[id].terms.cancellationHash
  {
    assert CallSound(w.h.ledger, w.lock.tickets[n], w.calls[n]);
    assert KeepsTerms(w.h, id);
  }

  /** No run, whatever the scheduler and the clock do, gives away both keys of one XvP. */
  lemma NeverBothKeys(ws: seq<World>, events: seq<Event>, i: nat, id: string, m: nat, n: nat, k1: string, k2: string)
    requires IsWorldRun(ws, events) && i < |ws|
    ensures !(RevealsExecution(ws[i], m, id, k1) && RevealsCancellation(ws[i], n, id, k2))
  {
    EveryWorldIsSound(ws, events, i);
    if RevealsExecution(ws[i], m, id, k1) && RevealsCancellation(ws[i], n, id, k2) {
      ExecutionMeansSettled(ws[i], m, id, k1);
      CancellationMeansExpired(ws[i], n, id, k2);
    }
  }

  /** Entry `e` of the log is the cash leg of XvP `id`, for the amount and to the seller agreed at init. */
  ghost predicate CashLeg(h: History, e: nat, id: string) {
    && e < |h.origins| == |h.ledger.log| && h.origins[e] == FromXvp(id)
    && id in h.commitments
    && h.ledger.log[e].kind == XVP
    && h.ledger.log[e].amount == h.commitments[id].amount
    && h.ledger.log[e].currency == h.commitments[id].currency
    && h.ledger.log[e].creditedWalletAlias == h.commitments[id].sellerWalletAlias
  }

  /** Every call keeps its id and its question, and every answer already given stands. */
  ghost predicate AnswersStand(w: World, v: World) {
    && |w.calls| == |w.lock.tickets| <= |v.calls| == |v.lock.tickets|
    && (forall n :: 0 <= n < |w.calls| ==>
          v.lock.tickets[n].id == w.lock.tickets[n].id && v.calls[n].call == w.calls[n].call
          && (w.calls[n].outcome.Some? ==> v.calls[n].outcome == w.calls[n].outcome))
  }

  lemma MovedAnswersStand(w: World, v: World, n: nat)
    requires n < |w.calls| == |w.lock.tickets| && MovesOn(w, v, n)
    requires w.calls[n].outcome.None? && v.calls[n].call == w.calls[n].call
    ensures AnswersStand(w, v)
  {
  }

  lemma HappenKeepsAnswers(w: World, e: Event)
    requires WorldInv(w) && Possible(w, e)
    ensures AnswersStand(w, Happen(w, e))
  {
    hide Act, Observe, Sound, Committed, L.LockInv;
    match e
    case Begin(n, now) =>
      WaitingHasNoAnswer(w, n);
      BeginMovesOn(w, n, now);
      MovedAnswersStand(w, BeginCall(w, n, now), n);
    case Resume(n, now) =>
      ResumeIsLegal(w, n, now);
      ResumedCallIsSound(w, n, now);
      MovedAnswersStand(w, ResumeCall(w, n, now), n);
    case _ =>
  }

  lemma ActionIsLegal(w: World, e: Event)
    requires WorldInv(w) && Possible(w, e)
    ensures match ActionOf(w, e)
      case Some(a) => Legal(w.h, a) && Happen(w, e).h == Act(w.h, a)
      case None => Happen(w, e).h == w.h
  {
    if e.Resume? { ResumeIsLegal(w, e.n, e.now); }
  }

  /** What was written stays written, and every XvP keeps its agreement. */
  ghost predicate OnlyGrown(h: History, k: History) {
    && h.origins <= k.origins
    && (forall id :: HasXvp(h.ledger, id) ==>
          HasXvp(k.ledger, id) && Evolves(h.ledger.drafts.entries[id], k.ledger.drafts.entries[id]))
  }

  lemma OriginsGrow(h: History, a: Action)
    requires Sound(h) && Legal(h, a)
    ensures h.origins <= Act(h, a).origins
  {
    hide Act, Legal, NewOrigin, Posted;
    ActOrigins(h, a);
  }

  lemma XvpEvolves(h: History, a: Action, id: string)
    requires Sound(h) && Legal(h, a) && HasXvp(h.ledger, id)
    ensures HasXvp(Act(h, a).ledger, id) && Evolves(h.ledger.drafts.entries[id], Act(h, a).ledger.drafts.entries[id])
  {
    hide Act, Legal, SettlesDraft;
    ActEvolves(h, a, id);
  }

  lemma ActOnlyGrows(h: History, a: Action)
    requires Sound(h) && Legal(h, a)
    ensures OnlyGrown(h, Act(h, a))
  {
    hide Act, Legal, Sound, Evolves;
    OriginsGrow(h, a);
    forall id | HasXvp(h.ledger, id)
      ensures HasXvp(Act(h, a).ledger, id)
              && Evolves(h.ledger.drafts.entries[id], Act(h, a).ledger.drafts.entries[id])
    {
      XvpEvolves(h, a, id);
    }
  }

  lemma HappenGrows(w: World, e: Event)
    requires WorldInv(w) && Possible(w, e)
    ensures OnlyGrown(w.h, Happen(w, e).h)
  {
    hide Act, Happen, Possible, Legal;
    ActionIsLegal(w, e);
    if ActionOf(w, e).Some? {
      ActOnlyGrows(w.h, ActionOf(w, e).value);
    }
  }

  /** The action on the store an event performs, if any. */
  function ActionOf(w: World, e: Event): Option<Action> {
    match e
    case Other(a) => Some(a)
    case Begin(n, now) =>
      if n < |w.calls| == |w.lock.tickets| then Some(FirstSegment(w, n, now)) else None
    case Resume(n, now) =>
      if n < |w.calls| && w.calls[n].call.PostPayment? && w.calls[n].admission.Some? then
        Some(SettleXvp(w.calls[n].admission.value.record, w.calls[n].call.payment, now))
      else None
    case _ => None
  }

  lemma HistoryOnlyGrows(h: History, k: History, m: History)
    requires h.origins <= k.origins <= m.origins
    ensures h.origins <= m.origins
  {
  }

  lemma AnswersStandOn(w: World, v: World, u: World)
    requires AnswersStand(w, v) && AnswersStand(v, u)
    ensures AnswersStand(w, u)
  {
  }

  /** What has been answered stays answered, and what was written stays written. */
  lemma {:induction false} RunsOnlyGrow(ws: seq<World>, events: seq<Event>, i: nat, j: nat)
    requires IsWorldRun(ws, events) && i <= j < |ws|
    ensures ws[i].h.origins <= ws[j].h.origins && AnswersStand(ws[i], ws[j])
    decreases j
  {
    hide Happen, Possible, WorldInv, AnswersStand, Evolves, HasXvp;
    if i < j {
      RunsOnlyGrow(ws, events, i, j - 1);
      EveryWorldIsSound(ws, events, j - 1);
      HappenGrows(ws[j - 1], events[j - 1]);
      HappenKeepsAnswers(ws[j - 1], events[j - 1]);
      HistoryOnlyGrows(ws[i].h, ws[j - 1].h, ws[j].h);
      AnswersStandOn(ws[i], ws[j - 1], ws[j]);
    } else {
      EveryWorldIsSound(ws, events, i);
      NothingIsForgotten(ws[i]);
    }
  }

  lemma NothingIsForgotten(w: World)
    requires WorldInv(w)
    ensures AnswersStand(w, w)
  {
  }

  /** The event is a settlement that half-applies: never one of an XvP. */
  predicate LosesMoneyAt(w: World, e: Event) {
    e.Other? && LosesMoney(w.h, e.action)
  }

  /** A balance that changes is the doing of a new log entry, not put down to XvP `id`, or is money lost. */
  ghost predicate MovesForOthers(w: World, e: Event, k: History, id: string) {
    forall alias :: Balance(k.ledger, alias) != Balance(w.h.ledger, alias) ==>
      LosesMoneyAt(w, e) || exists o :: k.origins == w.h.origins + [o] && o != FromXvp(id)
  }

  lemma OnlyOthersLose(w: World, e: Event)
    ensures ActionOf(w, e).Some? ==> (LosesMoney(w.h, ActionOf(w, e).value) <==> LosesMoneyAt(w, e))
    ensures ActionOf(w, e).None? ==> !LosesMoneyAt(w, e)
  {
    hide HalfApproves, HalfExecutes;
  }

  /** Balances change only with a new log entry, or when money is lost. */
  lemma BalancesMoveByEntries(w: World, e: Event, id: string)
    requires WorldInv(w) && Possible(w, e)
    ensures FromXvp(id) !in Happen(w, e).h.origins ==> MovesForOthers(w, e, Happen(w, e).h, id)
  {
    hide Happen, Possible, Act, Legal, Posted, LosesMoney, LostFrom, LosesMoneyAt, Loses;
    ActionIsLegal(w, e);
    OnlyOthersLose(w, e);
    if ActionOf(w, e).Some? { ActOrigins(w.h, ActionOf(w, e).value); }
  }

  /** Once a cancellation key is out, no money moves for that XvP: not before, not afterwards. */
  lemma CancellationMeansNoMoney(ws: seq<World>, events: seq<Event>, i: nat, j: nat, id: string, n: nat, key: string)
    requires IsWorldRun(ws, events) && i < |ws| && j < |ws| && RevealsCancellation(ws[i], n, id, key)
    ensures FromXvp(id) !in ws[j].h.origins
    ensures j > 0 ==> MovesForOthers(ws[j - 1], events[j - 1], ws[j].h, id)
  {
    hide Possible, Happen, Sound, Committed, L.LockInv, MovesForOthers;
    if j > 0 {
      EveryWorldIsSound(ws, events, j - 1);
      BalancesMoveByEntries(ws[j - 1], events[j - 1], id);
    }
    var k := if i < j then j else i;
    RunsOnlyGrow(ws, events, i, k);
    RunsOnlyGrow(ws, events, j, k);
    EveryWorldIsSound(ws, events, k);
    CancellationMeansExpired(ws[k], n, id, key);
    ExpiredMovedNothing(ws[k], id);
  }

  lemma ExpiredMovedNothing(w: World, id: string)
    requires WorldInv(w) && HasXvp(w.h.ledger, id) && w.h.ledger.drafts.entries[id].status == EXPIRED
    ensures FromXvp(id) !in w.h.origins
  {
    forall e | 0 <= e < |w.h.origins| ensures w.h.origins[e] != FromXvp(id) {
      assert EntryTraced(w.h, e);
    }
  }

  // ----- the final report -----

  /** What GET payment reports for the stored record. */
  function ReportAt(w: World, id: string): Report
    requires HasXvp(w.h.ledger, id)
  {
    ReportOf(Shape(w.h.ledger.drafts.entries[id]))
  }

  /** The report changes at most once, away from PENDING, whatever later calls and clocks do. */
  lemma {:induction false} ReportIsFinal(ws: seq<World>, events: seq<Event>, i: nat, j: nat, id: string)
    requires IsWorldRun(ws, events) && i <= j < |ws| && HasXvp(ws[i].h.ledger, id)
    ensures HasXvp(ws[j].h.ledger, id)
    ensures ReportAt(ws[i], id) != ReportPending ==>
      && ws[j].h.ledger.drafts.entries[id] == ws[i].h.ledger.drafts.entries[id]
      && ReportAt(ws[j], id) == ReportAt(ws[i], id)
    decreases j
  {
    hide Happen, Possible;
    if i == j {
    } else {
      ReportIsFinal(ws, events, i, j - 1, id);
      EveryWorldIsSound(ws, events, j - 1);
      HappenGrows(ws[j - 1], events[j - 1]);
      assert FiledUnder(id, ws[j - 1].h.ledger.drafts.entries[id]);
    }
  }

  /** Every final report ever answered for an XvP is the one the ledger still gives. */
  lemma AnswersAgree(ws: seq<World>, events: seq<Event>, i: nat, n: nat, rec: XvpRecord)
    requires IsWorldRun(ws, events) && i < |ws| && n < |ws[i].calls| && n < |ws[i].lock.tickets|
    requires ws[i].calls[n].outcome == Some(Found(Some(rec))) && ReportOf(rec) != ReportPending
    ensures HasXvp(ws[i].h.ledger, ws[i].lock.tickets[n].id)
    ensures ReportAt(ws[i], ws[i].lock.tickets[n].id) == ReportOf(rec)
  {
    EveryWorldIsSound(ws, events, i);
    assert CallSound(ws[i].h.ledger, ws[i].lock.tickets[n], ws[i].calls[n]);
  }

  /** A participant named on both sides is the same. */
  predicate SameParty(agreed: string, paying: string) {
    agreed == "" || paying == "" || agreed == paying
  }

  /** A payment is admitted exactly when the XvP is open, in time, and agreed on these very terms. */
  lemma AdmittedExactlyAsAgreed(l: Ledger, id: string, p: PaymentParams, now: int)
    ensures var s := Admit(l, id, p, now);
      s.result.Success? <==>
        && HasXvp(l, id)
        && var d := l.drafts.entries[id];
        && d.status == INITIALIZED && (d.expiresAt.Some? ==> now <= d.expiresAt.value)
        && p.amount == d.amount && p.currency == d.currency
        && SameParty(d.supplementaryData.terms.buyerBic, p.buyerBic)
        && SameParty(d.supplementaryData.terms.sellerBic, p.sellerBic)
    ensures var s := Admit(l, id, p, now);
      s.result.Success? ==> s.ledger == l && s.result.value == Shape(l.drafts.entries[id])
  {
  }

  /** A payment of `id` that was ever admitted. */
  predicate WasAdmitted(w: World, n: nat, id: string) {
    n < |w.calls| && n < |w.lock.tickets| && w.lock.tickets[n].id == id && w.calls[n].admission.Some?
  }

  /**
   * BURNED exactly when the XvP expired with no payment ever admitted; UNSETTLED exactly when it
   * expired after admitted payments, every one of which was refused.
   */
  lemma BurnedOrUnsettled(ws: seq<World>, events: seq<Event>, i: nat, id: string)
    requires IsWorldRun(ws, events) && i < |ws| && HasXvp(ws[i].h.ledger, id)
    ensures ReportAt(ws[i], id) == ReportBurned <==>
      ws[i].h.ledger.drafts.entries[id].status == EXPIRED && forall n: nat :: !WasAdmitted(ws[i], n, id)
    ensures ReportAt(ws[i], id) == ReportUnsettled <==>
      ws[i].h.ledger.drafts.entries[id].status == EXPIRED && exists n: nat :: WasAdmitted(ws[i], n, id)
    ensures ReportAt(ws[i], id) == ReportUnsettled ==>
      forall n: nat :: WasAdmitted(ws[i], n, id) ==>
        ws[i].calls[n].outcome.Some? && ws[i].calls[n].outcome.value.Refused?
  {
    var w := ws[i];
    EveryWorldIsSound(ws, events, i);
    assert FlagSound(w, id) && FiledUnder(id, w.h.ledger.drafts.entries[id]);
    if w.h.ledger.drafts.entries[id].status == EXPIRED {
      forall n: nat | WasAdmitted(w, n, id)
        ensures Attempted(w.lock.tickets[n], w.calls[n], id) && w.calls[n].outcome.value.Refused?
      {
        assert CallSound(w.h.ledger, w.lock.tickets[n], w.calls[n]);
      }
      if SomeAttempt(w.lock.tickets, w.calls, id) {
        var n :| 0 <= n < |w.calls| && Attempted(w.lock.tickets[n], w.calls[n], id);
        assert WasAdmitted(w, n, id);
      }
    }
  }

  /**
   * Why ids must be new: `init` does not look, and over a stored XvP it keeps the report exactly when
   * the transaction type is refused or the stored record is still open.
   */
  lemma ReinitKeepsReport(l: Ledger, p: XvpInitParams, s: Secrets, hash: string -> string, now: int)
    requires l.WellFormed() && Filed(l) && HasXvp(l, p.xvpTransactionId)
    ensures var id, step := p.xvpTransactionId, Init(l, p, s, hash, now);
      && HasXvp(step.ledger, id)
      && (ReportOf(Shape(step.ledger.drafts.entries[id])) == ReportOf(Shape(l.drafts.entries[id]))
          <==> || (p.transactionType != "DVP" && p.transactionType != "PVP")
               || l.drafts.entries[id].status == INITIALIZED)
  {
    assert FiledUnder(p.xvpTransactionId, l.drafts.entries[p.xvpTransactionId]);
  }

  /** A payment that fails moves no money and writes at most the attempted flag or the expiry. */
  lemma FailedPayChangesLittle(h: History, id: string, p: PaymentParams, admitted: int, settled: int)
    requires Sound(h) && Pay(h.ledger, id, p, admitted, settled).result.Failure?
    ensures var l, m := h.ledger, Pay(h.ledger, id, p, admitted, settled).ledger;
      && Quiet(l, m)
      && (forall x :: x != id ==> Untouched(l, m, x))
      && (!HasXvp(l, id) ==> m == l)
      && (HasXvp(l, id) ==>
            || m == MarkPaymentAttempted(l, id, settled)
            || m == Observe(l, id, admitted).0)
  {
    var l := h.ledger;
    ObserveAnswers(l, id, admitted);
    ObserveAccounts(l, id, admitted);
    forall x | x != id ensures Untouched(l, Observe(l, id, admitted).0, x) { ObserveFrame(l, id, admitted, x); }
    match Admit(l, id, p, admitted).result
    case Failure(_) =>
    case Success(rec) =>
      SettleRejected(l, rec, p, settled);
      MarkAccounts(l, id, settled);
  }

  // ----- the order of the commits -----

  predicate IsCall(op: AtomicOp) {
    !op.Sync?
  }

  /** A call that commits has not been answered yet, and its turn is on. */
  lemma CommittingTurn(w: World, e: Event)
    requires WorldInv(w) && Possible(w, e) && CommitOf(w, e).Some? && IsCall(CommitOf(w, e).value)
    ensures var op, v := CommitOf(w, e).value, Happen(w, e);
      && op.n < |w.calls| && w.calls[op.n].outcome.None? && w.lock.tickets[op.n].id == op.id
      && (w.lock.tickets[op.n].phase == L.Running || L.Enabled(w.lock, L.Start(op.n)))
      && op.n < |v.calls| && v.calls[op.n].outcome.Some?
  {
    if e.Begin? { WaitingHasNoAnswer(w, e.n); }
    if e.Resume? { ResumeIsLegal(w, e.n, e.now); }
  }

  /** Once a call of an id has been answered, no earlier call of that id is still to have its turn. */
  lemma AnsweredInOrder(w: World, m: nat, n: nat)
    requires WorldInv(w) && m < |w.calls| && n < |w.calls| && w.lock.tickets[m].id == w.lock.tickets[n].id
    requires w.calls[m].outcome.Some? && w.calls[n].outcome.None?
    requires w.lock.tickets[n].phase == L.Running || L.Enabled(w.lock, L.Start(n))
    ensures m < n
  {
    assert CallSound(w.h.ledger, w.lock.tickets[m], w.calls[m]);
    assert L.TurnTaken(w.lock, m);
  }

  /** Each call committed so far has been answered, under the id it was made with. */
  ghost predicate AllAnswered(w: World, ops: seq<AtomicOp>) {
    forall k :: 0 <= k < |ops| && IsCall(ops[k]) ==>
      && ops[k].n < |w.calls| && ops[k].n < |w.lock.tickets|
      && w.lock.tickets[ops[k].n].id == ops[k].id && w.calls[ops[k].n].outcome.Some?
  }

  /** Calls of one id stand in the order they were made in. */
  ghost predicate InCallOrder(ops: seq<AtomicOp>) {
    forall j, k :: 0 <= j < k < |ops| && IsCall(ops[j]) && IsCall(ops[k]) && ops[j].id == ops[k].id ==>
        ops[j].n < ops[k].n
  }

  lemma CommitKeepsOrder(w: World, e: Event, ops: seq<AtomicOp>)
    requires WorldInv(w) && Possible(w, e) && AllAnswered(w, ops) && InCallOrder(ops)
    ensures var op := CommitOf(w, e);
      var more := ops + if op.Some? then [op.value] else [];
      AllAnswered(Happen(w, e), more) && InCallOrder(more)
  {
    hide CommitOf, Happen, Possible;
    var op := CommitOf(w, e);
    HappenKeepsAnswers(w, e);
    if op.Some? && IsCall(op.value) {
      CommittingTurn(w, e);
      forall j | 0 <= j < |ops| && IsCall(ops[j]) && ops[j].id == op.value.id ensures ops[j].n < op.value.n {
        AnsweredInOrder(w, ops[j].n, op.value.n);
      }
    }
  }

  /** The atomic order respects the order of the calls: per XvP id, first called is first committed. */
  lemma {:induction false} CommitsInCallOrder(ws: seq<World>, events: seq<Event>, i: nat)
    requires IsWorldRun(ws, events) && i < |ws|
    ensures InCallOrder(Commits(ws, events, i)) && AllAnswered(ws[i], Commits(ws, events, i))
  {
    hide CommitOf, Happen, Possible, WorldInv;
    if i == 0 {
    } else {
      CommitsInCallOrder(ws, events, i - 1);
      EveryWorldIsSound(ws, events, i - 1);
      CommitKeepsOrder(ws[i - 1], events[i - 1], Commits(ws, events, i - 1));
    }
  }

  // ----- the ledger and the trades under interleaving -----

  /**
   * Interleaving XvP calls does not break the matching of trades, and the books are in order exactly as
   * long as no other settlement has half-applied.
   */
  lemma {:induction false} BooksBalanceUnderInterleaving(ws: seq<World>, events: seq<Event>, i: nat)
    requires IsWorldRun(ws, events) && i < |ws|
    ensures Matching(ws[i].h) && NeverOver(ws[i].h.ledger)
    ensures InOrder(ws[i].h.ledger) <==> forall k :: 0 <= k < i ==> !LosesMoneyAt(ws[k], events[k])
  {
    hide Matching, InOrder, NeverOver, Act, Happen, Possible, LosesMoneyAt;
    if i == 0 {
      var day :| ws[0] == NewWorld(day);
      StartMatches(day);
      NothingToBalance(day);
    } else {
      BooksBalanceUnderInterleaving(ws, events, i - 1);
      EveryWorldIsSound(ws, events, i - 1);
      HappenKeepsBooks(ws[i - 1], events[i - 1]);
    }
  }

  lemma HappenKeepsBooks(w: World, e: Event)
    requires WorldInv(w) && Possible(w, e) && Matching(w.h) && NeverOver(w.h.ledger)
    ensures var k := Happen(w, e).h;
      && Matching(k) && NeverOver(k.ledger) && (InOrder(k.ledger) <==> InOrder(w.h.ledger) && !LosesMoneyAt(w, e))
  {
    hide Matching, InOrder, NeverOver, Act, Legal, Happen, Possible, LosesMoneyAt, LosesMoney;
    ActionIsLegal(w, e);
    OnlyOthersLose(w, e);
    if ActionOf(w, e).Some? {
      ActKeepsBooks(w.h, ActionOf(w, e).value);
      ActKeepsMatching(w.h, ActionOf(w, e).value);
    }
  }
}
