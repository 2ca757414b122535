/**
 * XvP calls in flight: the lock, the two segments of a payment, and every other operation on the
 * store in between, under an adversarial scheduler and a clock that may read anything. Each
 * invocation of a route is a ticket of the lock; its answer is recorded when its body ends.
 */
module XvpRuns {
  import opened Wrappers
  import opened Domain
  import opened Ledgers
  import opened Settlements
  import opened Xvps
  import opened Histories
  import opened Accounts
  import opened DraftTable
  import opened Lifecycle
  import L = XvpLocks

  datatype XvpCall = GetStatus | GetPayment(requested: KeyType) | PostPayment(payment: PaymentParams)

  /** What a payment was admitted on, and when. */
  datatype Admission = Admission(record: XvpRecord, now: int)

  datatype Outcome = Found(record: Option<XvpRecord>) | Paid(result: PaymentResult) | Refused(rejection: Rejection)

  datatype CallState = CallState(call: XvpCall, admission: Option<Admission>, outcome: Option<Outcome>)

  datatype World = World(h: History, lock: L.Lock, calls: seq<CallState>)

  datatype Event =
    | Invoke(id: string, call: XvpCall)
    | Begin(n: nat, now: int)
    | Resume(n: nat, now: int)
    | Release(n: nat)
    | CleanUp(n: nat)
    | Other(action: Action)

  function NewWorld(day: BusinessDay): World {
    World(Histories.Start(day), L.NewLock(), [])
  }

  predicate IsXvpBody(a: Action) {
    a.ObserveXvp? || a.AdmitXvp? || a.SettleXvp?
  }

  /** What may happen next; a payment resumes whenever the scheduler likes. */
  ghost predicate Possible(w: World, e: Event) {
    && |w.calls| == |w.lock.tickets|
    && match e
       case Invoke(_, _) => true
       case Begin(n, _) => L.Enabled(w.lock, L.Start(n))
       case Resume(n, _) =>
         && n < |w.calls| && w.lock.tickets[n].phase == L.Running
         && w.calls[n].call.PostPayment? && w.calls[n].admission.Some?
       case Release(n) => L.Enabled(w.lock, L.Resolve(n))
       case CleanUp(n) => L.Enabled(w.lock, L.CleanUp(n))
       case Other(a) => !IsXvpBody(a) && Legal(w.h, a)
  }

  /** The action a body's first segment is. */
  function FirstSegment(w: World, n: nat, now: int): Action
    requires n < |w.calls| == |w.lock.tickets|
  {
    match w.calls[n].call
    case PostPayment(p) => AdmitXvp(w.lock.tickets[n].id, p, now)
    case _ => ObserveXvp(w.lock.tickets[n].id, now)
  }

  /** Where a call stands after its first segment: an admitted payment is suspended, anything else is over. */
  function FirstStep(l: Ledger, id: string, c: CallState, now: int): CallState {
    match c.call
    case PostPayment(p) =>
      (match Admit(l, id, p, now).result
       case Failure(e) => c.(outcome := Some(Refused(e)))
       case Success(rec) => c.(admission := Some(Admission(rec, now))))
    case _ => c.(outcome := Some(Found(Observe(l, id, now).1)))
  }

  function PhaseOf(c: CallState): L.Phase {
    if c.outcome.None? then L.Running else L.Finished(!c.outcome.value.Refused?)
  }

  function BeginCall(w: World, n: nat, now: int): World
    requires n < |w.calls| == |w.lock.tickets|
  {
    var c := FirstStep(w.h.ledger, w.lock.tickets[n].id, w.calls[n], now);
    var started := L.SetPhase(w.lock, n, L.Running);
    World(Act(w.h, FirstSegment(w, n, now)), L.SetPhase(started, n, PhaseOf(c)), w.calls[n := c])
  }

  function SettleOutcome(l: Ledger, rec: XvpRecord, p: PaymentParams, now: int): Outcome {
    match Settle(l, rec, p, now).result
    case Success(result) => Paid(result)
    case Failure(e) => Refused(e)
  }

  function ResumeCall(w: World, n: nat, now: int): World
    requires n < |w.calls| == |w.lock.tickets| && w.calls[n].call.PostPayment? && w.calls[n].admission.Some?
  {
    var rec, p := w.calls[n].admission.value.record, w.calls[n].call.payment;
    var outcome := SettleOutcome(w.h.ledger, rec, p, now);
    World(Act(w.h, SettleXvp(rec, p, now)), L.SetPhase(w.lock, n, L.Finished(!outcome.Refused?)),
          w.calls[n := w.calls[n].(outcome := Some(outcome))])
  }

  function Happen(w: World, e: Event): World
    requires Possible(w, e)
  {
    match e
    case Invoke(id, call) => World(w.h, L.Enqueue(w.lock, id), w.calls + [CallState(call, None, None)])
    case Begin(n, now) => BeginCall(w, n, now)
    case Resume(n, now) => ResumeCall(w, n, now)
    case Release(n) => w.(lock := L.SetPhase(w.lock, n, L.Settled))
    case CleanUp(n) => w.(lock := L.Clean(w.lock, n))
    case Other(a) => w.(h := Act(w.h, a))
  }

  ghost predicate IsWorldRun(ws: seq<World>, events: seq<Event>) {
    && |ws| == |events| + 1 && (exists day :: ws[0] == NewWorld(day))
    && (forall i :: 0 <= i < |events| ==> Possible(ws[i], events[i]) && ws[i + 1] == Happen(ws[i], events[i]))
  }

  // ----- the terms committed to at init -----

  /** Every XvP still carries the terms it committed to, and its hashes open to its keys. */
  ghost predicate Committed(h: History) {
    forall id :: h.ledger.HasDraft(id) && h.ledger.drafts.entries[id].kind == XVP ==> KeepsTerms(h, id)
  }

  ghost predicate KeepsTerms(h: History, id: string)
    requires h.ledger.HasDraft(id)
  {
    var d := h.ledger.drafts.entries[id];
    && IsXvp(d) && id in h.commitments && d.supplementaryData.terms == h.commitments[id].terms
    && d.amount == h.commitments[id].amount && d.currency == h.commitments[id].currency
    && d.creditedWalletAlias == h.commitments[id].sellerWalletAlias
    && h.commitments[id].terms.executionHash == h.commitments[id].hash(h.commitments[id].terms.executionKey)
    && h.commitments[id].terms.cancellationHash == h.commitments[id].hash(h.commitments[id].terms.cancellationKey)
  }

  lemma OldTermsStay(h: History, a: Action, id: string)
    requires h.ledger.WellFormed() && Filed(h.ledger) && MintedOnce(h) && Legal(h, a) && Committed(h)
    requires HasXvp(h.ledger, id) && h.ledger.drafts.entries[id].kind == XVP
    ensures Act(h, a).ledger.HasDraft(id) && KeepsTerms(Act(h, a), id)
  {
    hide Act;
    assert KeepsTerms(h, id);
    ActEvolves(h, a, id);
    CommitmentStays(h, a, id);
  }

  lemma CommitmentStays(h: History, a: Action, id: string)
    requires Legal(h, a) && h.ledger.HasDraft(id) && id in h.commitments
    ensures id in Act(h, a).commitments && Act(h, a).commitments[id] == h.commitments[id]
  {
  }

  lemma NewTermsAreCommitted(h: History, a: Action, id: string)
    requires h.ledger.WellFormed() && Filed(h.ledger) && MintedOnce(h) && Legal(h, a)
    requires !h.ledger.HasDraft(id) && Act(h, a).ledger.HasDraft(id) && Act(h, a).ledger.drafts.entries[id].kind == XVP
    ensures KeepsTerms(Act(h, a), id)
  {
    hide Act, Legal;
    NewDraftsAreOpen(h, a, id);
    if a.InitXvp? { InitCommits(h, a, id); } else { OpenOpensNoXvp(h, a, id); }
  }

  lemma InitCommits(h: History, a: Action, id: string)
    requires a.InitXvp? && !h.ledger.HasDraft(id) && Act(h, a).ledger.HasDraft(id)
    ensures KeepsTerms(Act(h, a), id)
  {
  }

  lemma ActCommitted(h: History, a: Action)
    requires h.ledger.WellFormed() && Filed(h.ledger) && MintedOnce(h) && Legal(h, a) && Committed(h)
    ensures Committed(Act(h, a))
  {
    hide Act;
    var k := Act(h, a);
    forall id | k.ledger.HasDraft(id) && k.ledger.drafts.entries[id].kind == XVP ensures KeepsTerms(k, id) {
      if h.ledger.HasDraft(id) {
        KindsStay(h, a, id);
        ActEvolves(h, a, id);
        assert FiledUnder(id, h.ledger.drafts.entries[id]);
        OldTermsStay(h, a, id);
      } else {
        NewTermsAreCommitted(h, a, id);
      }
    }
  }

  // ----- the invariant -----

  /** A suspended payment: its record is still, untouched, the one it was admitted on. */
  ghost predicate StillAdmitted(l: Ledger, id: string, c: CallState) {
    && c.call.PostPayment? && c.admission.Some? && c.outcome.None?
    && HasXvp(l, id) && l.drafts.entries[id].id == id
    && Shape(l.drafts.entries[id]) == c.admission.value.record
    && !Overdue(l.drafts.entries[id], c.admission.value.now)
    && Mismatch(c.admission.value.record, c.call.payment).None?
  }

  /** An answer given is still what the ledger says, once it was final. */
  ghost predicate StillTrue(l: Ledger, id: string, o: Outcome) {
    match o
    case Found(None) => true
    case Found(Some(rec)) =>
      && HasXvp(l, id) && rec.terms == l.drafts.entries[id].supplementaryData.terms
      && rec.status in {INITIALIZED, SETTLED, EXPIRED}
      && (rec.status != INITIALIZED ==> Shape(l.drafts.entries[id]) == rec)
    case Paid(result) =>
      && HasXvp(l, id) && l.drafts.entries[id].status == SETTLED
      && result.executionKey == l.drafts.entries[id].supplementaryData.terms.executionKey
    case Refused(_) => true
  }

  ghost predicate CallSound(l: Ledger, t: L.Ticket, c: CallState) {
    && (c.admission.Some? ==> HasXvp(l, t.id))
    && match t.phase
       case Waiting => c.admission.None? && c.outcome.None?
       case Running => StillAdmitted(l, t.id, c)
       case _ =>
         && c.outcome.Some? && StillTrue(l, t.id, c.outcome.value)
         && (c.admission.Some? ==> c.call.PostPayment? && !c.outcome.value.Found?)
         && (c.outcome.value.Paid? ==> c.admission.Some?)
         && (c.outcome.value.Found? ==> !c.call.PostPayment?)
  }

  /** A payment of `id` was admitted and ran to its end. */
  predicate Attempted(t: L.Ticket, c: CallState, id: string) {
    t.id == id && c.admission.Some? && c.outcome.Some?
  }

  ghost predicate SomeAttempt(tickets: seq<L.Ticket>, calls: seq<CallState>, id: string)
    requires |calls| == |tickets|
  {
    exists n :: 0 <= n < |calls| && Attempted(tickets[n], calls[n], id)
  }

  /** The attempted flag remembers exactly whether some admitted payment ran to its end. */
  ghost predicate FlagSound(w: World, id: string)
    requires |w.calls| == |w.lock.tickets|
  {
    HasXvp(w.h.ledger, id) ==>
      (w.h.ledger.drafts.entries[id].supplementaryData.paymentAttempted <==> SomeAttempt(w.lock.tickets, w.calls, id))
  }

  ghost predicate WorldInv(w: World) {
    && |w.calls| == |w.lock.tickets|
    && L.LockInv(w.lock) && Sound(w.h) && Committed(w.h)
    && (forall n :: 0 <= n < |w.calls| ==> CallSound(w.h.ledger, w.lock.tickets[n], w.calls[n]))
    && (forall id :: FlagSound(w, id))
  }

  // ----- how one action touches the XvP records -----

  /** Other operations never touch an XvP. */
  lemma OtherKeepsXvp(h: History, a: Action, x: string)
    requires Sound(h) && Legal(h, a) && !IsXvpBody(a)
    requires HasXvp(h.ledger, x)
    ensures Untouched(h.ledger, Act(h, a).ledger, x)
  {
    var l := h.ledger;
    assert FiledUnder(x, l.drafts.entries[x]);
    if a.SubmitLeg? {
      LegsAreFiled(l, a.leg.tradeID);
      ActFrame(h, a, x);
    } else if !WritesDrafts(a) || x != Focus(h, a) {
      ActFrame(h, a, x);
    } else if a.OpenDraft? {
      OpenedIdIsFree(h, a.wf, a.day);
    } else if a.ApproveDraft? {
      ApproveEvolves(l, a.wf, x, a.actor, a.random, a.now);
    }
  }

  /** An answer stays true whatever happens: what was final never changes. */
  lemma StaysTrue(h: History, a: Action, id: string, o: Outcome)
    requires Sound(h) && Legal(h, a) && StillTrue(h.ledger, id, o)
    ensures StillTrue(Act(h, a).ledger, id, o)
  {
    hide Act;
    if HasXvp(h.ledger, id) {
      ActEvolves(h, a, id);
    }
  }

  /** A call stays sound across an action that leaves its record alone while it is suspended. */
  lemma CallStaysSound(h: History, a: Action, t: L.Ticket, c: CallState)
    requires Sound(h) && Legal(h, a) && CallSound(h.ledger, t, c)
    requires t.phase == L.Running ==> Untouched(h.ledger, Act(h, a).ledger, t.id)
    ensures CallSound(Act(h, a).ledger, t, c)
  {
    hide Act;
    if HasXvp(h.ledger, t.id) {
      ActEvolves(h, a, t.id);
    }
    if t.phase != L.Running && c.outcome.Some? {
      StaysTrue(h, a, t.id, c.outcome.value);
    }
  }

  lemma KeepsHistory(h: History, a: Action)
    requires Sound(h) && Committed(h) && Legal(h, a)
    ensures Sound(Act(h, a)) && Committed(Act(h, a))
  {
    ActKeepsSound(h, a);
    ActCommitted(h, a);
  }

  // ----- event by event -----

  lemma InvokeKeeps(w: World, id: string, call: XvpCall)
    requires WorldInv(w)
    ensures WorldInv(Happen(w, Invoke(id, call)))
  {
    hide Sound, Committed, L.LockInv;
    var v := Happen(w, Invoke(id, call));
    L.EnqueueKeeps(w.lock, id);
    forall x ensures FlagSound(v, x) {
      assert FlagSound(w, x);
      if SomeAttempt(w.lock.tickets, w.calls, x) {
        var n :| 0 <= n < |w.calls| && Attempted(w.lock.tickets[n], w.calls[n], x);
        assert Attempted(v.lock.tickets[n], v.calls[n], x);
      }
    }
  }

  /** Attempts depend on tickets' ids and calls only. */
  lemma SameAttempts(w: World, v: World, x: string)
    requires |w.calls| == |w.lock.tickets| == |v.lock.tickets| && v.calls == w.calls
    requires forall n :: 0 <= n < |w.calls| ==> v.lock.tickets[n].id == w.lock.tickets[n].id
    ensures SomeAttempt(v.lock.tickets, v.calls, x) <==> SomeAttempt(w.lock.tickets, w.calls, x)
  {
    if SomeAttempt(w.lock.tickets, w.calls, x) {
      var n :| 0 <= n < |w.calls| && Attempted(w.lock.tickets[n], w.calls[n], x);
      assert Attempted(v.lock.tickets[n], v.calls[n], x);
    }
    if SomeAttempt(v.lock.tickets, v.calls, x) {
      var n :| 0 <= n < |v.calls| && Attempted(v.lock.tickets[n], v.calls[n], x);
      assert Attempted(w.lock.tickets[n], w.calls[n], x);
    }
  }

  lemma LockEventKeeps(w: World, e: Event)
    requires WorldInv(w) && Possible(w, e) && (e.Release? || e.CleanUp?)
    ensures WorldInv(Happen(w, e))
  {
    hide Sound, Committed, L.LockInv;
    var v := Happen(w, e);
    if e.Release? {
      L.AdvanceKeeps(w.lock, e.n, L.Settled);
    } else {
      L.CleanKeeps(w.lock, e.n);
    }
    forall n | 0 <= n < |v.calls| ensures CallSound(v.h.ledger, v.lock.tickets[n], v.calls[n]) {
      assert CallSound(w.h.ledger, w.lock.tickets[n], w.calls[n]);
    }
    forall x ensures FlagSound(v, x) {
      assert FlagSound(w, x);
      SameAttempts(w, v, x);
    }
  }

  lemma OtherKeeps(w: World, a: Action)
    requires WorldInv(w) && Possible(w, Other(a))
    ensures WorldInv(Happen(w, Other(a)))
  {
    var v := Happen(w, Other(a));
    KeepsHistory(w.h, a);
    forall n | 0 <= n < |v.calls| ensures CallSound(v.h.ledger, v.lock.tickets[n], v.calls[n]) {
      var t, c := w.lock.tickets[n], w.calls[n];
      assert CallSound(w.h.ledger, t, c);
      if t.phase == L.Running { OtherKeepsXvp(w.h, a, t.id); }
      CallStaysSound(w.h, a, t, c);
    }
    forall x ensures FlagSound(v, x) {
      assert FlagSound(w, x);
      if HasXvp(w.h.ledger, x) {
        OtherKeepsXvp(w.h, a, x);
      } else if HasXvp(v.h.ledger, x) {
        NewXvpIsUnpaid(w.h, a, x);
        forall n | 0 <= n < |w.calls| ensures !Attempted(w.lock.tickets[n], w.calls[n], x) {
          assert CallSound(w.h.ledger, w.lock.tickets[n], w.calls[n]);
        }
      }
    }
  }

  /** An XvP appears only by its init, with the flag down. */
  lemma NewXvpIsUnpaid(h: History, a: Action, x: string)
    requires Sound(h) && Legal(h, a) && !HasXvp(h.ledger, x) && HasXvp(Act(h, a).ledger, x)
    ensures !Act(h, a).ledger.drafts.entries[x].supplementaryData.paymentAttempted
  {
    hide Act, Legal;
    if h.ledger.HasDraft(x) {
      XvpWasXvp(h, a, x);
    } else {
      NewDraftsAreOpen(h, a, x);
      if a.InitXvp? { XvpIsNoTwoStep(h, a, x); } else { OpenOpensNoXvp(h, a, x); }
    }
  }

  lemma OpenOpensNoXvp(h: History, a: Action, x: string)
    requires Legal(h, a) && a.OpenDraft? && !h.ledger.HasDraft(x) && Act(h, a).ledger.HasDraft(x)
    ensures Act(h, a).ledger.drafts.entries[x].kind != XVP
  {
    hide Refusal;
  }

  lemma XvpWasXvp(h: History, a: Action, x: string)
    requires Sound(h) && Legal(h, a) && h.ledger.HasDraft(x) && HasXvp(Act(h, a).ledger, x)
    ensures HasXvp(h.ledger, x)
  {
    hide Act;
    KindsStay(h, a, x);
    ActEvolves(h, a, x);
    assert FiledUnder(x, h.ledger.drafts.entries[x]);
  }

  /** While a ticket's turn is on, no other ticket of its id is running. */
  lemma AloneInQueue(s: L.Lock, n: nat, m: nat)
    requires L.LockInv(s) && n < |s.tickets| && m < |s.tickets| && m != n
    requires s.tickets[n].phase == L.Running || L.Enabled(s, L.Start(n))
    requires s.tickets[m].phase == L.Running
    ensures s.tickets[m].id != s.tickets[n].id
  {
    assert L.TurnTaken(s, m) && L.TurnTaken(s, n) && L.LinkSound(s, n);
    if L.Enabled(s, L.Start(n)) { L.TurnComes(s, n); }
  }

  /** What an observation leaves and answers. */
  lemma ObserveAnswers(l: Ledger, id: string, now: int)
    requires l.WellFormed() && Filed(l)
    ensures var (m, seen) := Observe(l, id, now);
      if HasXvp(l, id) then
        && HasXvp(m, id) && seen == Some(Shape(m.drafts.entries[id]))
        && m.drafts.entries[id].supplementaryData == l.drafts.entries[id].supplementaryData
        && m.drafts.entries[id].status in {INITIALIZED, SETTLED, EXPIRED}
        && (m.drafts.entries[id].status == INITIALIZED ==> m == l && !Overdue(l.drafts.entries[id], now))
      else m == l && seen == None
  {
    if HasXvp(l, id) { assert FiledUnder(id, l.drafts.entries[id]); }
  }

  lemma ObserveKeepsFlags(l: Ledger, id: string, now: int, x: string)
    requires l.WellFormed() && Filed(l)
    ensures var m := Observe(l, id, now).0;
      && (HasXvp(m, x) <==> HasXvp(l, x))
      && (HasXvp(l, x) ==> m.drafts.entries[x].supplementaryData == l.drafts.entries[x].supplementaryData)
  {
    if x != id { ObserveFrame(l, id, now, x); }
    ObserveAnswers(l, id, now);
  }

  /** One ticket and its call move on; the flags and the other calls are as they were. */
  ghost predicate MovesOn(w: World, v: World, n: nat)
    requires n < |w.calls| == |w.lock.tickets|
  {
    && |v.calls| == |v.lock.tickets| == |w.calls|
    && v.lock.tickets[n].id == w.lock.tickets[n].id
    && v.lock.tickets == w.lock.tickets[n := v.lock.tickets[n]]
    && v.calls == w.calls[n := v.calls[n]]
  }

  lemma OtherCallsStaySound(w: World, v: World, n: nat, a: Action, m: nat)
    requires WorldInv(w) && n < |w.calls| && MovesOn(w, v, n) && Legal(w.h, a) && v.h == Act(w.h, a)
    requires w.lock.tickets[n].phase == L.Running || L.Enabled(w.lock, L.Start(n))
    requires IsXvpBody(a) && Focus(w.h, a) == w.lock.tickets[n].id
    requires m < |w.calls| && m != n
    ensures CallSound(v.h.ledger, v.lock.tickets[m], v.calls[m])
  {
    hide Act;
    var t, c := w.lock.tickets[m], w.calls[m];
    assert CallSound(w.h.ledger, t, c);
    if t.phase == L.Running {
      AloneInQueue(w.lock, n, m);
      ActFrame(w.h, a, t.id);
    }
    CallStaysSound(w.h, a, t, c);
  }

  /** Attempts change for no id when the call that moves on has none. */
  lemma NoNewAttempt(w: World, v: World, n: nat, x: string)
    requires n < |w.calls| == |w.lock.tickets| && MovesOn(w, v, n)
    requires w.calls[n].outcome.None? || w.calls[n].admission.None?
    requires v.calls[n].outcome.None? || v.calls[n].admission.None?
    ensures SomeAttempt(v.lock.tickets, v.calls, x) <==> SomeAttempt(w.lock.tickets, w.calls, x)
  {
    if SomeAttempt(w.lock.tickets, w.calls, x) {
      var m :| 0 <= m < |w.calls| && Attempted(w.lock.tickets[m], w.calls[m], x);
      assert Attempted(v.lock.tickets[m], v.calls[m], x);
    }
    if SomeAttempt(v.lock.tickets, v.calls, x) {
      var m :| 0 <= m < |v.calls| && Attempted(v.lock.tickets[m], v.calls[m], x);
      assert Attempted(w.lock.tickets[m], w.calls[m], x);
    }
  }

  lemma BeginLock(s: L.Lock, n: nat, phase: L.Phase)
    requires L.LockInv(s) && L.Enabled(s, L.Start(n)) && (phase == L.Running || phase.Finished?)
    ensures L.LockInv(L.SetPhase(L.SetPhase(s, n, L.Running), n, phase))
  {
    var started := L.SetPhase(s, n, L.Running);
    L.StartKeeps(s, n);
    if phase.Finished? {
      L.AdvanceKeeps(started, n, phase);
    } else {
      assert L.SetPhase(started, n, phase) == started;
    }
  }

  /** The first segment leaves a call sound, whether it ends there or is suspended. */
  lemma FirstStepIsSound(l: Ledger, t: L.Ticket, c: CallState, now: int)
    requires l.WellFormed() && Filed(l) && CallSound(l, t, c) && t.phase == L.Waiting
    ensures var next := FirstStep(l, t.id, c, now);
      CallSound(Observe(l, t.id, now).0, t.(phase := PhaseOf(next)), next)
  {
    hide Observe;
    ObserveAnswers(l, t.id, now);
  }

  lemma FirstSegmentObserves(w: World, n: nat, now: int)
    requires n < |w.calls| == |w.lock.tickets|
    ensures var a := FirstSegment(w, n, now);
      && IsXvpBody(a) && Legal(w.h, a) && Focus(w.h, a) == w.lock.tickets[n].id
      && Act(w.h, a) == w.h.(ledger := Observe(w.h.ledger, w.lock.tickets[n].id, now).0)
  {
  }

  lemma BeginMovesOn(w: World, n: nat, now: int)
    requires WorldInv(w) && Possible(w, Begin(n, now))
    ensures var v := BeginCall(w, n, now);
      && MovesOn(w, v, n) && L.LockInv(v.lock)
      && v.h == w.h.(ledger := Observe(w.h.ledger, w.lock.tickets[n].id, now).0)
      && (v.calls[n].outcome.None? || v.calls[n].admission.None?)
      && CallSound(v.h.ledger, v.lock.tickets[n], v.calls[n])
  {
    hide Act, Observe, Sound, Committed, L.LockInv, FirstStep;
    var c := w.calls[n];
    assert CallSound(w.h.ledger, w.lock.tickets[n], c);
    FilesAreSound(w.h);
    FirstSegmentObserves(w, n, now);
    FirstStepIsSound(w.h.ledger, w.lock.tickets[n], c, now);
    FirstStepAnswersOrAdmits(w.h.ledger, w.lock.tickets[n].id, c, now);
    BeginLock(w.lock, n, PhaseOf(FirstStep(w.h.ledger, w.lock.tickets[n].id, c, now)));
  }

  lemma FilesAreSound(h: History)
    requires Sound(h)
    ensures h.ledger.WellFormed() && Filed(h.ledger)
  {
  }

  lemma FirstStepAnswersOrAdmits(l: Ledger, id: string, c: CallState, now: int)
    requires c.admission.None? && c.outcome.None?
    ensures FirstStep(l, id, c, now).outcome.None? || FirstStep(l, id, c, now).admission.None?
  {
  }

  lemma BeginKeeps(w: World, n: nat, now: int)
    requires WorldInv(w) && Possible(w, Begin(n, now))
    ensures WorldInv(BeginCall(w, n, now))
  {
    hide Act, Observe, Sound, Committed, L.LockInv, FirstStep, CallSound, BeginCall;
    var v, a := BeginCall(w, n, now), FirstSegment(w, n, now);
    BeginMovesOn(w, n, now);
    FirstSegmentObserves(w, n, now);
    KeepsHistory(w.h, a);
    FilesAreSound(w.h);
    WaitingHasNoAnswer(w, n);
    forall m | 0 <= m < |v.calls| ensures CallSound(v.h.ledger, v.lock.tickets[m], v.calls[m]) {
      if m != n { OtherCallsStaySound(w, v, n, a, m); }
    }
    forall x ensures FlagSound(v, x) {
      assert FlagSound(w, x);
      NoNewAttempt(w, v, n, x);
      ObserveKeepsFlags(w.h.ledger, w.lock.tickets[n].id, now, x);
    }
  }

  lemma WaitingHasNoAnswer(w: World, n: nat)
    requires WorldInv(w) && n < |w.calls| && w.lock.tickets[n].phase == L.Waiting
    ensures w.calls[n].outcome.None? && w.calls[n].admission.None?
  {
    assert CallSound(w.h.ledger, w.lock.tickets[n], w.calls[n]);
  }

  /** The flag goes up with the settlement, whether or not the payment goes through. */
  lemma SettleRaisesFlag(l: Ledger, rec: XvpRecord, p: PaymentParams, now: int)
    requires l.WellFormed() && Filed(l)
    requires HasXvp(l, rec.id) && rec == Shape(l.drafts.entries[rec.id])
    ensures var m := Settle(l, rec, p, now).ledger;
      HasXvp(m, rec.id) && m.drafts.entries[rec.id].supplementaryData.paymentAttempted
  {
    if Settle(l, rec, p, now).result.Success? {
      SettleSettles(l, rec, p, now);
    } else {
      SettleRejected(l, rec, p, now);
      MarkAccounts(l, rec.id, now);
    }
  }

  /** A resumed payment settles the very record it was admitted on. */
  lemma ResumeIsLegal(w: World, n: nat, now: int)
    requires WorldInv(w) && Possible(w, Resume(n, now))
    ensures var c := w.calls[n];
      Legal(w.h, SettleXvp(c.admission.value.record, c.call.payment, now))
      && c.admission.value.record.id == w.lock.tickets[n].id && c.admission.value.record.status == INITIALIZED
      && c.outcome.None?
  {
    assert CallSound(w.h.ledger, w.lock.tickets[n], w.calls[n]);
  }

  lemma SettledIsTrue(l: Ledger, rec: XvpRecord, p: PaymentParams, now: int)
    requires l.WellFormed() && Filed(l)
    requires HasXvp(l, rec.id) && rec == Shape(l.drafts.entries[rec.id])
    ensures StillTrue(Settle(l, rec, p, now).ledger, rec.id, SettleOutcome(l, rec, p, now))
  {
    if Settle(l, rec, p, now).result.Success? { SettleSettles(l, rec, p, now); }
  }

  lemma SettlingIsSettle(h: History, rec: XvpRecord, p: PaymentParams, now: int)
    ensures Act(h, SettleXvp(rec, p, now)).ledger == Settle(h.ledger, rec, p, now).ledger
  {
  }

  lemma ResumedCallIsSound(w: World, n: nat, now: int)
    requires WorldInv(w) && Possible(w, Resume(n, now))
    ensures var v := ResumeCall(w, n, now);
      MovesOn(w, v, n) && CallSound(v.h.ledger, v.lock.tickets[n], v.calls[n])
  {
    hide Act, Committed, L.LockInv, Settle;
    var rec, p := w.calls[n].admission.value.record, w.calls[n].call.payment;
    ResumeIsLegal(w, n, now);
    assert CallSound(w.h.ledger, w.lock.tickets[n], w.calls[n]);
    SettleRaisesFlag(w.h.ledger, rec, p, now);
    SettledIsTrue(w.h.ledger, rec, p, now);
    SettlingIsSettle(w.h, rec, p, now);
  }

  lemma ResumeKeeps(w: World, n: nat, now: int)
    requires WorldInv(w) && Possible(w, Resume(n, now))
    ensures WorldInv(ResumeCall(w, n, now))
  {
    var rec, p := w.calls[n].admission.value.record, w.calls[n].call.payment;
    var v, a := ResumeCall(w, n, now), SettleXvp(rec, p, now);
    ResumeIsLegal(w, n, now);
    ResumedCallIsSound(w, n, now);
    L.AdvanceKeeps(w.lock, n, v.lock.tickets[n].phase);
    KeepsHistory(w.h, a);
    forall m | 0 <= m < |v.calls| ensures CallSound(v.h.ledger, v.lock.tickets[m], v.calls[m]) {
      if m != n { OtherCallsStaySound(w, v, n, a, m); }
    }
    forall x ensures FlagSound(v, x) {
      ResumeKeepsFlag(w, v, n, now, x);
    }
  }

  lemma ResumeKeepsFlag(w: World, v: World, n: nat, now: int, x: string)
    requires WorldInv(w) && Possible(w, Resume(n, now)) && v == ResumeCall(w, n, now) && MovesOn(w, v, n)
    ensures FlagSound(v, x)
  {
    var rec, p := w.calls[n].admission.value.record, w.calls[n].call.payment;
    ResumeIsLegal(w, n, now);
    assert v.h.ledger == Settle(w.h.ledger, rec, p, now).ledger;
    assert FlagSound(w, x);
    if x == rec.id {
      SettleRaisesFlag(w.h.ledger, rec, p, now);
      assert Attempted(v.lock.tickets[n], v.calls[n], x);
    } else {
      SettleFrame(w.h.ledger, rec, p, now, x);
      OthersAttempts(w, v, n, x);
    }
  }

  lemma OthersAttempts(w: World, v: World, n: nat, x: string)
    requires n < |w.calls| == |w.lock.tickets| && MovesOn(w, v, n) && x != w.lock.tickets[n].id
    ensures SomeAttempt(v.lock.tickets, v.calls, x) <==> SomeAttempt(w.lock.tickets, w.calls, x)
  {
    if SomeAttempt(w.lock.tickets, w.calls, x) {
      var m :| 0 <= m < |w.calls| && Attempted(w.lock.tickets[m], w.calls[m], x);
      assert Attempted(v.lock.tickets[m], v.calls[m], x);
    }
    if SomeAttempt(v.lock.tickets, v.calls, x) {
      var m :| 0 <= m < |v.calls| && Attempted(v.lock.tickets[m], v.calls[m], x);
      assert Attempted(w.lock.tickets[m], w.calls[m], x);
    }
  }

  lemma HappenKeeps(w: World, e: Event)
    requires WorldInv(w) && Possible(w, e)
    ensures WorldInv(Happen(w, e))
  {
    match e
    case Invoke(id, call) => InvokeKeeps(w, id, call);
    case Begin(n, now) => BeginKeeps(w, n, now);
    case Resume(n, now) => ResumeKeeps(w, n, now);
    case Release(_) => LockEventKeeps(w, e);
    case CleanUp(_) => LockEventKeeps(w, e);
    case Other(a) => OtherKeeps(w, a);
  }

  lemma NewWorldIsSound(day: BusinessDay)
    ensures WorldInv(NewWorld(day))
  {
  }

  /** The invariant holds throughout every interleaving. */
  lemma {:induction false} EveryWorldIsSound(ws: seq<World>, events: seq<Event>, i: nat)
    requires IsWorldRun(ws, events) && i < |ws|
    ensures WorldInv(ws[i])
  {
    hide Happen, Possible, WorldInv;
    if i == 0 {
      var day :| ws[0] == NewWorld(day);
      NewWorldIsSound(day);
    } else {
      EveryWorldIsSound(ws, events, i - 1);
      HappenKeeps(ws[i - 1], events[i - 1]);
    }
  }
}
