/**
 * The per-XvP promise queue. A call is a ticket: it waits for the ticket that was last in its
 * queue when it was made, runs, finishes well or badly, and later its `settled` promise resolves,
 * which releases the next ticket and, independently, lets the queue entry be cleaned up. The
 * scheduler may fire enabled events in any order and leave any of them for as long as it likes.
 */
module XvpLocks {
  import opened Wrappers

  datatype Phase = Waiting | Running | Finished(ok: bool) | Settled

  /** One call of `withLock`: whose turn it waits for, and how far it got. */
  datatype Ticket = Ticket(id: string, previous: Option<nat>, phase: Phase, cleaned: bool)

  datatype Lock = Lock(queues: map<string, nat>, tickets: seq<Ticket>)

  datatype Event = Call(id: string) | Start(n: nat) | Finish(n: nat, ok: bool) | Resolve(n: nat) | CleanUp(n: nat)

  function NewLock(): Lock {
    Lock(map[], [])
  }

  predicate Enabled(s: Lock, e: Event) {
    match e
    case Call(_) => true
    case Start(n) =>
      && n < |s.tickets| && s.tickets[n].phase == Waiting
      && (s.tickets[n].previous.Some? ==>
            s.tickets[n].previous.value < |s.tickets| && s.tickets[s.tickets[n].previous.value].phase == Settled)
    case Finish(n, _) => n < |s.tickets| && s.tickets[n].phase == Running
    case Resolve(n) => n < |s.tickets| && s.tickets[n].phase.Finished?
    case CleanUp(n) => n < |s.tickets| && s.tickets[n].phase == Settled && !s.tickets[n].cleaned
  }

  function SetPhase(s: Lock, n: nat, phase: Phase): Lock
    requires n < |s.tickets|
  {
    s.(tickets := s.tickets[n := s.tickets[n].(phase := phase)])
  }

  /** `withLock`: queue behind the last ticket of the id, and become the last one. */
  function Enqueue(s: Lock, id: string): Lock {
    var previous := if id in s.queues then Some(s.queues[id]) else None;
    Lock(s.queues[id := |s.tickets|], s.tickets + [Ticket(id, previous, Waiting, false)])
  }

  /** The `finally` callback: drop the entry if nothing queued up behind. */
  function Clean(s: Lock, n: nat): Lock
    requires n < |s.tickets|
  {
    var id := s.tickets[n].id;
    Lock(if id in s.queues && s.queues[id] == n then s.queues - {id} else s.queues,
         s.tickets[n := s.tickets[n].(cleaned := true)])
  }

  function Fire(s: Lock, e: Event): Lock
    requires Enabled(s, e)
  {
    match e
    case Call(id) => Enqueue(s, id)
    case Start(n) => SetPhase(s, n, Running)
    case Finish(n, ok) => SetPhase(s, n, Finished(ok))
    case Resolve(n) => SetPhase(s, n, Settled)
    case CleanUp(n) => Clean(s, n)
  }

  /** The locks after 0, 1, …, |events| events. */
  ghost predicate IsLockRun(ss: seq<Lock>, events: seq<Event>) {
    && |ss| == |events| + 1 && ss[0] == NewLock()
    && (forall i :: 0 <= i < |events| ==> Enabled(ss[i], events[i]) && ss[i + 1] == Fire(ss[i], events[i]))
  }

  predicate Started(t: Ticket) {
    t.phase != Waiting
  }

  // ----- the invariant -----

  /** Nobody else of the same id stands between ticket `n` and the one it waits for. */
  ghost predicate LinkSound(s: Lock, n: nat)
    requires n < |s.tickets|
  {
    match s.tickets[n].previous
    case None => forall m :: 0 <= m < n && s.tickets[m].id == s.tickets[n].id ==> s.tickets[m].phase == Settled
    case Some(p) =>
      && p < n && s.tickets[p].id == s.tickets[n].id
      && (forall m :: p < m < n ==> s.tickets[m].id != s.tickets[n].id)
  }

  /** Once a ticket starts, everyone before it in its queue is through. */
  ghost predicate TurnTaken(s: Lock, n: nat)
    requires n < |s.tickets|
  {
    Started(s.tickets[n]) ==>
      forall m :: 0 <= m < n && s.tickets[m].id == s.tickets[n].id ==> s.tickets[m].phase == Settled
  }

  /** A queue entry is the last ticket of its id, and stays until that ticket is cleaned up. */
  ghost predicate EntrySound(s: Lock, id: string)
    requires id in s.queues
  {
    && s.queues[id] < |s.tickets|
    && s.tickets[s.queues[id]].id == id && !s.tickets[s.queues[id]].cleaned
    && (forall m :: s.queues[id] < m < |s.tickets| ==> s.tickets[m].id != id)
  }

  ghost predicate LockInv(s: Lock) {
    && (forall n :: 0 <= n < |s.tickets| ==> LinkSound(s, n) && TurnTaken(s, n))
    && (forall id :: id in s.queues ==> EntrySound(s, id))
    && (forall n :: 0 <= n < |s.tickets| && s.tickets[n].id !in s.queues ==> s.tickets[n].phase == Settled)
    && (forall n :: 0 <= n < |s.tickets| && s.tickets[n].cleaned ==> s.tickets[n].phase == Settled)
  }

  lemma EnqueueKeeps(s: Lock, id: string)
    requires LockInv(s)
    ensures LockInv(Enqueue(s, id))
  {
    var t := Enqueue(s, id);
    forall n | 0 <= n < |t.tickets| ensures LinkSound(t, n) && TurnTaken(t, n) {
      if n < |s.tickets| {
        assert LinkSound(s, n) && TurnTaken(s, n);
      } else if id in s.queues {
        assert EntrySound(s, id);
      }
    }
    forall x | x in t.queues ensures EntrySound(t, x) {
      if x != id { assert EntrySound(s, x); }
    }
  }

  lemma StartKeeps(s: Lock, n: nat)
    requires LockInv(s) && Enabled(s, Start(n))
    ensures LockInv(SetPhase(s, n, Running))
  {
    var t := SetPhase(s, n, Running);
    assert LinkSound(s, n);
    if s.tickets[n].previous.Some? { assert TurnTaken(s, s.tickets[n].previous.value); }
    forall m | 0 <= m < |t.tickets| ensures LinkSound(t, m) && TurnTaken(t, m) {
      assert LinkSound(s, m) && TurnTaken(s, m);
    }
    forall x | x in t.queues ensures EntrySound(t, x) { assert EntrySound(s, x); }
  }

  lemma AdvanceKeeps(s: Lock, n: nat, phase: Phase)
    requires LockInv(s) && n < |s.tickets|
    requires if s.tickets[n].phase == Running then phase.Finished? else s.tickets[n].phase.Finished? && phase == Settled
    ensures LockInv(SetPhase(s, n, phase))
  {
    var t := SetPhase(s, n, phase);
    forall m | 0 <= m < |t.tickets| ensures LinkSound(t, m) && TurnTaken(t, m) {
      assert LinkSound(s, m) && TurnTaken(s, m);
    }
    forall x | x in t.queues ensures EntrySound(t, x) { assert EntrySound(s, x); }
  }

  lemma CleanKeeps(s: Lock, n: nat)
    requires LockInv(s) && Enabled(s, CleanUp(n))
    ensures LockInv(Clean(s, n))
  {
    var t := Clean(s, n);
    forall m | 0 <= m < |t.tickets| ensures LinkSound(t, m) && TurnTaken(t, m) {
      assert LinkSound(s, m) && TurnTaken(s, m);
    }
    forall x | x in t.queues ensures EntrySound(t, x) { assert EntrySound(s, x); }
    forall m | 0 <= m < |t.tickets| && t.tickets[m].id !in t.queues ensures t.tickets[m].phase == Settled {
      if t.tickets[m].id == s.tickets[n].id && s.tickets[n].id in s.queues {
        assert EntrySound(s, s.tickets[n].id) && TurnTaken(s, n);
      }
    }
  }

  lemma FireKeeps(s: Lock, e: Event)
    requires LockInv(s) && Enabled(s, e)
    ensures LockInv(Fire(s, e))
  {
    match e
    case Call(id) => EnqueueKeeps(s, id);
    case Start(n) => StartKeeps(s, n);
    case Finish(n, ok) => AdvanceKeeps(s, n, Finished(ok));
    case Resolve(n) => AdvanceKeeps(s, n, Settled);
    case CleanUp(n) => CleanKeeps(s, n);
  }

  lemma {:induction false} EveryLockRun(ss: seq<Lock>, events: seq<Event>, i: nat)
    requires IsLockRun(ss, events) && i < |ss|
    ensures LockInv(ss[i])
  {
    if i == 0 {
    } else {
      EveryLockRun(ss, events, i - 1);
      FireKeeps(ss[i - 1], events[i - 1]);
    }
  }

  // ----- what the lock promises -----

  /** Bodies of one id never overlap, and start strictly in the order of their calls. */
  lemma MutualExclusionInCallOrder(ss: seq<Lock>, events: seq<Event>, i: nat, m: nat, n: nat)
    requires IsLockRun(ss, events) && i < |ss|
    requires m < n < |ss[i].tickets| && ss[i].tickets[m].id == ss[i].tickets[n].id
    requires Started(ss[i].tickets[n])
    ensures ss[i].tickets[m].phase == Settled
  {
    EveryLockRun(ss, events, i);
    assert TurnTaken(ss[i], n);
  }

  /** A missing entry means nobody is waiting or running for that id. */
  lemma MissingEntryMeansIdle(ss: seq<Lock>, events: seq<Event>, i: nat, id: string)
    requires IsLockRun(ss, events) && i < |ss| && id !in ss[i].queues
    ensures forall n :: 0 <= n < |ss[i].tickets| && ss[i].tickets[n].id == id ==> ss[i].tickets[n].phase == Settled
  {
    EveryLockRun(ss, events, i);
  }

  /** A waiting ticket can start exactly when everyone before it is through, however they ended. */
  lemma TurnComes(s: Lock, n: nat)
    requires LockInv(s) && n < |s.tickets| && s.tickets[n].phase == Waiting
    ensures Enabled(s, Start(n)) <==>
      forall m :: 0 <= m < n && s.tickets[m].id == s.tickets[n].id ==> s.tickets[m].phase == Settled
  {
    assert LinkSound(s, n);
    if Enabled(s, Start(n)) && s.tickets[n].previous.Some? {
      assert TurnTaken(s, s.tickets[n].previous.value);
    }
  }

  /** How many events a ticket still has before it. */
  function Remaining(t: Ticket): nat {
    (match t.phase case Waiting => 3 case Running => 2 case Finished(_) => 1 case Settled => 0)
    + (if t.cleaned then 0 else 1)
  }

  function TotalRemaining(tickets: seq<Ticket>): nat {
    if tickets == [] then 0 else TotalRemaining(tickets[..|tickets| - 1]) + Remaining(tickets[|tickets| - 1])
  }

  lemma {:induction false} RemainingDrops(tickets: seq<Ticket>, n: nat, t: Ticket)
    requires n < |tickets| && Remaining(t) < Remaining(tickets[n])
    ensures TotalRemaining(tickets[n := t]) < TotalRemaining(tickets)
  {
    var updated := tickets[n := t];
    if n == |tickets| - 1 {
      assert updated[..|tickets| - 1] == tickets[..|tickets| - 1];
    } else {
      RemainingDrops(tickets[..|tickets| - 1], n, t);
      assert updated[..|tickets| - 1] == tickets[..|tickets| - 1][n := t];
    }
  }

  /** Without new calls the lock runs down: every other event uses up one of finitely many. */
  lemma EveryEventUsesOneUp(s: Lock, e: Event)
    requires LockInv(s) && Enabled(s, e) && !e.Call?
    ensures TotalRemaining(Fire(s, e).tickets) < TotalRemaining(s.tickets)
  {
    var n := e.n;
    RemainingDrops(s.tickets, n, Fire(s, e).tickets[n]);
    assert Fire(s, e).tickets == s.tickets[n := Fire(s, e).tickets[n]];
  }

  /** The first ticket of an id that is not through yet always has its next event enabled. */
  lemma NobodyIsStuck(s: Lock, n: nat)
    requires LockInv(s) && n < |s.tickets| && (s.tickets[n].phase != Settled || !s.tickets[n].cleaned)
    ensures exists e: Event :: !e.Call? && Enabled(s, e)
    decreases n
  {
    match s.tickets[n].phase
    case Waiting =>
      if Enabled(s, Start(n)) {
      } else {
        TurnComes(s, n);
        var m :| 0 <= m < n && s.tickets[m].id == s.tickets[n].id && s.tickets[m].phase != Settled;
        NobodyIsStuck(s, m);
      }
    case Running => assert Enabled(s, Finish(n, true));
    case Finished(_) => assert Enabled(s, Resolve(n));
    case Settled => assert Enabled(s, CleanUp(n));
  }

  /** When nothing is left to fire, every call is through and the map holds no entry. */
  lemma QuiescentLockIsEmpty(ss: seq<Lock>, events: seq<Event>, i: nat)
    requires IsLockRun(ss, events) && i < |ss|
    requires forall e :: Enabled(ss[i], e) ==> e.Call?
    ensures ss[i].queues == map[]
    ensures forall n :: 0 <= n < |ss[i].tickets| ==> ss[i].tickets[n].phase == Settled
  {
    EveryLockRun(ss, events, i);
    forall id | id in ss[i].queues
      ensures ss[i].queues[id] < |ss[i].tickets| && !ss[i].tickets[ss[i].queues[id]].cleaned
    {
      assert EntrySound(ss[i], id);
    }
    forall n | 0 <= n < |ss[i].tickets| ensures ss[i].tickets[n].phase == Settled && ss[i].tickets[n].cleaned {
      if ss[i].tickets[n].phase != Settled || !ss[i].tickets[n].cleaned { NobodyIsStuck(ss[i], n); }
    }
  }
}
