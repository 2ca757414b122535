/**
 * The lock as a class: the map of queue tails that `withLock` and its clean-up callback update.
 * A promise is named by the ticket of the call that made it, and `tickets` says how far each has
 * got; the event loop moves tickets on, the class moves the map.
 */
module InProcessLocks {
  import opened Wrappers
  import opened XvpLocks

  class InProcessXvpLock {
    var queues: map<string, nat>
    var tickets: seq<Ticket>

    function State(): Lock
      reads this
    {
      Lock(queues, tickets)
    }

    constructor ()
      ensures State() == NewLock() && LockInv(State())
    {
      queues, tickets := map[], [];
    }

    /** `withLock`: chain behind the tail of the queue and become the tail. */
    method WithLock(id: string) returns (n: nat)
      requires LockInv(State())
      modifies this
      ensures State() == Fire(old(State()), Call(id)) && LockInv(State())
      ensures n == |old(tickets)| && queues[id] == n
    {
      EnqueueKeeps(State(), id);
      var previous := if id in queues then Some(queues[id]) else None;
      n := |tickets|;
      tickets := tickets + [Ticket(id, previous, Waiting, false)];
      queues := queues[id := n];
    }

    /** `finally`: drop the entry if this call is still the tail. */
    method CleanUpAfter(n: nat)
      requires LockInv(State()) && Enabled(State(), CleanUp(n))
      modifies this
      ensures State() == Fire(old(State()), CleanUp(n)) && LockInv(State())
    {
      CleanKeeps(State(), n);
      var id := tickets[n].id;
      if id in queues && queues[id] == n { queues := queues - {id}; }
      tickets := tickets[n := tickets[n].(cleaned := true)];
    }

    /** The event loop starts a body, ends it well or badly, or resolves its `settled` promise. */
    method MoveOn(e: Event)
      requires LockInv(State()) && Enabled(State(), e) && (e.Start? || e.Finish? || e.Resolve?)
      modifies this`tickets
      ensures State() == Fire(old(State()), e) && LockInv(State())
    {
      FireKeeps(State(), e);
      var phase := match e case Start(_) => Running case Finish(_, ok) => Finished(ok) case _ => Settled;
      tickets := tickets[e.n := tickets[e.n].(phase := phase)];
    }
  }
}
