/** The mutex on its default queue: each method is one critical section of src/mutex.rs, and takes
    the one step of the state machine in `Mutexes` that its contract names. */
module MutexesOnArena {
  import opened ArenaQueues
  import M = Mutexes
  import opened Orders
  import opened QueueSpec

  class Mutex<P(!new)> {
    const prio: Order<P>
    const evict: bool
    const queue: ArenaQueue<M.MutexWaiter<P>>
    var clock: nat

    ghost function State(): M.Mutex<P>
      reads this, queue
    {
      M.Mutex(queue.entries, clock)
    }

    ghost predicate Valid()
      reads this, queue, queue.nodes
    {
      && queue.Valid()
      && queue.ord == M.MutexOrder(prio)
      && Lawful(prio)
      && M.Inv(prio, evict, State())
    }

    constructor (prio: Order<P>, evict: bool, dual: bool)
      requires Lawful(prio)
      ensures Valid() && State() == M.Mutex([], 0)
      ensures this.prio == prio && this.evict == evict && fresh(queue) && fresh(queue.nodes)
    {
      this.prio, this.evict, clock := prio, evict, 0;
      queue := new ArenaQueue(M.MutexOrder(prio), dual);
    }

    /** Take a lock that nobody has. */
    method Take(priority: P) returns (guard: nat)
      requires Valid() && queue.entries == []
      modifies this, queue, queue.nodes
      ensures Valid() && (queue.nodes == old(queue.nodes) || fresh(queue.nodes))
      ensures queue.entries == [Cell(guard, M.Waiting(priority, old(clock)).(hasLock := true))]
      ensures clock == old(clock) + 1
    {
      ghost var p;
      guard, p := queue.Enqueue(M.MutexWaiter(priority, true, false, clock));
      clock := clock + 1;
    }

    method TryLock(priority: P) returns (guard: Option<nat>)
      requires Valid()
      modifies this, queue, queue.nodes
      ensures Valid() && (queue.nodes == old(queue.nodes) || fresh(queue.nodes))
      ensures guard.Some? <==> old(State()).queue == []
      ensures guard.None? ==> State() == old(State())
      ensures guard.Some? ==>
                var op := M.TryLock(priority, guard.value);
                M.Enabled(prio, evict, old(State()), op) && State() == M.Apply(prio, evict, old(State()), op)
    {
      hide M.Inv;
      if !queue.IsEmpty() {
        return None;
      }
      var h := Take(priority);
      return Some(h);
    }

    /** Ask the holder to leave if the new request outranks it. */
    method AskHolder(priority: P)
      requires Valid() && queue.entries != []
      modifies queue, queue.nodes
      ensures queue.Valid() && queue.nodes == old(queue.nodes)
      ensures queue.entries == M.Asked(prio, evict, old(queue.entries), priority)
    {
      if evict {
        IndexIs(queue.entries, 0);
        var head := queue.HeadHandle().value;
        var holder := queue.GetByHandle(head);
        if prio.cmp(priority, holder.priority) == Greater {
          queue.SetInPlace(head, holder.(wantsEvict := true));
        }
      }
    }

    /** File a request behind a holder. */
    method Wait(priority: P) returns (guard: nat, ghost p: nat)
      requires Valid() && queue.entries != []
      modifies this, queue, queue.nodes
      ensures queue.Valid() && (queue.nodes == old(queue.nodes) || fresh(queue.nodes))
      ensures var q, d := M.Asked(prio, evict, old(queue.entries), priority), M.Waiting(priority, old(clock));
              && !Has(q, guard) && At(M.MutexOrder(prio), q, d, p)
              && queue.entries == Insert(q, p, Cell(guard, d)) && clock == old(clock) + 1
    {
      AskHolder(priority);
      guard, p := queue.Enqueue(M.Waiting(priority, clock));
      clock := clock + 1;
    }

    /** The part of `lock` before it waits; `locked` says that it does not have to. */
    method Lock(priority: P) returns (guard: nat, locked: bool, ghost p: nat)
      requires Valid()
      modifies this, queue, queue.nodes
      ensures Valid() && (queue.nodes == old(queue.nodes) || fresh(queue.nodes))
      ensures locked <==> old(State()).queue == []
      ensures M.Enabled(prio, evict, old(State()), M.Lock(priority, guard, p))
      ensures State() == M.Apply(prio, evict, old(State()), M.Lock(priority, guard, p))
    {
      hide M.Inv;
      locked := queue.IsEmpty();
      if locked {
        p := 0;
        guard := Take(priority);
      } else {
        ghost var m := State();
        guard, p := Wait(priority);
        M.LockIsStep(prio, evict, m, priority, guard, p);
      }
    }

    /** Release the lock, or give up waiting for it. */
    method DropGuard(guard: nat)
      requires Valid() && Has(queue.entries, guard)
      modifies queue, queue.nodes
      ensures Valid() && queue.nodes == old(queue.nodes)
      ensures State() == M.Apply(prio, evict, old(State()), M.DropGuard(IndexOf(old(queue.entries), guard)))
    {
      ghost var m, i := State(), IndexOf(queue.entries, guard);
      M.DropKeepsInv(prio, evict, m, i);
      var hadLock := queue.GetByHandle(guard).hasLock;
      var _, _ := queue.Dequeue(guard);
      if hadLock {
        var head := queue.HeadHandle();
        if head.Some? {
          DistinctRemove(m.queue, i);
          IndexIs(queue.entries, 0);
          queue.SetInPlace(head.value, queue.GetByHandle(head.value).(hasLock := true));
        }
      }
    }
  }
}
