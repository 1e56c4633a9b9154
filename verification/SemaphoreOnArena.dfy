/** The semaphore on its default queue: each method is one critical section of src/semaphore.rs, and
    takes the one step of the state machine in `SemaphoreRuns` that its contract names. */
module SemaphoresOnArena {
  import opened ArenaQueues
  import opened Masks
  import opened Orders
  import opened QueueSpec
  import opened SemaphoreActivation
  import opened SemaphoreRuns
  import opened SemaphoreSteps
  import opened Semaphores

  function HandleAt<P>(q: Queue<P>, k: nat): Option<nat> {
    if k < |q| then Some(q[k].h) else None
  }

  /** One grant, seen from the loop of `activate_waiters`: the successor noted before the grant is
      the right one after it. */
  lemma GrantKeepsNext<P(!new)>(cfg: Config, o: Order<P>, s: Sem<P>, n: nat, k: nat) returns (u: Sem<P>)
    requires Lawful(o) && Distinct(s.queue) && Sorted(SemOrder(cfg, o), s.queue)
    requires HeldUpTo(s.queue, n) && k < |s.queue| && !s.queue[k].d.held && Count(cfg, s.queue[k].d) <= s.available
    ensures u == GrantAt(cfg, o, s, k) && Distinct(u.queue) && Sorted(SemOrder(cfg, o), u.queue)
    ensures HeldUpTo(u.queue, n + 1) && HandleAt(u.queue, k + 1) == HandleAt(s.queue, k + 1)
    ensures Activate(cfg, o, s, k) == Activate(cfg, o, u, k + 1)
  {
    u := GrantAt(cfg, o, s, k);
    GrantPlaces(cfg, o, s.queue, n, k);
    var j := GrantMoves(cfg, o, s.queue, n, k);
    GrantKeepsOrder(cfg, o, s.queue, k, j);
  }

  lemma SameHandles<P>(q: Queue<P>, r: Queue<P>)
    requires Distinct(q) && |q| == |r| && (forall i :: 0 <= i < |q| ==> q[i].h == r[i].h)
    ensures Distinct(r)
  {
  }

  /** Whether the holders are flagged before or after the request is filed makes no difference. */
  lemma FlagsCommute<P(!new)>(cfg: Config, o: Order<P>, q: Queue<P>, priority: P, p: nat, c: Cell<nat, SemWaiter<P>>)
    requires p <= |q| && At(SemOrder(cfg, o), q, c.d, p) && !c.d.held
    ensures At(SemOrder(cfg, o), Asked(cfg, o, q, priority), c.d, p)
    ensures Asked(cfg, o, Insert(q, p, c), priority) == Insert(Asked(cfg, o, q, priority), p, c)
  {
    var r := Asked(cfg, o, q, priority);
    forall i | 0 <= i < |q| ensures SemOrder(cfg, o).cmpNew(c.d, r[i].d) == SemOrder(cfg, o).cmpNew(c.d, q[i].d) {}
    var left, right := Asked(cfg, o, Insert(q, p, c), priority), Insert(r, p, c);
    forall i | 0 <= i < |left| ensures left[i] == right[i] {
      assert i != p ==> Insert(q, p, c)[i] == q[if i < p then i else i - 1];
    }
  }

  /** A request that fits is filed after the holders have been asked. */
  lemma FiledAfterwards<P(!new)>(cfg: Config, o: Order<P>, s: Sem<P>, priority: P, raw: nat, h: nat, p: nat)
    requires RawAllowed(cfg, s.total, raw)
    requires var q := Asked(cfg, o, s.queue, priority);
             !Has(q, h) && p <= |q| && At(SemOrder(cfg, o), q, NewEntry(cfg, o, s, priority, raw), p)
    ensures p <= |s.queue| && Enabled(cfg, o, s, Acquiring(priority, raw, h, p))
  {
    SameHas(cfg, o, s.queue, priority, h);
  }

  lemma SameHas<P>(cfg: Config, o: Order<P>, q: Queue<P>, priority: P, h: nat)
    ensures Has(Asked(cfg, o, q, priority), h) <==> Has(q, h)
  {
    AskedKeepsShape(cfg, o, q, priority);
    ShapeKeepsOrder(cfg, o, q, Asked(cfg, o, q, priority));
  }

  /** A request that does not fit is filed first; the holders are asked afterwards. */
  lemma FiledFirst<P(!new)>(cfg: Config, o: Order<P>, s: Sem<P>, priority: P, raw: nat, h: nat, p: nat)
      returns (r: Queue<P>)
    requires Lawful(o) && Inv(cfg, o, s) && RawAllowed(cfg, s.total, raw) && s.available < CountOf(raw)
    requires !Has(s.queue, h) && p <= |s.queue|
    requires At(SemOrder(cfg, o), s.queue, SemWaiter(priority, false, false, raw), p)
    ensures r == Insert(s.queue, p, Cell(h, SemWaiter(priority, false, false, raw)))
    ensures Distinct(r) && Sorted(SemOrder(cfg, o), r)
    ensures Enabled(cfg, o, s, Acquiring(priority, raw, h, p))
    ensures s.(queue := Asked(cfg, o, r, priority)) == AcquireAt(cfg, o, s, priority, raw, h, p)
  {
    var c := Cell(h, SemWaiter(priority, false, false, raw));
    r := Insert(s.queue, p, c);
    SemOrderLaws(cfg, o);
    DistinctInsert(s.queue, p, c);
    InsertKeepsSorted(SemOrder(cfg, o), s.queue, p, c);
    FlagsCommute(cfg, o, s.queue, priority, p, c);
    assert NewEntry(cfg, o, s, priority, raw) == c.d;
  }

  lemma NotifyNobody<P>(cfg: Config, q: Queue<P>, total: nat)
    ensures NotifyFrom(cfg, q, |q|, total) == q
  {
  }

  lemma SplitIsEnabled<P(!new)>(cfg: Config, o: Order<P>, s: Sem<P>, i: nat, count: nat, priority: P, h: nat, p: nat)
    requires Inv(cfg, o, s) && Guard(s, i) && 0 < count && CanSplit(cfg, s, i, count)
    requires var u := Reduced(cfg, s, i, count);
             !Has(u, h) && p <= |u| && At(SemOrder(cfg, o), u, SemWaiter(priority, true, false, count), p)
    ensures Enabled(cfg, o, s, Splitting(i, count, priority, h, p))
  {
    var _, _ := ReducedKeeps(cfg, o, s, i, count);
  }

  function AskedOne<P>(o: Order<P>, c: Cell<nat, SemWaiter<P>>, priority: P): Cell<nat, SemWaiter<P>> {
    if c.d.held && o.cmp(priority, c.d.priority) == Greater then Cell(c.h, c.d.(wantsEvict := true)) else c
  }

  /** The walk that asks the holders to give way, when it has come to place `k`. */
  function AskedUpTo<P>(cfg: Config, o: Order<P>, q: Queue<P>, priority: P, k: nat): (r: Queue<P>)
    requires k <= |q|
    ensures |r| == |q| && forall i :: 0 <= i < |q| ==> r[i].h == q[i].h
    ensures k == 0 ==> r == q
  {
    seq(|q|, i requires 0 <= i < |q| => if i < k && !cfg.Plain? then AskedOne(o, q[i], priority) else q[i])
  }

  lemma AskedStep<P>(cfg: Config, o: Order<P>, q: Queue<P>, priority: P, k: nat)
    requires k < |q|
    ensures var r := AskedUpTo(cfg, o, q, priority, k);
            && r[k] == q[k]
            && AskedUpTo(cfg, o, q, priority, k + 1)
               == (if q[k].d.held && !cfg.Plain? then r[k := AskedOne(o, r[k], priority)] else r)
            && (!q[k].d.held ==> AskedOne(o, q[k], priority) == q[k] && r[k := q[k]] == r)
  {
  }

  /** Nobody behind the first waiter is to be asked. */
  lemma AskedAll<P>(cfg: Config, o: Order<P>, q: Queue<P>, priority: P, k: nat)
    requires Sorted(SemOrder(cfg, o), q) && k <= |q| && (k < |q| ==> !q[k].d.held)
    ensures AskedUpTo(cfg, o, q, priority, k) == Asked(cfg, o, q, priority)
  {
    forall i | k < i < |q| ensures !q[i].d.held {
      HoldersFirst(cfg, o, q, k, i);
    }
  }

  method WithTag(count: nat) returns (raw: nat)
    requires count < MAX_PERMITS
    ensures raw == count + WITHIN_TOTAL_BIT && CountOf(raw) == count
  {
    TagIsABit(count);
    raw := Or(count, WITHIN_TOTAL_BIT);
  }

  class Semaphore<P(!new)> {
    const cfg: Config
    const prio: Order<P>
    const queue: ArenaQueue<SemWaiter<P>>
    var available: nat
    var total: nat

    ghost function State(): Sem<P>
      reads this, queue
    {
      Sem(queue.entries, available, total)
    }

    /** What the walks over the queue rely on. */
    ghost predicate Ready()
      reads queue, queue.nodes
    {
      && queue.Valid()
      && queue.ord == SemOrder(cfg, prio)
      && Lawful(prio)
      && Distinct(queue.entries)
      && Sorted(SemOrder(cfg, prio), queue.entries)
    }

    ghost predicate Valid()
      reads this, queue, queue.nodes
    {
      Ready() && Inv(cfg, prio, State())
    }

    constructor (cfg: Config, prio: Order<P>, permits: nat, dual: bool)
      requires Lawful(prio) && permits < WORD
      ensures Valid() && State() == New(permits)
      ensures this.cfg == cfg && this.prio == prio && fresh(queue) && fresh(queue.nodes)
    {
      this.cfg, this.prio, available, total := cfg, prio, permits, permits;
      queue := new ArenaQueue(SemOrder(cfg, prio), dual);
      new;
      NewIsInv(cfg, prio, permits);
    }

    // ----- Walks over the queue

    method Grant(h: nat, ghost n: nat, ghost k: nat)
      requires Ready() && HeldUpTo(queue.entries, n) && k < |queue.entries| && queue.entries[k].h == h
      requires !queue.entries[k].d.held && Count(cfg, queue.entries[k].d) <= available
      modifies this`available, queue`head, queue`entries, queue.nodes
      ensures Ready() && HeldUpTo(queue.entries, n + 1) && |queue.entries| == |old(queue.entries)|
      ensures HandleAt(queue.entries, k + 1) == HandleAt(old(queue.entries), k + 1)
      ensures Activate(cfg, prio, State(), k + 1) == Activate(cfg, prio, old(State()), k)
    {
      ghost var u := GrantKeepsNext(cfg, prio, State(), n, k);
      SemOrderLaws(cfg, prio);
      IndexIs(queue.entries, k);
      var d := queue.GetByHandle(h);
      available := available - Count(cfg, d);
      queue.UpdateNode(h, d.(held := true), true);
      assert State() == u;
    }

    /** One round of the walk; `done` says that it ends here. */
    method Visit(h: nat, ghost n: nat, ghost k: nat) returns (next: Option<nat>, done: bool, ghost m: nat)
      requires Ready() && HeldUpTo(queue.entries, n) && k < |queue.entries| && queue.entries[k].h == h
      modifies this`available, queue`head, queue`entries, queue.nodes
      ensures Ready() && HeldUpTo(queue.entries, m) && |queue.entries| == |old(queue.entries)|
      ensures next == HandleAt(queue.entries, k + 1)
      ensures (if done then State() else Activate(cfg, prio, State(), k + 1)) == Activate(cfg, prio, old(State()), k)
    {
      IndexIs(queue.entries, k);
      var d := queue.GetByHandle(h);
      next, done, m := queue.GetNextHandle(h), false, n;
      if !d.held {
        if Count(cfg, d) > available {
          done := !(cfg.Total? && d.wantsEvict);
        } else {
          Grant(h, n, k);
          m := n + 1;
        }
      }
    }

    method ActivateWaiters(start: Option<nat>, ghost from: nat)
      requires Ready() && from <= |queue.entries| && start == HandleAt(queue.entries, from)
      modifies this`available, queue`head, queue`entries, queue.nodes
      ensures Ready() && State() == Activate(cfg, prio, old(State()), from)
    {
      var next, done := start, false;
      ghost var k, n, result := from, NumHeld(queue.entries), Activate(cfg, prio, State(), from);
      SortedIsDivided(cfg, prio, queue.entries);
      while next.Some? && !done
        invariant Ready() && HeldUpTo(queue.entries, n)
        invariant k <= |queue.entries| && next == HandleAt(queue.entries, k)
        invariant result == if done then State() else Activate(cfg, prio, State(), k)
        decreases |queue.entries| - k
      {
        next, done, n := Visit(next.value, n, k);
        k := k + 1;
      }
    }

    /** `start` is where the iterator begins; with `None` it begins at the head. */
    method NotifyOversized(start: Option<nat>, ghost from: nat)
      requires queue.Valid() && Distinct(queue.entries) && from <= |queue.entries|
      requires start == HandleAt(queue.entries, from)
      modifies queue`entries, queue.nodes
      ensures queue.Valid() && queue.entries == NotifyFrom(cfg, old(queue.entries), from, total)
    {
      var next := start;
      ghost var k, before := from, queue.entries;
      while next.Some?
        invariant queue.Valid() && |queue.entries| == |before| && from <= k <= |before|
        invariant next == HandleAt(queue.entries, k)
        invariant forall i :: 0 <= i < |before| ==>
                    queue.entries[i] == if i < k then NotifyFrom(cfg, before, from, total)[i] else before[i]
        decreases |before| - k
      {
        var h := next.value;
        SameHandles(before, queue.entries);
        IndexIs(queue.entries, k);
        var d := queue.GetByHandle(h);
        next := queue.GetNextHandle(h);
        if Tagged(d) && Count(cfg, d) > total {
          queue.SetInPlace(h, d.(wantsEvict := true));
        }
        k := k + 1;
      }
    }

    method AskIfOutranked(h: nat, priority: P, ghost k: nat)
      requires queue.Valid() && Distinct(queue.entries) && k < |queue.entries| && queue.entries[k].h == h
      modifies queue`entries, queue.nodes
      ensures queue.Valid() && queue.entries == old(queue.entries)[k := AskedOne(prio, old(queue.entries)[k], priority)]
    {
      IndexIs(queue.entries, k);
      var d := queue.GetByHandle(h);
      if d.held && prio.cmp(priority, d.priority) == Greater {
        queue.SetInPlace(h, d.(wantsEvict := true));
      }
    }

    /** The priority of the first entry that is not skipped; the holders on the way are asked to give
        way if they are outranked. */
    method FirstWaiting(priority: P) returns (first: Option<P>)
      requires Ready()
      modifies queue`entries, queue.nodes
      ensures queue.Valid() && queue.entries == Asked(cfg, prio, old(queue.entries), priority)
      ensures var q, k := old(queue.entries), FirstNotSkipped(cfg, old(queue.entries));
              first == if k < |q| then Some(q[k].d.priority) else None
    {
      hide AskedUpTo, AskedOne, Asked, FirstNotSkipped, Distinct, Sorted, IndexOf;
      var next := queue.HeadHandle();
      ghost var k, before := 0, queue.entries;
      while next.Some?
        invariant queue.Valid() && Distinct(queue.entries) && k <= |before|
        invariant next == HandleAt(queue.entries, k)
        invariant queue.entries == AskedUpTo(cfg, prio, before, priority, k)
        invariant forall i :: 0 <= i < k ==> Skipped(cfg, before[i].d)
        decreases |before| - k
      {
        var h := next.value;
        IndexIs(queue.entries, k);
        var d := queue.GetByHandle(h);
        AskedStep(cfg, prio, before, priority, k);
        if d.held {
          if !cfg.Plain? {
            AskIfOutranked(h, priority, k);
          }
        } else if !cfg.Total? || d.wantsEvict {
          AskedAll(cfg, prio, before, priority, k);
          return Some(d.priority);
        }
        SameHandles(before, queue.entries);
        IndexIs(queue.entries, k);
        next := queue.GetNextHandle(h);
        k := k + 1;
      }
      AskedAll(cfg, prio, before, priority, k);
      return None;
    }

    /** All holders that the new request outranks are asked to give way. */
    method AskHolders(priority: P)
      requires Ready() && !cfg.Plain?
      modifies queue`entries, queue.nodes
      ensures queue.Valid() && queue.entries == Asked(cfg, prio, old(queue.entries), priority)
    {
      var next := queue.HeadHandle();
      ghost var k, before := 0, queue.entries;
      while next.Some?
        invariant queue.Valid() && Distinct(queue.entries) && k <= |before|
        invariant next == HandleAt(queue.entries, k)
        invariant queue.entries == AskedUpTo(cfg, prio, before, priority, k)
        decreases |before| - k
      {
        var h := next.value;
        AskedStep(cfg, prio, before, priority, k);
        AskIfOutranked(h, priority, k);
        SameHandles(before, queue.entries);
        IndexIs(queue.entries, k);
        next := queue.GetNextHandle(h);
        k := k + 1;
      }
      AskedAll(cfg, prio, before, priority, k);
    }

    // ----- acquire

    method FileRequest(priority: P, raw: nat) returns (h: nat, ghost p: nat)
      requires Valid() && RawAllowed(cfg, total, raw) && available < CountOf(raw)
      modifies queue, queue.nodes
      ensures queue.Valid() && (queue.nodes == old(queue.nodes) || fresh(queue.nodes))
      ensures Enabled(cfg, prio, old(State()), Acquiring(priority, raw, h, p))
      ensures State() == AcquireAt(cfg, prio, old(State()), priority, raw, h, p)
    {
      ghost var s := State();
      h, p := queue.Enqueue(SemWaiter(priority, false, false, raw));
      ghost var r := FiledFirst(cfg, prio, s, priority, raw, h, p);
      if !cfg.Plain? {
        AskHolders(priority);
      }
    }

    /** The holders are asked on the way to the first waiter, which decides. */
    method AskAndDecide(priority: P, raw: nat) returns (granted: bool)
      requires Ready() && available >= CountOf(raw)
      modifies queue`entries, queue.nodes
      ensures queue.Valid() && queue.entries == Asked(cfg, prio, old(queue.entries), priority)
      ensures granted == WillAcquire(cfg, prio, old(State()), priority, raw)
    {
      var first := FirstWaiting(priority);
      granted := first.None? || prio.cmp(priority, first.value).IsGe();
    }

    method FileAfterAsking(priority: P, raw: nat) returns (h: nat, granted: bool, ghost p: nat)
      requires Valid() && RawAllowed(cfg, total, raw) && available >= CountOf(raw)
      modifies this`available, queue, queue.nodes
      ensures queue.Valid() && (queue.nodes == old(queue.nodes) || fresh(queue.nodes))
      ensures Enabled(cfg, prio, old(State()), Acquiring(priority, raw, h, p))
      ensures State() == AcquireAt(cfg, prio, old(State()), priority, raw, h, p)
      ensures granted == WillAcquire(cfg, prio, old(State()), priority, raw)
    {
      ghost var s := State();
      granted := AskAndDecide(priority, raw);
      h, p := queue.Enqueue(SemWaiter(priority, granted, false, raw));
      FiledAfterwards(cfg, prio, s, priority, raw, h, p);
      if granted {
        available := available - CountOf(raw);
      }
    }

    /** `granted` says that the request does not have to wait. */
    method DoAcquire(priority: P, raw: nat) returns (h: nat, granted: bool, ghost p: nat)
      requires Valid() && RawAllowed(cfg, total, raw)
      modifies this`available, queue, queue.nodes
      ensures Valid() && (queue.nodes == old(queue.nodes) || fresh(queue.nodes))
      ensures Enabled(cfg, prio, old(State()), Acquiring(priority, raw, h, p))
      ensures State() == Apply(cfg, prio, old(State()), Acquiring(priority, raw, h, p))
      ensures granted == WillAcquire(cfg, prio, old(State()), priority, raw)
    {
      ghost var s := State();
      if available >= CountOf(raw) {
        h, granted, p := FileAfterAsking(priority, raw);
      } else {
        granted := false;
        h, p := FileRequest(priority, raw);
      }
      StepKeepsInv(cfg, prio, s, Acquiring(priority, raw, h, p));
    }

    method AcquireMany(priority: P, count: nat) returns (h: nat, granted: bool, ghost p: nat)
      requires Valid() && count < MAX_PERMITS
      modifies this`available, queue, queue.nodes
      ensures Valid() && (queue.nodes == old(queue.nodes) || fresh(queue.nodes))
      ensures State() == Apply(cfg, prio, old(State()), Acquiring(priority, count, h, p))
      ensures Enabled(cfg, prio, old(State()), Acquiring(priority, count, h, p))
      ensures granted == WillAcquire(cfg, prio, old(State()), priority, count)
    {
      h, granted, p := DoAcquire(priority, count);
    }

    method AcquireTagged(priority: P, count: nat) returns (h: nat, granted: bool, ghost p: nat)
      requires Valid() && cfg.Total? && count < MAX_PERMITS && count <= total
      modifies this`available, queue, queue.nodes
      ensures Valid() && (queue.nodes == old(queue.nodes) || fresh(queue.nodes))
      ensures Enabled(cfg, prio, old(State()), Acquiring(priority, count + WITHIN_TOTAL_BIT, h, p))
      ensures State() == Apply(cfg, prio, old(State()), Acquiring(priority, count + WITHIN_TOTAL_BIT, h, p))
      ensures granted == WillAcquire(cfg, prio, old(State()), priority, count + WITHIN_TOTAL_BIT)
    {
      var raw := WithTag(count);
      h, granted, p := DoAcquire(priority, raw);
    }

    /** `None` if there are fewer permits in all than are asked for; the request is not filed then. */
    method AcquireWithinTotal(priority: P, count: nat) returns (h: Option<nat>, granted: bool, ghost p: nat)
      requires Valid() && cfg.Total? && count < MAX_PERMITS
      modifies this`available, queue, queue.nodes
      ensures Valid() && (queue.nodes == old(queue.nodes) || fresh(queue.nodes))
      ensures h.None? <==> old(State()).total < count
      ensures h.None? ==> State() == old(State())
      ensures h.Some? ==>
                var op := Acquiring(priority, count + WITHIN_TOTAL_BIT, h.value, p);
                && Enabled(cfg, prio, old(State()), op) && State() == Apply(cfg, prio, old(State()), op)
                && granted == WillAcquire(cfg, prio, old(State()), priority, count + WITHIN_TOTAL_BIT)
    {
      p, granted := 0, false;
      if total < count {
        return None, false, 0;
      }
      var handle;
      handle, granted, p := AcquireTagged(priority, count);
      h := Some(handle);
    }

    // ----- Giving up permits and requests

    /** Take an entry out of the queue; the data of its predecessor and its successor are as after. */
    method TakeOut(h: nat, ghost i: nat) returns (d: SemWaiter<P>, prev: Option<SemWaiter<P>>, next: Option<nat>)
      requires Ready() && i < |queue.entries| && queue.entries[i].h == h
      modifies queue`head, queue`good, queue`used, queue`entries, queue.nodes
      ensures Ready() && queue.entries == Remove(old(queue.entries), i)
      ensures d == old(queue.entries)[i].d && next == HandleAt(queue.entries, i)
      ensures prev == if i > 0 then Some(queue.entries[i - 1].d) else None
    {
      IndexIs(queue.entries, i);
      DistinctRemove(queue.entries, i);
      RemoveKeepsSorted(SemOrder(cfg, prio), queue.entries, i);
      d := queue.GetByHandle(h);
      prev, next := queue.Dequeue(h);
    }

    /** The entry goes, and its permits become available; false stands for the panic on overflow. */
    method GiveBack(h: nat, ghost i: nat) returns (ok: bool, next: Option<nat>)
      requires Ready() && i < |queue.entries| && queue.entries[i].h == h
      modifies this`available, queue`head, queue`good, queue`used, queue`entries, queue.nodes
      ensures Ready() && queue.entries == Remove(old(queue.entries), i) && next == HandleAt(queue.entries, i)
      ensures var count := Count(cfg, old(queue.entries)[i].d);
              && ok == (cfg.Total? || old(available) + count < WORD)
              && available == old(available) + if ok then count else 0
    {
      var d, prev;
      d, prev, next := TakeOut(h, i);
      ok := cfg.Total? || available + Count(cfg, d) < WORD;
      if ok {
        available := available + Count(cfg, d);
      }
    }

    method DoRelease(h: nat, ghost i: nat) returns (ok: bool)
      requires Ready() && i < |queue.entries| && queue.entries[i].h == h
      modifies this`available, queue, queue.nodes
      ensures Ready() && State() == Release(cfg, prio, old(State()), i)
      ensures ok == (cfg.Total? || old(available) + Count(cfg, old(queue.entries)[i].d) < WORD)
    {
      hide Activate;
      var next;
      ok, next := GiveBack(h, i);
      if ok {
        ActivateWaiters(next, i);
      }
    }

    /** Drop of a permit. */
    method ReleasePermit(h: nat) returns (ok: bool)
      requires Valid() && Has(queue.entries, h) && queue.entries[IndexOf(queue.entries, h)].d.held
      modifies this`available, queue, queue.nodes
      ensures Valid()
      ensures State() == Apply(cfg, prio, old(State()), Releasing(IndexOf(old(queue.entries), h)))
      ensures var count := Count(cfg, old(queue.entries)[IndexOf(old(queue.entries), h)].d);
              ok <==> cfg.Total? || old(available) + count < WORD
    {
      ghost var i := IndexOf(queue.entries, h);
      StepKeepsInv(cfg, prio, State(), Releasing(i));
      ok := DoRelease(h, i);
    }

    method Withdraw(h: nat, ghost i: nat)
        returns (held: bool, prev: Option<SemWaiter<P>>, next: Option<nat>)
      requires Ready() && i < |queue.entries| && queue.entries[i].h == h
      requires !cfg.Total? ==> available < WORD
      modifies this`available, queue`head, queue`good, queue`used, queue`entries, queue.nodes
      ensures Ready() && State() == Withdrawn(cfg, old(State()), i)
      ensures held == old(queue.entries)[i].d.held && next == HandleAt(queue.entries, i)
      ensures prev == if i > 0 then Some(queue.entries[i - 1].d) else None
    {
      hide Ready;
      var d;
      d, prev, next := TakeOut(h, i);
      held := d.held;
      if held {
        available := if cfg.Total? then available + Count(cfg, d) else (available + Count(cfg, d)) % WORD;
      }
    }

    method DoCancel(h: nat, ghost i: nat)
      requires Ready() && i < |queue.entries| && queue.entries[i].h == h
      requires !cfg.Total? ==> available < WORD
      modifies this`available, queue, queue.nodes
      ensures Ready() && State() == Cancel(cfg, prio, old(State()), i)
    {
      hide Activate;
      var held, prev, next := Withdraw(h, i);
      if next.None? || !(held || available > 0) {
        return;
      }
      if held || prev.None? || prev.value.held {
        ActivateWaiters(next, i);
      }
    }

    /** Drop of the future that waits for a permit, or of what it was granted unseen. */
    method CancelRequest(h: nat)
      requires Valid() && Has(queue.entries, h)
      modifies this`available, queue, queue.nodes
      ensures Valid()
      ensures State() == Apply(cfg, prio, old(State()), Cancelling(IndexOf(old(queue.entries), h)))
    {
      ghost var i := IndexOf(queue.entries, h);
      StepKeepsInv(cfg, prio, State(), Cancelling(i));
      DoCancel(h, i);
    }

    /** The walk of `forget`, which is skipped if nobody follows the guard that went. */
    method NotifyNext(next: Option<nat>, ghost i: nat)
      requires queue.Valid() && Distinct(queue.entries) && i <= |queue.entries|
      requires next == HandleAt(queue.entries, i)
      modifies queue`entries, queue.nodes
      ensures queue.Valid() && queue.entries == NotifyFrom(cfg, old(queue.entries), i, total)
    {
      if next.Some? {
        NotifyOversized(next, i);
      } else {
        NotifyNobody(cfg, queue.entries, total);
      }
    }

    method DoForget(h: nat, ghost i: nat)
      requires Ready() && i < |queue.entries| && queue.entries[i].h == h
      requires cfg.Total? ==> Count(cfg, queue.entries[i].d) <= total
      modifies this`total, queue, queue.nodes
      ensures queue.Valid() && State() == Semaphores.Forget(cfg, old(State()), i)
    {
      hide NotifyFrom, Remove, Has, IndexOf, Sorted;
      var d, _, next := TakeOut(h, i);
      if cfg.Total? {
        total := total - Count(cfg, d);
        NotifyNext(next, i);
      }
    }

    method Forget(h: nat)
      requires Valid() && Has(queue.entries, h) && queue.entries[IndexOf(queue.entries, h)].d.held
      modifies this`total, queue, queue.nodes
      ensures Valid()
      ensures State() == Apply(cfg, prio, old(State()), Forgetting(IndexOf(old(queue.entries), h)))
    {
      ghost var i := IndexOf(queue.entries, h);
      StepKeepsInv(cfg, prio, State(), Forgetting(i));
      ForgetKeepsInv(cfg, prio, State(), i);
      DoForget(h, i);
    }

    method DoForgetPermits(count: nat) returns (forgotten: nat)
      requires Ready() && (cfg.Total? ==> available <= total)
      modifies this`available, this`total, queue, queue.nodes
      ensures queue.Valid() && forgotten == Min(count, old(available))
      ensures State() == Semaphores.ForgetPermits(cfg, old(State()), count)
    {
      hide NotifyFrom;
      forgotten := Min(count, available);
      available := available - forgotten;
      if cfg.Total? && forgotten != 0 {
        total := total - forgotten;
        NotifyOversized(queue.HeadHandle(), 0);
      }
    }

    method ForgetPermits(count: nat) returns (forgotten: nat)
      requires Valid()
      modifies this`available, this`total, queue, queue.nodes
      ensures Valid() && State() == Apply(cfg, prio, old(State()), ForgettingPermits(count))
      ensures forgotten <= count && forgotten <= old(available)
      ensures forgotten == count || forgotten == old(available)
      ensures available == old(available) - forgotten && (cfg.Total? ==> total == old(total) - forgotten)
    {
      StepKeepsInv(cfg, prio, State(), ForgettingPermits(count));
      forgotten := DoForgetPermits(count);
    }

    method TryAddPermits(count: nat) returns (nowAvailable: Option<nat>)
      requires Valid()
      modifies this`available, this`total, queue, queue.nodes
      ensures Valid() && State() == Apply(cfg, prio, old(State()), AddingPermits(count))
      ensures nowAvailable.Some? <==> (if cfg.Total? then old(total) else old(available)) + count < WORD
      ensures if nowAvailable.Some? then nowAvailable.value == available else State() == old(State())
    {
      hide Activate;
      StepKeepsInv(cfg, prio, State(), AddingPermits(count));
      if (if cfg.Total? then total else available) + count >= WORD {
        return None;
      }
      if cfg.Total? {
        total := total + count;
      }
      available := available + count;
      ActivateWaiters(queue.HeadHandle(), 0);
      return Some(available);
    }

    // ----- Dividing and joining permits

    /** Give a guard another count. */
    method Recount(h: nat, raw: nat, ghost i: nat)
      requires Ready() && i < |queue.entries| && queue.entries[i].h == h
      modifies queue`entries, queue.nodes
      ensures Ready()
      ensures queue.entries == old(queue.entries)[i := Cell(h, old(queue.entries)[i].d.(raw := raw))]
    {
      ghost var before := queue.entries;
      IndexIs(queue.entries, i);
      queue.SetInPlace(h, queue.GetByHandle(h).(raw := raw));
      forall k | 0 <= k < |before| ensures SameRank(before[k], queue.entries[k]) {}
      ShapeKeepsOrder(cfg, prio, before, queue.entries);
    }

    method DoSplit(h: nat, count: nat, priority: P, ghost i: nat) returns (part: nat, ghost p: nat)
      requires Valid() && i < |queue.entries| && queue.entries[i].h == h && queue.entries[i].d.held
      requires 0 < count && CanSplit(cfg, State(), i, count)
      modifies queue, queue.nodes
      ensures queue.Valid() && (queue.nodes == old(queue.nodes) || fresh(queue.nodes))
      ensures Enabled(cfg, prio, old(State()), Splitting(i, count, priority, part, p)) && p <= |old(queue.entries)|
      ensures State() == SplitAt(cfg, old(State()), i, count, priority, part, p)
    {
      ghost var s := State();
      IndexIs(queue.entries, i);
      Recount(h, queue.GetByHandle(h).raw - count, i);
      assert queue.entries == Reduced(cfg, s, i, count);
      part, p := queue.Enqueue(SemWaiter(priority, true, false, count));
      SplitIsEnabled(cfg, prio, s, i, count, priority, part, p);
    }

    /** `None` if the guard holds no more than is to be split off. */
    method Split(h: nat, count: nat, priority: P) returns (part: Option<nat>, ghost p: nat)
      requires Valid() && Has(queue.entries, h) && queue.entries[IndexOf(queue.entries, h)].d.held && 0 < count
      modifies queue, queue.nodes
      ensures Valid() && (queue.nodes == old(queue.nodes) || fresh(queue.nodes))
      ensures part.Some? <==> Count(cfg, old(queue.entries)[IndexOf(old(queue.entries), h)].d) > count
      ensures part.None? ==> State() == old(State())
      ensures part.Some? ==>
                var op := Splitting(IndexOf(old(queue.entries), h), count, priority, part.value, p);
                Enabled(cfg, prio, old(State()), op) && State() == Apply(cfg, prio, old(State()), op)
    {
      if Count(cfg, queue.GetByHandle(h)) <= count {
        return None, 0;
      }
      ghost var s, i := State(), IndexOf(queue.entries, h);
      var handle;
      handle, p := DoSplit(h, count, priority, i);
      StepKeepsInv(cfg, prio, s, Splitting(i, count, priority, handle, p));
      part := Some(handle);
    }

    method Join(h: nat, other: nat, count: nat, ghost i: nat, ghost j: nat)
      requires Ready() && i < |queue.entries| && j < |queue.entries| && i != j
      requires queue.entries[i].h == h && queue.entries[j].h == other
      modifies queue`head, queue`good, queue`used, queue`entries, queue.nodes
      ensures queue.Valid() && queue.entries == Remove(Enlarged(old(queue.entries), i, count), j)
    {
      IndexIs(queue.entries, i);
      Recount(h, queue.GetByHandle(h).raw + count, i);
      var _, _, _ := TakeOut(other, j);
    }

    method DoMerge(h: nat, other: nat, ghost i: nat, ghost j: nat) returns (ok: bool)
      requires Ready() && i < |queue.entries| && j < |queue.entries| && i != j
      requires queue.entries[i].h == h && queue.entries[j].h == other
      modifies this`available, queue, queue.nodes
      ensures queue.Valid() && ok == CanMerge(cfg, old(State()), i, j)
      ensures State() == Semaphores.Merge(cfg, prio, old(State()), i, j)
    {
      IndexIs(queue.entries, i);
      IndexIs(queue.entries, j);
      var count := Count(cfg, queue.GetByHandle(other));
      ok := Count(cfg, queue.GetByHandle(h)) + count <= MAX_PERMITS;
      if ok {
        Join(h, other, count, i, j);
      } else {
        var _ := DoRelease(other, j);
      }
    }

    /** False is the error returned when a guard would hold too many permits; `other`, which the call
        has taken over, is dropped then. */
    method Merge(h: nat, other: nat) returns (ok: bool)
      requires Valid() && Has(queue.entries, h) && Has(queue.entries, other) && h != other
      requires queue.entries[IndexOf(queue.entries, h)].d.held && queue.entries[IndexOf(queue.entries, other)].d.held
      modifies this`available, queue, queue.nodes
      ensures Valid()
      ensures var i, j := IndexOf(old(queue.entries), h), IndexOf(old(queue.entries), other);
              && (ok <==> Count(cfg, old(queue.entries)[i].d) + Count(cfg, old(queue.entries)[j].d) <= MAX_PERMITS)
              && State() == Apply(cfg, prio, old(State()), Merging(i, j))
    {
      ghost var i, j := IndexOf(queue.entries, h), IndexOf(queue.entries, other);
      StepKeepsInv(cfg, prio, State(), Merging(i, j));
      ok := DoMerge(h, other, i, j);
    }
  }
}
