/** The order in which requests of one priority are served: the line keeps their order of arrival, or
    its reverse, and is served from the front; a request that is granted at once has not stood in it. */
module SemaphoreArrivals {
  import opened Orders
  import opened QueueSpec
  import opened SemaphoreActivation
  import opened SemaphoreRuns
  import opened SemaphoreService
  import opened SemaphoreSteps
  import opened Semaphores

  // ----- The line keeps its order

  /** The same in terms of lists: two who are left in line stood in it in the same order. */
  lemma LineOf<P>(cfg: Config, q: Queue<P>, n: nat, waiters: Queue<P>, available: nat, r: Queue<P>, m: nat,
                  a: nat, b: nat)
      returns (x: nat, y: nat)
    requires n + |waiters| == |q| && forall i :: 0 <= i < |waiters| ==> waiters[i] == q[n + i] && !waiters[i].d.held
    requires m <= a < b < |r| && |r| == m + |Greedy(cfg, waiters, available).left|
    requires forall i :: m <= i < |r| ==> r[i] == Greedy(cfg, waiters, available).left[i - m]
    ensures x < y && SameWaiter(q, x, r, a) && SameWaiter(q, y, r, b)
  {
    hide Greedy;
    var i, j := GreedyKeepsLine(cfg, waiters, available, a - m, b - m);
    assert waiters[i] == r[a] && waiters[j] == r[b];
    x, y := n + i, n + j;
  }

  lemma ActivateKeepsLine<P(!new)>(cfg: Config, o: Order<P>, s: Sem<P>, k: nat, t: Sem<P>, a: nat, b: nat)
      returns (x: nat, y: nat)
    requires Sorted(SemOrder(cfg, o), s.queue) && k <= NumHeld(s.queue) && t == Activate(cfg, o, s, k)
    requires a < b && Waits(t, a) && Waits(t, b)
    ensures x < y && SameWaiter(s.queue, x, t.queue, a) && SameWaiter(s.queue, y, t.queue, b)
  {
    hide Activate, Greedy, SameWaiter;
    var n, m, waiters, g := Lines(cfg, o, s, k, t);
    x, y := LineOf(cfg, s.queue, n, waiters, s.available, t.queue, m, a, b);
  }

  lemma RemoveKeepsLine<P>(q: Queue<P>, i: nat, r: Queue<P>, a: nat, b: nat) returns (x: nat, y: nat)
    requires i < |q| && r == Remove(q, i) && a < b < |r| && !r[a].d.held && !r[b].d.held
    ensures x < y && SameWaiter(q, x, r, a) && SameWaiter(q, y, r, b)
  {
    x, y := if a < i then a else a + 1, if b < i then b else b + 1;
    assert r[a] == q[x] && r[b] == q[y];
  }

  /** A walk, or none, after an entry has been taken out. */
  lemma LeavingKeepsLine<P(!new)>(cfg: Config, o: Order<P>, s: Sem<P>, i: nat, u: Sem<P>, t: Sem<P>, a: nat, b: nat)
      returns (x: nat, y: nat)
    requires Sorted(SemOrder(cfg, o), s.queue) && i < |s.queue| && u.queue == Remove(s.queue, i)
    requires t.queue == u.queue || (i <= NumHeld(s.queue) && t == Activate(cfg, o, u, i))
    requires a < b && Waits(t, a) && Waits(t, b)
    ensures x < y && SameWaiter(s.queue, x, t.queue, a) && SameWaiter(s.queue, y, t.queue, b)
  {
    hide Activate;
    var c, d := a, b;
    if t.queue != u.queue {
      LeftDivided(cfg, o, s.queue, i);
      RemoveKeepsSorted(SemOrder(cfg, o), s.queue, i);
      c, d := ActivateKeepsLine(cfg, o, u, i, t, a, b);
    }
    x, y := RemoveKeepsLine(s.queue, i, u.queue, c, d);
  }

  lemma ReleaseKeepsLine<P(!new)>(cfg: Config, o: Order<P>, s: Sem<P>, i: nat, t: Sem<P>, a: nat, b: nat)
      returns (x: nat, y: nat)
    requires Sorted(SemOrder(cfg, o), s.queue) && Guard(s, i) && t == Release(cfg, o, s, i)
    requires a < b && Waits(t, a) && Waits(t, b)
    ensures x < y && SameWaiter(s.queue, x, t.queue, a) && SameWaiter(s.queue, y, t.queue, b)
  {
    hide Activate;
    SortedIsDivided(cfg, o, s.queue);
    var u := Sem(Remove(s.queue, i), s.available + Count(cfg, s.queue[i].d), s.total);
    x, y := LeavingKeepsLine(cfg, o, s, i, u, t, a, b);
  }

  lemma CancelKeepsLine<P(!new)>(cfg: Config, o: Order<P>, s: Sem<P>, i: nat, t: Sem<P>, a: nat, b: nat)
      returns (x: nat, y: nat)
    requires Sorted(SemOrder(cfg, o), s.queue) && i < |s.queue| && t == Cancel(cfg, o, s, i)
    requires a < b && Waits(t, a) && Waits(t, b)
    ensures x < y && SameWaiter(s.queue, x, t.queue, a) && SameWaiter(s.queue, y, t.queue, b)
  {
    hide Activate;
    CancelWalks(cfg, o, s, i);
    x, y := LeavingKeepsLine(cfg, o, s, i, Withdrawn(cfg, s, i), t, a, b);
  }

  lemma MergeKeepsLine<P(!new)>(cfg: Config, o: Order<P>, s: Sem<P>, i: nat, j: nat, t: Sem<P>, a: nat, b: nat)
      returns (x: nat, y: nat)
    requires Sorted(SemOrder(cfg, o), s.queue) && Guard(s, i) && Guard(s, j) && t == Merge(cfg, o, s, i, j)
    requires a < b && Waits(t, a) && Waits(t, b)
    ensures x < y && SameWaiter(s.queue, x, t.queue, a) && SameWaiter(s.queue, y, t.queue, b)
  {
    hide Activate;
    if CanMerge(cfg, s, i, j) {
      x, y := RemoveKeepsLine(Enlarged(s.queue, i, Count(cfg, s.queue[j].d)), j, t.queue, a, b);
    } else {
      x, y := ReleaseKeepsLine(cfg, o, s, j, t, a, b);
    }
  }

  lemma ForgetKeepsLine<P(!new)>(cfg: Config, o: Order<P>, s: Sem<P>, i: nat, t: Sem<P>, a: nat, b: nat)
      returns (x: nat, y: nat)
    requires i < |s.queue| && (cfg.Total? ==> Count(cfg, s.queue[i].d) <= s.total) && t == Forget(cfg, s, i)
    requires a < b && Waits(t, a) && Waits(t, b)
    ensures x < y && SameWaiter(s.queue, x, t.queue, a) && SameWaiter(s.queue, y, t.queue, b)
  {
    var r := Remove(s.queue, i);
    assert |t.queue| == |r| && forall k :: 0 <= k < |r| ==>
             t.queue[k].h == r[k].h && t.queue[k].d == r[k].d.(wantsEvict := t.queue[k].d.wantsEvict);
    x, y := RemoveKeepsLine(s.queue, i, r, a, b);
  }

  lemma SameLine<P>(cfg: Config, s: Sem<P>, count: nat)
    requires cfg.Total? ==> s.available <= s.total
    ensures var q, r := s.queue, ForgetPermits(cfg, s, count).queue;
            |r| == |q| && forall k: nat :: k < |q| && !r[k].d.held ==> SameWaiter(q, k, r, k)
  {
  }

  lemma AddKeepsLine<P(!new)>(cfg: Config, o: Order<P>, s: Sem<P>, count: nat, t: Sem<P>, a: nat, b: nat)
      returns (x: nat, y: nat)
    requires Sorted(SemOrder(cfg, o), s.queue) && TryAddPermits(cfg, o, s, count) == Some(t)
    requires a < b && Waits(t, a) && Waits(t, b)
    ensures x < y && SameWaiter(s.queue, x, t.queue, a) && SameWaiter(s.queue, y, t.queue, b)
  {
    hide Activate;
    var u := s.(available := s.available + count, total := if cfg.Total? then s.total + count else s.total);
    x, y := ActivateKeepsLine(cfg, o, u, 0, t, a, b);
  }

  lemma SplitKeepsLine<P>(cfg: Config, s: Sem<P>, op: Op<P>, t: Sem<P>, a: nat, b: nat) returns (x: nat, y: nat)
    requires op.Splitting? && Guard(s, op.i) && op.p <= |s.queue| && CanSplit(cfg, s, op.i, op.count)
    requires t == SplitAt(cfg, s, op.i, op.count, op.priority, op.h, op.p)
    requires a < b && Waits(t, a) && Waits(t, b)
    ensures x < y && SameWaiter(s.queue, x, t.queue, a) && SameWaiter(s.queue, y, t.queue, b)
  {
    x, y := if a < op.p then a else a - 1, if b < op.p then b else b - 1;
  }

  lemma AcquireKeepsLine<P>(cfg: Config, o: Order<P>, s: Sem<P>, op: Op<P>, t: Sem<P>, a: nat, b: nat)
      returns (x: nat, y: nat)
    requires op.Acquiring? && op.p <= |s.queue| && a != op.p && b != op.p
    requires t == AcquireAt(cfg, o, s, op.priority, op.raw, op.h, op.p)
    requires a < b && Waits(t, a) && Waits(t, b)
    ensures x < y && SameWaiter(s.queue, x, t.queue, a) && SameWaiter(s.queue, y, t.queue, b)
  {
    x, y := if a < op.p then a else a - 1, if b < op.p then b else b - 1;
  }

  /** Two requests that wait after a step stood in line before it, in the same order; unless one of
      them is the request that the step has filed. */
  lemma StepKeepsLine<P(!new)>(cfg: Config, o: Order<P>, s: Sem<P>, op: Op<P>, t: Sem<P>, a: nat, b: nat)
      returns (x: nat, y: nat)
    requires Inv(cfg, o, s) && Enabled(cfg, o, s, op) && t == Apply(cfg, o, s, op)
    requires (op.Acquiring? ==> a != op.p && b != op.p)
    requires a < b && Waits(t, a) && Waits(t, b)
    ensures x < y && SameWaiter(s.queue, x, t.queue, a) && SameWaiter(s.queue, y, t.queue, b)
  {
    hide Activate, NotifyFrom;
    x, y := a, b;
    match op
    case Acquiring(_, _, _, _) => x, y := AcquireKeepsLine(cfg, o, s, op, t, a, b);
    case Releasing(i) => x, y := ReleaseKeepsLine(cfg, o, s, i, t, a, b);
    case Cancelling(i) => x, y := CancelKeepsLine(cfg, o, s, i, t, a, b);
    case Forgetting(i) =>
      NeverUndefined(cfg, o, s, i, 0);
      x, y := ForgetKeepsLine(cfg, o, s, i, t, a, b);
    case ForgettingPermits(count) => SameLine(cfg, s, count);
    case AddingPermits(count) =>
      if TryAddPermits(cfg, o, s, count).Some? {
        x, y := AddKeepsLine(cfg, o, s, count, t, a, b);
      }
    case Splitting(i, count, _, _, _) =>
      if CanSplit(cfg, s, i, count) {
        x, y := SplitKeepsLine(cfg, s, op, t, a, b);
      }
    case Merging(i, j) => x, y := MergeKeepsLine(cfg, o, s, i, j, t, a, b);
  }

  // ----- Where a new request goes

  /** A new request goes behind all that wait with its priority, or before all. */
  lemma PlaceAmongEquals<P(!new)>(cfg: Config, o: Order<P>, q: Queue<P>, d: SemWaiter<P>, p: nat, j: nat)
    requires Lawful(o) && Sorted(SemOrder(cfg, o), q) && At(SemOrder(cfg, o), q, d, p) && p <= |q|
    requires j < |q| && !q[j].d.held && !d.held && o.cmp(d.priority, q[j].d.priority) == Equal
    ensures OldestFirst(o) ==> j < p
    ensures NewestFirst(o) ==> p <= j
  {
    if p <= j {
      EqualAhead(cfg, o, q, d, p, j);
    } else {
      EqualBehind(cfg, o, q, d, p, j);
    }
  }

  lemma EqualAhead<P(!new)>(cfg: Config, o: Order<P>, q: Queue<P>, d: SemWaiter<P>, p: nat, j: nat)
    requires Lawful(o) && Sorted(SemOrder(cfg, o), q) && At(SemOrder(cfg, o), q, d, p)
    requires p <= j < |q| && !q[j].d.held && !d.held && o.cmp(d.priority, q[j].d.priority) == Equal
    ensures !OldestFirst(o)
  {
    var x, y := d.priority, q[j].d.priority;
    if OldestFirst(o) {
      var so := SemOrder(cfg, o);
      var c := if Boundary(so, q, d, p) then q[p].d else q[p - 1].d;
      assert so.cmpNew(d, c).IsGe();
      assert c == q[j].d || so.cmp(c, q[j].d).IsGe();
      Laws(o, x, y, c.priority);
      Laws(o, y, x, c.priority);
      Laws(o, c.priority, y, x);
      Laws(o, x, c.priority, x);
      assert false;
    }
  }

  lemma EqualBehind<P(!new)>(cfg: Config, o: Order<P>, q: Queue<P>, d: SemWaiter<P>, p: nat, j: nat)
    requires Lawful(o) && Sorted(SemOrder(cfg, o), q) && At(SemOrder(cfg, o), q, d, p)
    requires j < p <= |q| && !q[j].d.held && !d.held && o.cmp(d.priority, q[j].d.priority) == Equal
    ensures !NewestFirst(o)
  {
    var x, y := d.priority, q[j].d.priority;
    if NewestFirst(o) {
      var so, c := SemOrder(cfg, o), q[p - 1].d;
      assert so.cmpNew(d, c).IsLe();
      assert c == q[j].d || so.cmp(q[j].d, c).IsGe();
      assert !c.held by {
        if j < p - 1 {
          HoldersFirst(cfg, o, q, j, p - 1);
        }
      }
      Laws(o, x, y, c.priority);
      Laws(o, x, c.priority, x);
      assert false;
    }
  }

  // ----- Order of arrival

  /** When the request with this handle was last filed in a run, counted from 1. */
  function Arrival<P>(run: seq<Op<P>>, h: nat): (n: nat)
    ensures n <= |run|
  {
    if run == [] then 0
    else
      var op := run[|run| - 1];
      if op.Acquiring? && op.h == h then |run| else Arrival(run[..|run| - 1], h)
  }

  ghost predicate ArrivedInOrder<P(!new)>(o: Order<P>, run: seq<Op<P>>, g: nat, h: nat) {
    && (OldestFirst(o) ==> Arrival(run, g) < Arrival(run, h))
    && (NewestFirst(o) ==> Arrival(run, g) > Arrival(run, h))
  }

  /** Two requests of one priority stand in line, one before the other. */
  ghost predicate Peers<P>(o: Order<P>, s: Sem<P>, a: nat, b: nat) {
    && a < b && Waits(s, a) && Waits(s, b)
    && o.cmp(s.queue[a].d.priority, s.queue[b].d.priority) == Equal
  }

  /** Requests of one priority stand in line in their order of arrival, or against it. */
  ghost predicate LineByArrival<P(!new)>(o: Order<P>, run: seq<Op<P>>, s: Sem<P>) {
    forall a: nat, b: nat | Peers(o, s, a, b) :: ArrivedInOrder(o, run, s.queue[a].h, s.queue[b].h)
  }

  lemma ArrivalGrows<P>(run: seq<Op<P>>, op: Op<P>, h: nat)
    ensures Arrival(run + [op], h) == if op.Acquiring? && op.h == h then |run| + 1 else Arrival(run, h)
  {
    assert (run + [op])[..|run|] == run;
  }

  /** The new request, and one of its priority that stood in line before. */
  lemma NewInLine<P(!new)>(cfg: Config, o: Order<P>, s: Sem<P>, op: Op<P>, x: nat)
    requires Lawful(o) && Inv(cfg, o, s) && Enabled(cfg, o, s, op) && op.Acquiring? && Waits(s, x)
    requires o.cmp(op.priority, s.queue[x].d.priority) == Equal && !NewEntry(cfg, o, s, op.priority, op.raw).held
    ensures OldestFirst(o) ==> x < op.p
    ensures NewestFirst(o) ==> op.p <= x
    ensures s.queue[x].h != op.h
  {
    var q := Asked(cfg, o, s.queue, op.priority);
    AskedKeepsSane(cfg, o, s, op.priority);
    AskedKeepsShape(cfg, o, s.queue, op.priority);
    assert SameRank(s.queue[x], q[x]);
    PlaceAmongEquals(cfg, o, q, NewEntry(cfg, o, s, op.priority, op.raw), op.p, x);
  }

  lemma AcquireKeepsArrivals<P(!new)>(cfg: Config, o: Order<P>, run: seq<Op<P>>, s: Sem<P>, op: Op<P>, t: Sem<P>,
                                      a: nat, b: nat)
    requires Lawful(o) && Inv(cfg, o, s) && Enabled(cfg, o, s, op) && op.Acquiring? && t == Apply(cfg, o, s, op)
    requires Peers(o, t, a, b)
    requires a == op.p || b == op.p
    ensures ArrivedInOrder(o, run + [op], t.queue[a].h, t.queue[b].h)
  {
    var x := if a == op.p then b - 1 else a;
    assert Waits(s, x) && t.queue[if a == op.p then b else a].h == s.queue[x].h;
    Laws(o, t.queue[a].d.priority, t.queue[b].d.priority, t.queue[a].d.priority);
    NewInLine(cfg, o, s, op, x);
    ArrivalGrows(run, op, op.h);
    ArrivalGrows(run, op, s.queue[x].h);
  }

  lemma KeptArrivals<P(!new)>(cfg: Config, o: Order<P>, run: seq<Op<P>>, s: Sem<P>, op: Op<P>, t: Sem<P>,
                              a: nat, b: nat)
    requires Inv(cfg, o, s) && Enabled(cfg, o, s, op) && t == Apply(cfg, o, s, op) && LineByArrival(o, run, s)
    requires Peers(o, t, a, b)
    requires op.Acquiring? ==> a != op.p && b != op.p
    ensures ArrivedInOrder(o, run + [op], t.queue[a].h, t.queue[b].h)
  {
    var x, y := StepKeepsLine(cfg, o, s, op, t, a, b);
    assert Peers(o, s, x, y);
    assert op.Acquiring? ==> s.queue[x].h != op.h && s.queue[y].h != op.h;
    ArrivalGrows(run, op, s.queue[x].h);
    ArrivalGrows(run, op, s.queue[y].h);
  }

  lemma StepKeepsArrivals<P(!new)>(cfg: Config, o: Order<P>, run: seq<Op<P>>, s: Sem<P>, op: Op<P>)
    requires Lawful(o) && Inv(cfg, o, s) && Enabled(cfg, o, s, op) && LineByArrival(o, run, s)
    ensures LineByArrival(o, run + [op], Apply(cfg, o, s, op))
  {
    hide Apply, Inv, Enabled, ArrivedInOrder;
    var t := Apply(cfg, o, s, op);
    forall a: nat, b: nat | Peers(o, t, a, b)
      ensures ArrivedInOrder(o, run + [op], t.queue[a].h, t.queue[b].h)
    {
      if op.Acquiring? && (a == op.p || b == op.p) {
        AcquireKeepsArrivals(cfg, o, run, s, op, t, a, b);
      } else {
        KeptArrivals(cfg, o, run, s, op, t, a, b);
      }
    }
  }

  /** In every run: under `FIFO` requests of one priority wait in their order of arrival, under `LIFO`
      against it, whoever else comes and goes. */
  lemma {:induction false} LineKeepsArrivals<P(!new)>(cfg: Config, o: Order<P>, permits: nat, run: seq<Op<P>>)
    requires Lawful(o) && permits < WORD && Possible(cfg, o, New(permits), run)
    ensures LineByArrival(o, run, After(cfg, o, New(permits), run))
  {
    if run != [] {
      var before, op := run[..|run| - 1], run[|run| - 1];
      LineKeepsArrivals(cfg, o, permits, before);
      var s, _ := Reached(cfg, o, permits, before);
      assert run == before + [op];
      StepKeepsArrivals(cfg, o, before, s, op);
    }
  }

  // ----- Small requests first

  /** The order leaves every tie open. */
  ghost predicate LeavesTies<P(!new)>(o: Order<P>) {
    forall a, b :: o.cmp(a, b) == Equal ==> o.cmpNew(a, b) == Equal
  }

  /** Requests of one priority stand in line by what they ask for, the smallest first. */
  ghost predicate LineBySize<P>(cfg: Config, o: Order<P>, s: Sem<P>) {
    forall a: nat, b: nat | Peers(o, s, a, b) :: Count(cfg, s.queue[a].d) <= Count(cfg, s.queue[b].d)
  }

  /** The neighbour that decides where a new request goes has its priority, if anybody on that side has. */
  lemma PlaceBySize<P(!new)>(cfg: Config, o: Order<P>, s: Sem<P>, d: SemWaiter<P>, p: nat, j: nat)
    requires Lawful(o) && LeavesTies(o) && Sorted(SemOrder(cfg, o), s.queue) && LineBySize(cfg, o, s)
    requires At(SemOrder(cfg, o), s.queue, d, p) && p <= |s.queue| && !d.held
    requires Waits(s, j) && o.cmp(d.priority, s.queue[j].d.priority) == Equal
    ensures if j < p then Count(cfg, s.queue[j].d) <= Count(cfg, d) else Count(cfg, d) <= Count(cfg, s.queue[j].d)
  {
    if j < p {
      SmallerAhead(cfg, o, s, d, p, j);
    } else {
      LargerBehind(cfg, o, s, d, p, j);
    }
  }

  lemma SmallerAhead<P(!new)>(cfg: Config, o: Order<P>, s: Sem<P>, d: SemWaiter<P>, p: nat, j: nat)
    requires Lawful(o) && LeavesTies(o) && Sorted(SemOrder(cfg, o), s.queue) && LineBySize(cfg, o, s)
    requires At(SemOrder(cfg, o), s.queue, d, p) && j < p <= |s.queue| && !d.held
    requires Waits(s, j) && o.cmp(d.priority, s.queue[j].d.priority) == Equal
    ensures Count(cfg, s.queue[j].d) <= Count(cfg, d)
  {
    var q, k := s.queue, p - 1;
    var c := q[k].d;
    assert SemOrder(cfg, o).cmpNew(d, c).IsLe();
    if j < k {
      HoldersFirst(cfg, o, q, j, k);
      EarlierRanks(cfg, o, q, j, k);
    }
    Laws(o, d.priority, q[j].d.priority, c.priority);
    Laws(o, d.priority, c.priority, q[j].d.priority);
    Laws(o, q[j].d.priority, d.priority, c.priority);
    SemOrderRanks(cfg, o, d, c);
    assert j < k ==> Peers(o, s, j, k);
  }

  lemma LargerBehind<P(!new)>(cfg: Config, o: Order<P>, s: Sem<P>, d: SemWaiter<P>, p: nat, j: nat)
    requires Lawful(o) && LeavesTies(o) && Sorted(SemOrder(cfg, o), s.queue) && LineBySize(cfg, o, s)
    requires At(SemOrder(cfg, o), s.queue, d, p) && p <= j && !d.held
    requires Waits(s, j) && o.cmp(d.priority, s.queue[j].d.priority) == Equal
    ensures Count(cfg, d) <= Count(cfg, s.queue[j].d)
  {
    var q := s.queue;
    var k := if Boundary(SemOrder(cfg, o), q, d, p) then p else p - 1;
    var c := q[k].d;
    assert SemOrder(cfg, o).cmpNew(d, c).IsGe();
    SemOrderRanks(cfg, o, d, c);
    assert !c.held;
    if k < j {
      EarlierRanks(cfg, o, q, k, j);
    }
    Laws(o, d.priority, q[j].d.priority, c.priority);
    Laws(o, d.priority, c.priority, q[j].d.priority);
    Laws(o, c.priority, q[j].d.priority, d.priority);
    assert k < j ==> Peers(o, s, k, j);
  }

  lemma AcquireKeepsSizes<P(!new)>(cfg: Config, o: Order<P>, s: Sem<P>, op: Op<P>, t: Sem<P>, a: nat, b: nat)
    requires Lawful(o) && LeavesTies(o) && Inv(cfg, o, s) && LineBySize(cfg, o, s)
    requires Enabled(cfg, o, s, op) && op.Acquiring? && t == Apply(cfg, o, s, op) && Peers(o, t, a, b)
    requires a == op.p || b == op.p
    ensures Count(cfg, t.queue[a].d) <= Count(cfg, t.queue[b].d)
  {
    var x := if a == op.p then b - 1 else a;
    var u := s.(queue := Asked(cfg, o, s.queue, op.priority));
    AskedKeepsEntries(cfg, o, s.queue, op.priority, s.total);
    AskedKeepsSane(cfg, o, s, op.priority);
    AskedKeepsSizes(cfg, o, s, op.priority);
    Laws(o, t.queue[a].d.priority, t.queue[b].d.priority, t.queue[a].d.priority);
    assert u.queue[x] == t.queue[if a == op.p then b else a];
    PlaceBySize(cfg, o, u, NewEntry(cfg, o, s, op.priority, op.raw), op.p, x);
  }

  lemma AskedKeepsSizes<P(!new)>(cfg: Config, o: Order<P>, s: Sem<P>, priority: P)
    requires LineBySize(cfg, o, s)
    ensures LineBySize(cfg, o, s.(queue := Asked(cfg, o, s.queue, priority)))
  {
    var u := s.(queue := Asked(cfg, o, s.queue, priority));
    forall a: nat, b: nat | Peers(o, u, a, b) ensures Peers(o, s, a, b) {}
  }

  lemma StepKeepsSizes<P(!new)>(cfg: Config, o: Order<P>, s: Sem<P>, op: Op<P>)
    requires Lawful(o) && LeavesTies(o) && Inv(cfg, o, s) && Enabled(cfg, o, s, op) && LineBySize(cfg, o, s)
    ensures LineBySize(cfg, o, Apply(cfg, o, s, op))
  {
    hide Apply, Inv, Enabled;
    var t := Apply(cfg, o, s, op);
    forall a: nat, b: nat | Peers(o, t, a, b)
      ensures Count(cfg, t.queue[a].d) <= Count(cfg, t.queue[b].d)
    {
      if op.Acquiring? && (a == op.p || b == op.p) {
        AcquireKeepsSizes(cfg, o, s, op, t, a, b);
      } else {
        var x, y := StepKeepsLine(cfg, o, s, op, t, a, b);
        assert Peers(o, s, x, y);
      }
    }
  }

  /** In every run, under an order that leaves every tie open: of the requests of one priority the
      smallest stand first. */
  lemma {:induction false} SmallestFirst<P(!new)>(cfg: Config, o: Order<P>, permits: nat, run: seq<Op<P>>)
    requires Lawful(o) && LeavesTies(o) && permits < WORD && Possible(cfg, o, New(permits), run)
    ensures LineBySize(cfg, o, After(cfg, o, New(permits), run))
  {
    if run != [] {
      var before := run[..|run| - 1];
      SmallestFirst(cfg, o, permits, before);
      var s, _ := Reached(cfg, o, permits, before);
      StepKeepsSizes(cfg, o, s, run[|run| - 1]);
    }
  }

  // ----- Served by arrival

  /** In every run: of two requests of one priority that have stood in line the one that came first is
      served first under `FIFO`, and last under `LIFO`, unless the other one is passed over. */
  lemma {:induction false} ServedByArrival<P(!new)>(cfg: Config, o: Order<P>, permits: nat, run: seq<Op<P>>, op: Op<P>,
                                                    a: nat, b: nat)
    requires Lawful(o) && permits < WORD && Possible(cfg, o, New(permits), run)
    requires Enabled(cfg, o, After(cfg, o, New(permits), run), op) && !op.Splitting? && !op.Acquiring?
    requires var s := After(cfg, o, New(permits), run);
             var t := Apply(cfg, o, s, op);
             && NewlyServed(s, t, a) && Waits(t, b) && o.cmp(t.queue[a].d.priority, t.queue[b].d.priority) == Equal
    ensures var t := Apply(cfg, o, After(cfg, o, New(permits), run), op);
            ArrivedInOrder(o, run, t.queue[a].h, t.queue[b].h) || PassedBy(cfg, t, b)
  {
    var s, _ := Reached(cfg, o, permits, run);
    LineKeepsArrivals(cfg, o, permits, run);
    var x, y := StepServesFromFront(cfg, o, s, op, Apply(cfg, o, s, op), a, b);
    if x < y {
      assert Peers(o, s, x, y);
    }
  }

  // ----- Served at once

  /** The first waiter that does not outrank a request, if there is one. */
  function FirstAtMost<P>(o: Order<P>, q: Queue<P>, priority: P): (k: nat)
    ensures k <= |q|
    ensures forall i :: 0 <= i < k ==> q[i].d.held || o.cmp(q[i].d.priority, priority) == Greater
    ensures k < |q| ==> !q[k].d.held && o.cmp(q[k].d.priority, priority) != Greater
  {
    if q == [] || (!q[0].d.held && o.cmp(q[0].d.priority, priority) != Greater) then 0
    else 1 + FirstAtMost(o, q[1..], priority)
  }

  /** A request leaves somebody of its own priority waiting if and only if the first waiter that does not
      outrank it has that priority.  For a request that is granted at once the order does not come into
      it, not even under `FIFO`, and without `semaphore-total` that waiter is the first of all. */
  lemma AtOncePassesEqual<P(!new)>(cfg: Config, o: Order<P>, s: Sem<P>, priority: P, raw: nat)
    requires Lawful(o) && Inv(cfg, o, s) && WillAcquire(cfg, o, s, priority, raw)
    ensures var k := FirstAtMost(o, s.queue, priority);
            && ((exists b: nat :: Waits(s, b) && o.cmp(priority, s.queue[b].d.priority) == Equal)
                <==> Waits(s, k) && o.cmp(priority, s.queue[k].d.priority) == Equal)
            && (!cfg.Total? ==> k == NumHeld(s.queue))
  {
    var q, n, k := s.queue, NumHeld(s.queue), FirstAtMost(o, s.queue, priority);
    SortedIsDivided(cfg, o, q);
    forall b: nat | Waits(s, b) && o.cmp(priority, q[b].d.priority) == Equal
      ensures Waits(s, k) && o.cmp(priority, q[k].d.priority) == Equal
    {
      Laws(o, priority, q[b].d.priority, priority);
      assert k <= b;
      TieAhead(cfg, o, q, priority, k, b);
    }
    if !cfg.Total? && n < |q| {
      AtOnceDoesNotOvertake(cfg, o, s, priority, raw, n);
      Laws(o, priority, q[n].d.priority, priority);
    }
  }

  lemma TieAhead<P(!new)>(cfg: Config, o: Order<P>, q: Queue<P>, priority: P, k: nat, b: nat)
    requires Lawful(o) && Sorted(SemOrder(cfg, o), q) && k <= b < |q| && !q[k].d.held && !q[b].d.held
    requires o.cmp(q[k].d.priority, priority) != Greater && o.cmp(priority, q[b].d.priority) == Equal
    ensures o.cmp(priority, q[k].d.priority) == Equal
  {
    if k < b {
      EarlierRanks(cfg, o, q, k, b);
      Laws(o, priority, q[b].d.priority, q[k].d.priority);
      Laws(o, q[k].d.priority, q[b].d.priority, priority);
      Laws(o, q[k].d.priority, priority, q[k].d.priority);
    }
    Laws(o, q[k].d.priority, priority, q[k].d.priority);
  }
}
