/** Whether somebody waits whom a walk of `activate_waiters` would serve: exactly when a step of the
    semaphore overlooks somebody. */
module SemaphoreOverlooked {
  import opened Orders
  import opened QueueSpec
  import opened SemaphoreActivation
  import opened SemaphoreEviction
  import opened SemaphoreRuns
  import opened SemaphoreService
  import opened SemaphoreSteps
  import opened Semaphores

  /** The waiter is flagged when the total is lowered so far. */
  predicate TooLarge<P>(cfg: Config, d: SemWaiter<P>, total: int) {
    cfg.Total? && Tagged(d) && Count(cfg, d) > total
  }

  /** A walk would pass over this waiter, or would if there were only `total` permits in all. */
  predicate Yielding<P>(cfg: Config, d: SemWaiter<P>, total: int) {
    d.held || PassedOver(cfg, d) || TooLarge(cfg, d, total)
  }

  /** The first waiter that a walk does not pass over: if it does not fit, the walk stops at it. */
  function Stopper<P>(cfg: Config, q: Queue<P>): (k: nat)
    ensures k <= |q| && forall y :: 0 <= y < k ==> q[y].d.held || PassedOver(cfg, q[y].d)
    ensures k < |q| ==> !q[k].d.held && !PassedOver(cfg, q[k].d)
  {
    if q == [] || !(q[0].d.held || PassedOver(cfg, q[0].d)) then 0 else 1 + Stopper(cfg, q[1..])
  }

  /** The waiter at `x` would fit, and a walk would come to it, if there were so many permits and the entry
      at `gone` were not there. */
  predicate Reaches<P>(cfg: Config, s: Sem<P>, available: nat, total: int, gone: nat, x: nat) {
    && x < |s.queue| && !s.queue[x].d.held && x != gone && Count(cfg, s.queue[x].d) <= available
    && forall y :: 0 <= y < x && y != gone ==> Yielding(cfg, s.queue[y].d, total)
  }

  ghost predicate Somebody<P>(cfg: Config, s: Sem<P>, available: nat, total: int, gone: nat) {
    exists x: nat :: Reaches(cfg, s, available, total, gone, x)
  }

  /** Behind the waiter at `k` somebody fits, and nobody between the two stands in his way. */
  ghost predicate Behind<P>(cfg: Config, s: Sem<P>, available: nat, total: int, gone: nat, k: nat) {
    exists x: nat :: k < x && Reaches(cfg, s, available, total, gone, x)
  }

  /** Somebody waits who fits, and every waiter before him is one to be passed over. */
  ghost predicate Overlooked<P>(cfg: Config, s: Sem<P>) {
    exists x: nat :: OverlookedAt(cfg, s, x)
  }

  predicate OverlookedAt<P>(cfg: Config, s: Sem<P>, x: nat) {
    && x < |s.queue| && !s.queue[x].d.held && Count(cfg, s.queue[x].d) <= s.available
    && forall y :: 0 <= y < x ==> s.queue[y].d.held || PassedOver(cfg, s.queue[y].d)
  }

  // ----- Walks

  /** A walk overlooks nobody. */
  lemma WalkOverlooksNobody<P(!new)>(cfg: Config, o: Order<P>, s: Sem<P>, k: nat)
    requires Sorted(SemOrder(cfg, o), s.queue) && k <= NumHeld(s.queue)
    ensures !Overlooked(cfg, Activate(cfg, o, s, k))
  {
    hide Activate, Greedy, HoldersWith;
    var n, m, waiters, g := Lines(cfg, o, s, k, Activate(cfg, o, s, k));
    var t := Activate(cfg, o, s, k);
    var b, a := GreedyStops(cfg, waiters, s.available);
    forall x: nat ensures !OverlookedAt(cfg, t, x) {
      if m <= x < |t.queue| {
        assert t.queue[x] == g.left[x - m];
        assert x - m > b ==> t.queue[m + b] == g.left[b];
      }
    }
  }

  lemma OverlookedIsNotIdle<P>(cfg: Config, o: Order<P>, s: Sem<P>)
    requires Sorted(SemOrder(cfg, o), s.queue)
    ensures Overlooked(cfg, s) <==> !Idle(cfg, s)
  {
    hide Halt;
    var n := NumHeld(s.queue);
    SortedIsDivided(cfg, o, s.queue);
    var w := s.queue[n..];
    var k := Halt(cfg, w, s.available);
    forall x: nat | OverlookedAt(cfg, s, x) ensures !Idle(cfg, s) {
      assert w[x - n] == s.queue[x];
      assert k < x - n ==> w[k] == s.queue[n + k];
    }
    if !Idle(cfg, s) {
      assert w[k] == s.queue[n + k];
      forall y | 0 <= y < n + k ensures s.queue[y].d.held || PassedOver(cfg, s.queue[y].d) {
        assert y >= n ==> w[y - n] == s.queue[y];
      }
      assert OverlookedAt(cfg, s, n + k);
    }
  }

  /** Nobody is overlooked if and only if a walk over the whole queue would change nothing. */
  lemma OverlookedWouldBeServed<P(!new)>(cfg: Config, o: Order<P>, s: Sem<P>)
    requires Sorted(SemOrder(cfg, o), s.queue)
    ensures Activate(cfg, o, s, 0) == s <==> !Overlooked(cfg, s)
  {
    hide Activate, Idle, Overlooked;
    WalkIsIdle(cfg, o, s);
    OverlookedIsNotIdle(cfg, o, s);
  }

  /** Without `semaphore-total` it is a matter of the first in line. */
  lemma OverlookedIsFirst<P>(cfg: Config, s: Sem<P>, n: nat)
    requires HeldUpTo(s.queue, n) && !cfg.Total?
    ensures Overlooked(cfg, s) <==> n < |s.queue| && Count(cfg, s.queue[n].d) <= s.available
  {
    if n < |s.queue| && Count(cfg, s.queue[n].d) <= s.available {
      assert OverlookedAt(cfg, s, n);
    }
  }

  // ----- Steps without a walk

  /** The same line, and no more permits. */
  lemma LineStays<P>(cfg: Config, s: Sem<P>, n: nat, t: Sem<P>, m: nat)
    requires HeldUpTo(s.queue, n) && HeldUpTo(t.queue, m) && t.queue[m..] == s.queue[n..]
    requires t.available <= s.available && !Overlooked(cfg, s)
    ensures !Overlooked(cfg, t)
  {
    forall x: nat ensures !OverlookedAt(cfg, t, x) {
      var z := n + x - m;
      if m <= x < |t.queue| {
        assert t.queue[x] == t.queue[m..][x - m] == s.queue[n..][x - m] == s.queue[z];
        assert !OverlookedAt(cfg, s, z);
        forall y | n <= y < z ensures s.queue[y] == t.queue[m + y - n] {
          assert s.queue[n..][y - n] == t.queue[m..][y - n];
        }
      }
    }
  }

  lemma LineWithoutHolder<P>(q: Queue<P>, n: nat, i: nat)
    requires i < n <= |q|
    ensures Remove(q, i)[n - 1..] == q[n..]
  {
  }

  lemma LineWithHolder<P>(q: Queue<P>, n: nat, p: nat, c: Cell<nat, SemWaiter<P>>)
    requires p <= n <= |q|
    ensures Insert(q, p, c)[n + 1..] == q[n..]
  {
  }

  lemma GoneOverlooksNobody<P>(cfg: Config, o: Order<P>, s: Sem<P>, i: nat)
    requires Sorted(SemOrder(cfg, o), s.queue) && Guard(s, i) && !Overlooked(cfg, s)
    ensures !Overlooked(cfg, s.(queue := Remove(s.queue, i)))
  {
    hide Overlooked;
    var n, t := NumHeld(s.queue), s.(queue := Remove(s.queue, i));
    SortedIsDivided(cfg, o, s.queue);
    RemoveDivides(s.queue, n, i);
    LineWithoutHolder(s.queue, n, i);
    LineStays(cfg, s, n, t, n - 1);
  }

  /** More or fewer permits for a holder. */
  lemma RecountOverlooksNobody<P>(cfg: Config, s: Sem<P>, n: nat, q: Queue<P>)
    requires HeldUpTo(s.queue, n) && SameShape(s.queue, q) && !Overlooked(cfg, s)
    requires forall y :: 0 <= y < |q| && !q[y].d.held ==> q[y] == s.queue[y]
    ensures HeldUpTo(q, n) && !Overlooked(cfg, s.(queue := q))
  {
    hide Overlooked;
    ShapeKeepsDivision(s.queue, q, n);
    assert q[n..] == s.queue[n..];
    LineStays(cfg, s, n, s.(queue := q), n);
  }

  lemma AskedKeepsLine<P>(cfg: Config, o: Order<P>, q: Queue<P>, n: nat, priority: P)
    requires HeldUpTo(q, n)
    ensures |Asked(cfg, o, q, priority)| == |q| && Asked(cfg, o, q, priority)[n..] == q[n..]
  {
  }

  /** A request that is granted, among the holders. */
  lemma GrantedOverlooksNobody<P(!new)>(cfg: Config, o: Order<P>, s: Sem<P>, priority: P, raw: nat, h: nat, p: nat)
    requires Sane(cfg, o, s) && p <= |s.queue| && !Overlooked(cfg, s) && WillAcquire(cfg, o, s, priority, raw)
    requires At(SemOrder(cfg, o), Asked(cfg, o, s.queue, priority), NewEntry(cfg, o, s, priority, raw), p)
    ensures !Overlooked(cfg, AcquireAt(cfg, o, s, priority, raw, h, p))
  {
    hide WillAcquire, At, Overlooked, Sane;
    var n := NumHeld(s.queue);
    var q, d := Asked(cfg, o, s.queue, priority), NewEntry(cfg, o, s, priority, raw);
    AcquireDivides(cfg, o, s, priority, d, h, p);
    AskedKeepsLine(cfg, o, s.queue, n, priority);
    LineWithHolder(q, n, p, Cell(h, d));
    LineStays(cfg, s, n, AcquireAt(cfg, o, s, priority, raw, h, p), n + 1);
  }

  /** A request that waits is overlooked itself, or nobody is. */
  lemma WaitingOverlooks<P>(cfg: Config, o: Order<P>, s: Sem<P>, priority: P, raw: nat, h: nat, p: nat)
    requires p <= |s.queue| && !Overlooked(cfg, s) && !WillAcquire(cfg, o, s, priority, raw)
    ensures Overlooked(cfg, AcquireAt(cfg, o, s, priority, raw, h, p)) <==>
            && Count(cfg, NewEntry(cfg, o, s, priority, raw)) <= s.available
            && p <= Stopper(cfg, s.queue)
  {
    hide WillAcquire, Stopper;
    var t := AcquireAt(cfg, o, s, priority, raw, h, p);
    forall y | 0 <= y < |s.queue|
      ensures var e := t.queue[if y < p then y else y + 1];
              e.d.held == s.queue[y].d.held && (!e.d.held ==> e == s.queue[y])
    {
    }
    forall x: nat | x != p ensures !OverlookedAt(cfg, t, x) {
      assert x < p ==> !OverlookedAt(cfg, s, x);
    }
    assert Overlooked(cfg, t) <==> OverlookedAt(cfg, t, p);
  }

  /** Entries gone, flags set and permits fewer: the waiters are the same but for that. */
  ghost predicate SameButFlags<P>(cfg: Config, s: Sem<P>, total: int, gone: nat, t: Sem<P>) {
    && |t.queue| == (if gone < |s.queue| then |s.queue| - 1 else |s.queue|)
    && forall y :: 0 <= y < |s.queue| && y != gone ==>
         LaterAs(cfg, s.queue[y].d, total, t.queue[if y < gone then y else y - 1].d)
  }

  predicate LaterAs<P>(cfg: Config, d: SemWaiter<P>, total: int, e: SemWaiter<P>) {
    && e.held == d.held && Count(cfg, e) == Count(cfg, d)
    && (e.held || PassedOver(cfg, e) <==> Yielding(cfg, d, total))
  }

  lemma LaterOverlooks<P>(cfg: Config, s: Sem<P>, total: int, gone: nat, t: Sem<P>)
    requires SameButFlags(cfg, s, total, gone, t)
    ensures Overlooked(cfg, t) <==> Somebody(cfg, s, t.available, total, gone)
  {
    forall x: nat | x < |s.queue| && x != gone
      ensures Reaches(cfg, s, t.available, total, gone, x) <==> OverlookedAt(cfg, t, if x < gone then x else x - 1)
    {
      var z := if x < gone then x else x - 1;
      assert LaterAs(cfg, s.queue[x].d, total, t.queue[z].d);
      if Reaches(cfg, s, t.available, total, gone, x) {
        forall y | 0 <= y < z ensures t.queue[y].d.held || PassedOver(cfg, t.queue[y].d) {
          var u := if y < gone then y else y + 1;
          assert LaterAs(cfg, s.queue[u].d, total, t.queue[y].d);
        }
      }
      if OverlookedAt(cfg, t, z) {
        forall y | 0 <= y < x && y != gone ensures Yielding(cfg, s.queue[y].d, total) {
          assert LaterAs(cfg, s.queue[y].d, total, t.queue[if y < gone then y else y - 1].d);
        }
      }
    }
    if Overlooked(cfg, t) {
      var z: nat :| OverlookedAt(cfg, t, z);
      var x := if z < gone then z else z + 1;
      assert Reaches(cfg, s, t.available, total, gone, x);
    }
  }

  lemma NotifiedFlags<P>(cfg: Config, q: Queue<P>, k: nat, total: nat, y: nat)
    requires cfg.Total? && k <= NumHeld(q) && HeldUpTo(q, NumHeld(q)) && y < |q|
    ensures LaterAs(cfg, q[y].d, total, NotifyFrom(cfg, q, k, total)[y].d)
  {
  }

  lemma UntouchedFlags<P>(cfg: Config, d: SemWaiter<P>, total: int)
    requires !cfg.Total?
    ensures LaterAs(cfg, d, total, d)
  {
  }

  lemma LoweredOverlooks<P>(cfg: Config, s: Sem<P>, gone: nat, u: Sem<P>, k: nat, count: nat, t: Sem<P>)
    requires cfg.Total? ==> count <= u.total && u.total == s.total
    requires u.queue == if gone < |s.queue| then Remove(s.queue, gone) else s.queue
    requires HeldUpTo(u.queue, NumHeld(u.queue)) && k <= NumHeld(u.queue) && t == Lowered(cfg, u, k, count)
    ensures Overlooked(cfg, t) <==> Somebody(cfg, s, u.available, s.total - count, gone)
  {
    hide NotifyFrom, LaterAs, Overlooked, Somebody, HeldUpTo;
    var total: int := s.total - count;
    forall y | 0 <= y < |s.queue| && y != gone
      ensures LaterAs(cfg, s.queue[y].d, total, t.queue[if y < gone then y else y - 1].d)
    {
      var z := if y < gone then y else y - 1;
      assert u.queue[z] == s.queue[y];
      if cfg.Total? {
        NotifiedFlags(cfg, u.queue, k, total, z);
      } else {
        UntouchedFlags(cfg, s.queue[y].d, total);
      }
    }
    LaterOverlooks(cfg, s, total, gone, t);
  }

  /** As long as the total is as it was, only those flagged are passed over. */
  lemma FlagsAreRight<P>(cfg: Config, o: Order<P>, s: Sem<P>, y: nat)
    requires Sane(cfg, o, s) && y < |s.queue|
    ensures LaterAs(cfg, s.queue[y].d, s.total, s.queue[y].d)
  {
    assert EntryOk(cfg, s.total, s.queue[y].d);
  }

  lemma WithoutEntryOverlooks<P>(cfg: Config, o: Order<P>, s: Sem<P>, gone: nat, t: Sem<P>)
    requires Sane(cfg, o, s)
    requires t.queue == if gone < |s.queue| then Remove(s.queue, gone) else s.queue
    ensures Overlooked(cfg, t) <==> Somebody(cfg, s, t.available, s.total, gone)
  {
    forall y | 0 <= y < |s.queue| && y != gone
      ensures LaterAs(cfg, s.queue[y].d, s.total, t.queue[if y < gone then y else y - 1].d)
    {
      FlagsAreRight(cfg, o, s, y);
    }
    LaterOverlooks(cfg, s, s.total, gone, t);
  }

  // ----- The stopper

  /** If nobody is overlooked, somebody comes to be only because the stopper is gone or flagged. */
  lemma OnlyStopperUnblocks<P>(cfg: Config, s: Sem<P>, available: nat, total: int, gone: nat)
    requires !Overlooked(cfg, s) && available <= s.available
    ensures var k := Stopper(cfg, s.queue);
            Somebody(cfg, s, available, total, gone) <==>
            && k < |s.queue| && (k == gone || TooLarge(cfg, s.queue[k].d, total))
            && Behind(cfg, s, available, total, gone, k)
  {
    hide Stopper;
    var k := Stopper(cfg, s.queue);
    forall x: nat | Reaches(cfg, s, available, total, gone, x) ensures k < x {
      assert !OverlookedAt(cfg, s, x);
    }
  }

  /** The stopper is dropped, and somebody behind it fits. */
  ghost predicate DropUnblocks<P>(cfg: Config, s: Sem<P>, i: nat) {
    i == Stopper(cfg, s.queue) && Behind(cfg, s, s.available, s.total, i, i)
  }

  /** The stopper is flagged when the total is lowered, and somebody behind it fits. */
  ghost predicate LoweringUnblocks<P>(cfg: Config, s: Sem<P>, available: nat, total: int, gone: nat) {
    var k := Stopper(cfg, s.queue);
    k < |s.queue| && TooLarge(cfg, s.queue[k].d, total) && Behind(cfg, s, available, total, gone, k)
  }

  lemma ForgetOverlooks<P>(cfg: Config, o: Order<P>, s: Sem<P>, i: nat)
    requires Inv(cfg, o, s) && Guard(s, i) && !Overlooked(cfg, s)
    ensures cfg.Total? ==> Count(cfg, s.queue[i].d) <= s.total
    ensures Overlooked(cfg, Forget(cfg, s, i))
       <==> LoweringUnblocks(cfg, s, s.available, s.total - Count(cfg, s.queue[i].d), i)
  {
    hide Lowered, Overlooked, Somebody, Stopper, Behind;
    var u := s.(queue := Remove(s.queue, i));
    ForgetKeepsInv(cfg, o, s, i);
    RemoveKeepsSorted(SemOrder(cfg, o), s.queue, i);
    SortedIsDivided(cfg, o, u.queue);
    SortedIsDivided(cfg, o, s.queue);
    LeftDivided(cfg, o, s.queue, i);
    LoweredOverlooks(cfg, s, i, u, i, Count(cfg, s.queue[i].d), Forget(cfg, s, i));
    OnlyStopperUnblocks(cfg, s, s.available, s.total - Count(cfg, s.queue[i].d), i);
  }

  lemma ForgetPermitsOverlooks<P>(cfg: Config, o: Order<P>, s: Sem<P>, count: nat)
    requires Inv(cfg, o, s) && !Overlooked(cfg, s)
    ensures var n := Min(count, s.available);
            && (Overlooked(cfg, ForgetPermits(cfg, s, count))
                <==> LoweringUnblocks(cfg, s, s.available - n, s.total - n, |s.queue|))
  {
    hide Lowered, Overlooked, Somebody, Stopper, Behind;
    var n := Min(count, s.available);
    SortedIsDivided(cfg, o, s.queue);
    if n == 0 {
      WithoutEntryOverlooks(cfg, o, s, |s.queue|, s);
    } else {
      LoweredOverlooks(cfg, s, |s.queue|, s.(available := s.available - n), 0, n, ForgetPermits(cfg, s, count));
    }
    OnlyStopperUnblocks(cfg, s, s.available - n, s.total - n, |s.queue|);
  }

  // ----- Every step

  /** When a step overlooks somebody: a new request fits and waits before the stopper; or the stopper is
      dropped without a walk, or flagged because the total is lowered, and somebody behind it fits. */
  ghost predicate Overlooks<P>(cfg: Config, o: Order<P>, s: Sem<P>, op: Op<P>) {
    match op
    case Acquiring(priority, raw, _, p) =>
      && !WillAcquire(cfg, o, s, priority, raw) && p <= Stopper(cfg, s.queue)
      && Count(cfg, NewEntry(cfg, o, s, priority, raw)) <= s.available
    case Cancelling(i) => i < |s.queue| && !Walks(cfg, s, i) && DropUnblocks(cfg, s, i)
    case Forgetting(i) =>
      i < |s.queue| && LoweringUnblocks(cfg, s, s.available, s.total - Count(cfg, s.queue[i].d), i)
    case ForgettingPermits(count) =>
      var n := Min(count, s.available);
      LoweringUnblocks(cfg, s, s.available - n, s.total - n, |s.queue|)
    case _ => false
  }

  lemma ReleaseOverlooksNobody<P(!new)>(cfg: Config, o: Order<P>, s: Sem<P>, i: nat)
    requires Sorted(SemOrder(cfg, o), s.queue) && Guard(s, i) && !Overlooked(cfg, s)
    ensures !Overlooked(cfg, Release(cfg, o, s, i))
  {
    hide Activate, Overlooked;
    SortedIsDivided(cfg, o, s.queue);
    GoneOverlooksNobody(cfg, o, s, i);
    RemoveKeepsSorted(SemOrder(cfg, o), s.queue, i);
    LeftDivided(cfg, o, s.queue, i);
    WalkOverlooksNobody(cfg, o, Sem(Remove(s.queue, i), s.available + Count(cfg, s.queue[i].d), s.total), i);
  }

  lemma CancelOverlooks<P(!new)>(cfg: Config, o: Order<P>, s: Sem<P>, i: nat)
    requires Sane(cfg, o, s) && i < |s.queue| && !Overlooked(cfg, s)
    ensures Overlooked(cfg, Cancel(cfg, o, s, i)) <==> !Walks(cfg, s, i) && DropUnblocks(cfg, s, i)
  {
    hide Activate, Overlooked, Somebody, Stopper, Behind;
    if Walks(cfg, s, i) {
      CancelIsWalk(cfg, o, s, i);
      RemoveKeepsSorted(SemOrder(cfg, o), s.queue, i);
      LeftDivided(cfg, o, s.queue, i);
      WalkOverlooksNobody(cfg, o, Withdrawn(cfg, s, i), i);
    } else {
      var t, n := WithdrawnWaiter(cfg, o, s, i);
      WithoutEntryOverlooks(cfg, o, s, i, t);
      OnlyStopperUnblocks(cfg, s, s.available, s.total, i);
      var k := Stopper(cfg, s.queue);
      if k < |s.queue| {
        FlagsAreRight(cfg, o, s, k);
      }
    }
  }

  lemma SplitOverlooksNobody<P(!new)>(cfg: Config, o: Order<P>, s: Sem<P>, op: Op<P>)
    requires Inv(cfg, o, s) && Enabled(cfg, o, s, op) && op.Splitting? && CanSplit(cfg, s, op.i, op.count)
    requires !Overlooked(cfg, s)
    ensures !Overlooked(cfg, SplitAt(cfg, s, op.i, op.count, op.priority, op.h, op.p))
  {
    hide Overlooked;
    var q, n := Reduced(cfg, s, op.i, op.count), NumHeld(s.queue);
    var c := Cell(op.h, SemWaiter(op.priority, true, false, op.count));
    SortedIsDivided(cfg, o, s.queue);
    RecountOverlooksNobody(cfg, s, n, q);
    PlaceDivides(cfg, o, q, n, op.p, c.d);
    InsertDivides(q, n, op.p, c);
    LineWithHolder(q, n, op.p, c);
    LineStays(cfg, s.(queue := q), n, s.(queue := Insert(q, op.p, c)), n + 1);
  }

  lemma MergeOverlooksNobody<P(!new)>(cfg: Config, o: Order<P>, s: Sem<P>, i: nat, j: nat)
    requires Sorted(SemOrder(cfg, o), s.queue) && Guard(s, i) && Guard(s, j) && !Overlooked(cfg, s)
    ensures !Overlooked(cfg, Merge(cfg, o, s, i, j))
  {
    hide Activate, Overlooked, Release;
    if CanMerge(cfg, s, i, j) {
      var q := Enlarged(s.queue, i, Count(cfg, s.queue[j].d));
      SortedIsDivided(cfg, o, s.queue);
      RecountOverlooksNobody(cfg, s, NumHeld(s.queue), q);
      ShapeKeepsOrder(cfg, o, s.queue, q);
      GoneOverlooksNobody(cfg, o, s.(queue := q), j);
    } else {
      ReleaseOverlooksNobody(cfg, o, s, j);
    }
  }

  lemma AcquireOverlooks<P(!new)>(cfg: Config, o: Order<P>, s: Sem<P>, op: Op<P>)
    requires Inv(cfg, o, s) && Enabled(cfg, o, s, op) && op.Acquiring? && !Overlooked(cfg, s)
    ensures Overlooked(cfg, Apply(cfg, o, s, op)) <==> Overlooks(cfg, o, s, op)
  {
    hide AcquireAt, WillAcquire, Overlooked, Stopper;
    if WillAcquire(cfg, o, s, op.priority, op.raw) {
      GrantedOverlooksNobody(cfg, o, s, op.priority, op.raw, op.h, op.p);
    } else {
      WaitingOverlooks(cfg, o, s, op.priority, op.raw, op.h, op.p);
    }
  }

  /** In every configuration: if nobody is overlooked, a step overlooks somebody if and only if it is one
      of those. */
  lemma StepOverlooks<P(!new)>(cfg: Config, o: Order<P>, s: Sem<P>, op: Op<P>)
    requires Lawful(o) && Inv(cfg, o, s) && Enabled(cfg, o, s, op) && !Overlooked(cfg, s)
    ensures Overlooked(cfg, Apply(cfg, o, s, op)) <==> Overlooks(cfg, o, s, op)
  {
    hide Overlooked, DropUnblocks, LoweringUnblocks, Stopper, Unstranded, WillAcquire;
    hide Release, Cancel, Activate, SplitAt, Merge, Forget, ForgetPermits;
    match op
    case Acquiring(_, _, _, _) => AcquireOverlooks(cfg, o, s, op);
    case Releasing(i) => ReleaseOverlooksNobody(cfg, o, s, i);
    case Cancelling(i) => CancelOverlooks(cfg, o, s, i);
    case AddingPermits(count) =>
      if TryAddPermits(cfg, o, s, count).Some? {
        WalkOverlooksNobody(cfg, o, s.(available := s.available + count,
                                       total := if cfg.Total? then s.total + count else s.total), 0);
      }
    case Splitting(i, count, _, _, _) =>
      if CanSplit(cfg, s, i, count) {
        SplitOverlooksNobody(cfg, o, s, op);
      }
    case Merging(i, j) => MergeOverlooksNobody(cfg, o, s, i, j);
    case Forgetting(i) =>
      NeverUndefined(cfg, o, s, i, 0);
      ForgetOverlooks(cfg, o, s, i);
    case ForgettingPermits(count) =>
      NeverUndefined(cfg, o, s, 0, count);
      ForgetPermitsOverlooks(cfg, o, s, count);
  }

  /** Over any run of which no step is one of those, whoever waits is waiting for somebody ahead of him who
      is not to be passed over, or for permits. */
  lemma {:induction false} NobodyIsOverlooked<P(!new)>(cfg: Config, o: Order<P>, permits: nat, run: seq<Op<P>>)
    requires Lawful(o) && permits < WORD && Possible(cfg, o, New(permits), run)
    requires forall k :: 0 <= k < |run| ==> !Overlooks(cfg, o, After(cfg, o, New(permits), run[..k]), run[k])
    ensures !Overlooked(cfg, After(cfg, o, New(permits), run))
  {
    if run != [] {
      var before := run[..|run| - 1];
      forall k | 0 <= k < |before| ensures before[..k] == run[..k] {}
      NobodyIsOverlooked(cfg, o, permits, before);
      var s, _ := Reached(cfg, o, permits, before);
      StepOverlooks(cfg, o, s, run[|run| - 1]);
    }
  }
}
