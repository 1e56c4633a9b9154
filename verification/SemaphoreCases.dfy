/** What the semaphore does not promise: exactly when a step leaves somebody first in line who could be
    served, and runs in which that happens, in which somebody is overtaken or overlooked, and in which an
    outranked guard is not asked to give way. */
module SemaphoreCases {
  import opened Orders
  import opened QueueSpec
  import opened SemaphoreActivation
  import opened SemaphoreEviction
  import opened SemaphoreOverlooked
  import opened SemaphoreRuns
  import opened SemaphoreService
  import opened SemaphoreSteps
  import opened SemaphoreTurns
  import opened Semaphores

  // ----- Requests for nothing

  /** The first in line asks for more than is available. */
  ghost predicate FirstCannotBeServed<P>(cfg: Config, s: Sem<P>) {
    var n := NumHeld(s.queue);
    n < |s.queue| ==> Count(cfg, s.queue[n].d) > s.available
  }

  lemma FirstAt<P>(cfg: Config, s: Sem<P>, n: nat)
    requires HeldUpTo(s.queue, n)
    ensures FirstCannotBeServed(cfg, s) <==> (n < |s.queue| ==> Count(cfg, s.queue[n].d) > s.available)
  {
    DividedOnce(s.queue, n);
  }

  /** Whoever is first still is, and there are no more permits. */
  lemma FirstStays<P>(cfg: Config, s: Sem<P>, n: nat, t: Sem<P>, m: nat)
    requires HeldUpTo(s.queue, n) && HeldUpTo(t.queue, m) && FirstCannotBeServed(cfg, s)
    requires t.available <= s.available
    requires m < |t.queue| ==> n < |s.queue| && Count(cfg, t.queue[m].d) == Count(cfg, s.queue[n].d)
    ensures FirstCannotBeServed(cfg, t)
  {
    FirstAt(cfg, s, n);
    FirstAt(cfg, t, m);
  }

  lemma ServedFirst<P(!new)>(cfg: Config, o: Order<P>, s: Sem<P>, k: nat)
    requires Sorted(SemOrder(cfg, o), s.queue) && k <= NumHeld(s.queue)
    ensures FirstCannotBeServed(cfg, Activate(cfg, o, s, k))
  {
    hide Activate, Greedy;
    var t, n, m, g := ActivateServes(cfg, o, s, k);
    FirstLeftDoesNotFit(cfg, s.queue[n..], s.available);
    assert m < |t.queue| ==> t.queue[m] == t.queue[m..][0];
  }

  lemma AcquireKeepsFirst<P(!new)>(cfg: Config, o: Order<P>, s: Sem<P>, priority: P, raw: nat, h: nat, p: nat)
    requires Lawful(o) && Inv(cfg, o, s) && RawAllowed(cfg, s.total, raw) && p <= |s.queue|
    requires At(SemOrder(cfg, o), Asked(cfg, o, s.queue, priority), NewEntry(cfg, o, s, priority, raw), p)
    requires FirstCannotBeServed(cfg, s)
    ensures FirstCannotBeServed(cfg, AcquireAt(cfg, o, s, priority, raw, h, p))
  {
    var n, t, m, own := FirstAfterAcquire(cfg, o, s, priority, raw, h, p);
    FirstAt(cfg, s, n);
    FirstAt(cfg, t, m);
    if own {
      OwnDoesNotFit(cfg, o, s, priority, raw, p);
    }
  }

  lemma ReleaseKeepsFirst<P(!new)>(cfg: Config, o: Order<P>, s: Sem<P>, i: nat)
    requires Sorted(SemOrder(cfg, o), s.queue) && Guard(s, i) && FirstCannotBeServed(cfg, s)
    ensures FirstCannotBeServed(cfg, Release(cfg, o, s, i))
  {
    hide Activate, FirstCannotBeServed;
    SortedIsDivided(cfg, o, s.queue);
    VanishKeepsFirst(cfg, o, s, i);
    LeavingServesFirst(cfg, o, s, i, Sem(Remove(s.queue, i), s.available + Count(cfg, s.queue[i].d), s.total));
  }

  lemma VanishKeepsFirst<P>(cfg: Config, o: Order<P>, s: Sem<P>, i: nat)
    requires Sorted(SemOrder(cfg, o), s.queue) && Guard(s, i) && FirstCannotBeServed(cfg, s)
    ensures FirstCannotBeServed(cfg, s.(queue := Remove(s.queue, i)))
  {
    var n := NumHeld(s.queue);
    SortedIsDivided(cfg, o, s.queue);
    RemoveDivides(s.queue, n, i);
    FirstStays(cfg, s, n, s.(queue := Remove(s.queue, i)), n - 1);
  }

  lemma LeavingServesFirst<P(!new)>(cfg: Config, o: Order<P>, s: Sem<P>, i: nat, u: Sem<P>)
    requires Sorted(SemOrder(cfg, o), s.queue) && i < |s.queue| && i <= NumHeld(s.queue)
    requires u.queue == Remove(s.queue, i)
    ensures FirstCannotBeServed(cfg, Activate(cfg, o, u, i))
  {
    hide Activate, FirstCannotBeServed;
    RemoveKeepsSorted(SemOrder(cfg, o), s.queue, i);
    LeftDivided(cfg, o, s.queue, i);
    ServedFirst(cfg, o, u, i);
  }

  lemma LoweredKeepsFirst<P>(cfg: Config, s: Sem<P>, n: nat, k: nat, count: nat)
    requires HeldUpTo(s.queue, n) && FirstCannotBeServed(cfg, s) && (cfg.Total? ==> count <= s.total)
    ensures FirstCannotBeServed(cfg, Lowered(cfg, s, k, count))
  {
    FirstStays(cfg, s, n, Lowered(cfg, s, k, count), n);
  }

  lemma ForgetKeepsFirst<P(!new)>(cfg: Config, o: Order<P>, s: Sem<P>, i: nat)
    requires Inv(cfg, o, s) && Guard(s, i) && FirstCannotBeServed(cfg, s)
    requires cfg.Total? ==> Count(cfg, s.queue[i].d) <= s.total
    ensures FirstCannotBeServed(cfg, Forget(cfg, s, i))
  {
    hide Lowered, FirstCannotBeServed;
    var n := NumHeld(s.queue);
    SortedIsDivided(cfg, o, s.queue);
    RemoveDivides(s.queue, n, i);
    VanishKeepsFirst(cfg, o, s, i);
    LoweredKeepsFirst(cfg, s.(queue := Remove(s.queue, i)), n - 1, i, Count(cfg, s.queue[i].d));
  }

  lemma ForgetPermitsKeepsFirst<P(!new)>(cfg: Config, o: Order<P>, s: Sem<P>, count: nat)
    requires Inv(cfg, o, s) && FirstCannotBeServed(cfg, s)
    ensures FirstCannotBeServed(cfg, ForgetPermits(cfg, s, count))
  {
    hide Lowered;
    var n, m := NumHeld(s.queue), Min(count, s.available);
    SortedIsDivided(cfg, o, s.queue);
    FirstStays(cfg, s, n, s.(available := s.available - m), n);
    LoweredKeepsFirst(cfg, s.(available := s.available - m), n, 0, m);
  }

  lemma SplitKeepsFirst<P(!new)>(cfg: Config, o: Order<P>, s: Sem<P>, op: Op<P>)
    requires Inv(cfg, o, s) && Enabled(cfg, o, s, op) && op.Splitting? && CanSplit(cfg, s, op.i, op.count)
    requires FirstCannotBeServed(cfg, s)
    ensures FirstCannotBeServed(cfg, SplitAt(cfg, s, op.i, op.count, op.priority, op.h, op.p))
  {
    var q, n := Reduced(cfg, s, op.i, op.count), NumHeld(s.queue);
    var c := Cell(op.h, SemWaiter(op.priority, true, false, op.count));
    SortedIsDivided(cfg, o, s.queue);
    PlaceDivides(cfg, o, q, n, op.p, c.d);
    InsertDivides(q, n, op.p, c);
    FirstStays(cfg, s, n, s.(queue := Insert(q, op.p, c)), n + 1);
  }

  lemma MergeKeepsFirst<P(!new)>(cfg: Config, o: Order<P>, s: Sem<P>, i: nat, j: nat)
    requires Sorted(SemOrder(cfg, o), s.queue) && Guard(s, i) && Guard(s, j) && FirstCannotBeServed(cfg, s)
    ensures FirstCannotBeServed(cfg, Merge(cfg, o, s, i, j))
  {
    hide Activate;
    if CanMerge(cfg, s, i, j) {
      var q, n := Enlarged(s.queue, i, Count(cfg, s.queue[j].d)), NumHeld(s.queue);
      SortedIsDivided(cfg, o, s.queue);
      RemoveDivides(q, n, j);
      FirstStays(cfg, s, n, s.(queue := Remove(q, j)), n - 1);
    } else {
      ReleaseKeepsFirst(cfg, o, s, j);
    }
  }

  /** When a step leaves somebody first in line who could be served: it drops the first waiter while no
      permits are available, and the next one asks for none. */
  ghost predicate Strands<P>(cfg: Config, s: Sem<P>, op: Op<P>) {
    && op.Cancelling? && op.i == NumHeld(s.queue) && s.available == 0
    && op.i + 1 < |s.queue| && Count(cfg, s.queue[op.i + 1].d) == 0
  }

  lemma CancelStrands<P(!new)>(cfg: Config, o: Order<P>, s: Sem<P>, i: nat)
    requires Inv(cfg, o, s) && FirstCannotBeServed(cfg, s) && i < |s.queue|
    ensures FirstCannotBeServed(cfg, Cancel(cfg, o, s, i)) <==> !Strands(cfg, s, Cancelling(i))
  {
    hide Activate;
    SortedIsDivided(cfg, o, s.queue);
    if s.queue[i].d.held {
      CancelHeldActivates(cfg, o, s, i);
      LeavingServesFirst(cfg, o, s, i, Withdrawn(cfg, s, i));
    } else {
      var t, n := WithdrawnWaiter(cfg, o, s, i);
      FirstAt(cfg, t, n);
      if n < i || s.available == 0 {
        CancelBehind(cfg, o, s, i);
        assert n == i && n < |t.queue| ==> t.queue[n] == s.queue[n + 1];
      } else {
        DividedOnce(t.queue, n);
        ServedFirst(cfg, o, t, i);
      }
    }
  }

  /** Every operation: it leaves somebody first in line who could be served if and only if it is that. */
  lemma StepStrands<P(!new)>(cfg: Config, o: Order<P>, s: Sem<P>, op: Op<P>)
    requires Lawful(o) && Inv(cfg, o, s) && Enabled(cfg, o, s, op) && FirstCannotBeServed(cfg, s)
    ensures FirstCannotBeServed(cfg, Apply(cfg, o, s, op)) <==> !Strands(cfg, s, op)
  {
    hide FirstCannotBeServed, AcquireAt, Release, Cancel, Activate, SplitAt, Merge, Forget, ForgetPermits, Unstranded;
    match op
    case Acquiring(priority, raw, h, p) => AcquireKeepsFirst(cfg, o, s, priority, raw, h, p);
    case Releasing(i) => ReleaseKeepsFirst(cfg, o, s, i);
    case Cancelling(i) => CancelStrands(cfg, o, s, i);
    case AddingPermits(count) =>
      if TryAddPermits(cfg, o, s, count).Some? {
        ServedFirst(cfg, o, s.(available := s.available + count,
                               total := if cfg.Total? then s.total + count else s.total), 0);
      }
    case Splitting(i, count, _, _, _) =>
      if CanSplit(cfg, s, i, count) {
        SplitKeepsFirst(cfg, o, s, op);
      }
    case Merging(i, j) => MergeKeepsFirst(cfg, o, s, i, j);
    case Forgetting(i) =>
      NeverUndefined(cfg, o, s, i, 0);
      ForgetKeepsFirst(cfg, o, s, i);
    case ForgettingPermits(count) =>
      NeverUndefined(cfg, o, s, 0, count);
      ForgetPermitsKeepsFirst(cfg, o, s, count);
  }

  function Held(priority: int, raw: nat): SemWaiter<int> {
    SemWaiter(priority, true, false, raw)
  }

  function Pending(priority: int, raw: nat): SemWaiter<int> {
    SemWaiter(priority, false, false, raw)
  }

  /** The first request of a new semaphore, granted at once. */
  lemma {:induction false} FirstRequest(cfg: Config, o: Order<int>, permits: nat, priority: int, raw: nat)
      returns (run: seq<Op<int>>)
    requires raw <= permits && raw < MAX_PERMITS
    ensures Possible(cfg, o, New(permits), run)
    ensures After(cfg, o, New(permits), run) == Sem([Cell(0, Held(priority, raw))], permits - raw, permits)
  {
    run := Continued(cfg, o, New(permits), [], New(permits), Acquiring(priority, raw, 0, 0),
                     Sem([Cell(0, Held(priority, raw))], permits - raw, permits));
  }

  lemma OneHoldsOneWaits() returns (run: seq<Op<int>>)
    ensures Possible(Plain, HighestNumber(), New(1), run)
    ensures After(Plain, HighestNumber(), New(1), run) == Sem([Cell(0, Held(5, 1)), Cell(1, Pending(4, 1))], 0, 1)
  {
    hide Possible, After;
    run := FirstRequest(Plain, HighestNumber(), 1, 5, 1);
    run := Continued(Plain, HighestNumber(), New(1), run, Sem([Cell(0, Held(5, 1))], 0, 1), Acquiring(4, 1, 1, 1),
                     Sem([Cell(0, Held(5, 1)), Cell(1, Pending(4, 1))], 0, 1));
  }

  lemma {:induction false} OneHoldsTwoWait() returns (run: seq<Op<int>>)
    ensures Possible(Plain, HighestNumber(), New(1), run)
    ensures After(Plain, HighestNumber(), New(1), run)
         == Sem([Cell(0, Held(5, 1)), Cell(1, Pending(4, 1)), Cell(2, Pending(3, 0))], 0, 1)
  {
    hide Possible, After;
    run := OneHoldsOneWaits();
    run := Continued(Plain, HighestNumber(), New(1), run,
                     Sem([Cell(0, Held(5, 1)), Cell(1, Pending(4, 1))], 0, 1), Acquiring(3, 0, 2, 2),
                     Sem([Cell(0, Held(5, 1)), Cell(1, Pending(4, 1)), Cell(2, Pending(3, 0))], 0, 1));
  }

  /** One permit is held; a request for one permit waits and behind it a request for none; the first
      is dropped, and the second, which needs nothing, goes on waiting. */
  lemma RequestForNothingStranded() returns (run: seq<Op<int>>)
    ensures Possible(Plain, HighestNumber(), New(1), run)
    ensures After(Plain, HighestNumber(), New(1), run) == Sem([Cell(0, Held(5, 1)), Cell(2, Pending(3, 0))], 0, 1)
  {
    run := OneHoldsTwoWait();
    run := Continued(Plain, HighestNumber(), New(1), run,
                     Sem([Cell(0, Held(5, 1)), Cell(1, Pending(4, 1)), Cell(2, Pending(3, 0))], 0, 1), Cancelling(1),
                     Sem([Cell(0, Held(5, 1)), Cell(2, Pending(3, 0))], 0, 1));
  }

  // ----- Overtaking

  /** The second request waits behind the first. */
  lemma TwoWanted(q: Queue<int>)
    requires q == [Cell(0, Held(9, 2))]
    ensures Enabled(Total, HighestNumber(), Sem(q, 1, 3), Acquiring(5, 2, 1, 1))
    ensures AcquireAt(Total, HighestNumber(), Sem(q, 1, 3), 5, 2, 1, 1)
         == Sem([Cell(0, Held(9, 2)), Cell(1, Pending(5, 2))], 1, 3)
  {
    assert Asked(Total, HighestNumber(), q, 5) == q;
    assert NewEntry(Total, HighestNumber(), Sem(q, 1, 3), 5, 2) == Pending(5, 2);
  }

  /** The third request does not see the second, which is not flagged. */
  lemma OneWanted(q: Queue<int>)
    requires q == [Cell(0, Held(9, 2)), Cell(1, Pending(5, 2))]
    ensures Enabled(Total, HighestNumber(), Sem(q, 1, 3), Acquiring(1, 1, 2, 1))
    ensures AcquireAt(Total, HighestNumber(), Sem(q, 1, 3), 1, 1, 2, 1)
         == Sem([Cell(0, Held(9, 2)), Cell(2, Held(1, 1)), Cell(1, Pending(5, 2))], 0, 3)
  {
    assert q[1..] == [Cell(1, Pending(5, 2))];
    assert FirstNotSkipped(Total, q[1..]) == 1;
    assert Asked(Total, HighestNumber(), q, 1) == q;
    assert NewEntry(Total, HighestNumber(), Sem(q, 1, 3), 1, 1) == Held(1, 1);
  }

  /** With `semaphore-total`: two of three permits are held, a request of priority 5 waits for two,
      and a request of priority 1 for the one that is left is granted at once. */
  lemma LowPriorityOvertakes() returns (run: seq<Op<int>>)
    ensures Possible(Total, HighestNumber(), New(3), run)
    ensures var s := After(Total, HighestNumber(), New(3), run);
            && s == Sem([Cell(0, Held(9, 2)), Cell(2, Held(1, 1)), Cell(1, Pending(5, 2))], 0, 3)
            && !Covered(HighestNumber(), s.queue)
  {
    hide Possible, After, AcquireAt;
    var q, r := [Cell(0, Held(9, 2))], [Cell(0, Held(9, 2)), Cell(1, Pending(5, 2))];
    run := FirstRequest(Total, HighestNumber(), 3, 9, 2);
    TwoWanted(q);
    run := Continued(Total, HighestNumber(), New(3), run, Sem(q, 1, 3), Acquiring(5, 2, 1, 1), Sem(r, 1, 3));
    OneWanted(r);
    run := Continued(Total, HighestNumber(), New(3), run, Sem(r, 1, 3), Acquiring(1, 1, 2, 1),
                     Sem([Cell(0, Held(9, 2)), Cell(2, Held(1, 1)), Cell(1, Pending(5, 2))], 0, 3));
    assert Outranks(HighestNumber(), After(Total, HighestNumber(), New(3), run).queue, 2, 1);
  }

  lemma SecondWaits(q: Queue<int>)
    requires q == [Cell(0, Held(5, 2))]
    ensures Enabled(Plain, Fifo(HighestNumber()), Sem(q, 1, 3), Acquiring(5, 2, 1, 1))
    ensures AcquireAt(Plain, Fifo(HighestNumber()), Sem(q, 1, 3), 5, 2, 1, 1)
         == Sem([Cell(0, Held(5, 2)), Cell(1, Pending(5, 2))], 1, 3)
  {
    assert NewEntry(Plain, Fifo(HighestNumber()), Sem(q, 1, 3), 5, 2) == Pending(5, 2);
  }

  lemma ThirdPasses(q: Queue<int>)
    requires q == [Cell(0, Held(5, 2)), Cell(1, Pending(5, 2))]
    ensures Enabled(Plain, Fifo(HighestNumber()), Sem(q, 1, 3), Acquiring(5, 1, 2, 1))
    ensures AcquireAt(Plain, Fifo(HighestNumber()), Sem(q, 1, 3), 5, 1, 2, 1)
         == Sem([Cell(0, Held(5, 2)), Cell(2, Held(5, 1)), Cell(1, Pending(5, 2))], 0, 3)
  {
    assert q[1..] == [Cell(1, Pending(5, 2))];
    assert NewEntry(Plain, Fifo(HighestNumber()), Sem(q, 1, 3), 5, 1) == Held(5, 1);
  }

  /** Two of three permits are held; a request for two waits, and a later one for the permit that is
      left, of the same priority, is granted at once under `FIFO`. */
  lemma LaterRequestPassesUnderFifo() returns (run: seq<Op<int>>)
    ensures Possible(Plain, Fifo(HighestNumber()), New(3), run)
    ensures After(Plain, Fifo(HighestNumber()), New(3), run)
         == Sem([Cell(0, Held(5, 2)), Cell(2, Held(5, 1)), Cell(1, Pending(5, 2))], 0, 3)
  {
    var o, q, r := Fifo(HighestNumber()), [Cell(0, Held(5, 2))], [Cell(0, Held(5, 2)), Cell(1, Pending(5, 2))];
    run := FirstRequest(Plain, o, 3, 5, 2);
    SecondWaits(q);
    run := Continued(Plain, o, New(3), run, Sem(q, 1, 3), Acquiring(5, 2, 1, 1), Sem(r, 1, 3));
    ThirdPasses(r);
    run := Continued(Plain, o, New(3), run, Sem(r, 1, 3), Acquiring(5, 1, 2, 1),
                     Sem([Cell(0, Held(5, 2)), Cell(2, Held(5, 1)), Cell(1, Pending(5, 2))], 0, 3));
  }

  // ----- Somebody missed

  /** A waiter that the walk passes over: it asks for more than there is in all. */
  function Oversized(): SemWaiter<int> {
    SemWaiter(8, false, true, WITHIN_TOTAL_BIT + 4)
  }

  /** A request made by `acquire_within_total` for all four permits waits. */
  lemma AllWanted(q: Queue<int>)
    requires q == [Cell(0, Held(9, 2))]
    ensures Enabled(Total, HighestNumber(), Sem(q, 2, 4), Acquiring(8, WITHIN_TOTAL_BIT + 4, 1, 1))
    ensures AcquireAt(Total, HighestNumber(), Sem(q, 2, 4), 8, WITHIN_TOTAL_BIT + 4, 1, 1)
         == Sem(q + [Cell(1, Pending(8, WITHIN_TOTAL_BIT + 4))], 2, 4)
  {
    assert Asked(Total, HighestNumber(), q, 8) == q;
    assert NewEntry(Total, HighestNumber(), Sem(q, 2, 4), 8, WITHIN_TOTAL_BIT + 4)
        == Pending(8, WITHIN_TOTAL_BIT + 4);
  }

  /** A permit is forgotten, and it is told that it is to be evicted. */
  lemma OneForgotten(q: Queue<int>)
    requires q == [Cell(0, Held(9, 2)), Cell(1, Pending(8, WITHIN_TOTAL_BIT + 4))]
    ensures ForgetPermits(Total, Sem(q, 2, 4), 1) == Sem([Cell(0, Held(9, 2)), Cell(1, Oversized())], 1, 3)
  {
    assert NotifyFrom(Total, q, 0, 3) == [Cell(0, Held(9, 2)), Cell(1, Oversized())];
  }

  lemma OversizedWaits() returns (run: seq<Op<int>>)
    ensures Possible(Total, HighestNumber(), New(4), run)
    ensures After(Total, HighestNumber(), New(4), run) == Sem([Cell(0, Held(9, 2)), Cell(1, Oversized())], 1, 3)
  {
    hide AcquireAt, ForgetPermits;
    var o, q := HighestNumber(), [Cell(0, Held(9, 2))];
    var r := q + [Cell(1, Pending(8, WITHIN_TOTAL_BIT + 4))];
    run := FirstRequest(Total, o, 4, 9, 2);
    AllWanted(q);
    run := Continued(Total, o, New(4), run, Sem(q, 2, 4), Acquiring(8, WITHIN_TOTAL_BIT + 4, 1, 1), Sem(r, 2, 4));
    OneForgotten(r);
    run := Continued(Total, o, New(4), run, Sem(r, 2, 4), ForgettingPermits(1),
                     Sem([Cell(0, Held(9, 2)), Cell(1, Oversized())], 1, 3));
  }

  /** Whoever comes next waits behind it, whether it fits or not. */
  lemma WaitsBehindOversized(q: Queue<int>, priority: int, raw: nat, h: nat)
    requires |q| >= 2 && q[0] == Cell(0, Held(9, 2)) && q[1] == Cell(1, Oversized())
    requires forall i :: 2 <= i < |q| ==> q[i].d.priority > priority && !q[i].d.held
    requires priority < 8 && RawAllowed(Total, 3, raw) && !Has(q, h)
    ensures Enabled(Total, HighestNumber(), Sem(q, 1, 3), Acquiring(priority, raw, h, |q|))
    ensures AcquireAt(Total, HighestNumber(), Sem(q, 1, 3), priority, raw, h, |q|)
         == Sem(q + [Cell(h, Pending(priority, raw))], 1, 3)
  {
    assert FirstNotSkipped(Total, q) == 1;
    assert Asked(Total, HighestNumber(), q, priority) == q;
    assert NewEntry(Total, HighestNumber(), Sem(q, 1, 3), priority, raw) == Pending(priority, raw);
  }

  /** Behind it one waits that does not fit, tagged or not, and then one that does. */
  lemma LineBehindOversized(raw: nat) returns (run: seq<Op<int>>)
    requires raw == 2 || raw == WITHIN_TOTAL_BIT + 2
    ensures Possible(Total, HighestNumber(), New(4), run)
    ensures After(Total, HighestNumber(), New(4), run)
         == Sem([Cell(0, Held(9, 2)), Cell(1, Oversized()), Cell(2, Pending(7, raw)), Cell(3, Pending(6, 1))], 1, 3)
  {
    hide AcquireAt, Possible, After, Enabled;
    var o, q := HighestNumber(), [Cell(0, Held(9, 2)), Cell(1, Oversized())];
    var r := q + [Cell(2, Pending(7, raw))];
    run := OversizedWaits();
    WaitsBehindOversized(q, 7, raw, 2);
    run := Continued(Total, o, New(4), run, Sem(q, 1, 3), Acquiring(7, raw, 2, 2), Sem(r, 1, 3));
    WaitsBehindOversized(r, 6, 1, 3);
    run := Continued(Total, o, New(4), run, Sem(r, 1, 3), Acquiring(6, 1, 3, 3),
                     Sem(r + [Cell(3, Pending(6, 1))], 1, 3));
  }

  /** With `semaphore-total`: a request that fits waits behind a waiter that a walk would pass over. */
  lemma NewRequestMissed() returns (run: seq<Op<int>>)
    ensures Possible(Total, HighestNumber(), New(4), run)
    ensures var s := After(Total, HighestNumber(), New(4), run);
            && s == Sem([Cell(0, Held(9, 2)), Cell(1, Oversized()), Cell(2, Pending(7, 1))], 1, 3)
            && Overlooked(Total, s)
  {
    hide AcquireAt;
    var o, q := HighestNumber(), [Cell(0, Held(9, 2)), Cell(1, Oversized())];
    var t := Sem(q + [Cell(2, Pending(7, 1))], 1, 3);
    run := OversizedWaits();
    WaitsBehindOversized(q, 7, 1, 2);
    run := Continued(Total, o, New(4), run, Sem(q, 1, 3), Acquiring(7, 1, 2, 2), t);
    assert OverlookedAt(Total, t, 2);
  }

  /** Behind such a waiter one waits that does not fit and then one that does.  The first of the two is
      dropped, and nobody looks at the other. */
  lemma DropMissesSomebody() returns (run: seq<Op<int>>)
    ensures Possible(Total, HighestNumber(), New(4), run)
    ensures var s := After(Total, HighestNumber(), New(4), run);
            && s == Sem([Cell(0, Held(9, 2)), Cell(1, Oversized()), Cell(3, Pending(6, 1))], 1, 3)
            && Overlooked(Total, s)
  {
    hide Possible, After;
    var o, q := HighestNumber(), [Cell(0, Held(9, 2)), Cell(1, Oversized()), Cell(3, Pending(6, 1))];
    run := LineBehindOversized(2);
    run := Continued(Total, o, New(4), run, Sem(q[..2] + [Cell(2, Pending(7, 2))] + q[2..], 1, 3), Cancelling(2),
                     Sem(q, 1, 3));
    assert OverlookedAt(Total, Sem(q, 1, 3), 2);
  }

  lemma HolderForgotten(q: Queue<int>)
    requires q == [Cell(0, Held(9, 2)), Cell(1, Oversized()), Cell(2, Pending(7, WITHIN_TOTAL_BIT + 2)),
                   Cell(3, Pending(6, 1))]
    ensures Forget(Total, Sem(q, 1, 3), 0)
         == Sem([Cell(1, Oversized()), Cell(2, Pending(7, WITHIN_TOTAL_BIT + 2).(wantsEvict := true)),
                 Cell(3, Pending(6, 1))], 1, 1)
  {
    hide NotifyFrom;
    assert Remove(q, 0) == q[1..];
    assert NotifyFrom(Total, q[1..], 0, 1)
        == [Cell(1, Oversized()), Cell(2, Pending(7, WITHIN_TOTAL_BIT + 2).(wantsEvict := true)), q[3]];
  }

  /** Or the permits of the holder are forgotten, the first of the two is flagged, and nobody looks at the
      other. */
  lemma LoweredTotalMisses() returns (run: seq<Op<int>>)
    ensures Possible(Total, HighestNumber(), New(4), run)
    ensures var s := After(Total, HighestNumber(), New(4), run);
            && s == Sem([Cell(1, Oversized()), Cell(2, Pending(7, WITHIN_TOTAL_BIT + 2).(wantsEvict := true)),
                         Cell(3, Pending(6, 1))], 1, 1)
            && Overlooked(Total, s)
  {
    hide Forget;
    var o, raw := HighestNumber(), WITHIN_TOTAL_BIT + 2;
    var q := [Cell(0, Held(9, 2)), Cell(1, Oversized()), Cell(2, Pending(7, raw)), Cell(3, Pending(6, 1))];
    var t := Sem([Cell(1, Oversized()), Cell(2, Pending(7, raw).(wantsEvict := true)), Cell(3, Pending(6, 1))], 1, 1);
    run := LineBehindOversized(raw);
    HolderForgotten(q);
    run := Continued(Total, o, New(4), run, Sem(q, 1, 3), Forgetting(0), t);
    assert OverlookedAt(Total, t, 2);
  }

  // ----- Eviction

  /** A permit is added, and the walk passes over the oversized waiter to the one behind it. */
  lemma WalkGrants(q: Queue<int>)
    requires q == [Cell(0, Held(9, 2)), Cell(1, Oversized()), Cell(2, Pending(7, 2))]
    ensures Activate(Total, HighestNumber(), Sem(q, 2, 4), 0)
         == Sem([Cell(0, Held(9, 2)), Cell(2, Held(7, 2)), Cell(1, Oversized())], 0, 4)
  {
    var o, so, s, r := HighestNumber(), SemOrder(Total, HighestNumber()), Sem(q, 2, 4), q[2 := Cell(2, Held(7, 2))];
    assert Activate(Total, o, s, 0) == Activate(Total, o, s, 2);
    assert Remove(r, 2) == q[..2];
    assert Walk(so, q[..2], Held(7, 2)) == 1;
    assert Refile(so, r, 2) == [q[0], r[2], q[1]];
    assert GrantAt(Total, o, s, 2) == Sem([q[0], r[2], q[1]], 0, 4);
  }

  lemma WalkExposesBehind(q: Queue<int>)
    requires q == [Cell(0, Held(9, 2)), Cell(1, Oversized()), Cell(2, Pending(7, 2))]
    ensures Exposes(Total, HighestNumber(), Sem(q, 1, 3), AddingPermits(1))
  {
    var w := [Cell(1, Oversized()), Cell(2, Pending(7, 2))];
    assert NumHeld(q[1..]) == 0 && NumHeld(q) == 1 && q[1..] == w;
    assert FirstUnfit(Total, w, 2) == 0 && LeftAt(Total, w, 2, 1) == 2;
    assert ServedPast(Total, HighestNumber(), w, 2, 0, 1);
  }

  /** With `semaphore-total`: behind an oversized waiter of priority 8 one of priority 7 waits for two
      permits; a permit is added, and the latter is served, outranked and unasked. */
  lemma WalkServesOutranked() returns (before: seq<Op<int>>, run: seq<Op<int>>)
    ensures Possible(Total, HighestNumber(), New(4), run) && run == before + [AddingPermits(1)]
    ensures var s := After(Total, HighestNumber(), New(4), before);
            Covered(HighestNumber(), s.queue) && Exposes(Total, HighestNumber(), s, AddingPermits(1))
    ensures var t := After(Total, HighestNumber(), New(4), run);
            && t == Sem([Cell(0, Held(9, 2)), Cell(2, Held(7, 2)), Cell(1, Oversized())], 0, 4)
            && !Covered(HighestNumber(), t.queue)
  {
    hide AcquireAt, Activate, Possible, After, Exposes;
    var o, q := HighestNumber(), [Cell(0, Held(9, 2)), Cell(1, Oversized())];
    var r := q + [Cell(2, Pending(7, 2))];
    var t := Sem([Cell(0, Held(9, 2)), Cell(2, Held(7, 2)), Cell(1, Oversized())], 0, 4);
    before := OversizedWaits();
    WaitsBehindOversized(q, 7, 2, 2);
    before := Continued(Total, o, New(4), before, Sem(q, 1, 3), Acquiring(7, 2, 2, 2), Sem(r, 1, 3));
    WalkExposesBehind(r);
    WalkGrants(r);
    run := Continued(Total, o, New(4), before, Sem(r, 1, 3), AddingPermits(1), t);
    assert Outranks(o, t.queue, 2, 1);
  }

  lemma HighWaits(q: Queue<int>)
    requires q == [Cell(0, Held(1, 2))]
    ensures Enabled(Evicting, HighestNumber(), Sem(q, 0, 2), Acquiring(5, 1, 1, 1))
    ensures AcquireAt(Evicting, HighestNumber(), Sem(q, 0, 2), 5, 1, 1, 1)
         == Sem([Cell(0, Held(1, 2).(wantsEvict := true)), Cell(1, Pending(5, 1))], 0, 2)
  {
    assert Asked(Evicting, HighestNumber(), q, 5) == [Cell(0, Held(1, 2).(wantsEvict := true))];
    assert NewEntry(Evicting, HighestNumber(), Sem(q, 0, 2), 5, 1) == Pending(5, 1);
  }

  lemma LowSplits(q: Queue<int>)
    requires q == [Cell(0, Held(1, 2).(wantsEvict := true)), Cell(1, Pending(5, 1))]
    ensures Enabled(Evicting, HighestNumber(), Sem(q, 0, 2), Splitting(0, 1, 1, 2, 0))
    ensures SplitAt(Evicting, Sem(q, 0, 2), 0, 1, 1, 2, 0)
         == Sem([Cell(2, Held(1, 1)), Cell(0, Held(1, 1).(wantsEvict := true)), Cell(1, Pending(5, 1))], 0, 2)
  {
    assert Reduced(Evicting, Sem(q, 0, 2), 0, 1)
        == [Cell(0, Held(1, 1).(wantsEvict := true)), Cell(1, Pending(5, 1))];
  }

  /** A guard of priority 1 holds both permits and has been asked to give way to a waiter of priority 5;
      it is split, and nobody has asked its other half. */
  lemma SplitGuardIsNotAsked() returns (run: seq<Op<int>>)
    ensures Possible(Evicting, HighestNumber(), New(2), run)
    ensures var s := After(Evicting, HighestNumber(), New(2), run);
            && s == Sem([Cell(2, Held(1, 1)), Cell(0, Held(1, 1).(wantsEvict := true)), Cell(1, Pending(5, 1))], 0, 2)
            && !Covered(HighestNumber(), s.queue)
  {
    var o, q := HighestNumber(), [Cell(0, Held(1, 2))];
    var r := [Cell(0, Held(1, 2).(wantsEvict := true)), Cell(1, Pending(5, 1))];
    var t := Sem([Cell(2, Held(1, 1)), Cell(0, Held(1, 1).(wantsEvict := true)), Cell(1, Pending(5, 1))], 0, 2);
    run := FirstRequest(Evicting, o, 2, 1, 2);
    HighWaits(q);
    run := Continued(Evicting, o, New(2), run, Sem(q, 0, 2), Acquiring(5, 1, 1, 1), Sem(r, 0, 2));
    LowSplits(r);
    run := Continued(Evicting, o, New(2), run, Sem(r, 0, 2), Splitting(0, 1, 1, 2, 0), t);
    assert Outranks(o, t.queue, 2, 0);
  }

  // ----- Guards that cannot be merged

  lemma SecondGuard(cfg: Config, q: Queue<int>, raw: nat)
    requires q == [Cell(0, Held(5, raw))] && raw == MAX_PERMITS - 1
    ensures Enabled(cfg, HighestNumber(), Sem(q, raw, 2 * raw), Acquiring(4, raw, 1, 1))
    ensures AcquireAt(cfg, HighestNumber(), Sem(q, raw, 2 * raw), 4, raw, 1, 1)
         == Sem([Cell(0, Held(5, raw)), Cell(1, Held(4, raw))], 0, 2 * raw)
  {
    assert Asked(cfg, HighestNumber(), q, 4) == q;
    assert NewEntry(cfg, HighestNumber(), Sem(q, raw, 2 * raw), 4, raw) == Held(4, raw);
  }

  /** In every configuration: two guards hold so many permits that one could not hold them together.  The
      merge fails, and the guard it was given gives its permits back. */
  lemma MergeFails(cfg: Config) returns (before: seq<Op<int>>, run: seq<Op<int>>)
    ensures var raw := MAX_PERMITS - 1;
            Possible(cfg, HighestNumber(), New(2 * raw), run) && run == before + [Merging(0, 1)]
    ensures var raw := MAX_PERMITS - 1;
            var s := After(cfg, HighestNumber(), New(2 * raw), before);
            s == Sem([Cell(0, Held(5, raw)), Cell(1, Held(4, raw))], 0, 2 * raw) && !CanMerge(cfg, s, 0, 1)
    ensures var raw := MAX_PERMITS - 1;
            After(cfg, HighestNumber(), New(2 * raw), run) == Sem([Cell(0, Held(5, raw))], raw, 2 * raw)
  {
    hide AcquireAt, Possible, After;
    var o, raw := HighestNumber(), MAX_PERMITS - 1;
    var q := [Cell(0, Held(5, raw)), Cell(1, Held(4, raw))];
    before := FirstRequest(cfg, o, 2 * raw, 5, raw);
    SecondGuard(cfg, q[..1], raw);
    before := Continued(cfg, o, New(2 * raw), before, Sem(q[..1], raw, 2 * raw), Acquiring(4, raw, 1, 1),
                        Sem(q, 0, 2 * raw));
    assert Remove(q, 1) == q[..1];
    assert Activate(cfg, o, Sem(q[..1], raw, 2 * raw), 1) == Sem(q[..1], raw, 2 * raw);
    run := Continued(cfg, o, New(2 * raw), before, Sem(q, 0, 2 * raw), Merging(0, 1), Sem(q[..1], raw, 2 * raw));
  }
}
