/** Who is served when, over the runs of the semaphore: the line is served from the front, nobody is
    overtaken, and what a cancelled request held up is served. */
module SemaphoreService {
  import opened Orders
  import opened QueueSpec
  import opened SemaphoreActivation
  import opened SemaphoreRuns
  import opened SemaphoreSteps
  import opened Semaphores

  // ----- Those newly served

  ghost predicate Holds<P>(s: Sem<P>, h: nat) {
    exists i: nat :: Guard(s, i) && s.queue[i].h == h
  }

  /** The entry at `a` of `t` has permits and did not have any in `s`. */
  ghost predicate NewlyServed<P>(s: Sem<P>, t: Sem<P>, a: nat) {
    Guard(t, a) && !Holds(s, t.queue[a].h)
  }

  ghost predicate Waits<P>(s: Sem<P>, b: nat) {
    b < |s.queue| && !s.queue[b].d.held
  }

  lemma HolderHolds<P>(s: Sem<P>, n: nat, c: Cell<nat, SemWaiter<P>>)
    requires HeldUpTo(s.queue, n)
    ensures c in s.queue[..n] ==> Holds(s, c.h)
  {
    if c in s.queue[..n] {
      var i: nat :| i < n && s.queue[..n][i] == c;
      assert Guard(s, i);
    }
  }

  /** An entry newly served by `activate_waiters` is among those granted. */
  lemma IndexGranted<P>(s: Sem<P>, n: nat, granted: Queue<P>, t: Sem<P>, m: nat, a: nat) returns (x: nat)
    requires HeldUpTo(s.queue, n) && HeldUpTo(t.queue, m) && NewlyServed(s, t, a)
    requires multiset(t.queue[..m]) == HoldersWith(s.queue, n, granted)
    ensures x < |granted| && t.queue[a] == Cell(granted[x].h, granted[x].d.(held := true))
  {
    var c := t.queue[a];
    assert c == t.queue[..m][a];
    assert c in multiset(t.queue[..m]);
    HolderHolds(s, n, c);
    assert c in Holding(granted);
    x :| 0 <= x < |granted| && Holding(granted)[x] == c;
  }

  lemma RemovedHeld<P>(s: Sem<P>, u: Sem<P>, i: nat, h: nat)
    requires i < |s.queue| && u.queue == Remove(s.queue, i)
    ensures Holds(u, h) ==> Holds(s, h)
  {
    if Holds(u, h) {
      var x: nat :| Guard(u, x) && u.queue[x].h == h;
      assert Guard(s, if x < i then x else x + 1);
    }
  }

  /** Where holders and handles are those from before, less one, nobody has been served. */
  lemma NobodyServed<P>(s: Sem<P>, t: Sem<P>, i: nat, a: nat)
    requires i < |s.queue| && |t.queue| == |s.queue| - 1
    requires forall x :: 0 <= x < |t.queue| ==> SameHolder(s.queue[if x < i then x else x + 1], t.queue[x])
    ensures !NewlyServed(s, t, a)
  {
    if Guard(t, a) {
      var y := if a < i then a else a + 1;
      assert SameHolder(s.queue[y], t.queue[a]);
      assert Guard(s, y);
    }
  }

  lemma NobodyNew<P>(s: Sem<P>, a: nat)
    ensures !NewlyServed(s, s, a)
  {
    assert Guard(s, a) ==> Holds(s, s.queue[a].h);
  }

  ghost predicate SameHolder<P>(c: Cell<nat, SemWaiter<P>>, d: Cell<nat, SemWaiter<P>>) {
    c.h == d.h && c.d.held == d.d.held
  }

  lemma OnlyOneselfServed<P>(cfg: Config, o: Order<P>, s: Sem<P>, priority: P, raw: nat, h: nat, p: nat, a: nat)
    requires p <= |s.queue|
    ensures NewlyServed(s, AcquireAt(cfg, o, s, priority, raw, h, p), a) ==> a == p
  {
    if a != p && Guard(AcquireAt(cfg, o, s, priority, raw, h, p), a) {
      assert Guard(s, if a < p then a else a - 1);
    }
  }

  lemma MergeServesNobody<P>(cfg: Config, o: Order<P>, s: Sem<P>, i: nat, j: nat, a: nat)
    requires Guard(s, i) && Guard(s, j)
    ensures CanMerge(cfg, s, i, j) ==> !NewlyServed(s, Merge(cfg, o, s, i, j), a)
  {
    if CanMerge(cfg, s, i, j) {
      NobodyServed(s, Merge(cfg, o, s, i, j), j, a);
    }
  }

  lemma ForgetServesNobody<P(!new)>(cfg: Config, o: Order<P>, s: Sem<P>, op: Op<P>, a: nat)
    requires Inv(cfg, o, s) && Enabled(cfg, o, s, op) && (op.Forgetting? || op.ForgettingPermits?)
    ensures !NewlyServed(s, Apply(cfg, o, s, op), a)
  {
    var t := Apply(cfg, o, s, op);
    if op.Forgetting? {
      NeverUndefined(cfg, o, s, op.i, 0);
      NobodyServed(s, t, op.i, a);
    } else {
      assert Guard(t, a) ==> Guard(s, a);
    }
  }

  // ----- Served from the front

  /** Entry `a` of one queue waits, and so does entry `x` of the other, which is the same request. */
  ghost predicate SameWaiter<P>(q: Queue<P>, x: nat, r: Queue<P>, a: nat) {
    && x < |q| && a < |r| && q[x].h == r[a].h && q[x].d.priority == r[a].d.priority
    && q[x].d.raw == r[a].d.raw && !q[x].d.held
  }

  /** The waiter at `b` has been passed over: it is about to be evicted, and it does not fit. */
  ghost predicate PassedBy<P>(cfg: Config, t: Sem<P>, b: nat) {
    Waits(t, b) && PassedOver(cfg, t.queue[b].d) && Count(cfg, t.queue[b].d) > t.available
  }

  /** The lines before and after a walk, entry by entry. */
  lemma Lines<P(!new)>(cfg: Config, o: Order<P>, s: Sem<P>, k: nat, t: Sem<P>)
      returns (n: nat, m: nat, waiters: Queue<P>, g: Grants<P>)
    requires Sorted(SemOrder(cfg, o), s.queue) && k <= NumHeld(s.queue) && t == Activate(cfg, o, s, k)
    ensures n == NumHeld(s.queue) && n + |waiters| == |s.queue| && g == Greedy(cfg, waiters, s.available)
    ensures forall x :: 0 <= x < |waiters| ==> waiters[x] == s.queue[n + x] && !waiters[x].d.held
    ensures HeldUpTo(t.queue, m) && |t.queue| == m + |g.left| && t.available == g.available
    ensures forall b :: m <= b < |t.queue| ==> t.queue[b] == g.left[b - m]
    ensures HeldUpTo(s.queue, n) && multiset(t.queue[..m]) == HoldersWith(s.queue, n, g.granted)
  {
    hide Activate, Greedy, HoldersWith;
    var u: Sem<P>;
    u, n, m, g := ActivateServes(cfg, o, s, k);
    waiters := s.queue[n..];
    forall b | m <= b < |t.queue| ensures t.queue[b] == g.left[b - m] {
      assert t.queue[m..][b - m] == t.queue[b];
    }
  }

  /** In terms of lists: one who was served and one who is left. */
  lemma ServedLine<P>(cfg: Config, q: Queue<P>, n: nat, waiters: Queue<P>, available: nat, i: nat, j: nat)
      returns (x: nat, y: nat)
    requires n + |waiters| == |q| && forall k :: 0 <= k < |waiters| ==> waiters[k] == q[n + k] && !waiters[k].d.held
    requires i < |Greedy(cfg, waiters, available).granted| && j < |Greedy(cfg, waiters, available).left|
    ensures var g := Greedy(cfg, waiters, available);
            && x < |q| && y < |q| && q[x] == g.granted[i] && q[y] == g.left[j] && !q[x].d.held && !q[y].d.held
            && (x < y || (PassedOver(cfg, q[y].d) && Count(cfg, q[y].d) > g.available))
  {
    hide Greedy;
    var c, d := GreedyServesInOrder(cfg, waiters, available, i, j);
    x, y := n + c, n + d;
  }

  /** Whoever `activate_waiters` serves stood before everybody it leaves and has not passed over. */
  lemma ServedFromFront<P(!new)>(cfg: Config, o: Order<P>, s: Sem<P>, k: nat, t: Sem<P>, a: nat, b: nat)
      returns (x: nat, y: nat)
    requires Sorted(SemOrder(cfg, o), s.queue) && k <= NumHeld(s.queue)
    requires t == Activate(cfg, o, s, k) && NewlyServed(s, t, a) && Waits(t, b)
    ensures SameWaiter(s.queue, x, t.queue, a) && SameWaiter(s.queue, y, t.queue, b)
    ensures x < y || PassedBy(cfg, t, b)
  {
    hide Activate, Greedy, HoldersWith;
    var n, m, waiters, g := Lines(cfg, o, s, k, t);
    var i := IndexGranted(s, n, g.granted, t, m, a);
    assert t.queue[b] == g.left[b - m];
    x, y := ServedLine(cfg, s.queue, n, waiters, s.available, i, b - m);
  }

  lemma RemovedWaiter<P>(q: Queue<P>, i: nat, x: nat, r: Queue<P>, a: nat) returns (y: nat)
    requires i < |q| && SameWaiter(Remove(q, i), x, r, a)
    ensures SameWaiter(q, y, r, a) && y == if x < i then x else x + 1
  {
    y := if x < i then x else x + 1;
  }

  lemma LeftDivided<P>(cfg: Config, o: Order<P>, q: Queue<P>, i: nat)
    requires Sorted(SemOrder(cfg, o), q) && i < |q| && i <= NumHeld(q)
    ensures i <= NumHeld(Remove(q, i))
  {
    SortedIsDivided(cfg, o, q);
    RemoveDivides(q, NumHeld(q), i);
    DividedOnce(Remove(q, i), if i < NumHeld(q) then NumHeld(q) - 1 else NumHeld(q));
  }

  lemma CancelWalks<P>(cfg: Config, o: Order<P>, s: Sem<P>, i: nat)
    requires Sorted(SemOrder(cfg, o), s.queue) && i < |s.queue|
    ensures var t, u := Cancel(cfg, o, s, i), Withdrawn(cfg, s, i);
            t == u || (t == Activate(cfg, o, u, i) && i <= NumHeld(s.queue))
  {
    hide Activate;
    SortedIsDivided(cfg, o, s.queue);
    RemoveDivides(s.queue, NumHeld(s.queue), i);
  }

  lemma LeavingServesFromFront<P(!new)>(cfg: Config, o: Order<P>, s: Sem<P>, i: nat, u: Sem<P>, t: Sem<P>,
                                        a: nat, b: nat)
      returns (x: nat, y: nat)
    requires Sorted(SemOrder(cfg, o), s.queue) && i <= NumHeld(s.queue) && i < |s.queue|
    requires u.queue == Remove(s.queue, i) && t == Activate(cfg, o, u, i) && NewlyServed(s, t, a) && Waits(t, b)
    ensures SameWaiter(s.queue, x, t.queue, a) && SameWaiter(s.queue, y, t.queue, b)
    ensures x < y || PassedBy(cfg, t, b)
  {
    hide Activate;
    LeftDivided(cfg, o, s.queue, i);
    RemoveKeepsSorted(SemOrder(cfg, o), s.queue, i);
    RemovedHeld(s, u, i, t.queue[a].h);
    var c, d := ServedFromFront(cfg, o, u, i, t, a, b);
    x := RemovedWaiter(s.queue, i, c, t.queue, a);
    y := RemovedWaiter(s.queue, i, d, t.queue, b);
  }

  lemma ReleaseServesFromFront<P(!new)>(cfg: Config, o: Order<P>, s: Sem<P>, i: nat, t: Sem<P>, a: nat, b: nat)
      returns (x: nat, y: nat)
    requires Sorted(SemOrder(cfg, o), s.queue) && Guard(s, i)
    requires t == Release(cfg, o, s, i) && NewlyServed(s, t, a) && Waits(t, b)
    ensures SameWaiter(s.queue, x, t.queue, a) && SameWaiter(s.queue, y, t.queue, b)
    ensures x < y || PassedBy(cfg, t, b)
  {
    hide Activate;
    SortedIsDivided(cfg, o, s.queue);
    NobodyServed(s, s.(queue := Remove(s.queue, i)), i, a);
    var u := Sem(Remove(s.queue, i), s.available + Count(cfg, s.queue[i].d), s.total);
    x, y := LeavingServesFromFront(cfg, o, s, i, u, t, a, b);
  }

  lemma CancelServesFromFront<P(!new)>(cfg: Config, o: Order<P>, s: Sem<P>, i: nat, t: Sem<P>, a: nat, b: nat)
      returns (x: nat, y: nat)
    requires Sorted(SemOrder(cfg, o), s.queue) && i < |s.queue|
    requires t == Cancel(cfg, o, s, i) && NewlyServed(s, t, a) && Waits(t, b)
    ensures SameWaiter(s.queue, x, t.queue, a) && SameWaiter(s.queue, y, t.queue, b)
    ensures x < y || PassedBy(cfg, t, b)
  {
    hide Activate;
    CancelWalks(cfg, o, s, i);
    NobodyServed(s, Withdrawn(cfg, s, i), i, a);
    x, y := LeavingServesFromFront(cfg, o, s, i, Withdrawn(cfg, s, i), t, a, b);
  }

  lemma SameHolds<P>(s: Sem<P>, u: Sem<P>, h: nat)
    requires u.queue == s.queue
    ensures Holds(u, h) ==> Holds(s, h)
  {
    if Holds(u, h) {
      var i: nat :| Guard(u, i) && u.queue[i].h == h;
      assert Guard(s, i);
    }
  }

  lemma AddServesFromFront<P(!new)>(cfg: Config, o: Order<P>, s: Sem<P>, count: nat, t: Sem<P>, a: nat, b: nat)
      returns (x: nat, y: nat)
    requires Sorted(SemOrder(cfg, o), s.queue) && TryAddPermits(cfg, o, s, count) == Some(t)
    requires NewlyServed(s, t, a) && Waits(t, b)
    ensures SameWaiter(s.queue, x, t.queue, a) && SameWaiter(s.queue, y, t.queue, b)
    ensures x < y || PassedBy(cfg, t, b)
  {
    hide Activate;
    var u := s.(available := s.available + count, total := if cfg.Total? then s.total + count else s.total);
    SameHolds(s, u, t.queue[a].h);
    x, y := ServedFromFront(cfg, o, u, 0, t, a, b);
  }

  /** Whoever a step serves from the line stood before everybody it leaves in it and has not passed over. */
  lemma StepServesFromFront<P(!new)>(cfg: Config, o: Order<P>, s: Sem<P>, op: Op<P>, t: Sem<P>, a: nat, b: nat)
      returns (x: nat, y: nat)
    requires Inv(cfg, o, s) && Enabled(cfg, o, s, op) && !op.Splitting? && !op.Acquiring?
    requires t == Apply(cfg, o, s, op) && NewlyServed(s, t, a) && Waits(t, b)
    ensures SameWaiter(s.queue, x, t.queue, a) && SameWaiter(s.queue, y, t.queue, b)
    ensures x < y || PassedBy(cfg, t, b)
  {
    hide Activate;
    x, y := 0, 0;
    match op
    case Releasing(i) => x, y := ReleaseServesFromFront(cfg, o, s, i, t, a, b);
    case Cancelling(i) => x, y := CancelServesFromFront(cfg, o, s, i, t, a, b);
    case Merging(i, j) =>
      MergeServesNobody(cfg, o, s, i, j, a);
      x, y := ReleaseServesFromFront(cfg, o, s, j, t, a, b);
    case AddingPermits(count) =>
      NobodyNew(s, a);
      x, y := AddServesFromFront(cfg, o, s, count, t, a, b);
    case _ => ForgetServesNobody(cfg, o, s, op, a);
  }

  // ----- Overtaking

  /** A waiter that outranks whoever a step has served: only with `semaphore-total`, where a request
      granted at once does not see waiters that are not flagged, and a walk passes over those that are. */
  ghost predicate Yields<P>(cfg: Config, s: Sem<P>, op: Op<P>, t: Sem<P>, b: nat) {
    if op.Acquiring? then
      var n := NumHeld(s.queue);
      cfg.Total? && Waits(s, n) && !s.queue[n].d.wantsEvict
    else PassedBy(cfg, t, b)
  }

  /** In every step of every run: nobody is left waiting who outranks somebody the step has served from
      the available permits, except those who yield. */
  lemma NobodyIsOvertaken<P(!new)>(cfg: Config, o: Order<P>, s: Sem<P>, op: Op<P>, t: Sem<P>, a: nat, b: nat)
    requires Lawful(o) && Inv(cfg, o, s) && Enabled(cfg, o, s, op) && !op.Splitting?
    requires t == Apply(cfg, o, s, op) && NewlyServed(s, t, a) && Waits(t, b)
    ensures o.cmp(t.queue[a].d.priority, t.queue[b].d.priority).IsGe() || Yields(cfg, s, op, t, b)
  {
    if op.Acquiring? {
      AtOnceNobodyIsOvertaken(cfg, o, s, op, t, a, b);
    } else {
      var x, y := StepServesFromFront(cfg, o, s, op, t, a, b);
      SortedIsDivided(cfg, o, s.queue);
      if x < y {
        EarlierRanks(cfg, o, s.queue, x, y);
      }
    }
  }

  /** A request that a step serves, and somebody whom the step leaves in line, who stood in it before. */
  lemma ServedAtOnce<P>(cfg: Config, o: Order<P>, s: Sem<P>, priority: P, raw: nat, h: nat, p: nat, t: Sem<P>,
                        a: nat, b: nat)
      returns (y: nat)
    requires p <= |s.queue| && t == AcquireAt(cfg, o, s, priority, raw, h, p)
    requires NewlyServed(s, t, a) && Waits(t, b)
    ensures WillAcquire(cfg, o, s, priority, raw) && t.queue[a].d.priority == priority
    ensures Waits(s, y) && s.queue[y].d.priority == t.queue[b].d.priority
  {
    OnlyOneselfServed(cfg, o, s, priority, raw, h, p, a);
    y := if b < p then b else b - 1;
  }

  lemma AtOnceNobodyIsOvertaken<P(!new)>(cfg: Config, o: Order<P>, s: Sem<P>, op: Op<P>, t: Sem<P>, a: nat, b: nat)
    requires Lawful(o) && Inv(cfg, o, s) && Enabled(cfg, o, s, op) && op.Acquiring?
    requires t == Apply(cfg, o, s, op) && NewlyServed(s, t, a) && Waits(t, b)
    ensures o.cmp(t.queue[a].d.priority, t.queue[b].d.priority).IsGe() || Yields(cfg, s, op, t, b)
  {
    hide AcquireAt, WillAcquire, NewlyServed;
    var y := ServedAtOnce(cfg, o, s, op.priority, op.raw, op.h, op.p, t, a, b);
    AtOnceOvertakes(cfg, o, s, op.priority, op.raw);
    Laws(o, op.priority, s.queue[y].d.priority, op.priority);
  }

  // ----- Cancelled requests

  /** Where the walk over a line first finds somebody whom it does not pass over. */
  function Halt<P>(cfg: Config, waiters: Queue<P>, available: nat): (k: nat)
    ensures k <= |waiters|
    ensures forall i :: 0 <= i < k ==> PassedOver(cfg, waiters[i].d) && Count(cfg, waiters[i].d) > available
    ensures k < |waiters| ==> !(PassedOver(cfg, waiters[k].d) && Count(cfg, waiters[k].d) > available)
  {
    if waiters != [] && PassedOver(cfg, waiters[0].d) && Count(cfg, waiters[0].d) > available
    then 1 + Halt(cfg, waiters[1..], available) else 0
  }

  /** And that one does not fit: a walk would serve nobody. */
  ghost predicate Idle<P>(cfg: Config, s: Sem<P>) {
    var waiters := s.queue[NumHeld(s.queue)..];
    var k := Halt(cfg, waiters, s.available);
    k == |waiters| || Count(cfg, waiters[k].d) > s.available
  }

  lemma {:induction false} GrantsNothing<P>(cfg: Config, waiters: Queue<P>, available: nat)
    ensures var k := Halt(cfg, waiters, available);
            Greedy(cfg, waiters, available).granted == [] <==> k == |waiters| || Count(cfg, waiters[k].d) > available
  {
    if waiters != [] && Count(cfg, waiters[0].d) > available && PassedOver(cfg, waiters[0].d) {
      GrantsNothing(cfg, waiters[1..], available);
    }
  }

  lemma {:induction false} ActivateStays<P(!new)>(cfg: Config, o: Order<P>, s: Sem<P>, n: nat, k: nat)
    requires HeldUpTo(s.queue, n) && n <= k <= |s.queue|
    requires Greedy(cfg, s.queue[k..], s.available).granted == []
    ensures Activate(cfg, o, s, k) == s
    decreases |s.queue| - k
  {
    if k < |s.queue| && PassedOver(cfg, s.queue[k].d) {
      assert s.queue[k..][1..] == s.queue[k + 1..];
      ActivateStays(cfg, o, s, n, k + 1);
    }
  }

  /** A walk over the whole queue changes nothing if and only if it serves nobody. */
  lemma WalkIsIdle<P(!new)>(cfg: Config, o: Order<P>, s: Sem<P>)
    requires Sorted(SemOrder(cfg, o), s.queue)
    ensures Activate(cfg, o, s, 0) == s <==> Idle(cfg, s)
  {
    hide Activate, Greedy;
    var t, n, m, g := ActivateServes(cfg, o, s, 0);
    GrantsNothing(cfg, s.queue[n..], s.available);
    if g.granted == [] {
      ActivateSkipsHolders(cfg, o, s, 0, n);
      ActivateStays(cfg, o, s, n, n);
    }
  }

  lemma WithdrawnHolder<P>(cfg: Config, o: Order<P>, s: Sem<P>, i: nat) returns (t: Sem<P>, n: nat)
    requires Sorted(SemOrder(cfg, o), s.queue) && Guard(s, i)
    ensures t == Withdrawn(cfg, s, i) && HeldUpTo(t.queue, n) && i <= n
  {
    t, n := Withdrawn(cfg, s, i), NumHeld(s.queue) - 1;
    SortedIsDivided(cfg, o, s.queue);
    RemoveDivides(s.queue, n + 1, i);
  }

  lemma CancelHeldServes<P(!new)>(cfg: Config, o: Order<P>, s: Sem<P>, i: nat)
    requires Sorted(SemOrder(cfg, o), s.queue) && Guard(s, i)
    ensures Cancel(cfg, o, s, i) == Activate(cfg, o, Withdrawn(cfg, s, i), 0)
  {
    var t, n := WithdrawnHolder(cfg, o, s, i);
    CancelHeldActivates(cfg, o, s, i);
    ActivateSkipsHolders(cfg, o, t, 0, n);
    ActivateSkipsHolders(cfg, o, t, i, n);
  }

  lemma CancelBehind<P>(cfg: Config, o: Order<P>, s: Sem<P>, i: nat)
    requires Waits(s, i) && (s.available == 0 || (0 < i && !s.queue[i - 1].d.held))
    requires cfg.Total? || s.available < WORD
    ensures Cancel(cfg, o, s, i) == Withdrawn(cfg, s, i)
  {
  }

  /** The drop of a request starts the walk behind the entry it removes, and only if that entry held
      permits or was first in line with permits available.  A walk over the whole queue every time would
      come to the same, unless such a walk has something to do that this one leaves. */
  lemma CancelServesEverybody<P(!new)>(cfg: Config, o: Order<P>, s: Sem<P>, i: nat)
    requires Inv(cfg, o, s) && i < |s.queue|
    ensures Cancel(cfg, o, s, i) == Activate(cfg, o, Withdrawn(cfg, s, i), 0)
       <==> s.queue[i].d.held || (i == NumHeld(s.queue) && s.available > 0) || Idle(cfg, Withdrawn(cfg, s, i))
  {
    hide Activate;
    if s.queue[i].d.held {
      CancelHeldServes(cfg, o, s, i);
    } else {
      var t, n := WithdrawnWaiter(cfg, o, s, i);
      if i == n && s.available > 0 {
        CancelFirstServes(cfg, o, s, i);
      } else {
        CancelBehind(cfg, o, s, i);
        WalkIsIdle(cfg, o, t);
      }
    }
  }

  lemma CancelFirstServes<P(!new)>(cfg: Config, o: Order<P>, s: Sem<P>, i: nat)
    requires Inv(cfg, o, s) && Waits(s, i) && i == NumHeld(s.queue) && s.available > 0
    ensures Cancel(cfg, o, s, i) == Activate(cfg, o, Withdrawn(cfg, s, i), 0)
  {
    var t, n := WithdrawnWaiter(cfg, o, s, i);
    ActivateSkipsHolders(cfg, o, t, 0, n);
  }

  lemma IdleAtFirst<P>(cfg: Config, t: Sem<P>, n: nat)
    requires HeldUpTo(t.queue, n) && forall k :: 0 <= k < |t.queue| ==> Count(cfg, t.queue[k].d) > 0
    requires t.available > 0 && n < |t.queue| ==>
               Count(cfg, t.queue[n].d) > t.available && !PassedOver(cfg, t.queue[n].d)
    ensures Idle(cfg, t)
  {
    hide Halt;
    DividedOnce(t.queue, n);
    var w := t.queue[n..];
    forall k | 0 <= k < |w| ensures Count(cfg, w[k].d) > 0 {
      assert w[k] == t.queue[n + k];
    }
    assert w != [] ==> w[0] == t.queue[n];
    HaltAtFirst(cfg, w, t.available);
  }

  lemma HaltAtFirst<P>(cfg: Config, w: Queue<P>, available: nat)
    requires forall k :: 0 <= k < |w| ==> Count(cfg, w[k].d) > 0
    requires available > 0 && w != [] ==> Count(cfg, w[0].d) > available && !PassedOver(cfg, w[0].d)
    ensures var k := Halt(cfg, w, available);
            k == |w| || Count(cfg, w[k].d) > available
  {
  }

  /** It leaves nothing if all requests ask for something and the first in line is not about to be
      evicted. */
  lemma CancelLeavesNobody<P(!new)>(cfg: Config, o: Order<P>, s: Sem<P>, i: nat)
    requires Inv(cfg, o, s) && i < |s.queue|
    requires forall k :: 0 <= k < |s.queue| ==> Count(cfg, s.queue[k].d) > 0
    requires NumHeld(s.queue) < i ==> !s.queue[NumHeld(s.queue)].d.wantsEvict
    ensures Cancel(cfg, o, s, i) == Activate(cfg, o, Withdrawn(cfg, s, i), 0)
  {
    hide Activate, Cancel, Idle;
    CancelServesEverybody(cfg, o, s, i);
    if !s.queue[i].d.held && !(i == NumHeld(s.queue) && s.available > 0) {
      var t, n := WithdrawnWaiter(cfg, o, s, i);
      StillAsking(cfg, s, i);
      UnstrandedAt(cfg, s, n);
      IdleAtFirst(cfg, t, n);
    }
  }

  lemma StillAsking<P>(cfg: Config, s: Sem<P>, i: nat)
    requires i < |s.queue| && forall k :: 0 <= k < |s.queue| ==> Count(cfg, s.queue[k].d) > 0
    ensures var q := Withdrawn(cfg, s, i).queue;
            forall k :: 0 <= k < |q| ==> Count(cfg, q[k].d) > 0
  {
    var q := Withdrawn(cfg, s, i).queue;
    forall k | 0 <= k < |q| ensures Count(cfg, q[k].d) > 0 {
      assert q[k] == s.queue[if k < i then k else k + 1];
    }
  }
}
