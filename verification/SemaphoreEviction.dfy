/** Which holders have been asked to give way, with `evict`: exactly when a step leaves a holder that a
    waiter outranks and that nobody has asked. */
module SemaphoreEviction {
  import opened Orders
  import opened QueueSpec
  import opened SemaphoreActivation
  import opened SemaphoreRuns
  import opened SemaphoreService
  import opened SemaphoreSteps
  import opened SemaphoreTurns
  import opened Semaphores

  predicate Outranks<P>(o: Order<P>, q: Queue<P>, j: nat, i: nat)
    requires i < |q| && j < |q|
  {
    o.cmp(q[j].d.priority, q[i].d.priority) == Greater
  }

  /** Every holder that a waiter outranks has been asked to give way. */
  ghost predicate Covered<P>(o: Order<P>, q: Queue<P>) {
    forall i, j | 0 <= i < |q| && 0 <= j < |q| && q[i].d.held && !q[j].d.held && Outranks(o, q, j, i) ::
      q[i].d.wantsEvict
  }

  /** The first waiter outranks this priority; then nobody else in line need be looked at. */
  ghost predicate FirstOutranks<P>(o: Order<P>, s: Sem<P>, priority: P) {
    var n := NumHeld(s.queue);
    Waits(s, n) && o.cmp(s.queue[n].d.priority, priority) == Greater
  }

  lemma SomebodyOutranks<P(!new)>(cfg: Config, o: Order<P>, s: Sem<P>, priority: P)
    requires Lawful(o) && Sorted(SemOrder(cfg, o), s.queue)
    ensures FirstOutranks(o, s, priority)
       <==> exists b: nat :: Waits(s, b) && o.cmp(s.queue[b].d.priority, priority) == Greater
  {
    var n := NumHeld(s.queue);
    SortedIsDivided(cfg, o, s.queue);
    forall b: nat | Waits(s, b) && o.cmp(s.queue[b].d.priority, priority) == Greater
      ensures FirstOutranks(o, s, priority)
    {
      if n < b {
        EarlierRanks(cfg, o, s.queue, n, b);
        StrictChain(o, s.queue[n].d.priority, s.queue[b].d.priority, priority);
      }
    }
  }

  lemma RemoveKeepsCovered<P>(o: Order<P>, q: Queue<P>, i: nat)
    requires Covered(o, q) && i < |q|
    ensures Covered(o, Remove(q, i))
  {
    var r := Remove(q, i);
    forall a, b | 0 <= a < |r| && 0 <= b < |r| && r[a].d.held && !r[b].d.held && Outranks(o, r, b, a)
      ensures r[a].d.wantsEvict
    {
      var x, y := if a < i then a else a + 1, if b < i then b else b + 1;
      assert r[a] == q[x] && r[b] == q[y];
      assert Outranks(o, q, y, x);
    }
  }

  // ----- The walk

  /** The first waiter that does not fit in its turn is to be passed over, and somebody unasked whom it
      outranks is served behind it. */
  ghost predicate ServesOutranked<P>(cfg: Config, o: Order<P>, s: Sem<P>) {
    var w := s.queue[NumHeld(s.queue)..];
    exists x: nat :: ServedPast(cfg, o, w, s.available, FirstUnfit(cfg, w, s.available), x)
  }

  predicate ServedPast<P>(cfg: Config, o: Order<P>, w: Queue<P>, available: nat, k: nat, x: nat) {
    && k < x && Served(cfg, w, available, x)
    && PassedOver(cfg, w[k].d) && !w[x].d.wantsEvict && Outranks(o, w, k, x)
  }

  /** From `x` on, the first waiter unasked whom the one at `k` outranks. */
  function FirstUnder<P>(o: Order<P>, w: Queue<P>, k: nat, x: nat): (u: nat)
    requires k < |w| && x <= |w|
    ensures x <= u <= |w| && forall y :: x <= y < u ==> w[y].d.wantsEvict || !Outranks(o, w, k, y)
    ensures u < |w| ==> !w[u].d.wantsEvict && Outranks(o, w, k, u)
    decreases |w| - x
  {
    if x < |w| && (w[x].d.wantsEvict || !Outranks(o, w, k, x)) then FirstUnder(o, w, k, x + 1) else x
  }

  lemma FirstUnderServed<P>(cfg: Config, o: Order<P>, w: Queue<P>, available: nat, k: nat, x: nat)
    requires ServedPast(cfg, o, w, available, k, x)
    ensures k < |w| && PassedOver(cfg, w[k].d) && Served(cfg, w, available, FirstUnder(o, w, k, k + 1))
  {
    hide LeftAt;
    var u := FirstUnder(o, w, k, k + 1);
    assert u <= x;
    assert u < x ==> FitsInTurn(cfg, w, available, u);
  }

  /** One waiter is enough to look at: the first of those that are unasked and outranked by the one passed
      over. */
  lemma FirstUnderTells<P>(cfg: Config, o: Order<P>, s: Sem<P>)
    ensures var w := s.queue[NumHeld(s.queue)..];
            var k := FirstUnfit(cfg, w, s.available);
            ServesOutranked(cfg, o, s) <==>
            && k < |w| && PassedOver(cfg, w[k].d)
            && Served(cfg, w, s.available, FirstUnder(o, w, k, k + 1))
  {
    hide FirstUnfit, Served, PassedOver;
    var w := s.queue[NumHeld(s.queue)..];
    var k := FirstUnfit(cfg, w, s.available);
    if x: nat :| ServedPast(cfg, o, w, s.available, k, x) {
      FirstUnderServed(cfg, o, w, s.available, k, x);
    }
    if k < |w| && PassedOver(cfg, w[k].d) && Served(cfg, w, s.available, FirstUnder(o, w, k, k + 1)) {
      ServedIsWaiting(cfg, w, s.available, FirstUnder(o, w, k, k + 1));
      assert ServedPast(cfg, o, w, s.available, k, FirstUnder(o, w, k, k + 1));
    }
  }

  /** In terms of the outcome: somebody unasked is granted permits and outranked by somebody left. */
  ghost predicate LeavesOutranked<P>(cfg: Config, o: Order<P>, s: Sem<P>) {
    var g := Greedy(cfg, s.queue[NumHeld(s.queue)..], s.available);
    exists i: nat, j: nat :: LeftOutranks(o, g, i, j)
  }

  predicate LeftOutranks<P>(o: Order<P>, g: Grants<P>, i: nat, j: nat) {
    && i < |g.granted| && j < |g.left| && !g.granted[i].d.wantsEvict
    && o.cmp(g.left[j].d.priority, g.granted[i].d.priority) == Greater
  }

  /** Whoever is left is outranked by nobody more than by the first that is left. */
  lemma FirstLeftOutranks<P(!new)>(cfg: Config, o: Order<P>, w: Queue<P>, available: nat, i: nat, j: nat)
    requires Lawful(o) && InLine(o, w) && LeftOutranks(o, Greedy(cfg, w, available), i, j)
    ensures LeftOutranks(o, Greedy(cfg, w, available), i, 0)
  {
    hide Greedy;
    var g := Greedy(cfg, w, available);
    if j > 0 {
      var a, b := GreedyKeepsLine(cfg, w, available, 0, j);
      StrictChain(o, g.left[0].d.priority, g.left[j].d.priority, g.granted[i].d.priority);
    }
  }

  lemma LeftOutranksServed<P(!new)>(cfg: Config, o: Order<P>, w: Queue<P>, available: nat, i: nat, j: nat)
      returns (x: nat)
    requires Lawful(o) && InLine(o, w) && LeftOutranks(o, Greedy(cfg, w, available), i, j)
    ensures ServedPast(cfg, o, w, available, FirstUnfit(cfg, w, available), x)
  {
    hide Greedy, Served;
    var k := FirstUnfit(cfg, w, available);
    FirstLeftOutranks(cfg, o, w, available, i, j);
    FirstUnfitIsLeft(cfg, w, available);
    x := GrantedIsServed(cfg, w, available, i);
    ServedIsWaiting(cfg, w, available, x);
    Laws(o, w[x].d.priority, w[k].d.priority, w[x].d.priority);
  }

  lemma ServedIsLeftOutranked<P>(cfg: Config, o: Order<P>, w: Queue<P>, available: nat, x: nat) returns (i: nat)
    requires ServedPast(cfg, o, w, available, FirstUnfit(cfg, w, available), x)
    ensures LeftOutranks(o, Greedy(cfg, w, available), i, 0)
  {
    hide Greedy, Served;
    FirstUnfitIsLeft(cfg, w, available);
    ServedIsWaiting(cfg, w, available, x);
    i := ServedIsGranted(cfg, w, available, x);
  }

  /** The outcome can be told from the line before the walk. */
  lemma OutrankedInAdvance<P(!new)>(cfg: Config, o: Order<P>, s: Sem<P>)
    requires Lawful(o) && Sorted(SemOrder(cfg, o), s.queue)
    ensures LeavesOutranked(cfg, o, s) <==> ServesOutranked(cfg, o, s)
  {
    hide Greedy, FirstUnfit, Served;
    var w := s.queue[NumHeld(s.queue)..];
    var g, k := Greedy(cfg, w, s.available), FirstUnfit(cfg, w, s.available);
    WaitersAreInLine(cfg, o, s.queue);
    if i: nat, j: nat :| LeftOutranks(o, g, i, j) {
      var x := LeftOutranksServed(cfg, o, w, s.available, i, j);
    }
    if x: nat :| ServedPast(cfg, o, w, s.available, k, x) {
      var i := ServedIsLeftOutranked(cfg, o, w, s.available, x);
    }
  }

  /** Nobody in line is to be passed over. */
  ghost predicate Unflagged<P>(cfg: Config, q: Queue<P>) {
    forall y :: 0 <= y < |q| && !q[y].d.held ==> !PassedOver(cfg, q[y].d)
  }

  /** Then nobody is served past anybody. */
  lemma UnflaggedExposeNobody<P>(cfg: Config, o: Order<P>, s: Sem<P>)
    requires Sorted(SemOrder(cfg, o), s.queue) && Unflagged(cfg, s.queue)
    ensures !ServesOutranked(cfg, o, s)
  {
    var n := NumHeld(s.queue);
    SortedIsDivided(cfg, o, s.queue);
    var w := s.queue[n..];
    forall y | 0 <= y < |w| ensures !PassedOver(cfg, w[y].d) {
      assert w[y] == s.queue[n + y];
    }
  }

  /** Every holder has held before or is among those granted. */
  lemma HolderFrom<P>(s: Sem<P>, n: nat, granted: Queue<P>, t: Sem<P>, m: nat, a: nat) returns (before: bool, x: nat)
    requires HeldUpTo(s.queue, n) && HeldUpTo(t.queue, m) && a < m
    requires multiset(t.queue[..m]) == HoldersWith(s.queue, n, granted)
    ensures before ==> x < n && t.queue[a] == s.queue[x]
    ensures !before ==> x < |granted| && t.queue[a] == Cell(granted[x].h, granted[x].d.(held := true))
  {
    var c := t.queue[a];
    assert c == t.queue[..m][a];
    assert c in multiset(t.queue[..m]);
    before := c in s.queue[..n];
    if before {
      x :| 0 <= x < n && s.queue[..n][x] == c;
    } else {
      assert c in Holding(granted);
      x :| 0 <= x < |granted| && Holding(granted)[x] == c;
    }
  }

  lemma HolderTo<P>(s: Sem<P>, n: nat, granted: Queue<P>, t: Sem<P>, m: nat, i: nat) returns (a: nat)
    requires n <= |s.queue| && m <= |t.queue| && i < |granted|
    requires multiset(t.queue[..m]) == HoldersWith(s.queue, n, granted)
    ensures a < m && t.queue[a] == Cell(granted[i].h, granted[i].d.(held := true))
  {
    var c := Holding(granted)[i];
    assert c in multiset(Holding(granted));
    assert c in multiset(t.queue[..m]);
    a :| 0 <= a < m && t.queue[..m][a] == c;
  }

  lemma WalkExposes<P(!new)>(cfg: Config, o: Order<P>, s: Sem<P>, k: nat, t: Sem<P>)
    requires Sorted(SemOrder(cfg, o), s.queue) && k <= NumHeld(s.queue) && t == Activate(cfg, o, s, k)
    requires LeavesOutranked(cfg, o, s)
    ensures !Covered(o, t.queue)
  {
    hide Activate, Greedy;
    var _, n, m, g := ActivateServes(cfg, o, s, k);
    var i: nat, j: nat :| LeftOutranks(o, g, i, j);
    var a := HolderTo(s, n, g.granted, t, m, i);
    assert t.queue[m..][j] == t.queue[m + j];
    assert Outranks(o, t.queue, m + j, a);
  }

  lemma KeptCovered<P>(o: Order<P>, q: Queue<P>, x: nat, y: nat, r: Queue<P>, a: nat, b: nat)
    requires Covered(o, q) && x < |q| && y < |q| && a < |r| && b < |r| && q[x] == r[a] && q[y] == r[b]
    requires r[a].d.held && !r[b].d.held && Outranks(o, r, b, a)
    ensures r[a].d.wantsEvict
  {
    assert Outranks(o, q, y, x);
  }

  lemma WalkCovers<P(!new)>(cfg: Config, o: Order<P>, s: Sem<P>, k: nat, t: Sem<P>, a: nat, b: nat)
    requires Sorted(SemOrder(cfg, o), s.queue) && k <= NumHeld(s.queue) && t == Activate(cfg, o, s, k)
    requires Covered(o, s.queue) && !LeavesOutranked(cfg, o, s)
    requires Guard(t, a) && Waits(t, b) && Outranks(o, t.queue, b, a)
    ensures t.queue[a].d.wantsEvict
  {
    hide Activate, Greedy, Covered, HoldersWith;
    var n, m, waiters, g := Lines(cfg, o, s, k, t);
    assert waiters == s.queue[n..];
    var before, x := HolderFrom(s, n, g.granted, t, m, a);
    if before {
      var y := GreedyKeeps(cfg, waiters, s.available, b - m);
      KeptCovered(o, s.queue, x, n + y, t.queue, a, b);
    } else {
      assert !LeftOutranks(o, g, x, b - m);
    }
  }

  lemma OutcomeCovers<P(!new)>(cfg: Config, o: Order<P>, s: Sem<P>, k: nat)
    requires Sorted(SemOrder(cfg, o), s.queue) && k <= NumHeld(s.queue) && Covered(o, s.queue)
    ensures Covered(o, Activate(cfg, o, s, k).queue) <==> !LeavesOutranked(cfg, o, s)
  {
    hide Activate;
    var t := Activate(cfg, o, s, k);
    if LeavesOutranked(cfg, o, s) {
      WalkExposes(cfg, o, s, k, t);
    } else {
      var q := t.queue;
      forall a, b | 0 <= a < |q| && 0 <= b < |q| && q[a].d.held && !q[b].d.held && Outranks(o, q, b, a)
        ensures q[a].d.wantsEvict
      {
        WalkCovers(cfg, o, s, k, t, a, b);
      }
    }
  }

  /** In every configuration: if every outranked holder has been asked, the same is true after a walk if
      and only if it serves nobody unasked behind a waiter that it passes over first and that outranks
      him. */
  lemma ActivateCovers<P(!new)>(cfg: Config, o: Order<P>, s: Sem<P>, k: nat)
    requires Lawful(o) && Sorted(SemOrder(cfg, o), s.queue) && k <= NumHeld(s.queue) && Covered(o, s.queue)
    ensures Covered(o, Activate(cfg, o, s, k).queue) <==> !ServesOutranked(cfg, o, s)
  {
    hide Activate, Covered, LeavesOutranked, ServesOutranked;
    OutcomeCovers(cfg, o, s, k);
    OutrankedInAdvance(cfg, o, s);
  }

  // ----- New requests and new guards

  /** A new entry, the holders that it outranks having been asked: all is well unless it holds permits
      itself, nobody has asked it, and somebody in line outranks it. */
  lemma NewcomerCovers<P(!new)>(o: Order<P>, q: Queue<P>, p: nat, c: Cell<nat, SemWaiter<P>>)
    requires Covered(o, q) && p <= |q|
    requires !c.d.held ==> forall x :: 0 <= x < |q| && q[x].d.held && o.cmp(c.d.priority, q[x].d.priority) == Greater
                                       ==> q[x].d.wantsEvict
    ensures Covered(o, Insert(q, p, c)) <==>
            (c.d.held && !c.d.wantsEvict ==>
               forall y :: 0 <= y < |q| && !q[y].d.held ==> o.cmp(q[y].d.priority, c.d.priority) != Greater)
  {
    var r := Insert(q, p, c);
    if Covered(o, r) && c.d.held && !c.d.wantsEvict {
      forall y | 0 <= y < |q| && !q[y].d.held ensures o.cmp(q[y].d.priority, c.d.priority) != Greater {
        var b := if y < p then y else y + 1;
        assert r[b] == q[y] && !Outranks(o, r, b, p);
      }
    }
    if c.d.held && !c.d.wantsEvict ==>
         forall y :: 0 <= y < |q| && !q[y].d.held ==> o.cmp(q[y].d.priority, c.d.priority) != Greater
    {
      forall a, b | 0 <= a < |r| && 0 <= b < |r| && r[a].d.held && !r[b].d.held && Outranks(o, r, b, a)
        ensures r[a].d.wantsEvict
      {
        NewcomerAt(o, q, p, c, a, b);
      }
    }
  }

  lemma NewcomerAt<P(!new)>(o: Order<P>, q: Queue<P>, p: nat, c: Cell<nat, SemWaiter<P>>, a: nat, b: nat)
    requires Covered(o, q) && p <= |q| && a <= |q| && b <= |q|
    requires !c.d.held ==> forall x :: 0 <= x < |q| && q[x].d.held && o.cmp(c.d.priority, q[x].d.priority) == Greater
                                       ==> q[x].d.wantsEvict
    requires c.d.held && !c.d.wantsEvict ==>
               forall y :: 0 <= y < |q| && !q[y].d.held ==> o.cmp(q[y].d.priority, c.d.priority) != Greater
    requires var r := Insert(q, p, c);
             r[a].d.held && !r[b].d.held && Outranks(o, r, b, a)
    ensures Insert(q, p, c)[a].d.wantsEvict
  {
    var x, y := if a < p then a else a - 1, if b < p then b else b - 1;
    assert a != p ==> Insert(q, p, c)[a] == q[x];
    assert b != p ==> Insert(q, p, c)[b] == q[y];
    assert a != p && b != p ==> Outranks(o, q, y, x);
  }

  lemma AskedCovers<P>(cfg: Config, o: Order<P>, q: Queue<P>, priority: P)
    requires Covered(o, q)
    ensures Covered(o, Asked(cfg, o, q, priority))
  {
    var r := Asked(cfg, o, q, priority);
    forall a, b | 0 <= a < |r| && 0 <= b < |r| && r[a].d.held && !r[b].d.held && Outranks(o, r, b, a)
      ensures r[a].d.wantsEvict
    {
      assert Outranks(o, q, b, a);
    }
  }

  /** A request exposes a holder if and only if it is granted at once although the first waiter outranks
      it, which only happens with `semaphore-total`. */
  lemma AcquireCovers<P(!new)>(cfg: Config, o: Order<P>, s: Sem<P>, priority: P, raw: nat, h: nat, p: nat)
    requires Lawful(o) && Sorted(SemOrder(cfg, o), s.queue) && !cfg.Plain? && Covered(o, s.queue) && p <= |s.queue|
    ensures Covered(o, AcquireAt(cfg, o, s, priority, raw, h, p).queue)
       <==> !(WillAcquire(cfg, o, s, priority, raw) && FirstOutranks(o, s, priority))
  {
    var q, d := Asked(cfg, o, s.queue, priority), NewEntry(cfg, o, s, priority, raw);
    AskedCovers(cfg, o, s.queue, priority);
    SomebodyOutranks(cfg, o, s, priority);
    NewcomerCovers(o, q, p, Cell(h, d));
    forall y | 0 <= y < |q| ensures !q[y].d.held <==> Waits(s, y) {}
    forall y: nat | Waits(s, y) ensures q[y] == s.queue[y] {}
  }

  /** A split exposes the new guard if and only if the first waiter outranks it: nobody asks that guard. */
  lemma SplitCovers<P(!new)>(cfg: Config, o: Order<P>, s: Sem<P>, i: nat, count: nat, priority: P, h: nat, p: nat)
    requires Lawful(o) && Sorted(SemOrder(cfg, o), s.queue)
    requires Guard(s, i) && p <= |s.queue| && CanSplit(cfg, s, i, count) && Covered(o, s.queue)
    ensures Covered(o, SplitAt(cfg, s, i, count, priority, h, p).queue) <==> !FirstOutranks(o, s, priority)
  {
    var q, c := Reduced(cfg, s, i, count), Cell(h, SemWaiter(priority, true, false, count));
    RecountCovers(o, s.queue, q);
    SomebodyOutranks(cfg, o, s, priority);
    NewcomerCovers(o, q, p, c);
    forall y: nat | Waits(s, y) ensures q[y] == s.queue[y] {}
    forall y | 0 <= y < |q| ensures !q[y].d.held <==> Waits(s, y) {}
  }

  /** Counts make no difference. */
  lemma RecountCovers<P>(o: Order<P>, q: Queue<P>, r: Queue<P>)
    requires Covered(o, q) && |q| == |r|
    requires forall i :: 0 <= i < |q| ==> SameRank(q[i], r[i]) && r[i].d.wantsEvict == q[i].d.wantsEvict
    ensures Covered(o, r)
  {
    forall a, b | 0 <= a < |r| && 0 <= b < |r| && r[a].d.held && !r[b].d.held && Outranks(o, r, b, a)
      ensures r[a].d.wantsEvict
    {
      assert SameRank(q[a], r[a]) && SameRank(q[b], r[b]);
      assert Outranks(o, q, b, a);
    }
  }

  /** More waiters being told that they are to be evicted makes none either. */
  lemma NotifyCovers<P>(cfg: Config, o: Order<P>, q: Queue<P>, k: nat, total: nat)
    requires Covered(o, q)
    ensures Covered(o, NotifyFrom(cfg, q, k, total))
  {
    var r := NotifyFrom(cfg, q, k, total);
    forall a, b | 0 <= a < |r| && 0 <= b < |r| && r[a].d.held && !r[b].d.held && Outranks(o, r, b, a)
      ensures r[a].d.wantsEvict
    {
      assert Outranks(o, q, b, a);
    }
  }

  // ----- Every step

  /** When a step exposes a holder: somebody unasked is served and left outranked. */
  ghost predicate Exposes<P>(cfg: Config, o: Order<P>, s: Sem<P>, op: Op<P>) {
    match op
    case Acquiring(priority, raw, _, _) => WillAcquire(cfg, o, s, priority, raw) && FirstOutranks(o, s, priority)
    case Splitting(i, count, priority, _, _) =>
      i < |s.queue| && CanSplit(cfg, s, i, count) && FirstOutranks(o, s, priority)
    case Releasing(i) => i < |s.queue| && ReleaseExposes(cfg, o, s, i)
    case Cancelling(i) => i < |s.queue| && Walks(cfg, s, i) && ServesOutranked(cfg, o, Withdrawn(cfg, s, i))
    case AddingPermits(count) =>
      TryAddPermits(cfg, o, s, count).Some? && ServesOutranked(cfg, o, s.(available := s.available + count))
    case Merging(i, j) =>
      i < |s.queue| && j < |s.queue| && !CanMerge(cfg, s, i, j) && ReleaseExposes(cfg, o, s, j)
    case _ => false
  }

  ghost predicate ReleaseExposes<P>(cfg: Config, o: Order<P>, s: Sem<P>, i: nat)
    requires i < |s.queue|
  {
    var available := s.available + Count(cfg, s.queue[i].d);
    && (cfg.Total? || available < WORD)
    && ServesOutranked(cfg, o, Sem(Remove(s.queue, i), available, s.total))
  }

  /** The drop of a request walks on. */
  predicate Walks<P>(cfg: Config, s: Sem<P>, i: nat)
    requires i < |s.queue|
  {
    s.queue[i].d.held || (s.available > 0 && (i == 0 || s.queue[i - 1].d.held))
  }

  lemma ReleaseCovers<P(!new)>(cfg: Config, o: Order<P>, s: Sem<P>, i: nat)
    requires Lawful(o) && Sorted(SemOrder(cfg, o), s.queue) && Guard(s, i) && Covered(o, s.queue)
    ensures Covered(o, Release(cfg, o, s, i).queue) <==> !ReleaseExposes(cfg, o, s, i)
  {
    hide Activate, ServesOutranked;
    var u := Sem(Remove(s.queue, i), s.available + Count(cfg, s.queue[i].d), s.total);
    SortedIsDivided(cfg, o, s.queue);
    RemoveKeepsCovered(o, s.queue, i);
    RemoveKeepsSorted(SemOrder(cfg, o), s.queue, i);
    LeftDivided(cfg, o, s.queue, i);
    ActivateCovers(cfg, o, u, i);
  }

  lemma CancelCovers<P(!new)>(cfg: Config, o: Order<P>, s: Sem<P>, i: nat)
    requires Lawful(o) && Sane(cfg, o, s) && i < |s.queue| && Covered(o, s.queue)
    ensures Covered(o, Cancel(cfg, o, s, i).queue)
       <==> !(Walks(cfg, s, i) && ServesOutranked(cfg, o, Withdrawn(cfg, s, i)))
  {
    hide Activate, ServesOutranked;
    RemoveKeepsCovered(o, s.queue, i);
    if Walks(cfg, s, i) {
      CancelIsWalk(cfg, o, s, i);
      RemoveKeepsSorted(SemOrder(cfg, o), s.queue, i);
      LeftDivided(cfg, o, s.queue, i);
      ActivateCovers(cfg, o, Withdrawn(cfg, s, i), i);
    } else {
      var t, n := WithdrawnWaiter(cfg, o, s, i);
    }
  }

  lemma CancelIsWalk<P(!new)>(cfg: Config, o: Order<P>, s: Sem<P>, i: nat)
    requires Sane(cfg, o, s) && i < |s.queue| && Walks(cfg, s, i)
    ensures Cancel(cfg, o, s, i) == Activate(cfg, o, Withdrawn(cfg, s, i), i) && i <= NumHeld(s.queue)
  {
    SortedIsDivided(cfg, o, s.queue);
    if s.queue[i].d.held {
      CancelHeldActivates(cfg, o, s, i);
    } else {
      var t, n := WithdrawnWaiter(cfg, o, s, i);
    }
  }

  lemma MergeCovers<P(!new)>(cfg: Config, o: Order<P>, s: Sem<P>, i: nat, j: nat)
    requires Lawful(o) && Sorted(SemOrder(cfg, o), s.queue) && Guard(s, i) && Guard(s, j) && Covered(o, s.queue)
    ensures Covered(o, Merge(cfg, o, s, i, j).queue) <==> !(!CanMerge(cfg, s, i, j) && ReleaseExposes(cfg, o, s, j))
  {
    hide Activate, ReleaseExposes;
    if CanMerge(cfg, s, i, j) {
      var r := Enlarged(s.queue, i, Count(cfg, s.queue[j].d));
      RecountCovers(o, s.queue, r);
      RemoveKeepsCovered(o, r, j);
    } else {
      ReleaseCovers(cfg, o, s, j);
    }
  }

  /** The total makes no difference. */
  lemma LineTells<P>(cfg: Config, o: Order<P>, s: Sem<P>, u: Sem<P>)
    requires u.queue == s.queue && u.available == s.available
    ensures ServesOutranked(cfg, o, u) <==> ServesOutranked(cfg, o, s)
  {
  }

  lemma AddCovers<P(!new)>(cfg: Config, o: Order<P>, s: Sem<P>, count: nat)
    requires Lawful(o) && Sorted(SemOrder(cfg, o), s.queue) && Covered(o, s.queue)
    requires TryAddPermits(cfg, o, s, count).Some?
    ensures Covered(o, TryAddPermits(cfg, o, s, count).value.queue)
       <==> !ServesOutranked(cfg, o, s.(available := s.available + count))
  {
    hide Activate, ServesOutranked;
    var u := s.(available := s.available + count, total := if cfg.Total? then s.total + count else s.total);
    ActivateCovers(cfg, o, u, 0);
    LineTells(cfg, o, s.(available := s.available + count), u);
  }

  lemma LoweredCovers<P>(cfg: Config, o: Order<P>, s: Sem<P>, k: nat, count: nat)
    requires Covered(o, s.queue) && (cfg.Total? ==> count <= s.total)
    ensures Covered(o, Lowered(cfg, s, k, count).queue)
  {
    hide NotifyFrom, Covered;
    if cfg.Total? {
      NotifyCovers(cfg, o, s.queue, k, s.total - count);
    }
  }

  lemma ForgetCovers<P(!new)>(cfg: Config, o: Order<P>, s: Sem<P>, op: Op<P>)
    requires Inv(cfg, o, s) && Enabled(cfg, o, s, op) && (op.Forgetting? || op.ForgettingPermits?)
    requires Covered(o, s.queue)
    ensures Covered(o, Apply(cfg, o, s, op).queue)
  {
    hide Covered, Lowered;
    match op
    case Forgetting(i) =>
      NeverUndefined(cfg, o, s, i, 0);
      RemoveKeepsCovered(o, s.queue, i);
      LoweredCovers(cfg, o, s.(queue := Remove(s.queue, i)), i, Count(cfg, s.queue[i].d));
    case ForgettingPermits(count) =>
      var n := Min(count, s.available);
      LoweredCovers(cfg, o, s.(available := s.available - n), 0, n);
  }

  /** In every configuration with eviction: if every outranked holder has been asked, a step breaks that
      if and only if it exposes somebody. */
  lemma StepCovers<P(!new)>(cfg: Config, o: Order<P>, s: Sem<P>, op: Op<P>)
    requires Lawful(o) && Inv(cfg, o, s) && Enabled(cfg, o, s, op) && !cfg.Plain? && Covered(o, s.queue)
    ensures Covered(o, Apply(cfg, o, s, op).queue) <==> !Exposes(cfg, o, s, op)
  {
    hide Activate, NotifyFrom, Covered, ServesOutranked, ReleaseExposes, FirstOutranks, WillAcquire;
    match op
    case Acquiring(priority, raw, h, p) => AcquireCovers(cfg, o, s, priority, raw, h, p);
    case Releasing(i) => ReleaseCovers(cfg, o, s, i);
    case Cancelling(i) => CancelCovers(cfg, o, s, i);
    case AddingPermits(count) =>
      if TryAddPermits(cfg, o, s, count).Some? {
        AddCovers(cfg, o, s, count);
      }
    case Splitting(i, count, priority, h, p) =>
      if CanSplit(cfg, s, i, count) {
        SplitCovers(cfg, o, s, i, count, priority, h, p);
      }
    case Merging(i, j) => MergeCovers(cfg, o, s, i, j);
    case _ => ForgetCovers(cfg, o, s, op);
  }

  /** In every configuration with eviction: over any run of which no step exposes anybody, a holder that
      has not been asked to give way is outranked by no waiter. */
  lemma {:induction false} OutrankedAreAsked<P(!new)>(cfg: Config, o: Order<P>, permits: nat, run: seq<Op<P>>)
    requires Lawful(o) && permits < WORD && Possible(cfg, o, New(permits), run) && !cfg.Plain?
    requires forall k :: 0 <= k < |run| ==> !Exposes(cfg, o, After(cfg, o, New(permits), run[..k]), run[k])
    ensures Covered(o, After(cfg, o, New(permits), run).queue)
  {
    if run != [] {
      var before := run[..|run| - 1];
      forall k | 0 <= k < |before| ensures before[..k] == run[..k] {}
      OutrankedAreAsked(cfg, o, permits, before);
      var s, _ := Reached(cfg, o, permits, before);
      StepCovers(cfg, o, s, run[|run| - 1]);
    }
  }

  lemma LeavingExposesNobody<P(!new)>(cfg: Config, o: Order<P>, s: Sem<P>, i: nat, u: Sem<P>)
    requires Sorted(SemOrder(cfg, o), s.queue) && Unflagged(cfg, s.queue) && i < |s.queue|
    requires u.queue == Remove(s.queue, i)
    ensures !ServesOutranked(cfg, o, u)
  {
    RemoveKeepsSorted(SemOrder(cfg, o), s.queue, i);
    UnflaggedExposeNobody(cfg, o, u);
  }

  /** In every configuration: while nobody in line is flagged, no walk exposes anybody. */
  lemma UnflaggedStepsExposeNobody<P(!new)>(cfg: Config, o: Order<P>, s: Sem<P>, op: Op<P>)
    requires Inv(cfg, o, s) && Enabled(cfg, o, s, op) && Unflagged(cfg, s.queue) && !op.Splitting? && !op.Acquiring?
    ensures !Exposes(cfg, o, s, op)
  {
    hide ServesOutranked, Activate, Unflagged;
    match op
    case Releasing(i) =>
      LeavingExposesNobody(cfg, o, s, i, Sem(Remove(s.queue, i), s.available + Count(cfg, s.queue[i].d), s.total));
    case Cancelling(i) => LeavingExposesNobody(cfg, o, s, i, Withdrawn(cfg, s, i));
    case AddingPermits(count) => UnflaggedExposeNobody(cfg, o, s.(available := s.available + count));
    case Merging(i, j) =>
      LeavingExposesNobody(cfg, o, s, j, Sem(Remove(s.queue, j), s.available + Count(cfg, s.queue[j].d), s.total));
    case _ =>
  }

  /** Without `semaphore-total` only a split can. */
  lemma OnlySplitsExpose<P(!new)>(cfg: Config, o: Order<P>, s: Sem<P>, op: Op<P>)
    requires Lawful(o) && Inv(cfg, o, s) && Enabled(cfg, o, s, op) && cfg.Evicting? && !op.Splitting?
    ensures !Exposes(cfg, o, s, op)
  {
    if op.Acquiring? {
      if WillAcquire(cfg, o, s, op.priority, op.raw) {
        AtOnceOvertakes(cfg, o, s, op.priority, op.raw);
      }
    } else {
      UnflaggedStepsExposeNobody(cfg, o, s, op);
    }
  }

  /** So without it, and without splits, every outranked holder has been asked in every run. */
  lemma {:induction false} OutrankedAreAlwaysAsked<P(!new)>(cfg: Config, o: Order<P>, permits: nat, run: seq<Op<P>>)
    requires Lawful(o) && permits < WORD && Possible(cfg, o, New(permits), run) && cfg.Evicting?
    requires forall k :: 0 <= k < |run| ==> !run[k].Splitting?
    ensures Covered(o, After(cfg, o, New(permits), run).queue)
  {
    if run != [] {
      var before := run[..|run| - 1];
      OutrankedAreAlwaysAsked(cfg, o, permits, before);
      var s, _ := Reached(cfg, o, permits, before);
      OnlySplitsExpose(cfg, o, s, run[|run| - 1]);
      StepCovers(cfg, o, s, run[|run| - 1]);
    }
  }
}
