/** What each operation of the semaphore does to each entry, and over runs, exactly which entries have been
    told to give way. */
module SemaphoreEffects {
  import opened Orders
  import opened QueueSpec
  import opened SemaphoreActivation
  import opened SemaphoreEviction
  import opened SemaphoreRuns
  import opened SemaphoreService
  import opened SemaphoreSteps
  import opened Semaphores

  // ----- Requests granted at once

  /** A request is granted at once if and only if it fits and none of the waiters that count outranks it;
      with `semaphore-total` only those that are flagged count. */
  lemma GrantedAtOnce<P(!new)>(cfg: Config, o: Order<P>, s: Sem<P>, priority: P, raw: nat)
    requires Lawful(o) && Sane(cfg, o, s)
    ensures WillAcquire(cfg, o, s, priority, raw) <==>
            && CountOf(raw) <= s.available
            && forall j: nat :: Waits(s, j) && (cfg.Total? ==> s.queue[j].d.wantsEvict) ==>
                 o.cmp(s.queue[j].d.priority, priority) != Greater
  {
    var k := FirstNotSkipped(cfg, s.queue);
    if k < |s.queue| {
      Laws(o, priority, s.queue[k].d.priority, priority);
      assert Waits(s, k);
      forall j: nat | Waits(s, j) && (cfg.Total? ==> s.queue[j].d.wantsEvict)
                      && o.cmp(s.queue[j].d.priority, priority) == Greater
        ensures o.cmp(s.queue[k].d.priority, priority) == Greater
      {
        if k < j {
          EarlierRanks(cfg, o, s.queue, k, j);
          StrictChain(o, s.queue[k].d.priority, s.queue[j].d.priority, priority);
        }
      }
    }
  }

  // ----- What becomes of an entry

  /** The entry that an operation takes out of the queue. */
  function Gone<P>(cfg: Config, s: Sem<P>, op: Op<P>): Option<nat> {
    match op
    case Releasing(i) => Some(i)
    case Cancelling(i) => Some(i)
    case Forgetting(i) => Some(i)
    case Merging(_, j) => Some(j)
    case _ => None
  }

  /** The total after an operation that lowers it. */
  function LowerTotal<P>(s: Sem<P>, op: Op<P>): Option<int> {
    match op
    case Forgetting(i) => if i < |s.queue| then Some(s.total - CountOf(s.queue[i].d.raw)) else None
    case ForgettingPermits(count) => Some(s.total - if count < s.available then count else s.available)
    case _ => None
  }

  /** An operation tells the entry at `x` to give way: a new request outranks the guard, or the waiter
      asked for no more than there was and now there is less. */
  predicate Asks<P>(cfg: Config, o: Order<P>, s: Sem<P>, op: Op<P>, x: nat)
    requires x < |s.queue|
  {
    var d := s.queue[x].d;
    || (op.Acquiring? && !cfg.Plain? && d.held && o.cmp(op.priority, d.priority) == Greater)
    || (cfg.Total? && !d.held && Tagged(d) && LowerTotal(s, op).Some? && CountOf(d.raw) > LowerTotal(s, op).value)
  }

  /** The count of the entry at `x` afterwards: only dividing and joining guards changes any. */
  function NewCount<P>(s: Sem<P>, op: Op<P>, x: nat): int
    requires x < |s.queue|
  {
    var raw := s.queue[x].d.raw;
    match op
    case Splitting(i, count, _, _, _) => if x == i && i < |s.queue| && CountOf(raw) > count then raw - count else raw
    case Merging(i, j) =>
      if x == i && i < |s.queue| && j < |s.queue| && CountOf(raw) + CountOf(s.queue[j].d.raw) <= MAX_PERMITS
      then raw + CountOf(s.queue[j].d.raw) else raw
    case _ => raw
  }

  /** The entry `c` is the one that was at `x`: it keeps its handle, its priority and its permits. */
  ghost predicate Traced<P>(cfg: Config, o: Order<P>, s: Sem<P>, op: Op<P>, c: Cell<nat, SemWaiter<P>>, x: nat) {
    && x < |s.queue| && Gone(cfg, s, op) != Some(x)
    && c.h == s.queue[x].h && c.d.priority == s.queue[x].d.priority && (s.queue[x].d.held ==> c.d.held)
    && c.d.raw == NewCount(s, op, x)
    && c.d.wantsEvict == (s.queue[x].d.wantsEvict || Asks(cfg, o, s, op, x))
  }

  /** The entry is what the operation has filed: the request, or the part that has been split off. */
  ghost predicate Filed<P>(cfg: Config, o: Order<P>, s: Sem<P>, op: Op<P>, c: Cell<nat, SemWaiter<P>>) {
    match op
    case Acquiring(priority, raw, h, _) =>
      c == Cell(h, SemWaiter(priority, WillAcquire(cfg, o, s, priority, raw), false, raw))
    case Splitting(i, count, priority, h, _) =>
      && i < |s.queue| && Count(cfg, s.queue[i].d) > count
      && c == Cell(h, SemWaiter(priority, true, false, count))
    case _ => false
  }

  // ----- Walks

  /** After a walk an entry is as it was, but for the permits it may have been granted. */
  lemma WalkTraces<P(!new)>(cfg: Config, o: Order<P>, s: Sem<P>, k: nat, t: Sem<P>, a: nat) returns (x: nat)
    requires Sorted(SemOrder(cfg, o), s.queue) && k <= NumHeld(s.queue) && t == Activate(cfg, o, s, k)
    requires a < |t.queue|
    ensures x < |s.queue| && t.queue[a].h == s.queue[x].h && (s.queue[x].d.held ==> t.queue[a].d.held)
    ensures t.queue[a].d == s.queue[x].d.(held := t.queue[a].d.held)
  {
    hide Activate, Greedy, HoldersWith;
    var n, m, waiters, g := Lines(cfg, o, s, k, t);
    if a < m {
      var before, y := HolderFrom(s, n, g.granted, t, m, a);
      if before {
        x := y;
      } else {
        x := GreedyGrants(cfg, waiters, s.available, y);
        x := n + x;
      }
    } else {
      x := GreedyKeeps(cfg, waiters, s.available, a - m);
      x := n + x;
    }
  }

  lemma Holder<P>(s: Sem<P>, n: nat, granted: Queue<P>, t: Sem<P>, m: nat, x: nat) returns (a: nat)
    requires x < n <= |s.queue| && m <= |t.queue|
    requires multiset(t.queue[..m]) == HoldersWith(s.queue, n, granted)
    ensures a < m && t.queue[a] == s.queue[x]
  {
    assert s.queue[x] == s.queue[..n][x];
    assert s.queue[x] in multiset(s.queue[..n]);
    assert s.queue[x] in multiset(t.queue[..m]);
    a :| 0 <= a < m && t.queue[..m][a] == s.queue[x];
  }

  /** And nobody is lost on the way. */
  lemma WalkKeepsEntry<P(!new)>(cfg: Config, o: Order<P>, s: Sem<P>, k: nat, t: Sem<P>, x: nat) returns (a: nat)
    requires Sorted(SemOrder(cfg, o), s.queue) && k <= NumHeld(s.queue) && t == Activate(cfg, o, s, k)
    requires x < |s.queue|
    ensures a < |t.queue| && t.queue[a].h == s.queue[x].h
  {
    hide Activate, Greedy, HoldersWith;
    var n, m, waiters, g := Lines(cfg, o, s, k, t);
    if x < n {
      a := Holder(s, n, g.granted, t, m, x);
    } else {
      var h := GreedyAccounts(cfg, waiters, s.available);
      assert waiters[x - n] in multiset(waiters);
      if waiters[x - n] in multiset(g.granted) {
        var i :| 0 <= i < |g.granted| && g.granted[i] == waiters[x - n];
        a := HolderTo(s, n, g.granted, t, m, i);
      } else {
        assert waiters[x - n] in multiset(g.left);
        var j :| 0 <= j < |g.left| && g.left[j] == waiters[x - n];
        a := m + j;
      }
    }
  }

  // ----- Each operation

  lemma AcquireTraces<P>(cfg: Config, o: Order<P>, s: Sem<P>, op: Op<P>, a: nat) returns (x: nat)
    requires op.Acquiring? && op.p <= |s.queue| && a < |Apply(cfg, o, s, op).queue|
    ensures var c := Apply(cfg, o, s, op).queue[a];
            Filed(cfg, o, s, op, c) || Traced(cfg, o, s, op, c, x)
  {
    hide WillAcquire;
    x := if a <= op.p then a else a - 1;
  }

  /** An entry is taken out, and perhaps a walk follows. */
  lemma LeavingTraces<P(!new)>(cfg: Config, o: Order<P>, s: Sem<P>, i: nat, u: Sem<P>, t: Sem<P>, a: nat)
      returns (x: nat)
    requires Sorted(SemOrder(cfg, o), s.queue) && i < |s.queue| && u.queue == Remove(s.queue, i)
    requires t.queue == u.queue || (i <= NumHeld(s.queue) && t == Activate(cfg, o, u, i))
    requires a < |t.queue|
    ensures x < |s.queue| && x != i && t.queue[a].h == s.queue[x].h && (s.queue[x].d.held ==> t.queue[a].d.held)
    ensures t.queue[a].d == s.queue[x].d.(held := t.queue[a].d.held)
  {
    hide Activate;
    x := a;
    if t.queue != u.queue {
      LeftDivided(cfg, o, s.queue, i);
      RemoveKeepsSorted(SemOrder(cfg, o), s.queue, i);
      x := WalkTraces(cfg, o, u, i, t, a);
    }
    x := if x < i then x else x + 1;
  }

  lemma LeavingKeepsEntry<P(!new)>(cfg: Config, o: Order<P>, s: Sem<P>, i: nat, u: Sem<P>, t: Sem<P>, x: nat)
      returns (a: nat)
    requires Sorted(SemOrder(cfg, o), s.queue) && i < |s.queue| && u.queue == Remove(s.queue, i)
    requires t.queue == u.queue || (i <= NumHeld(s.queue) && t == Activate(cfg, o, u, i))
    requires x < |s.queue| && x != i
    ensures a < |t.queue| && t.queue[a].h == s.queue[x].h
  {
    hide Activate;
    a := if x < i then x else x - 1;
    assert u.queue[a] == s.queue[x];
    if t.queue != u.queue {
      LeftDivided(cfg, o, s.queue, i);
      RemoveKeepsSorted(SemOrder(cfg, o), s.queue, i);
      a := WalkKeepsEntry(cfg, o, u, i, t, a);
    }
  }

  /** The state in which a dropped guard or request leaves the queue, before the walk. */
  lemma ReleaseWalks<P>(cfg: Config, o: Order<P>, s: Sem<P>, i: nat) returns (u: Sem<P>)
    requires Sorted(SemOrder(cfg, o), s.queue) && Guard(s, i)
    ensures var t := Release(cfg, o, s, i);
            && u.queue == Remove(s.queue, i)
            && (t.queue == u.queue || (i <= NumHeld(s.queue) && t == Activate(cfg, o, u, i)))
  {
    hide Activate;
    SortedIsDivided(cfg, o, s.queue);
    u := Sem(Remove(s.queue, i), s.available + Count(cfg, s.queue[i].d), s.total);
  }

  lemma ReleaseTraces<P(!new)>(cfg: Config, o: Order<P>, s: Sem<P>, i: nat, a: nat) returns (x: nat)
    requires Sorted(SemOrder(cfg, o), s.queue) && Guard(s, i) && a < |Release(cfg, o, s, i).queue|
    ensures var c := Release(cfg, o, s, i).queue[a];
            && x < |s.queue| && x != i && c.h == s.queue[x].h && (s.queue[x].d.held ==> c.d.held)
            && c.d == s.queue[x].d.(held := c.d.held)
  {
    hide Activate, Release;
    var u := ReleaseWalks(cfg, o, s, i);
    x := LeavingTraces(cfg, o, s, i, u, Release(cfg, o, s, i), a);
  }

  lemma CancelTraces<P(!new)>(cfg: Config, o: Order<P>, s: Sem<P>, i: nat, a: nat) returns (x: nat)
    requires Sorted(SemOrder(cfg, o), s.queue) && i < |s.queue| && a < |Cancel(cfg, o, s, i).queue|
    ensures var c := Cancel(cfg, o, s, i).queue[a];
            && x < |s.queue| && x != i && c.h == s.queue[x].h && (s.queue[x].d.held ==> c.d.held)
            && c.d == s.queue[x].d.(held := c.d.held)
  {
    hide Activate, Cancel;
    CancelWalks(cfg, o, s, i);
    x := LeavingTraces(cfg, o, s, i, Withdrawn(cfg, s, i), Cancel(cfg, o, s, i), a);
  }

  lemma AddTraces<P(!new)>(cfg: Config, o: Order<P>, s: Sem<P>, count: nat, a: nat) returns (x: nat)
    requires Sorted(SemOrder(cfg, o), s.queue) && a < |Apply(cfg, o, s, AddingPermits(count)).queue|
    ensures var c := Apply(cfg, o, s, AddingPermits(count)).queue[a];
            && x < |s.queue| && c.h == s.queue[x].h && (s.queue[x].d.held ==> c.d.held)
            && c.d == s.queue[x].d.(held := c.d.held)
  {
    hide Activate;
    x := a;
    if TryAddPermits(cfg, o, s, count).Some? {
      var u := s.(available := s.available + count, total := if cfg.Total? then s.total + count else s.total);
      x := WalkTraces(cfg, o, u, 0, Activate(cfg, o, u, 0), a);
    }
  }

  /** Counts without a tag, as guards and requests have without `semaphore-total`. */
  lemma PlainCount<P>(cfg: Config, o: Order<P>, s: Sem<P>, x: nat)
    requires Sane(cfg, o, s) && x < |s.queue|
    ensures Count(cfg, s.queue[x].d) == CountOf(s.queue[x].d.raw)
  {
    assert EntryOk(cfg, s.total, s.queue[x].d);
  }

  lemma SplitAtTraces<P>(cfg: Config, o: Order<P>, s: Sem<P>, op: Op<P>, a: nat) returns (x: nat)
    requires op.Splitting? && Guard(s, op.i) && op.p <= |s.queue| && CanSplit(cfg, s, op.i, op.count)
    requires Count(cfg, s.queue[op.i].d) == CountOf(s.queue[op.i].d.raw) && a <= |s.queue|
    ensures var c := SplitAt(cfg, s, op.i, op.count, op.priority, op.h, op.p).queue[a];
            Filed(cfg, o, s, op, c) || Traced(cfg, o, s, op, c, x)
  {
    x := if a <= op.p then a else a - 1;
    var c := SplitAt(cfg, s, op.i, op.count, op.priority, op.h, op.p).queue[a];
    if a != op.p {
      assert c == Reduced(cfg, s, op.i, op.count)[x];
      assert c.h == s.queue[x].h && c.d == s.queue[x].d.(raw := NewCount(s, op, x));
    }
  }

  lemma SplitTraces<P>(cfg: Config, o: Order<P>, s: Sem<P>, op: Op<P>, a: nat) returns (x: nat)
    requires Inv(cfg, o, s) && Enabled(cfg, o, s, op) && op.Splitting? && a < |Apply(cfg, o, s, op).queue|
    ensures var c := Apply(cfg, o, s, op).queue[a];
            Filed(cfg, o, s, op, c) || Traced(cfg, o, s, op, c, x)
  {
    hide Inv, SplitAt, At;
    PlainCountInv(cfg, o, s, op.i);
    x := a;
    if CanSplit(cfg, s, op.i, op.count) {
      SplitAdds(cfg, s, op.i, op.count, op.priority, op.h, op.p);
      x := SplitAtTraces(cfg, o, s, op, a);
    }
  }

  lemma SplitAdds<P>(cfg: Config, s: Sem<P>, i: nat, count: nat, priority: P, h: nat, p: nat)
    requires i < |s.queue| && p <= |s.queue| && CanSplit(cfg, s, i, count)
    ensures |SplitAt(cfg, s, i, count, priority, h, p).queue| == |s.queue| + 1
  {
  }

  lemma PlainCountInv<P>(cfg: Config, o: Order<P>, s: Sem<P>, x: nat)
    requires Inv(cfg, o, s) && x < |s.queue|
    ensures Count(cfg, s.queue[x].d) == CountOf(s.queue[x].d.raw)
  {
    PlainCount(cfg, o, s, x);
  }

  lemma JoinTraces<P>(cfg: Config, o: Order<P>, s: Sem<P>, op: Op<P>, a: nat) returns (x: nat)
    requires op.Merging? && Guard(s, op.i) && Guard(s, op.j) && op.i != op.j && CanMerge(cfg, s, op.i, op.j)
    requires Count(cfg, s.queue[op.i].d) == CountOf(s.queue[op.i].d.raw) && a + 1 < |s.queue|
    requires Count(cfg, s.queue[op.j].d) == CountOf(s.queue[op.j].d.raw)
    ensures var r := Remove(Enlarged(s.queue, op.i, Count(cfg, s.queue[op.j].d)), op.j);
            Traced(cfg, o, s, op, r[a], x)
  {
    x := if a < op.j then a else a + 1;
    assert Enlarged(s.queue, op.i, Count(cfg, s.queue[op.j].d))[x]
        == Remove(Enlarged(s.queue, op.i, Count(cfg, s.queue[op.j].d)), op.j)[a];
  }

  lemma MergeTraces<P(!new)>(cfg: Config, o: Order<P>, s: Sem<P>, op: Op<P>, a: nat) returns (x: nat)
    requires Inv(cfg, o, s) && Enabled(cfg, o, s, op) && op.Merging? && a < |Apply(cfg, o, s, op).queue|
    ensures Traced(cfg, o, s, op, Apply(cfg, o, s, op).queue[a], x)
  {
    hide Release, Unstranded;
    PlainCountInv(cfg, o, s, op.i);
    PlainCountInv(cfg, o, s, op.j);
    if CanMerge(cfg, s, op.i, op.j) {
      hide Traced;
      x := JoinTraces(cfg, o, s, op, a);
    } else {
      x := ReleaseTraces(cfg, o, s, op.j, a);
    }
  }

  /** The walk of `notify_oversized_waiters` over a queue with nobody missing but the guard that went. */
  lemma LoweredTraces<P>(cfg: Config, s: Sem<P>, u: Sem<P>, k: nat, count: nat, a: nat)
    requires cfg.Total? ==> count <= u.total
    requires HeldUpTo(u.queue, NumHeld(u.queue)) && k <= NumHeld(u.queue) && a < |u.queue|
    ensures var c, t := u.queue[a], Lowered(cfg, u, k, count);
            && |t.queue| == |u.queue| && t.queue[a].h == c.h
            && t.queue[a].d == c.d.(wantsEvict := t.queue[a].d.wantsEvict)
            && (!c.d.held ==> t.queue[a].d.wantsEvict
                              == (c.d.wantsEvict || (cfg.Total? && Tagged(c.d) && Count(cfg, c.d) > u.total - count)))
            && (!cfg.Total? ==> t.queue[a] == c)
  {
  }

  /** The queue that `forget` walks: the guard is gone, and the scan starts among the holders. */
  lemma ForgetWalks<P(!new)>(cfg: Config, o: Order<P>, s: Sem<P>, i: nat) returns (u: Sem<P>)
    requires Inv(cfg, o, s) && Guard(s, i)
    ensures u == s.(queue := Remove(s.queue, i)) && (cfg.Total? ==> Count(cfg, s.queue[i].d) <= s.total)
    ensures Apply(cfg, o, s, Forgetting(i)) == Lowered(cfg, u, i, Count(cfg, s.queue[i].d))
    ensures HeldUpTo(u.queue, NumHeld(u.queue)) && i <= NumHeld(u.queue)
  {
    hide Unstranded, NotifyFrom, Lowered;
    u := s.(queue := Remove(s.queue, i));
    NeverUndefined(cfg, o, s, i, 0);
    RemoveKeepsSorted(SemOrder(cfg, o), s.queue, i);
    SortedIsDivided(cfg, o, s.queue);
    SortedIsDivided(cfg, o, u.queue);
    LeftDivided(cfg, o, s.queue, i);
  }

  lemma ForgetTraces<P(!new)>(cfg: Config, o: Order<P>, s: Sem<P>, op: Op<P>, a: nat) returns (x: nat)
    requires Lawful(o) && Inv(cfg, o, s) && Enabled(cfg, o, s, op) && op.Forgetting?
    requires a < |Apply(cfg, o, s, op).queue|
    ensures Traced(cfg, o, s, op, Apply(cfg, o, s, op).queue[a], x)
  {
    hide Inv, Apply, NotifyFrom, Lowered, HeldUpTo;
    var i, count := op.i, Count(cfg, s.queue[op.i].d);
    var u := ForgetWalks(cfg, o, s, i);
    PlainCountInv(cfg, o, s, i);
    LoweredShape(cfg, u, i, count);
    LoweredTraces(cfg, s, u, i, count, a);
    x := if a < i then a else a + 1;
    PlainCountInv(cfg, o, s, x);
    if cfg.Total? && s.queue[x].d.held {
      HoldersAreSpared(cfg, o, s, op, x);
    }
  }

  lemma LoweredShape<P>(cfg: Config, u: Sem<P>, k: nat, count: nat)
    requires cfg.Total? ==> count <= u.total
    ensures |Lowered(cfg, u, k, count).queue| == |u.queue|
  {
  }

  lemma ForgetPermitsTraces<P(!new)>(cfg: Config, o: Order<P>, s: Sem<P>, op: Op<P>, a: nat)
    requires Lawful(o) && Inv(cfg, o, s) && Enabled(cfg, o, s, op) && op.ForgettingPermits?
    requires a < |Apply(cfg, o, s, op).queue|
    ensures Traced(cfg, o, s, op, Apply(cfg, o, s, op).queue[a], a)
  {
    hide Unstranded, NotifyFrom, Lowered;
    var n := Min(op.count, s.available);
    var u := s.(available := s.available - n);
    NeverUndefined(cfg, o, s, 0, op.count);
    SortedIsDivided(cfg, o, s.queue);
    if n == 0 {
      PlainCount(cfg, o, s, a);
      assert EntryOk(cfg, s.total, s.queue[a].d);
    } else {
      LoweredShape(cfg, u, 0, n);
      LoweredTraces(cfg, s, u, 0, n, a);
      PlainCount(cfg, o, s, a);
      if cfg.Total? && s.queue[a].d.held {
        HoldersAreSpared(cfg, o, s, op, a);
      }
    }
  }

  /** Whatever an operation does, an entry afterwards is one that it has filed, or one that was there and
      that differs from what it was just as much as the operation says. */
  lemma StepTraces<P(!new)>(cfg: Config, o: Order<P>, s: Sem<P>, op: Op<P>, a: nat) returns (x: nat)
    requires Lawful(o) && Inv(cfg, o, s) && Enabled(cfg, o, s, op) && a < |Apply(cfg, o, s, op).queue|
    ensures var c := Apply(cfg, o, s, op).queue[a];
            Filed(cfg, o, s, op, c) || Traced(cfg, o, s, op, c, x)
  {
    hide Activate, NotifyFrom, Release, Cancel, Merge, Unstranded;
    match op
    case Acquiring(_, _, _, _) => x := AcquireTraces(cfg, o, s, op, a);
    case Releasing(i) => x := ReleaseTraces(cfg, o, s, i, a);
    case Cancelling(i) => x := CancelTraces(cfg, o, s, i, a);
    case AddingPermits(count) => x := AddTraces(cfg, o, s, count, a);
    case Splitting(_, _, _, _, _) => x := SplitTraces(cfg, o, s, op, a);
    case Merging(_, _) => x := MergeTraces(cfg, o, s, op, a);
    case Forgetting(_) => x := ForgetTraces(cfg, o, s, op, a);
    case ForgettingPermits(_) =>
      ForgetPermitsTraces(cfg, o, s, op, a);
      x := a;
  }

  lemma FilingKeepsEntry<P>(cfg: Config, o: Order<P>, s: Sem<P>, op: Op<P>, x: nat) returns (a: nat)
    requires (op.Acquiring? && op.p <= |s.queue|) || op.Splitting?
    requires x < |s.queue|
    ensures a < |Apply(cfg, o, s, op).queue| && Apply(cfg, o, s, op).queue[a].h == s.queue[x].h
  {
    hide WillAcquire;
    var t := Apply(cfg, o, s, op);
    a := if |t.queue| == |s.queue| || x < op.p then x else x + 1;
  }

  /** And every entry that was there and that the operation does not take out is there still. */
  lemma StepKeepsEntry<P(!new)>(cfg: Config, o: Order<P>, s: Sem<P>, op: Op<P>, x: nat) returns (a: nat)
    requires Lawful(o) && Inv(cfg, o, s) && Enabled(cfg, o, s, op)
    requires x < |s.queue| && Gone(cfg, s, op) != Some(x)
    ensures a < |Apply(cfg, o, s, op).queue| && Apply(cfg, o, s, op).queue[a].h == s.queue[x].h
  {
    hide Activate, NotifyFrom, Release, Cancel, Merge, Unstranded, Lowered, AcquireAt, SplitAt;
    match op
    case Acquiring(_, _, _, _) => a := FilingKeepsEntry(cfg, o, s, op, x);
    case Releasing(i) =>
      var u := ReleaseWalks(cfg, o, s, i);
      a := LeavingKeepsEntry(cfg, o, s, i, u, Release(cfg, o, s, i), x);
    case Cancelling(i) =>
      CancelWalks(cfg, o, s, i);
      a := LeavingKeepsEntry(cfg, o, s, i, Withdrawn(cfg, s, i), Cancel(cfg, o, s, i), x);
    case AddingPermits(count) =>
      a := x;
      if TryAddPermits(cfg, o, s, count).Some? {
        var u := s.(available := s.available + count, total := if cfg.Total? then s.total + count else s.total);
        a := WalkKeepsEntry(cfg, o, u, 0, Activate(cfg, o, u, 0), x);
      }
    case Splitting(_, _, _, _, _) => a := FilingKeepsEntry(cfg, o, s, op, x);
    case Merging(i, j) => a := MergeKeepsEntry(cfg, o, s, i, j, x);
    case Forgetting(i) => a := ForgetKeepsEntry(cfg, o, s, i, x);
    case ForgettingPermits(count) => a := ForgetPermitsKeepsEntry(cfg, o, s, count, x);
  }

  lemma MergeKeepsEntry<P(!new)>(cfg: Config, o: Order<P>, s: Sem<P>, i: nat, j: nat, x: nat) returns (a: nat)
    requires Sorted(SemOrder(cfg, o), s.queue) && Guard(s, i) && Guard(s, j) && x < |s.queue| && x != j
    ensures a < |Merge(cfg, o, s, i, j).queue| && Merge(cfg, o, s, i, j).queue[a].h == s.queue[x].h
  {
    hide Release;
    a := if x < j then x else x - 1;
    if !CanMerge(cfg, s, i, j) {
      var u := ReleaseWalks(cfg, o, s, j);
      a := LeavingKeepsEntry(cfg, o, s, j, u, Release(cfg, o, s, j), x);
    }
  }

  lemma ForgetKeepsEntry<P(!new)>(cfg: Config, o: Order<P>, s: Sem<P>, i: nat, x: nat) returns (a: nat)
    requires Inv(cfg, o, s) && Guard(s, i) && x < |s.queue| && x != i
    ensures var t := Apply(cfg, o, s, Forgetting(i));
            a < |t.queue| && t.queue[a].h == s.queue[x].h
  {
    hide Inv, Apply, Lowered;
    var u := ForgetWalks(cfg, o, s, i);
    LoweredShape(cfg, u, i, Count(cfg, s.queue[i].d));
    a := if x < i then x else x - 1;
    LoweredTraces(cfg, s, u, i, Count(cfg, s.queue[i].d), a);
  }

  lemma ForgetPermitsKeepsEntry<P(!new)>(cfg: Config, o: Order<P>, s: Sem<P>, count: nat, x: nat) returns (a: nat)
    requires Inv(cfg, o, s) && x < |s.queue|
    ensures var t := Apply(cfg, o, s, ForgettingPermits(count));
            a < |t.queue| && t.queue[a].h == s.queue[x].h
  {
    hide Unstranded, NotifyFrom, Lowered;
    var n := Min(count, s.available);
    var u := s.(available := s.available - n);
    a := x;
    NeverUndefined(cfg, o, s, 0, count);
    SortedIsDivided(cfg, o, s.queue);
    if n > 0 {
      LoweredShape(cfg, u, 0, n);
      LoweredTraces(cfg, s, u, 0, n, x);
    }
  }

  // ----- Over runs

  ghost predicate Present<P>(cfg: Config, o: Order<P>, s: Sem<P>, run: seq<Op<P>>, l: nat, h: nat)
    requires l <= |run|
  {
    Has(After(cfg, o, s, run[..l]).queue, h)
  }

  /** The operation at `k` tells the entry with this handle to give way, and it has been there ever since. */
  ghost predicate AsksAt<P>(cfg: Config, o: Order<P>, s: Sem<P>, run: seq<Op<P>>, k: nat, h: nat) {
    && k < |run| && Present(cfg, o, s, run, k, h)
    && (var u := After(cfg, o, s, run[..k]);
        Asks(cfg, o, u, run[k], IndexOf(u.queue, h)))
    && forall l :: k < l <= |run| ==> Present(cfg, o, s, run, l, h)
  }

  ghost predicate HasBeenAsked<P>(cfg: Config, o: Order<P>, s: Sem<P>, run: seq<Op<P>>, h: nat) {
    exists k: nat :: AsksAt(cfg, o, s, run, k, h)
  }

  lemma AskedBefore<P>(cfg: Config, o: Order<P>, s: Sem<P>, run: seq<Op<P>>, n: nat, k: nat, h: nat)
    requires |run| == n + 1 && k < n
    requires Has(After(cfg, o, s, run[..n]).queue, h) && Has(After(cfg, o, s, run).queue, h)
    ensures AsksAt(cfg, o, s, run, k, h) <==> AsksAt(cfg, o, s, run[..n], k, h)
  {
    hide After;
    var before := run[..n];
    assert run[..n + 1] == run && before[..k] == run[..k] && before[k] == run[k];
    forall l: nat | l <= n ensures Present(cfg, o, s, run, l, h) <==> Present(cfg, o, s, before, l, h) {
      assert before[..l] == run[..l];
    }
    assert before[..n] == before;
  }

  lemma AskedNow<P>(cfg: Config, o: Order<P>, s: Sem<P>, run: seq<Op<P>>, n: nat, h: nat)
    requires |run| == n + 1 && Has(After(cfg, o, s, run).queue, h)
    ensures var u := After(cfg, o, s, run[..n]);
            AsksAt(cfg, o, s, run, n, h) <==> Has(u.queue, h) && Asks(cfg, o, u, run[n], IndexOf(u.queue, h))
  {
    hide After;
    assert run[..n + 1] == run;
  }

  lemma PresentSince<P>(cfg: Config, o: Order<P>, s: Sem<P>, run: seq<Op<P>>, n: nat, k: nat, h: nat)
    requires |run| == n + 1 && AsksAt(cfg, o, s, run, k, h)
    ensures Has(After(cfg, o, s, run[..n]).queue, h)
  {
    assert k < n ==> Present(cfg, o, s, run, n, h);
  }

  lemma AskedSoFar<P>(cfg: Config, o: Order<P>, s: Sem<P>, run: seq<Op<P>>, h: nat)
    requires run != [] && Has(After(cfg, o, s, run).queue, h)
    ensures var n := |run| - 1;
            var u := After(cfg, o, s, run[..n]);
            && (HasBeenAsked(cfg, o, s, run, h) ==> Has(u.queue, h))
            && (Has(u.queue, h) ==>
                  (HasBeenAsked(cfg, o, s, run, h) <==>
                   HasBeenAsked(cfg, o, s, run[..n], h) || Asks(cfg, o, u, run[n], IndexOf(u.queue, h))))
  {
    hide After, AsksAt;
    var n := |run| - 1;
    AskedNow(cfg, o, s, run, n, h);
    forall k: nat | AsksAt(cfg, o, s, run, k, h) ensures k <= n && Has(After(cfg, o, s, run[..n]).queue, h) {
      PresentSince(cfg, o, s, run, n, k, h);
      AskedInTime(cfg, o, s, run, k, h);
    }
    if Has(After(cfg, o, s, run[..n]).queue, h) {
      forall k: nat | k < n ensures AsksAt(cfg, o, s, run, k, h) <==> AsksAt(cfg, o, s, run[..n], k, h) {
        AskedBefore(cfg, o, s, run, n, k, h);
      }
      if k: nat :| AsksAt(cfg, o, s, run[..n], k, h) {
        AskedInTime(cfg, o, s, run[..n], k, h);
        assert AsksAt(cfg, o, s, run, k, h);
      }
    }
  }

  lemma AskedInTime<P>(cfg: Config, o: Order<P>, s: Sem<P>, run: seq<Op<P>>, k: nat, h: nat)
    requires AsksAt(cfg, o, s, run, k, h)
    ensures k < |run|
  {
  }

  /** In every run an entry carries the mark if and only if it has been told so since it was filed: as a
      guard by a request that outranked it, or as a waiter that asked for more than there was left in
      all. */
  lemma {:induction false} AskedExactly<P(!new)>(cfg: Config, o: Order<P>, permits: nat, run: seq<Op<P>>, a: nat)
    requires Lawful(o) && permits < WORD && Possible(cfg, o, New(permits), run)
    requires a < |After(cfg, o, New(permits), run).queue|
    ensures var c := After(cfg, o, New(permits), run).queue[a];
            c.d.wantsEvict <==> HasBeenAsked(cfg, o, New(permits), run, c.h)
  {
    if run != [] {
      var n := |run| - 1;
      var s, _ := Reached(cfg, o, permits, run[..n]);
      var c := After(cfg, o, New(permits), run).queue[a];
      AskedSoFar(cfg, o, New(permits), run, c.h);
      var x := StepTraces(cfg, o, s, run[n], a);
      if Traced(cfg, o, s, run[n], c, x) {
        IndexIs(s.queue, x);
        AskedExactly(cfg, o, permits, run[..n], x);
      }
    }
  }
}
