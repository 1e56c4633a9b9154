/** What the operations of the semaphore leave unchanged: every permit is somewhere, and the guards
    split from one grant still add up to it. */
module SemaphoreSums {
  import opened Orders
  import opened QueueSpec
  import opened SemaphoreActivation
  import opened SemaphoreSteps
  import opened Semaphores

  type Weighing<!P> = Cell<nat, SemWaiter<P>> -> nat

  /** Being granted what it asked for adds the count of an entry to its weight, or, if the weight
      does not depend on who holds (`paid` is false), nothing. */
  ghost predicate Grows<P(!new)>(cfg: Config, w: Weighing<P>, paid: bool) {
    forall c: Cell<nat, SemWaiter<P>> | !c.d.held ::
      w(Cell(c.h, c.d.(held := true))) == w(c) + if paid then Count(cfg, c.d) else 0
  }

  ghost function Worth<P>(w: Weighing<P>, paid: bool, s: Sem<P>): nat {
    SumBy(w, s.queue) + if paid then s.available else 0
  }

  lemma GrantKeepsWorth<P(!new)>(cfg: Config, o: Order<P>, s: Sem<P>, n: nat, k: nat, w: Weighing<P>, paid: bool)
    requires Grows(cfg, w, paid) && HeldUpTo(s.queue, n) && n <= k < |s.queue|
    requires Count(cfg, s.queue[k].d) <= s.available
    ensures Worth(w, paid, GrantAt(cfg, o, s, k)) == Worth(w, paid, s)
  {
    var c := Cell(s.queue[k].h, s.queue[k].d.(held := true));
    var j := GrantMoves(cfg, o, s.queue, n, k);
    SumRemove(w, s.queue, k);
    SumInsert(w, Remove(s.queue, k), j, c);
  }

  lemma StepKeepsWorth<P(!new)>(cfg: Config, o: Order<P>, s: Sem<P>, n: nat, k: nat, w: Weighing<P>, paid: bool)
      returns (u: Sem<P>, n': nat)
    requires Grows(cfg, w, paid) && HeldUpTo(s.queue, n) && n <= k < |s.queue|
    requires Count(cfg, s.queue[k].d) <= s.available || PassedOver(cfg, s.queue[k].d)
    ensures HeldUpTo(u.queue, n') && |u.queue| == |s.queue| && n' <= k + 1
    ensures Activate(cfg, o, s, k) == Activate(cfg, o, u, k + 1) && Worth(w, paid, u) == Worth(w, paid, s)
  {
    if Count(cfg, s.queue[k].d) <= s.available {
      n' := n + 1;
      GrantKeepsWorth(cfg, o, s, n, k, w, paid);
      u := Granted(cfg, o, s, n, k);
    } else {
      u, n' := s, n;
    }
  }

  lemma {:induction false} WalkKeepsWorth<P(!new)>(cfg: Config, o: Order<P>, s: Sem<P>, n: nat, k: nat,
                                                   w: Weighing<P>, paid: bool)
    requires Grows(cfg, w, paid) && HeldUpTo(s.queue, n) && n <= k <= |s.queue|
    ensures Worth(w, paid, Activate(cfg, o, s, k)) == Worth(w, paid, s)
    decreases |s.queue| - k
  {
    if k < |s.queue| && (Count(cfg, s.queue[k].d) <= s.available || PassedOver(cfg, s.queue[k].d)) {
      var u, n' := StepKeepsWorth(cfg, o, s, n, k, w, paid);
      WalkKeepsWorth(cfg, o, u, n', k + 1, w, paid);
    }
  }

  lemma ActivateKeepsWorth<P(!new)>(cfg: Config, o: Order<P>, s: Sem<P>, k: nat, w: Weighing<P>, paid: bool)
    requires Grows(cfg, w, paid) && Sorted(SemOrder(cfg, o), s.queue) && k <= |s.queue|
    ensures Worth(w, paid, Activate(cfg, o, s, k)) == Worth(w, paid, s)
  {
    var n := NumHeld(s.queue);
    SortedIsDivided(cfg, o, s.queue);
    if k < n {
      ActivateSkipsHolders(cfg, o, s, k, n);
      WalkKeepsWorth(cfg, o, s, n, n, w, paid);
    } else {
      WalkKeepsWorth(cfg, o, s, n, k, w, paid);
    }
  }

  // ----- Every permit

  /** The permits there are: those available and those held. */
  ghost function Permits<P>(cfg: Config, s: Sem<P>): nat {
    s.available + HeldSum(cfg, s.queue)
  }

  lemma ActivateKeepsPermits<P(!new)>(cfg: Config, o: Order<P>, s: Sem<P>, k: nat)
    requires Sorted(SemOrder(cfg, o), s.queue) && k <= |s.queue|
    ensures Permits(cfg, Activate(cfg, o, s, k)) == Permits(cfg, s)
  {
    ActivateKeepsWorth(cfg, o, s, k, HeldWeight(cfg), true);
  }

  lemma AcquireKeepsPermits<P>(cfg: Config, o: Order<P>, s: Sem<P>, priority: P, raw: nat, h: nat, p: nat)
    requires p <= |s.queue| && (cfg.Total? || raw < WITHIN_TOTAL_BIT)
    ensures Permits(cfg, AcquireAt(cfg, o, s, priority, raw, h, p)) == Permits(cfg, s)
  {
    AskedKeepsShape(cfg, o, s.queue, priority);
    SumInsert(HeldWeight(cfg), Asked(cfg, o, s.queue, priority), p, Cell(h, NewEntry(cfg, o, s, priority, raw)));
  }

  /** Without `semaphore-total`, a drop that would overflow loses what the guard held. */
  lemma ReleaseKeepsPermits<P(!new)>(cfg: Config, o: Order<P>, s: Sem<P>, i: nat)
    requires Sorted(SemOrder(cfg, o), s.queue) && i < |s.queue| && s.queue[i].d.held
    ensures var count := Count(cfg, s.queue[i].d);
            var lost := if !cfg.Total? && s.available + count >= WORD then count else 0;
            Permits(cfg, Release(cfg, o, s, i)) + lost == Permits(cfg, s)
  {
    hide Activate;
    var count := Count(cfg, s.queue[i].d);
    SumRemove(HeldWeight(cfg), s.queue, i);
    RemoveKeepsSorted(SemOrder(cfg, o), s.queue, i);
    ActivateKeepsPermits(cfg, o, Sem(Remove(s.queue, i), s.available + count, s.total), i);
  }

  /** The drop of a request wraps around where that of a permit panics. */
  lemma WithdrawnKeepsPermits<P>(cfg: Config, s: Sem<P>, i: nat)
    requires i < |s.queue| && EntriesOk(cfg, s.total, s.queue) && s.available < WORD
    ensures var wraps := !cfg.Total? && s.available + Weight(cfg, s.queue[i].d) >= WORD;
            Permits(cfg, Withdrawn(cfg, s, i)) + (if wraps then WORD else 0) == Permits(cfg, s)
  {
    assert EntryOk(cfg, s.total, s.queue[i].d);
    SumRemove(HeldWeight(cfg), s.queue, i);
  }

  lemma CancelKeepsPermits<P(!new)>(cfg: Config, o: Order<P>, s: Sem<P>, i: nat)
    requires Sorted(SemOrder(cfg, o), s.queue) && i < |s.queue|
    ensures Permits(cfg, Cancel(cfg, o, s, i)) == Permits(cfg, Withdrawn(cfg, s, i))
  {
    hide Activate;
    RemoveKeepsSorted(SemOrder(cfg, o), s.queue, i);
    ActivateKeepsPermits(cfg, o, Withdrawn(cfg, s, i), i);
  }

  lemma LoweredKeepsHeld<P>(cfg: Config, s: Sem<P>, k: nat, count: nat)
    requires cfg.Total? ==> count <= s.total
    ensures Permits(cfg, Lowered(cfg, s, k, count)) == Permits(cfg, s)
  {
    SumSame(HeldWeight(cfg), s.queue, Lowered(cfg, s, k, count).queue);
  }

  lemma ForgetDropsPermits<P>(cfg: Config, s: Sem<P>, i: nat)
    requires i < |s.queue| && s.queue[i].d.held && (cfg.Total? ==> Count(cfg, s.queue[i].d) <= s.total)
    ensures Permits(cfg, Forget(cfg, s, i)) + Count(cfg, s.queue[i].d) == Permits(cfg, s)
  {
    SumRemove(HeldWeight(cfg), s.queue, i);
    LoweredKeepsHeld(cfg, s.(queue := Remove(s.queue, i)), i, Count(cfg, s.queue[i].d));
  }

  lemma ForgetPermitsDropsPermits<P>(cfg: Config, s: Sem<P>, count: nat)
    requires cfg.Total? ==> s.available <= s.total
    ensures Permits(cfg, ForgetPermits(cfg, s, count)) + Min(count, s.available) == Permits(cfg, s)
  {
    var n := Min(count, s.available);
    if n > 0 {
      LoweredKeepsHeld(cfg, s.(available := s.available - n), 0, n);
    }
  }

  lemma AddPermitsAdds<P(!new)>(cfg: Config, o: Order<P>, s: Sem<P>, count: nat)
    requires Sorted(SemOrder(cfg, o), s.queue) && TryAddPermits(cfg, o, s, count).Some?
    ensures Permits(cfg, TryAddPermits(cfg, o, s, count).value) == Permits(cfg, s) + count
  {
    hide Activate;
    ActivateKeepsPermits(cfg, o, s.(available := s.available + count,
                                    total := if cfg.Total? then s.total + count else s.total), 0);
  }

  // ----- Weights that only counts and handles decide

  /** A split moves weight from the guard to the new one, a merge from one guard to the other. */
  lemma SplitSums<P>(cfg: Config, s: Sem<P>, i: nat, count: nat, priority: P, h: nat, p: nat, w: Weighing<P>)
    requires i < |s.queue| && p <= |s.queue| && CanSplit(cfg, s, i, count)
    ensures var t, c := SplitAt(cfg, s, i, count, priority, h, p), s.queue[i];
            SumBy(w, t.queue) + w(c)
            == SumBy(w, s.queue) + w(Cell(c.h, c.d.(raw := c.d.raw - count)))
               + w(Cell(h, SemWaiter(priority, true, false, count)))
  {
    var c := s.queue[i];
    SumRewrite(w, s.queue, i, c.d.(raw := c.d.raw - count));
    SumInsert(w, Reduced(cfg, s, i, count), p, Cell(h, SemWaiter(priority, true, false, count)));
  }

  lemma MergeSums<P>(cfg: Config, o: Order<P>, s: Sem<P>, i: nat, j: nat, w: Weighing<P>)
    requires i < |s.queue| && j < |s.queue| && i != j && CanMerge(cfg, s, i, j)
    ensures var t, c, e := Merge(cfg, o, s, i, j), s.queue[i], s.queue[j];
            SumBy(w, t.queue) + w(c) + w(e)
            == SumBy(w, s.queue) + w(Cell(c.h, c.d.(raw := c.d.raw + Count(cfg, e.d))))
  {
    var c, count := s.queue[i], Count(cfg, s.queue[j].d);
    SumRewrite(w, s.queue, i, c.d.(raw := c.d.raw + count));
    SumRemove(w, Enlarged(s.queue, i, count), j);
  }
}
