/** Runs of the semaphore: any calls in any order, each critical section one step. */
module SemaphoreRuns {
  import opened Orders
  import opened QueueSpec
  import opened SemaphoreActivation
  import opened SemaphoreSteps
  import opened SemaphoreSums
  import opened Semaphores

  /** `h` and `p` are the handle and the place that the queue finds for a new entry; `i` and `j` are
      the places of the entries whose guards or futures are used. */
  datatype Op<+P> =
    | Acquiring(priority: P, raw: nat, h: nat, p: nat)
    | Releasing(i: nat)
    | Cancelling(i: nat)
    | Forgetting(i: nat)
    | ForgettingPermits(count: nat)
    | AddingPermits(count: nat)
    | Splitting(i: nat, count: nat, priority: P, h: nat, p: nat)
    | Merging(i: nat, j: nat)

  ghost predicate Guard<P>(s: Sem<P>, i: nat) {
    i < |s.queue| && s.queue[i].d.held
  }

  ghost predicate Enabled<P>(cfg: Config, o: Order<P>, s: Sem<P>, op: Op<P>) {
    match op
    case Acquiring(priority, raw, h, p) =>
      && RawAllowed(cfg, s.total, raw) && !Has(s.queue, h) && p <= |s.queue|
      && At(SemOrder(cfg, o), Asked(cfg, o, s.queue, priority), NewEntry(cfg, o, s, priority, raw), p)
    case Releasing(i) => Guard(s, i)
    case Cancelling(i) => i < |s.queue|
    case Forgetting(i) => Guard(s, i)
    case ForgettingPermits(_) => true
    case AddingPermits(_) => true
    case Splitting(i, count, priority, h, p) =>
      && Guard(s, i) && 0 < count
      && (CanSplit(cfg, s, i, count) ==>
            && !Has(s.queue, h) && p <= |s.queue|
            && At(SemOrder(cfg, o), Reduced(cfg, s, i, count), SemWaiter(priority, true, false, count), p))
    case Merging(i, j) => Guard(s, i) && Guard(s, j) && i != j
  }

  /** Subtracting more permits than there are in all is undefined in the source: the last two
      guards are there to make the function total, and `NeverUndefined` shows they always pass. */
  function Apply<P>(cfg: Config, o: Order<P>, s: Sem<P>, op: Op<P>): Sem<P> {
    match op
    case Acquiring(priority, raw, h, p) =>
      if p <= |s.queue| then AcquireAt(cfg, o, s, priority, raw, h, p) else s
    case Releasing(i) => if i < |s.queue| then Release(cfg, o, s, i) else s
    case Cancelling(i) => if i < |s.queue| then Cancel(cfg, o, s, i) else s
    case AddingPermits(count) =>
      var t := TryAddPermits(cfg, o, s, count);
      if t.Some? then t.value else s
    case Splitting(i, count, priority, h, p) =>
      if i < |s.queue| && p <= |s.queue| && CanSplit(cfg, s, i, count)
      then SplitAt(cfg, s, i, count, priority, h, p) else s
    case Merging(i, j) => if i < |s.queue| && j < |s.queue| then Merge(cfg, o, s, i, j) else s
    case Forgetting(i) =>
      if i < |s.queue| && (cfg.Total? ==> Count(cfg, s.queue[i].d) <= s.total) then Forget(cfg, s, i) else s
    case ForgettingPermits(count) =>
      if cfg.Total? ==> s.available <= s.total then ForgetPermits(cfg, s, count) else s
  }

  ghost predicate Possible<P>(cfg: Config, o: Order<P>, s: Sem<P>, run: seq<Op<P>>) {
    run == [] ||
    (Possible(cfg, o, s, run[..|run| - 1])
     && Enabled(cfg, o, After(cfg, o, s, run[..|run| - 1]), run[|run| - 1]))
  }

  function After<P>(cfg: Config, o: Order<P>, s: Sem<P>, run: seq<Op<P>>): Sem<P> {
    if run == [] then s else Apply(cfg, o, After(cfg, o, s, run[..|run| - 1]), run[|run| - 1])
  }

  /** `Semaphore::new`. */
  function New<P>(permits: nat): Sem<P> {
    Sem([], permits, permits)
  }

  // ----- The invariant

  lemma AmountKeepsInv<P(!new)>(cfg: Config, o: Order<P>, s: Sem<P>, op: Op<P>)
    requires Lawful(o) && Inv(cfg, o, s) && Enabled(cfg, o, s, op)
    requires op.Forgetting? || op.ForgettingPermits? || op.AddingPermits?
    ensures Inv(cfg, o, Apply(cfg, o, s, op))
  {
    hide Activate, NotifyFrom;
    match op
    case Forgetting(i) => ForgetKeepsInv(cfg, o, s, i);
    case ForgettingPermits(count) => ForgetPermitsKeepsInv(cfg, o, s, count);
    case AddingPermits(count) =>
      if TryAddPermits(cfg, o, s, count).Some? {
        AddPermitsKeepsInv(cfg, o, s, count);
      }
  }

  lemma StepKeepsInv<P(!new)>(cfg: Config, o: Order<P>, s: Sem<P>, op: Op<P>)
    requires Lawful(o) && Inv(cfg, o, s) && Enabled(cfg, o, s, op)
    ensures Inv(cfg, o, Apply(cfg, o, s, op))
  {
    hide Activate, NotifyFrom;
    match op
    case Acquiring(priority, raw, h, p) =>
      AcquireKeepsSane(cfg, o, s, priority, raw, h, p);
      AcquireStrandsNobody(cfg, o, s, priority, raw, h, p);
    case Releasing(i) => ReleaseKeepsInv(cfg, o, s, i);
    case Cancelling(i) => CancelKeepsInv(cfg, o, s, i);
    case Splitting(i, count, priority, h, p) =>
      if CanSplit(cfg, s, i, count) {
        SplitKeepsInv(cfg, o, s, i, count, priority, h, p);
      }
    case Merging(i, j) => MergeKeepsInv(cfg, o, s, i, j);
    case _ => AmountKeepsInv(cfg, o, s, op);
  }

  lemma NewIsInv<P>(cfg: Config, o: Order<P>, permits: nat)
    requires permits < WORD
    ensures Inv(cfg, o, New<P>(permits))
  {
  }

  lemma {:induction false} RunKeepsInv<P(!new)>(cfg: Config, o: Order<P>, s: Sem<P>, run: seq<Op<P>>)
    requires Lawful(o) && Inv(cfg, o, s) && Possible(cfg, o, s, run)
    ensures Inv(cfg, o, After(cfg, o, s, run))
  {
    if run != [] {
      RunKeepsInv(cfg, o, s, run[..|run| - 1]);
      StepKeepsInv(cfg, o, After(cfg, o, s, run[..|run| - 1]), run[|run| - 1]);
    }
  }

  /** The state after a run of a new semaphore. */
  lemma Reached<P(!new)>(cfg: Config, o: Order<P>, permits: nat, run: seq<Op<P>>) returns (s: Sem<P>, n: nat)
    requires Lawful(o) && permits < WORD && Possible(cfg, o, New(permits), run)
    ensures s == After(cfg, o, New(permits), run) && Inv(cfg, o, s)
    ensures n == NumHeld(s.queue) && HeldUpTo(s.queue, n)
  {
    NewIsInv(cfg, o, permits);
    RunKeepsInv(cfg, o, New(permits), run);
    s := After(cfg, o, New(permits), run);
    n := NumHeld(s.queue);
    SortedIsDivided(cfg, o, s.queue);
  }

  lemma Continued<P>(cfg: Config, o: Order<P>, s: Sem<P>, run: seq<Op<P>>, u: Sem<P>, op: Op<P>, t: Sem<P>)
      returns (longer: seq<Op<P>>)
    requires Possible(cfg, o, s, run) && After(cfg, o, s, run) == u
    requires Enabled(cfg, o, u, op) && Apply(cfg, o, u, op) == t
    ensures longer == run + [op]
    ensures Possible(cfg, o, s, longer) && After(cfg, o, s, longer) == t
  {
    longer := run + [op];
    assert longer[..|run|] == run;
  }

  // ----- Order of the queue

  /** Holders come first, each part is sorted by priority, and no two entries share a handle. */
  lemma {:induction false} HoldersThenWaiters<P(!new)>(cfg: Config, o: Order<P>, permits: nat, run: seq<Op<P>>,
                                                       i: nat, j: nat)
    requires Lawful(o) && permits < WORD && Possible(cfg, o, New(permits), run)
    requires i < j < |After(cfg, o, New(permits), run).queue|
    ensures var q := After(cfg, o, New(permits), run).queue;
            && q[i].h != q[j].h
            && (q[j].d.held ==> q[i].d.held)
            && (q[i].d.held == q[j].d.held ==> o.cmp(q[i].d.priority, q[j].d.priority).IsGe())
  {
    var s, _ := Reached(cfg, o, permits, run);
    HoldersFirst(cfg, o, s.queue, i, j);
    if s.queue[i].d.held == s.queue[j].d.held {
      EarlierRanks(cfg, o, s.queue, i, j);
    }
  }

  // ----- Nobody is stranded

  /** Whoever is first in line asks for more than is available, or asks for nothing while nothing is
      available. */
  lemma NobodyIsStranded<P(!new)>(cfg: Config, o: Order<P>, permits: nat, run: seq<Op<P>>, i: nat)
    requires Lawful(o) && permits < WORD && Possible(cfg, o, New(permits), run)
    requires i < |After(cfg, o, New(permits), run).queue|
    requires var q := After(cfg, o, New(permits), run).queue;
             !q[i].d.held && (i > 0 ==> q[i - 1].d.held)
    ensures var s := After(cfg, o, New(permits), run);
            var d := s.queue[i].d;
            Count(cfg, d) > s.available || (Count(cfg, d) == 0 && s.available == 0)
  {
    var s, n := Reached(cfg, o, permits, run);
    assert i == n;
  }

  // ----- Permits

  /** With `semaphore-total`: the total is what is available and what is held; what any guard holds
      can go back without overflow and can be taken off the total without underflow. */
  lemma TotalIsExact<P(!new)>(cfg: Config, o: Order<P>, permits: nat, run: seq<Op<P>>, i: nat)
    requires Lawful(o) && permits < WORD && Possible(cfg, o, New(permits), run) && cfg.Total?
    ensures var s := After(cfg, o, New(permits), run);
            && s.total == Permits(cfg, s) < WORD
            && (Guard(s, i) ==> s.available + Count(cfg, s.queue[i].d) <= s.total)
  {
    var s, _ := Reached(cfg, o, permits, run);
    if Guard(s, i) {
      HeldFits(cfg, o, s, i);
    }
  }

  /** The subtractions from the total, the one with the unchecked hint included, never go below
      zero: the guards in `Apply` that keep them defined always pass. */
  lemma NeverUndefined<P(!new)>(cfg: Config, o: Order<P>, s: Sem<P>, i: nat, count: nat)
    requires Inv(cfg, o, s)
    ensures Guard(s, i) ==> (cfg.Total? ==> Count(cfg, s.queue[i].d) <= s.total)
                            && Apply(cfg, o, s, Forgetting(i)) == Forget(cfg, s, i)
    ensures Apply(cfg, o, s, ForgettingPermits(count)) == ForgetPermits(cfg, s, count)
  {
    if cfg.Total? && Guard(s, i) {
      HeldFits(cfg, o, s, i);
    }
  }

  /** What an operation adds to the permits there are. */
  function Gained<P>(cfg: Config, s: Sem<P>, op: Op<P>): nat {
    if op.AddingPermits? && FitInWord(cfg, s, op.count) then op.count else 0
  }

  /** So many more permits do not overflow: the total, or without it what is available. */
  predicate FitInWord(cfg: Config, s: Sem, count: nat) {
    (if cfg.Total? then s.total else s.available) + count < WORD
  }

  /** Permits are refused if and only if they overflow, and then nothing changes.  Otherwise there are so
      many more in all. */
  lemma AddingIsExact<P(!new)>(cfg: Config, o: Order<P>, s: Sem<P>, count: nat)
    requires Lawful(o) && Inv(cfg, o, s)
    ensures TryAddPermits(cfg, o, s, count).Some? <==> FitInWord(cfg, s, count)
    ensures var t := Apply(cfg, o, s, AddingPermits(count));
            if FitInWord(cfg, s, count)
            then Permits(cfg, t) == Permits(cfg, s) + count && (cfg.Total? ==> t.total == s.total + count)
            else t == s
  {
    hide Activate;
    if FitInWord(cfg, s, count) {
      AddPermitsAdds(cfg, o, s, count);
      ActivateIsGreedy(cfg, o, s.(available := s.available + count,
                                  total := if cfg.Total? then s.total + count else s.total), 0);
    }
  }

  /** What it takes away: what is forgotten, and without `semaphore-total` what overflows. */
  function Lost<P>(cfg: Config, o: Order<P>, s: Sem<P>, op: Op<P>): nat {
    match op
    case Forgetting(i) => if i < |s.queue| then Count(cfg, s.queue[i].d) else 0
    case ForgettingPermits(count) => if count < s.available then count else s.available
    case Releasing(i) => if i < |s.queue| then Overflow(cfg, s, i) else 0
    case Merging(i, j) =>
      if i < |s.queue| && j < |s.queue| && Count(cfg, s.queue[i].d) + Count(cfg, s.queue[j].d) > MAX_PERMITS
      then Overflow(cfg, s, j) else 0
    case Cancelling(i) => if i < |s.queue| && Overflow(cfg, s, i) > 0 then WORD else 0
    case _ => 0
  }

  function Overflow<P>(cfg: Config, s: Sem<P>, i: nat): nat
    requires i < |s.queue|
  {
    var count := Weight(cfg, s.queue[i].d);
    if !cfg.Total? && s.available + count >= WORD then count else 0
  }

  lemma LeavingBalances<P(!new)>(cfg: Config, o: Order<P>, s: Sem<P>, op: Op<P>)
    requires Lawful(o) && Inv(cfg, o, s) && Enabled(cfg, o, s, op)
    requires op.Releasing? || op.Cancelling? || op.Forgetting? || op.ForgettingPermits?
    ensures Permits(cfg, Apply(cfg, o, s, op)) + Lost(cfg, o, s, op) == Permits(cfg, s)
  {
    hide Activate;
    match op
    case Releasing(i) => ReleaseKeepsPermits(cfg, o, s, i);
    case Cancelling(i) =>
      WithdrawnKeepsPermits(cfg, s, i);
      CancelKeepsPermits(cfg, o, s, i);
    case Forgetting(i) =>
      ForgetKeepsInv(cfg, o, s, i);
      ForgetDropsPermits(cfg, s, i);
    case ForgettingPermits(count) => ForgetPermitsDropsPermits(cfg, s, count);
  }

  lemma DividingBalances<P(!new)>(cfg: Config, o: Order<P>, s: Sem<P>, op: Op<P>)
    requires Lawful(o) && Inv(cfg, o, s) && Enabled(cfg, o, s, op) && (op.Splitting? || op.Merging?)
    ensures Permits(cfg, Apply(cfg, o, s, op)) + Lost(cfg, o, s, op) == Permits(cfg, s)
  {
    hide Activate;
    match op
    case Splitting(i, count, priority, h, p) =>
      if CanSplit(cfg, s, i, count) {
        SplitKeepsPermits(cfg, s, i, count, priority, h, p);
      }
    case Merging(i, j) =>
      if CanMerge(cfg, s, i, j) {
        MergeKeepsPermits(cfg, o, s, i, j);
      } else {
        ReleaseKeepsPermits(cfg, o, s, j);
      }
  }

  /** In every configuration: no operation creates permits or loses them. */
  lemma StepBalances<P(!new)>(cfg: Config, o: Order<P>, s: Sem<P>, op: Op<P>)
    requires Lawful(o) && Inv(cfg, o, s) && Enabled(cfg, o, s, op)
    ensures Permits(cfg, Apply(cfg, o, s, op)) + Lost(cfg, o, s, op) == Permits(cfg, s) + Gained(cfg, s, op)
  {
    match op
    case Acquiring(priority, raw, h, p) => AcquireKeepsPermits(cfg, o, s, priority, raw, h, p);
    case AddingPermits(count) =>
      if TryAddPermits(cfg, o, s, count).Some? {
        AddPermitsAdds(cfg, o, s, count);
      }
    case Splitting(_, _, _, _, _) => DividingBalances(cfg, o, s, op);
    case Merging(_, _) => DividingBalances(cfg, o, s, op);
    case _ => LeavingBalances(cfg, o, s, op);
  }

  lemma SplitKeepsPermits<P>(cfg: Config, s: Sem<P>, i: nat, count: nat, priority: P, h: nat, p: nat)
    requires Guard(s, i) && EntriesOk(cfg, s.total, s.queue) && 0 < count && CanSplit(cfg, s, i, count)
    requires p <= |s.queue|
    ensures Permits(cfg, SplitAt(cfg, s, i, count, priority, h, p)) == Permits(cfg, s)
  {
    assert EntryOk(cfg, s.total, s.queue[i].d);
    SplitCounts(cfg, s.queue[i].d, count);
    SplitSums(cfg, s, i, count, priority, h, p, HeldWeight(cfg));
  }

  lemma MergeKeepsPermits<P>(cfg: Config, o: Order<P>, s: Sem<P>, i: nat, j: nat)
    requires Guard(s, i) && Guard(s, j) && i != j && EntriesOk(cfg, s.total, s.queue) && CanMerge(cfg, s, i, j)
    ensures Permits(cfg, Merge(cfg, o, s, i, j)) == Permits(cfg, s)
  {
    assert EntryOk(cfg, s.total, s.queue[i].d);
    MergeCounts(cfg, s.queue[i].d, Count(cfg, s.queue[j].d));
    MergeSums(cfg, o, s, i, j, HeldWeight(cfg));
  }

  function GainedIn<P>(cfg: Config, o: Order<P>, s: Sem<P>, run: seq<Op<P>>): nat {
    if run == [] then 0
    else GainedIn(cfg, o, s, run[..|run| - 1])
         + Gained(cfg, After(cfg, o, s, run[..|run| - 1]), run[|run| - 1])
  }

  function LostIn<P>(cfg: Config, o: Order<P>, s: Sem<P>, run: seq<Op<P>>): nat {
    if run == [] then 0
    else LostIn(cfg, o, s, run[..|run| - 1])
         + Lost(cfg, o, After(cfg, o, s, run[..|run| - 1]), run[|run| - 1])
  }

  /** Over any run the permits there are now are those there were, and those added, without those
      forgotten or lost. */
  lemma {:induction false} RunBalances<P(!new)>(cfg: Config, o: Order<P>, s: Sem<P>, run: seq<Op<P>>)
    requires Lawful(o) && Inv(cfg, o, s) && Possible(cfg, o, s, run)
    ensures Permits(cfg, After(cfg, o, s, run)) + LostIn(cfg, o, s, run)
         == Permits(cfg, s) + GainedIn(cfg, o, s, run)
  {
    if run != [] {
      var before := run[..|run| - 1];
      RunKeepsInv(cfg, o, s, before);
      RunBalances(cfg, o, s, before);
      StepBalances(cfg, o, After(cfg, o, s, before), run[|run| - 1]);
    }
  }

  // ----- Requests that can no longer be met

  /** With `semaphore-total`: a waiter from `acquire_within_total` that asks for more than there is
      in all has been told so, and nobody else who waits has. */
  lemma {:induction false} OversizedAreFlagged<P(!new)>(cfg: Config, o: Order<P>, permits: nat, run: seq<Op<P>>, i: nat)
    requires Lawful(o) && permits < WORD && Possible(cfg, o, New(permits), run) && cfg.Total?
    requires i < |After(cfg, o, New(permits), run).queue| && !After(cfg, o, New(permits), run).queue[i].d.held
    ensures var s := After(cfg, o, New(permits), run);
            && (Tagged(s.queue[i].d) && Count(cfg, s.queue[i].d) > s.total ==> s.queue[i].d.wantsEvict)
            && (s.queue[i].d.wantsEvict ==> Tagged(s.queue[i].d))
  {
    var s, _ := Reached(cfg, o, permits, run);
    assert EntryOk(cfg, s.total, s.queue[i].d);
  }

  lemma ForgetSpares<P(!new)>(cfg: Config, o: Order<P>, s: Sem<P>, i: nat, k: nat)
    requires Inv(cfg, o, s) && Guard(s, i) && Guard(s, k) && i != k && cfg.Total?
    ensures Count(cfg, s.queue[i].d) <= s.total
    ensures var t, x := Forget(cfg, s, i), if i < k then k - 1 else k;
            x < |t.queue| && t.queue[x] == s.queue[k]
  {
    hide NotifyFrom;
    var r, x := Remove(s.queue, i), if i < k then k - 1 else k;
    ForgetKeepsInv(cfg, o, s, i);
    SumRemove(HeldWeight(cfg), s.queue, i);
    SumRemove(HeldWeight(cfg), r, x);
  }

  /** Nobody who holds permits is told so: forgetting permits leaves every other guard as it was. */
  lemma HoldersAreSpared<P(!new)>(cfg: Config, o: Order<P>, s: Sem<P>, op: Op<P>, k: nat)
    requires Lawful(o) && Inv(cfg, o, s) && Enabled(cfg, o, s, op) && cfg.Total?
    requires op.Forgetting? || op.ForgettingPermits?
    requires Guard(s, k) && (op.Forgetting? ==> op.i != k)
    ensures var t, x := Apply(cfg, o, s, op), if op.Forgetting? && op.i < k then k - 1 else k;
            x < |t.queue| && t.queue[x] == s.queue[k]
  {
    if op.Forgetting? {
      ForgetSpares(cfg, o, s, op.i, k);
    } else {
      SumRemove(HeldWeight(cfg), s.queue, k);
    }
  }
}
