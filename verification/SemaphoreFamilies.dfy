/** Guards that were split from one grant, or merged with such guards, and requests for nothing. */
module SemaphoreFamilies {
  import opened Orders
  import opened QueueSpec
  import opened SemaphoreActivation
  import opened SemaphoreRuns
  import opened SemaphoreSteps
  import opened SemaphoreSums
  import opened Semaphores

  // ----- Weights by handle and count

  /** Flags and priorities make no difference to the weight. */
  ghost predicate Blind<P(!new)>(w: Weighing<P>) {
    forall c, d :: SameCount(c, d) ==> w(c) == w(d)
  }

  ghost predicate SameCount<P>(c: Cell<nat, SemWaiter<P>>, d: Cell<nat, SemWaiter<P>>) {
    c.h == d.h && c.d.raw == d.d.raw
  }

  lemma BlindGrows<P(!new)>(cfg: Config, w: Weighing<P>)
    requires Blind(w)
    ensures Grows(cfg, w, false)
  {
    forall c: Cell<nat, SemWaiter<P>> | !c.d.held ensures w(Cell(c.h, c.d.(held := true))) == w(c) {
      assert SameCount(Cell(c.h, c.d.(held := true)), c);
    }
  }

  lemma SameCountsSum<P(!new)>(w: Weighing<P>, q: Queue<P>, r: Queue<P>)
    requires Blind(w) && |q| == |r| && (forall i :: 0 <= i < |q| ==> SameCount(q[i], r[i]))
    ensures SumBy(w, q) == SumBy(w, r)
  {
    SumSame(w, q, r);
  }

  lemma ActivateSums<P(!new)>(cfg: Config, o: Order<P>, s: Sem<P>, k: nat, w: Weighing<P>)
    requires Blind(w) && Sorted(SemOrder(cfg, o), s.queue) && k <= |s.queue|
    ensures SumBy(w, Activate(cfg, o, s, k).queue) == SumBy(w, s.queue)
  {
    BlindGrows(cfg, w);
    ActivateKeepsWorth(cfg, o, s, k, w, false);
  }

  lemma AcquireSums<P(!new)>(cfg: Config, o: Order<P>, s: Sem<P>, priority: P, raw: nat, h: nat, p: nat, w: Weighing<P>)
    requires Blind(w) && p <= |s.queue|
    ensures SumBy(w, AcquireAt(cfg, o, s, priority, raw, h, p).queue)
         == SumBy(w, s.queue) + w(Cell(h, SemWaiter(priority, false, false, raw)))
  {
    var q, c := Asked(cfg, o, s.queue, priority), Cell(h, NewEntry(cfg, o, s, priority, raw));
    forall i | 0 <= i < |q| ensures SameCount(s.queue[i], q[i]) {}
    SameCountsSum(w, s.queue, q);
    SumInsert(w, q, p, c);
    assert SameCount(c, Cell(h, SemWaiter(priority, false, false, raw)));
  }

  lemma ReleaseSums<P(!new)>(cfg: Config, o: Order<P>, s: Sem<P>, i: nat, w: Weighing<P>)
    requires Blind(w) && Sorted(SemOrder(cfg, o), s.queue) && i < |s.queue|
    ensures SumBy(w, Release(cfg, o, s, i).queue) + w(s.queue[i]) == SumBy(w, s.queue)
  {
    hide Activate;
    SumRemove(w, s.queue, i);
    RemoveKeepsSorted(SemOrder(cfg, o), s.queue, i);
    ActivateSums(cfg, o, Sem(Remove(s.queue, i), s.available + Count(cfg, s.queue[i].d), s.total), i, w);
  }

  lemma CancelSums<P(!new)>(cfg: Config, o: Order<P>, s: Sem<P>, i: nat, w: Weighing<P>)
    requires Blind(w) && Sorted(SemOrder(cfg, o), s.queue) && i < |s.queue|
    ensures SumBy(w, Cancel(cfg, o, s, i).queue) + w(s.queue[i]) == SumBy(w, s.queue)
  {
    hide Activate;
    SumRemove(w, s.queue, i);
    RemoveKeepsSorted(SemOrder(cfg, o), s.queue, i);
    ActivateSums(cfg, o, Withdrawn(cfg, s, i), i, w);
  }

  lemma LoweredSums<P(!new)>(cfg: Config, s: Sem<P>, k: nat, count: nat, w: Weighing<P>)
    requires Blind(w) && (cfg.Total? ==> count <= s.total)
    ensures SumBy(w, Lowered(cfg, s, k, count).queue) == SumBy(w, s.queue)
  {
    var r := Lowered(cfg, s, k, count).queue;
    forall i | 0 <= i < |r| ensures SameCount(s.queue[i], r[i]) {}
    SameCountsSum(w, s.queue, r);
  }

  /** The weight that a step brings in, and the weight that it takes out. */
  function Entering<P>(cfg: Config, s: Sem<P>, op: Op<P>, w: Weighing<P>): nat {
    match op
    case Acquiring(priority, raw, h, _) => w(Cell(h, SemWaiter(priority, false, false, raw)))
    case Splitting(i, count, priority, h, _) =>
      if i < |s.queue| && CanSplit(cfg, s, i, count)
      then w(Reduced(cfg, s, i, count)[i]) + w(Cell(h, SemWaiter(priority, true, false, count))) else 0
    case Merging(i, j) =>
      if i < |s.queue| && j < |s.queue| && CanMerge(cfg, s, i, j)
      then w(Enlarged(s.queue, i, Count(cfg, s.queue[j].d))[i]) else 0
    case _ => 0
  }

  function Leaving<P>(cfg: Config, s: Sem<P>, op: Op<P>, w: Weighing<P>): nat {
    match op
    case Releasing(i) => if i < |s.queue| then w(s.queue[i]) else 0
    case Cancelling(i) => if i < |s.queue| then w(s.queue[i]) else 0
    case Forgetting(i) => if i < |s.queue| then w(s.queue[i]) else 0
    case Splitting(i, count, _, _, _) => if i < |s.queue| && CanSplit(cfg, s, i, count) then w(s.queue[i]) else 0
    case Merging(i, j) =>
      if i < |s.queue| && j < |s.queue|
      then w(s.queue[j]) + (if CanMerge(cfg, s, i, j) then w(s.queue[i]) else 0) else 0
    case _ => 0
  }

  lemma StepSums<P(!new)>(cfg: Config, o: Order<P>, s: Sem<P>, op: Op<P>, w: Weighing<P>)
    requires Inv(cfg, o, s) && Enabled(cfg, o, s, op) && Blind(w)
    ensures SumBy(w, Apply(cfg, o, s, op).queue) + Leaving(cfg, s, op, w)
         == SumBy(w, s.queue) + Entering(cfg, s, op, w)
  {
    match op
    case Acquiring(priority, raw, h, p) => AcquireSums(cfg, o, s, priority, raw, h, p, w);
    case Releasing(i) => ReleaseSums(cfg, o, s, i, w);
    case Cancelling(i) => CancelSums(cfg, o, s, i, w);
    case Splitting(_, _, _, _, _) => DividingSums(cfg, o, s, op, w);
    case Merging(_, _) => JoiningSums(cfg, o, s, op, w);
    case _ => AmountSums(cfg, o, s, op, w);
  }

  lemma DividingSums<P(!new)>(cfg: Config, o: Order<P>, s: Sem<P>, op: Op<P>, w: Weighing<P>)
    requires Inv(cfg, o, s) && Enabled(cfg, o, s, op) && Blind(w) && op.Splitting?
    ensures SumBy(w, Apply(cfg, o, s, op).queue) + Leaving(cfg, s, op, w)
         == SumBy(w, s.queue) + Entering(cfg, s, op, w)
  {
    if CanSplit(cfg, s, op.i, op.count) {
      SplitSums(cfg, s, op.i, op.count, op.priority, op.h, op.p, w);
    }
  }

  lemma JoiningSums<P(!new)>(cfg: Config, o: Order<P>, s: Sem<P>, op: Op<P>, w: Weighing<P>)
    requires Inv(cfg, o, s) && Enabled(cfg, o, s, op) && Blind(w) && op.Merging?
    ensures SumBy(w, Apply(cfg, o, s, op).queue) + Leaving(cfg, s, op, w)
         == SumBy(w, s.queue) + Entering(cfg, s, op, w)
  {
    hide Activate, SumBy, Unstranded, EntriesOk;
    if CanMerge(cfg, s, op.i, op.j) {
      MergeSums(cfg, o, s, op.i, op.j, w);
    } else {
      ReleaseSums(cfg, o, s, op.j, w);
    }
  }

  lemma AmountSums<P(!new)>(cfg: Config, o: Order<P>, s: Sem<P>, op: Op<P>, w: Weighing<P>)
    requires Inv(cfg, o, s) && Enabled(cfg, o, s, op) && Blind(w)
    requires op.Forgetting? || op.ForgettingPermits? || op.AddingPermits?
    ensures SumBy(w, Apply(cfg, o, s, op).queue) + Leaving(cfg, s, op, w) == SumBy(w, s.queue)
  {
    hide Activate;
    match op
    case Forgetting(i) =>
      ForgetKeepsInv(cfg, o, s, i);
      SumRemove(w, s.queue, i);
      LoweredSums(cfg, s.(queue := Remove(s.queue, i)), i, Count(cfg, s.queue[i].d), w);
    case ForgettingPermits(count) =>
      var n := Min(count, s.available);
      LoweredSums(cfg, s.(available := s.available - n), 0, n, w);
    case AddingPermits(count) =>
      ActivateSums(cfg, o, s.(available := s.available + count,
                              total := if cfg.Total? then s.total + count else s.total), 0, w);
  }

  lemma {:induction false} SumIsZero<H, T>(w: Cell<H, T> -> nat, s: seq<Cell<H, T>>)
    ensures SumBy(w, s) == 0 <==> forall i :: 0 <= i < |s| ==> w(s[i]) == 0
  {
    if s != [] {
      SumIsZero(w, s[1..]);
      if forall i :: 0 <= i < |s[1..]| ==> w(s[1..][i]) == 0 {
        forall i | 0 < i < |s| ensures w(s[i]) == 0 {
          assert s[i] == s[1..][i - 1];
        }
      }
    }
  }

  // ----- Requests for nothing

  ghost predicate AllAskForSomething<P>(run: seq<Op<P>>) {
    forall k :: 0 <= k < |run| && run[k].Acquiring? ==> CountOf(run[k].raw) > 0
  }

  function Emptiness<P>(cfg: Config): Weighing<P> {
    (c: Cell<nat, SemWaiter<P>>) => if Count(cfg, c.d) == 0 then 1 else 0
  }

  lemma PartsAreNotEmpty<P(!new)>(cfg: Config, o: Order<P>, s: Sem<P>, op: Op<P>)
    requires Inv(cfg, o, s) && Enabled(cfg, o, s, op) && (op.Splitting? || op.Merging?)
    ensures Entering(cfg, s, op, Emptiness(cfg)) <= Leaving(cfg, s, op, Emptiness(cfg))
  {
    assert EntryOk(cfg, s.total, s.queue[op.i].d);
    if op.Splitting? && CanSplit(cfg, s, op.i, op.count) {
      SplitCounts(cfg, s.queue[op.i].d, op.count);
    } else if op.Merging? && CanMerge(cfg, s, op.i, op.j) {
      MergeCounts(cfg, s.queue[op.i].d, Count(cfg, s.queue[op.j].d));
    }
  }

  lemma StepAddsNothingEmpty<P(!new)>(cfg: Config, o: Order<P>, s: Sem<P>, op: Op<P>)
    requires Inv(cfg, o, s) && Enabled(cfg, o, s, op) && (op.Acquiring? ==> CountOf(op.raw) > 0)
    requires SumBy(Emptiness(cfg), s.queue) == 0
    ensures SumBy(Emptiness(cfg), Apply(cfg, o, s, op).queue) == 0
  {
    hide Activate;
    StepSums(cfg, o, s, op, Emptiness(cfg));
    if op.Splitting? || op.Merging? {
      PartsAreNotEmpty(cfg, o, s, op);
    }
  }

  /** If every request asks for something, no entry is ever empty; in particular no guard made by a
      split or a merge is. */
  lemma {:induction false} NoEntryIsEmpty<P(!new)>(cfg: Config, o: Order<P>, permits: nat, run: seq<Op<P>>)
    requires Lawful(o) && permits < WORD && Possible(cfg, o, New(permits), run) && AllAskForSomething(run)
    ensures forall k :: 0 <= k < |After(cfg, o, New(permits), run).queue| ==>
                          Count(cfg, After(cfg, o, New(permits), run).queue[k].d) > 0
  {
    if run != [] {
      var before := run[..|run| - 1];
      var s, _ := Reached(cfg, o, permits, before);
      NoEntryIsEmpty(cfg, o, permits, before);
      SumIsZero(Emptiness(cfg), s.queue);
      StepAddsNothingEmpty(cfg, o, s, run[|run| - 1]);
      SumIsZero(Emptiness(cfg), Apply(cfg, o, s, run[|run| - 1]).queue);
    }
  }

  /** And then whoever is first in line does not fit. */
  lemma NobodyWaitsInVain<P(!new)>(cfg: Config, o: Order<P>, permits: nat, run: seq<Op<P>>, i: nat)
    requires Lawful(o) && permits < WORD && Possible(cfg, o, New(permits), run) && AllAskForSomething(run)
    requires i < |After(cfg, o, New(permits), run).queue|
    requires var q := After(cfg, o, New(permits), run).queue;
             !q[i].d.held && (i > 0 ==> q[i - 1].d.held)
    ensures var s := After(cfg, o, New(permits), run);
            Count(cfg, s.queue[i].d) > s.available
  {
    NobodyIsStranded(cfg, o, permits, run, i);
    NoEntryIsEmpty(cfg, o, permits, run);
  }

  // ----- Families

  function FamilyWeight<P>(cfg: Config, family: set<nat>): Weighing<P> {
    (c: Cell<nat, SemWaiter<P>>) => if c.h in family then Count(cfg, c.d) else 0
  }

  /** The permits that the guards of a family hold together. */
  function FamilyPermits<P>(cfg: Config, q: Queue<P>, family: set<nat>): nat {
    SumBy(FamilyWeight(cfg, family), q)
  }

  /** A guard split from a member is a member; a guard merged into another is gone. */
  function Grown<P>(cfg: Config, s: Sem<P>, op: Op<P>, family: set<nat>): set<nat> {
    match op
    case Splitting(i, count, _, h, _) =>
      if i < |s.queue| && CanSplit(cfg, s, i, count) && s.queue[i].h in family then family + {h} else family
    case Merging(i, j) =>
      if i < |s.queue| && j < |s.queue| && CanMerge(cfg, s, i, j) then family - {s.queue[j].h} else family
    case _ => family
  }

  /** No member is given up, and no member is merged with a guard that is none. */
  predicate KeptTogether<P>(cfg: Config, s: Sem<P>, op: Op<P>, family: set<nat>) {
    match op
    case Releasing(i) => i < |s.queue| ==> s.queue[i].h !in family
    case Cancelling(i) => i < |s.queue| ==> s.queue[i].h !in family
    case Forgetting(i) => i < |s.queue| ==> s.queue[i].h !in family
    case Merging(i, j) =>
      i < |s.queue| && j < |s.queue| ==>
        if CanMerge(cfg, s, i, j) then s.queue[i].h in family <==> s.queue[j].h in family
        else s.queue[j].h !in family
    case _ => true
  }

  ghost predicate Live<P>(q: Queue<P>, family: set<nat>) {
    forall h :: h in family ==> Has(q, h)
  }

  function Mark<P>(h: nat): Weighing<P> {
    (c: Cell<nat, SemWaiter<P>>) => if c.h == h then 1 else 0
  }

  lemma MarkFinds<P>(q: Queue<P>, h: nat)
    ensures Has(q, h) <==> SumBy(Mark(h), q) > 0
  {
    SumIsZero(Mark(h), q);
  }

  lemma StepKeepsLive<P(!new)>(cfg: Config, o: Order<P>, s: Sem<P>, op: Op<P>, family: set<nat>)
    requires Inv(cfg, o, s) && Enabled(cfg, o, s, op) && Live(s.queue, family) && KeptTogether(cfg, s, op, family)
    ensures Live(Apply(cfg, o, s, op).queue, Grown(cfg, s, op, family))
  {
    forall h | h in Grown(cfg, s, op, family) ensures Has(Apply(cfg, o, s, op).queue, h) {
      MarkFinds(s.queue, h);
      StepSums(cfg, o, s, op, Mark(h));
      MarkFinds(Apply(cfg, o, s, op).queue, h);
    }
  }

  /** A handle that no entry has makes no difference. */
  lemma StrangerWeighsNothing<P>(cfg: Config, q: Queue<P>, family: set<nat>, h: nat)
    requires !Has(q, h)
    ensures FamilyPermits(cfg, q, family + {h}) == FamilyPermits(cfg, q, family)
  {
    SameWeights(FamilyWeight(cfg, family), FamilyWeight(cfg, family + {h}), q);
  }

  lemma {:induction false} SameWeights<P>(v: Weighing<P>, w: Weighing<P>, q: Queue<P>)
    requires forall i :: 0 <= i < |q| ==> v(q[i]) == w(q[i])
    ensures SumBy(v, q) == SumBy(w, q)
  {
    if q != [] {
      SameWeights(v, w, q[1..]);
    }
  }

  /** Without the member at `j` a family has so much less. */
  lemma MemberWeighs<P>(cfg: Config, q: Queue<P>, family: set<nat>, j: nat)
    requires Distinct(q) && j < |q|
    ensures FamilyPermits(cfg, q, family - {q[j].h}) + FamilyWeight(cfg, family)(q[j]) == FamilyPermits(cfg, q, family)
  {
    var v, w, r := FamilyWeight<P>(cfg, family - {q[j].h}), FamilyWeight<P>(cfg, family), Remove(q, j);
    SumRemove(v, q, j);
    SumRemove(w, q, j);
    DistinctRemove(q, j);
    forall i | 0 <= i < |r| ensures v(r[i]) == w(r[i]) {
      assert r[i].h != q[j].h;
    }
    SameWeights(v, w, r);
  }

  lemma FamilyIsBlind<P(!new)>(cfg: Config, family: set<nat>)
    ensures Blind(FamilyWeight<P>(cfg, family))
  {
  }

  /** What the parts of a split guard weigh together. */
  lemma PartsWeigh<P(!new)>(cfg: Config, o: Order<P>, s: Sem<P>, op: Op<P>, family: set<nat>)
    requires Inv(cfg, o, s) && Enabled(cfg, o, s, op) && op.Splitting? && op.h !in family
    requires CanSplit(cfg, s, op.i, op.count)
    ensures var w := FamilyWeight(cfg, Grown(cfg, s, op, family));
            Entering(cfg, s, op, w) == Leaving(cfg, s, op, w)
  {
    assert EntryOk(cfg, s.total, s.queue[op.i].d);
    SplitCounts(cfg, s.queue[op.i].d, op.count);
  }

  lemma SplitKeepsFamily<P(!new)>(cfg: Config, o: Order<P>, s: Sem<P>, op: Op<P>, family: set<nat>)
    requires Inv(cfg, o, s) && Enabled(cfg, o, s, op) && op.Splitting? && Live(s.queue, family)
    ensures FamilyPermits(cfg, Apply(cfg, o, s, op).queue, Grown(cfg, s, op, family))
         == FamilyPermits(cfg, s.queue, family)
  {
    hide Inv, FamilyWeight, Entering, Leaving;
    if CanSplit(cfg, s, op.i, op.count) {
      assert op.h !in family;
      FamilyIsBlind<P>(cfg, Grown(cfg, s, op, family));
      StepSums(cfg, o, s, op, FamilyWeight(cfg, Grown(cfg, s, op, family)));
      StrangerWeighsNothing(cfg, s.queue, family, op.h);
      PartsWeigh(cfg, o, s, op, family);
    }
  }

  /** What the merged guard weighs: with the other one if both are members. */
  lemma WholeWeighs<P(!new)>(cfg: Config, o: Order<P>, s: Sem<P>, op: Op<P>, family: set<nat>)
    requires Inv(cfg, o, s) && Enabled(cfg, o, s, op) && op.Merging? && KeptTogether(cfg, s, op, family)
    ensures var w := FamilyWeight(cfg, Grown(cfg, s, op, family));
            Entering(cfg, s, op, w) == Leaving(cfg, s, op, w)
              + if CanMerge(cfg, s, op.i, op.j) then FamilyWeight(cfg, family)(s.queue[op.j]) else 0
  {
    assert EntryOk(cfg, s.total, s.queue[op.i].d);
    assert s.queue[op.i].h != s.queue[op.j].h;
    if CanMerge(cfg, s, op.i, op.j) {
      MergeCounts(cfg, s.queue[op.i].d, Count(cfg, s.queue[op.j].d));
    }
  }

  lemma MergeKeepsFamily<P(!new)>(cfg: Config, o: Order<P>, s: Sem<P>, op: Op<P>, family: set<nat>)
    requires Inv(cfg, o, s) && Enabled(cfg, o, s, op) && op.Merging? && KeptTogether(cfg, s, op, family)
    ensures FamilyPermits(cfg, Apply(cfg, o, s, op).queue, Grown(cfg, s, op, family))
         == FamilyPermits(cfg, s.queue, family)
  {
    hide Apply, FamilyWeight, Entering, Leaving;
    FamilyIsBlind<P>(cfg, Grown(cfg, s, op, family));
    StepSums(cfg, o, s, op, FamilyWeight(cfg, Grown(cfg, s, op, family)));
    WholeWeighs(cfg, o, s, op, family);
    if CanMerge(cfg, s, op.i, op.j) {
      MemberWeighs(cfg, s.queue, family, op.j);
    }
  }

  /** An operation on an entry that is no member, or on none. */
  lemma OthersKeepFamily<P(!new)>(cfg: Config, o: Order<P>, s: Sem<P>, op: Op<P>, family: set<nat>)
    requires Inv(cfg, o, s) && Enabled(cfg, o, s, op) && Live(s.queue, family) && KeptTogether(cfg, s, op, family)
    requires !op.Splitting? && !op.Merging?
    ensures Grown(cfg, s, op, family) == family
    ensures FamilyPermits(cfg, Apply(cfg, o, s, op).queue, family) == FamilyPermits(cfg, s.queue, family)
  {
    hide Activate, Apply, Inv;
    var w := FamilyWeight<P>(cfg, family);
    StepSums(cfg, o, s, op, w);
    OthersWeighNothing(cfg, o, s, op, family);
  }

  lemma OthersWeighNothing<P(!new)>(cfg: Config, o: Order<P>, s: Sem<P>, op: Op<P>, family: set<nat>)
    requires Enabled(cfg, o, s, op) && Live(s.queue, family) && KeptTogether(cfg, s, op, family)
    requires !op.Splitting? && !op.Merging?
    ensures Entering(cfg, s, op, FamilyWeight(cfg, family)) == 0 == Leaving(cfg, s, op, FamilyWeight(cfg, family))
  {
    assert op.Acquiring? ==> op.h !in family;
  }

  lemma StepKeepsFamily<P(!new)>(cfg: Config, o: Order<P>, s: Sem<P>, op: Op<P>, family: set<nat>)
    requires Inv(cfg, o, s) && Enabled(cfg, o, s, op) && Live(s.queue, family) && KeptTogether(cfg, s, op, family)
    ensures FamilyPermits(cfg, Apply(cfg, o, s, op).queue, Grown(cfg, s, op, family))
         == FamilyPermits(cfg, s.queue, family)
  {
    hide Activate;
    match op
    case Splitting(_, _, _, _, _) => SplitKeepsFamily(cfg, o, s, op, family);
    case Merging(_, _) => MergeKeepsFamily(cfg, o, s, op, family);
    case _ => OthersKeepFamily(cfg, o, s, op, family);
  }

  function FamilyAfter<P>(cfg: Config, o: Order<P>, s: Sem<P>, run: seq<Op<P>>, family: set<nat>): set<nat> {
    if run == [] then family
    else
      var before := run[..|run| - 1];
      Grown(cfg, After(cfg, o, s, before), run[|run| - 1], FamilyAfter(cfg, o, s, before, family))
  }

  ghost predicate StaysTogether<P>(cfg: Config, o: Order<P>, s: Sem<P>, run: seq<Op<P>>, family: set<nat>) {
    run == [] ||
    var before := run[..|run| - 1];
    && StaysTogether(cfg, o, s, before, family)
    && KeptTogether(cfg, After(cfg, o, s, before), run[|run| - 1], FamilyAfter(cfg, o, s, before, family))
  }

  /** Over any run, whatever else happens to the semaphore: as long as the guards of a family are
      only split and merged among themselves, they hold together what they held at the start. */
  lemma {:induction false} FamilyKeepsPermits<P(!new)>(cfg: Config, o: Order<P>, s: Sem<P>, run: seq<Op<P>>,
                                                       family: set<nat>)
    requires Lawful(o) && Inv(cfg, o, s) && Possible(cfg, o, s, run)
    requires Live(s.queue, family) && StaysTogether(cfg, o, s, run, family)
    ensures var t, f := After(cfg, o, s, run), FamilyAfter(cfg, o, s, run, family);
            Live(t.queue, f) && FamilyPermits(cfg, t.queue, f) == FamilyPermits(cfg, s.queue, family)
  {
    if run != [] {
      var before := run[..|run| - 1];
      RunKeepsInv(cfg, o, s, before);
      FamilyKeepsPermits(cfg, o, s, before, family);
      var t, f := After(cfg, o, s, before), FamilyAfter(cfg, o, s, before, family);
      StepKeepsLive(cfg, o, t, run[|run| - 1], f);
      StepKeepsFamily(cfg, o, t, run[|run| - 1], f);
    }
  }

  /** A family that begins with one guard has what that guard was granted. */
  lemma FamilyOfOne<P>(cfg: Config, q: Queue<P>, i: nat)
    requires Distinct(q) && i < |q|
    ensures FamilyPermits(cfg, q, {q[i].h}) == Count(cfg, q[i].d) && Live(q, {q[i].h})
  {
    assert {q[i].h} - {q[i].h} == {};
    MemberWeighs(cfg, q, {q[i].h}, i);
    SumIsZero(FamilyWeight(cfg, {}), q);
  }
}
