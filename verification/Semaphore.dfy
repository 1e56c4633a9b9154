/** The entries and the state of the semaphore in src/semaphore.rs, and what each critical section
    does to them.  Holders and waiters share one queue, holders first. */
module Semaphores {
  import opened Masks
  import opened Orders
  import opened QueueSpec

  /** The feature sets that compile: neither, `evict`, or `evict` with `semaphore-total`. */
  datatype Config = Plain | Evicting | Total

  const WORD: nat := 0x1_0000_0000_0000_0000
  const MAX_PERMITS: nat := 0x7FFF_FFFF_FFFF_FFFF
  const WITHIN_TOTAL_BIT: nat := 0x8000_0000_0000_0000

  /** `raw` is the `count` field: with `semaphore-total` its highest bit marks a request made by
      `acquire_within_total`. */
  datatype SemWaiter<+P> = SemWaiter(priority: P, held: bool, wantsEvict: bool, raw: nat)

  type Queue<P> = seq<Cell<nat, SemWaiter<P>>>

  datatype Sem<P> = Sem(queue: Queue<P>, available: nat, total: nat)

  // ----- Counts

  function CountOf(raw: nat): nat {
    if raw >= WITHIN_TOTAL_BIT then raw - WITHIN_TOTAL_BIT else raw
  }

  function Count<P>(cfg: Config, d: SemWaiter<P>): nat {
    if cfg.Total? then CountOf(d.raw) else d.raw
  }

  predicate Tagged<P>(d: SemWaiter<P>) {
    d.raw >= WITHIN_TOTAL_BIT
  }

  /** The masks of the source: clearing, testing and setting the tag of a 64-bit count. */
  lemma TagIsABit(raw: nat)
    requires raw < WORD
    ensures And(raw, MAX_PERMITS) == CountOf(raw)
    ensures And(raw, WITHIN_TOTAL_BIT) != 0 <==> raw >= WITHIN_TOTAL_BIT
    ensures raw < WITHIN_TOTAL_BIT ==> Or(raw, WITHIN_TOTAL_BIT) == raw + WITHIN_TOTAL_BIT
  {
    TagIsPower();
    MaskIsModulo(raw, WITHIN_TOTAL_BIT);
    TagBit(raw, WITHIN_TOTAL_BIT);
    if raw >= WITHIN_TOTAL_BIT {
      RemainderIs(raw, WITHIN_TOTAL_BIT, 1, raw - WITHIN_TOTAL_BIT);
    } else {
      RemainderIs(raw, WITHIN_TOTAL_BIT, 0, raw);
    }
  }

  lemma TagIsPower()
    ensures PowerOfTwo(WITHIN_TOTAL_BIT)
  {
    PowersAre(63);
    assert Power(16) == 0x1_0000 && Power(15) == 0x8000;
    PowerSum(16, 16);
    PowerSum(32, 16);
    PowerSum(48, 15);
  }

  // ----- The order of the queue

  /** Holders rank above waiters; then the priority decides.  Among waiters a tie that the
      priority leaves open goes to the smaller request. */
  function Cmp<P>(o: Order<P>, a: SemWaiter<P>, b: SemWaiter<P>): Ordering {
    if a.held && !b.held then Greater
    else if !a.held && b.held then Less
    else o.cmp(a.priority, b.priority)
  }

  function CmpNew<P>(cfg: Config, o: Order<P>, a: SemWaiter<P>, b: SemWaiter<P>): Ordering {
    if a.held && !b.held then Greater
    else if !a.held && b.held then Less
    else if a.held then o.cmpNew(a.priority, b.priority)
    else o.cmpNew(a.priority, b.priority).Then(IntCmp(Count(cfg, a), Count(cfg, b)).Reverse())
  }

  function SemOrder<P>(cfg: Config, o: Order<P>): Order<SemWaiter<P>> {
    Order((a: SemWaiter<P>, b: SemWaiter<P>) => Cmp(o, a, b),
          (a: SemWaiter<P>, b: SemWaiter<P>) => CmpNew(cfg, o, a, b))
  }

  /** The order is lawful, and decides all ties, in one way for all, if the priority does. */
  lemma SemOrderLaws<P(!new)>(cfg: Config, o: Order<P>)
    requires Lawful(o)
    ensures Lawful(SemOrder(cfg, o))
    ensures NeverTies(o) ==> NeverTies(SemOrder(cfg, o))
    ensures NeverTies(o) && TieUniform(o) ==> TieUniform(SemOrder(cfg, o))
  {
    var so := SemOrder(cfg, o);
    forall a, b, c ensures LawAt(so, a, b, c) {
      Laws(o, a.priority, b.priority, c.priority);
    }
    if NeverTies(o) {
      forall a, b ensures so.cmpNew(a, b) != Equal {
        assert o.cmpNew(a.priority, b.priority) != Equal;
      }
      if TieUniform(o) {
        forall a, b, c ensures UniformAt(so, a, b, c) {
          assert UniformAt(o, a.priority, b.priority, c.priority);
          assert o.cmpNew(a.priority, b.priority) != Equal && o.cmpNew(a.priority, c.priority) != Equal;
        }
      }
    }
  }

  /** Whoever holds permits ranks above whoever waits; otherwise the priority decides, and a tie that it
      leaves open goes to the waiter that asks for less, and stays open among holders. */
  lemma SemOrderRanks<P>(cfg: Config, o: Order<P>, a: SemWaiter<P>, b: SemWaiter<P>)
    ensures var r, n := SemOrder(cfg, o).cmp(a, b), SemOrder(cfg, o).cmpNew(a, b);
            && (a.held && !b.held ==> r == n == Greater)
            && (!a.held && b.held ==> r == n == Less)
            && (a.held == b.held ==> r == o.cmp(a.priority, b.priority))
            && (a.held == b.held && o.cmpNew(a.priority, b.priority) != Equal ==> n == o.cmpNew(a.priority, b.priority))
            && (a.held && b.held && o.cmpNew(a.priority, b.priority) == Equal ==> n == Equal)
            && (!a.held && !b.held && o.cmpNew(a.priority, b.priority) == Equal ==>
                  && (n == Greater <==> Count(cfg, a) < Count(cfg, b))
                  && (n == Less <==> Count(cfg, a) > Count(cfg, b)))
  {
  }

  /** Holders come first. */
  lemma HoldersFirst<P>(cfg: Config, o: Order<P>, q: Queue<P>, i: nat, j: nat)
    requires Sorted(SemOrder(cfg, o), q) && i < j < |q|
    ensures q[j].d.held ==> q[i].d.held
  {
    assert SemOrder(cfg, o).cmp(q[i].d, q[j].d).IsGe();
  }

  // ----- Permits held

  function Weight<P>(cfg: Config, d: SemWaiter<P>): nat {
    if d.held then Count(cfg, d) else 0
  }

  function HeldWeight<P>(cfg: Config): Cell<nat, SemWaiter<P>> -> nat {
    (c: Cell<nat, SemWaiter<P>>) => Weight(cfg, c.d)
  }

  function HeldSum<P>(cfg: Config, q: Queue<P>): nat {
    SumBy(HeldWeight(cfg), q)
  }

  // ----- activate_waiters

  function GrantAt<P>(cfg: Config, o: Order<P>, s: Sem<P>, k: nat): (r: Sem<P>)
    requires k < |s.queue| && Count(cfg, s.queue[k].d) <= s.available
    ensures |r.queue| == |s.queue|
  {
    var d := s.queue[k].d;
    Sem(Update(SemOrder(cfg, o), s.queue, k, d.(held := true), true), s.available - Count(cfg, d), s.total)
  }

  /** Walk the queue from place `k` and grant what can be granted. */
  function Activate<P>(cfg: Config, o: Order<P>, s: Sem<P>, k: nat): Sem<P>
    decreases |s.queue| - k
  {
    if k >= |s.queue| then s
    else
      var d := s.queue[k].d;
      if d.held then Activate(cfg, o, s, k + 1)
      else if Count(cfg, d) > s.available then
        if cfg.Total? && d.wantsEvict then Activate(cfg, o, s, k + 1) else s
      else Activate(cfg, o, GrantAt(cfg, o, s, k), k + 1)
  }

  // ----- do_acquire

  /** Every holder that the new request outranks is asked to give way. */
  function FlagOutranked<P>(o: Order<P>, q: Queue<P>, priority: P): (r: Queue<P>)
    ensures |r| == |q|
    ensures forall i :: 0 <= i < |q| ==>
              r[i] == if q[i].d.held && o.cmp(priority, q[i].d.priority) == Greater
                      then Cell(q[i].h, q[i].d.(wantsEvict := true)) else q[i]
  {
    seq(|q|, i requires 0 <= i < |q| =>
      if q[i].d.held && o.cmp(priority, q[i].d.priority) == Greater
      then Cell(q[i].h, q[i].d.(wantsEvict := true)) else q[i])
  }

  /** The entries that the search for the first waiter skips: holders, and with `semaphore-total`
      waiters that are not flagged. */
  predicate Skipped<P>(cfg: Config, d: SemWaiter<P>) {
    d.held || (cfg.Total? && !d.wantsEvict)
  }

  function FirstNotSkipped<P>(cfg: Config, q: Queue<P>): (k: nat)
    ensures k <= |q| && (forall i :: 0 <= i < k ==> Skipped(cfg, q[i].d))
    ensures k < |q| ==> !Skipped(cfg, q[k].d)
  {
    if q == [] || !Skipped(cfg, q[0].d) then 0 else 1 + FirstNotSkipped(cfg, q[1..])
  }

  predicate WillAcquire<P>(cfg: Config, o: Order<P>, s: Sem<P>, priority: P, raw: nat) {
    var k := FirstNotSkipped(cfg, s.queue);
    && s.available >= CountOf(raw)
    && (k < |s.queue| ==> o.cmp(priority, s.queue[k].d.priority).IsGe())
  }

  function Asked<P>(cfg: Config, o: Order<P>, q: Queue<P>, priority: P): Queue<P> {
    if cfg.Plain? then q else FlagOutranked(o, q, priority)
  }

  function NewEntry<P>(cfg: Config, o: Order<P>, s: Sem<P>, priority: P, raw: nat): SemWaiter<P> {
    SemWaiter(priority, WillAcquire(cfg, o, s, priority, raw), false, raw)
  }

  function AcquireAt<P>(cfg: Config, o: Order<P>, s: Sem<P>, priority: P, raw: nat, h: nat, p: nat): Sem<P>
    requires p <= |s.queue|
  {
    var d := NewEntry(cfg, o, s, priority, raw);
    Sem(Insert(Asked(cfg, o, s.queue, priority), p, Cell(h, d)),
        if d.held then s.available - CountOf(raw) else s.available, s.total)
  }

  // ----- Giving up permits and requests

  /** Drop of a permit.  Without `semaphore-total` an overflow panics: the permits are lost. */
  function Release<P>(cfg: Config, o: Order<P>, s: Sem<P>, i: nat): Sem<P>
    requires i < |s.queue|
  {
    var r, count := Remove(s.queue, i), Count(cfg, s.queue[i].d);
    if !cfg.Total? && s.available + count >= WORD then s.(queue := r)
    else Activate(cfg, o, Sem(r, s.available + count, s.total), i)
  }

  /** An entry is taken out, and the permits it holds, if any, become available. */
  function Withdrawn<P>(cfg: Config, s: Sem<P>, i: nat): Sem<P>
    requires i < |s.queue|
  {
    var available := s.available + Weight(cfg, s.queue[i].d);
    Sem(Remove(s.queue, i), if cfg.Total? then available else available % WORD, s.total)
  }

  /** Drop of a request whose future may have been granted the permits without knowing yet. */
  function Cancel<P>(cfg: Config, o: Order<P>, s: Sem<P>, i: nat): Sem<P>
    requires i < |s.queue|
  {
    var held, t := s.queue[i].d.held, Withdrawn(cfg, s, i);
    if i == |t.queue| || !(held || t.available > 0) then t
    else if held || i == 0 || t.queue[i - 1].d.held then Activate(cfg, o, t, i)
    else t
  }

  /** `notify_oversized_waiters`, from place `k` on. */
  function NotifyFrom<P>(cfg: Config, q: Queue<P>, k: nat, total: nat): (r: Queue<P>)
    ensures |r| == |q|
    ensures forall i :: 0 <= i < |q| ==>
              r[i] == if i >= k && Tagged(q[i].d) && Count(cfg, q[i].d) > total
                      then Cell(q[i].h, q[i].d.(wantsEvict := true)) else q[i]
  {
    seq(|q|, i requires 0 <= i < |q| =>
      if i >= k && Tagged(q[i].d) && Count(cfg, q[i].d) > total
      then Cell(q[i].h, q[i].d.(wantsEvict := true)) else q[i])
  }

  function Lowered<P>(cfg: Config, s: Sem<P>, k: nat, count: nat): Sem<P>
    requires cfg.Total? ==> count <= s.total
  {
    if cfg.Total? then Sem(NotifyFrom(cfg, s.queue, k, s.total - count), s.available, s.total - count) else s
  }

  function Forget<P>(cfg: Config, s: Sem<P>, i: nat): Sem<P>
    requires i < |s.queue| && (cfg.Total? ==> Count(cfg, s.queue[i].d) <= s.total)
  {
    Lowered(cfg, s.(queue := Remove(s.queue, i)), i, Count(cfg, s.queue[i].d))
  }

  function Min(a: nat, b: nat): nat { if a < b then a else b }

  function ForgetPermits<P>(cfg: Config, s: Sem<P>, count: nat): Sem<P>
    requires cfg.Total? ==> s.available <= s.total
  {
    var n := Min(count, s.available);
    if n == 0 then s else Lowered(cfg, s.(available := s.available - n), 0, n)
  }

  /** `None` if the permits would not fit in a word. */
  function TryAddPermits<P>(cfg: Config, o: Order<P>, s: Sem<P>, count: nat): Option<Sem<P>> {
    if (if cfg.Total? then s.total else s.available) + count >= WORD then None
    else Some(Activate(cfg, o, s.(available := s.available + count,
                                  total := if cfg.Total? then s.total + count else s.total), 0))
  }

  // ----- Dividing and joining permits

  predicate CanSplit<P>(cfg: Config, s: Sem<P>, i: nat, count: nat)
    requires i < |s.queue|
  {
    Count(cfg, s.queue[i].d) > count
  }

  /** The guard is left with what the new one does not get. */
  function Reduced<P>(cfg: Config, s: Sem<P>, i: nat, count: nat): Queue<P>
    requires i < |s.queue| && CanSplit(cfg, s, i, count)
  {
    var d := s.queue[i].d;
    s.queue[i := Cell(s.queue[i].h, d.(raw := d.raw - count))]
  }

  function SplitAt<P>(cfg: Config, s: Sem<P>, i: nat, count: nat, priority: P, h: nat, p: nat): Sem<P>
    requires i < |s.queue| && p <= |s.queue| && CanSplit(cfg, s, i, count)
  {
    s.(queue := Insert(Reduced(cfg, s, i, count), p, Cell(h, SemWaiter(priority, true, false, count))))
  }

  predicate CanMerge<P>(cfg: Config, s: Sem<P>, i: nat, j: nat)
    requires i < |s.queue| && j < |s.queue|
  {
    Count(cfg, s.queue[i].d) + Count(cfg, s.queue[j].d) <= MAX_PERMITS
  }

  function Enlarged<P>(q: Queue<P>, i: nat, count: nat): Queue<P>
    requires i < |q|
  {
    q[i := Cell(q[i].h, q[i].d.(raw := q[i].d.raw + count))]
  }

  /** Merging guard `j` into guard `i`.  When the sum would be too large the call returns an error,
      and the guard it was given is dropped on the way out. */
  function Merge<P>(cfg: Config, o: Order<P>, s: Sem<P>, i: nat, j: nat): Sem<P>
    requires i < |s.queue| && j < |s.queue|
  {
    if CanMerge(cfg, s, i, j) then
      s.(queue := Remove(Enlarged(s.queue, i, Count(cfg, s.queue[j].d)), j))
    else Release(cfg, o, s, j)
  }
}
