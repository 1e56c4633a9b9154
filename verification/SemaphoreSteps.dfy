/** Every operation of the semaphore keeps its state in order, loses no permit and strands nobody. */
module SemaphoreSteps {
  import opened Orders
  import opened QueueSpec
  import opened SemaphoreActivation
  import opened Semaphores

  ghost predicate Inv<P>(cfg: Config, o: Order<P>, s: Sem<P>) {
    Sane(cfg, o, s) && Unstranded(cfg, s)
  }

  // ----- Queues that differ in counts and flags only

  ghost predicate SameShape<P>(q: Queue<P>, r: Queue<P>) {
    |q| == |r| && forall i :: 0 <= i < |q| ==> SameRank(q[i], r[i])
  }

  ghost predicate SameRank<P>(c: Cell<nat, SemWaiter<P>>, d: Cell<nat, SemWaiter<P>>) {
    c.h == d.h && c.d.priority == d.d.priority && c.d.held == d.d.held
  }

  lemma ShapeKeepsOrder<P>(cfg: Config, o: Order<P>, q: Queue<P>, r: Queue<P>)
    requires SameShape(q, r)
    ensures Distinct(q) ==> Distinct(r)
    ensures Sorted(SemOrder(cfg, o), q) ==> Sorted(SemOrder(cfg, o), r)
    ensures forall h :: Has(q, h) <==> Has(r, h)
  {
    if Distinct(q) {
      forall i, j | 0 <= i < j < |r| ensures r[i].h != r[j].h {
        assert SameRank(q[i], r[i]) && SameRank(q[j], r[j]);
      }
    }
    if Sorted(SemOrder(cfg, o), q) {
      forall i, j | 0 <= i < j < |r| ensures SemOrder(cfg, o).cmp(r[i].d, r[j].d).IsGe() {
        assert SameRank(q[i], r[i]) && SameRank(q[j], r[j]);
        assert SemOrder(cfg, o).cmp(q[i].d, q[j].d).IsGe();
      }
    }
    forall h ensures Has(q, h) <==> Has(r, h) {
      if Has(q, h) { assert SameRank(q[IndexOf(q, h)], r[IndexOf(q, h)]); }
      if Has(r, h) { assert SameRank(q[IndexOf(r, h)], r[IndexOf(r, h)]); }
    }
  }

  lemma ShapeKeepsDivision<P>(q: Queue<P>, r: Queue<P>, n: nat)
    requires SameShape(q, r) && HeldUpTo(q, n)
    ensures HeldUpTo(r, n)
  {
    forall i | 0 <= i < |r| ensures r[i].d.held == q[i].d.held {
      assert SameRank(q[i], r[i]);
    }
  }

  // ----- The line of waiters

  lemma UnstrandedAt<P>(cfg: Config, s: Sem<P>, n: nat)
    requires HeldUpTo(s.queue, n)
    ensures Unstranded(cfg, s) <==> (n < |s.queue| ==> Blocked(cfg, s.queue[n].d, s.available))
  {
    DividedOnce(s.queue, n);
  }

  lemma RemoveDivides<P>(q: Queue<P>, n: nat, i: nat)
    requires HeldUpTo(q, n) && i < |q|
    ensures HeldUpTo(Remove(q, i), if i < n then n - 1 else n)
  {
    var r := Remove(q, i);
    forall j | 0 <= j < |r| ensures r[j] == q[if j < i then j else j + 1] {}
  }

  lemma InsertDivides<P>(q: Queue<P>, n: nat, p: nat, c: Cell<nat, SemWaiter<P>>)
    requires HeldUpTo(q, n) && p <= |q| && (if c.d.held then p <= n else p >= n)
    ensures HeldUpTo(Insert(q, p, c), if c.d.held then n + 1 else n)
  {
    var r := Insert(q, p, c);
    forall j | 0 <= j < |r| && j != p ensures r[j] == q[if j < p then j else j - 1] {}
  }

  lemma NewVersus<P(!new)>(cfg: Config, o: Order<P>, q: Queue<P>, n: nat, d: SemWaiter<P>, i: nat)
    requires HeldUpTo(q, n) && i < |q|
    ensures d.held && i >= n ==> SemOrder(cfg, o).cmpNew(d, q[i].d) == Greater
    ensures !d.held && i < n ==> SemOrder(cfg, o).cmpNew(d, q[i].d) == Less
  {
  }

  /** A new holder goes among the holders, a new waiter among the waiters. */
  lemma PlaceDivides<P(!new)>(cfg: Config, o: Order<P>, q: Queue<P>, n: nat, p: nat, d: SemWaiter<P>)
    requires HeldUpTo(q, n) && At(SemOrder(cfg, o), q, d, p)
    ensures if d.held then p <= n else p >= n
  {
    if 0 < p {
      NewVersus(cfg, o, q, n, d, p - 1);
    }
    if p < |q| {
      NewVersus(cfg, o, q, n, d, p);
    }
  }

  // ----- Permits and requests given up

  /** Without the entry at `i`, and with its permits, if it held any, available or gone. */
  lemma RemoveKeepsSane<P>(cfg: Config, o: Order<P>, s: Sem<P>, i: nat, available: nat, total: nat)
    requires Sane(cfg, o, s) && i < |s.queue|
    requires available < WORD && total == s.total
    requires cfg.Total? ==> available == s.available + Weight(cfg, s.queue[i].d)
    ensures Sane(cfg, o, Sem(Remove(s.queue, i), available, total))
  {
    DistinctRemove(s.queue, i);
    RemoveKeepsSorted(SemOrder(cfg, o), s.queue, i);
    SumRemove(HeldWeight(cfg), s.queue, i);
    OkRemove(cfg, s.total, s.queue, i);
  }

  lemma HeldFits<P>(cfg: Config, o: Order<P>, s: Sem<P>, i: nat)
    requires Sane(cfg, o, s) && cfg.Total? && i < |s.queue|
    ensures s.available + Weight(cfg, s.queue[i].d) <= s.total < WORD
  {
    SumRemove(HeldWeight(cfg), s.queue, i);
  }

  /** A walk that starts among the holders or at the first waiter. */
  lemma ActivateKeepsInv<P(!new)>(cfg: Config, o: Order<P>, s: Sem<P>, k: nat)
    requires Lawful(o) && Sane(cfg, o, s) && k <= |s.queue|
    requires forall j :: 0 <= j < k ==> s.queue[j].d.held
    ensures Inv(cfg, o, Activate(cfg, o, s, k))
    ensures Activate(cfg, o, s, k).total == s.total
  {
    ActivateIsGreedy(cfg, o, s, k);
  }

  lemma RemovedPrefix<P>(q: Queue<P>, n: nat, i: nat)
    requires HeldUpTo(q, n) && i < |q| && i <= n
    ensures forall j :: 0 <= j < i ==> Remove(q, i)[j].d.held
  {
  }

  /** The permits go back and are handed on. */
  lemma {:induction false} ReturnKeepsInv<P(!new)>(cfg: Config, o: Order<P>, s: Sem<P>, i: nat, available: nat)
    requires Lawful(o) && Sane(cfg, o, s) && i < |s.queue| && s.queue[i].d.held && available < WORD
    requires cfg.Total? ==> available == s.available + Count(cfg, s.queue[i].d)
    ensures var t := Activate(cfg, o, Sem(Remove(s.queue, i), available, s.total), i);
            Inv(cfg, o, t) && t.total == s.total
  {
    hide Activate;
    SortedIsDivided(cfg, o, s.queue);
    RemovedPrefix(s.queue, NumHeld(s.queue), i);
    RemoveKeepsSane(cfg, o, s, i, available, s.total);
    ActivateKeepsInv(cfg, o, Sem(Remove(s.queue, i), available, s.total), i);
  }

  /** A holder goes, and no permits become available. */
  lemma VanishKeepsInv<P(!new)>(cfg: Config, o: Order<P>, s: Sem<P>, i: nat)
    requires Inv(cfg, o, s) && i < |s.queue| && s.queue[i].d.held && !cfg.Total?
    ensures Inv(cfg, o, s.(queue := Remove(s.queue, i)))
  {
    SortedIsDivided(cfg, o, s.queue);
    var n := NumHeld(s.queue);
    RemoveDivides(s.queue, n, i);
    RemoveKeepsSane(cfg, o, s, i, s.available, s.total);
    UnstrandedAt(cfg, s.(queue := Remove(s.queue, i)), n - 1);
  }

  lemma ReleaseKeepsInv<P(!new)>(cfg: Config, o: Order<P>, s: Sem<P>, i: nat)
    requires Lawful(o) && Inv(cfg, o, s) && i < |s.queue| && s.queue[i].d.held
    ensures var t := Release(cfg, o, s, i);
            Inv(cfg, o, t) && t.total == s.total
  {
    hide Activate;
    if cfg.Total? {
      HeldFits(cfg, o, s, i);
    }
    var available := s.available + Count(cfg, s.queue[i].d);
    if !cfg.Total? && available >= WORD {
      VanishKeepsInv(cfg, o, s, i);
    } else {
      ReturnKeepsInv(cfg, o, s, i, available);
    }
  }

  lemma CancelHeldActivates<P>(cfg: Config, o: Order<P>, s: Sem<P>, i: nat)
    requires i < |s.queue| && s.queue[i].d.held
    ensures Cancel(cfg, o, s, i) == Activate(cfg, o, Withdrawn(cfg, s, i), i)
  {
  }

  lemma CancelHeldKeepsInv<P(!new)>(cfg: Config, o: Order<P>, s: Sem<P>, i: nat)
    requires Lawful(o) && Inv(cfg, o, s) && i < |s.queue| && s.queue[i].d.held
    ensures var t := Cancel(cfg, o, s, i);
            Inv(cfg, o, t) && t.total == s.total
  {
    var u := Withdrawn(cfg, s, i);
    if cfg.Total? {
      HeldFits(cfg, o, s, i);
    }
    ReturnKeepsInv(cfg, o, s, i, u.available);
    CancelHeldActivates(cfg, o, s, i);
  }

  lemma WithdrawnWaiter<P>(cfg: Config, o: Order<P>, s: Sem<P>, i: nat) returns (t: Sem<P>, n: nat)
    requires Sane(cfg, o, s) && i < |s.queue| && !s.queue[i].d.held
    ensures t == Withdrawn(cfg, s, i) && t.available == s.available && t.total == s.total
    ensures Sane(cfg, o, t) && n == NumHeld(s.queue) <= i && HeldUpTo(s.queue, n) && HeldUpTo(t.queue, n)
    ensures n < i ==> t.queue[n] == s.queue[n] && !t.queue[i - 1].d.held
  {
    t, n := Withdrawn(cfg, s, i), NumHeld(s.queue);
    SortedIsDivided(cfg, o, s.queue);
    RemoveDivides(s.queue, n, i);
    RemoveKeepsSane(cfg, o, s, i, s.available, s.total);
  }

  /** Only the first waiter can have kept the one behind it from being served. */
  lemma CancelWaitingKeepsInv<P(!new)>(cfg: Config, o: Order<P>, s: Sem<P>, i: nat)
    requires Lawful(o) && Inv(cfg, o, s) && i < |s.queue| && !s.queue[i].d.held
    ensures var t := Cancel(cfg, o, s, i);
            Inv(cfg, o, t) && t.total == s.total
  {
    hide Activate;
    var t, n := WithdrawnWaiter(cfg, o, s, i);
    if i == n {
      ActivateKeepsInv(cfg, o, t, i);
    }
    UnstrandedAt(cfg, t, n);
  }

  lemma CancelKeepsInv<P(!new)>(cfg: Config, o: Order<P>, s: Sem<P>, i: nat)
    requires Lawful(o) && Inv(cfg, o, s) && i < |s.queue|
    ensures var t := Cancel(cfg, o, s, i);
            Inv(cfg, o, t) && t.total == s.total
  {
    if s.queue[i].d.held {
      CancelHeldKeepsInv(cfg, o, s, i);
    } else {
      CancelWaitingKeepsInv(cfg, o, s, i);
    }
  }

  // ----- New requests

  lemma AskedKeepsShape<P>(cfg: Config, o: Order<P>, q: Queue<P>, priority: P)
    ensures SameShape(q, Asked(cfg, o, q, priority))
    ensures HeldSum(cfg, Asked(cfg, o, q, priority)) == HeldSum(cfg, q)
  {
    var r := Asked(cfg, o, q, priority);
    forall i | 0 <= i < |q| ensures SameRank(q[i], r[i]) && r[i].d.raw == q[i].d.raw {}
    SumSame(HeldWeight(cfg), q, r);
  }

  lemma AskedKeepsEntries<P>(cfg: Config, o: Order<P>, q: Queue<P>, priority: P, total: nat)
    requires EntriesOk(cfg, total, q)
    ensures EntriesOk(cfg, total, Asked(cfg, o, q, priority))
    ensures forall i :: 0 <= i < |q| && !q[i].d.held ==> Asked(cfg, o, q, priority)[i] == q[i]
    ensures |Asked(cfg, o, q, priority)| == |q|
  {
    var r := Asked(cfg, o, q, priority);
    forall i | 0 <= i < |q| ensures EntryOk(cfg, total, r[i].d) && (!q[i].d.held ==> r[i] == q[i]) {
      assert EntryOk(cfg, total, q[i].d);
    }
  }

  lemma AskedKeepsSane<P>(cfg: Config, o: Order<P>, s: Sem<P>, priority: P)
    requires Sane(cfg, o, s)
    ensures Sane(cfg, o, s.(queue := Asked(cfg, o, s.queue, priority)))
  {
    AskedKeepsShape(cfg, o, s.queue, priority);
    AskedKeepsEntries(cfg, o, s.queue, priority, s.total);
    ShapeKeepsOrder(cfg, o, s.queue, Asked(cfg, o, s.queue, priority));
  }

  /** What the two acquire functions let through: a count below the limit, tagged only with
      `semaphore-total` and then no larger than the total. */
  predicate RawAllowed(cfg: Config, total: nat, raw: nat) {
    raw < MAX_PERMITS
    || (cfg.Total? && WITHIN_TOTAL_BIT <= raw < WITHIN_TOTAL_BIT + MAX_PERMITS && raw - WITHIN_TOTAL_BIT <= total)
  }

  lemma AcquireKeepsSane<P(!new)>(cfg: Config, o: Order<P>, s: Sem<P>, priority: P, raw: nat, h: nat, p: nat)
    requires Lawful(o) && Sane(cfg, o, s) && RawAllowed(cfg, s.total, raw) && !Has(s.queue, h)
    requires At(SemOrder(cfg, o), Asked(cfg, o, s.queue, priority), NewEntry(cfg, o, s, priority, raw), p)
    requires p <= |s.queue|
    ensures Sane(cfg, o, AcquireAt(cfg, o, s, priority, raw, h, p))
  {
    var q, d := Asked(cfg, o, s.queue, priority), NewEntry(cfg, o, s, priority, raw);
    AskedKeepsSane(cfg, o, s, priority);
    AskedKeepsShape(cfg, o, s.queue, priority);
    ShapeKeepsOrder(cfg, o, s.queue, q);
    SemOrderLaws(cfg, o);
    DistinctInsert(q, p, Cell(h, d));
    InsertKeepsSorted(SemOrder(cfg, o), q, p, Cell(h, d));
    SumInsert(HeldWeight(cfg), q, p, Cell(h, d));
    OkInsert(cfg, s.total, q, p, Cell(h, d));
  }

  /** A request that fits but has to wait stands behind the waiter it has to wait for. */
  lemma WaitsBehind<P(!new)>(cfg: Config, o: Order<P>, q: Queue<P>, d: SemWaiter<P>, p: nat, k: nat)
    requires Lawful(o) && Sorted(SemOrder(cfg, o), q) && At(SemOrder(cfg, o), q, d, p)
    requires k < |q| && !q[k].d.held && !d.held && o.cmp(d.priority, q[k].d.priority) == Less
    ensures k < p
  {
    var so, r := SemOrder(cfg, o), Insert(q, p, Cell(0, d));
    SemOrderLaws(cfg, o);
    InsertKeepsSorted(so, q, p, Cell(0, d));
    assert p <= k ==> so.cmp(r[p].d, r[k + 1].d).IsGe();
  }

  /** The queue that a new request is filed in is divided as before, and so is the new one. */
  lemma AcquireDivides<P(!new)>(cfg: Config, o: Order<P>, s: Sem<P>, priority: P, d: SemWaiter<P>, h: nat, p: nat)
    requires Sane(cfg, o, s) && p <= |s.queue|
    requires At(SemOrder(cfg, o), Asked(cfg, o, s.queue, priority), d, p)
    ensures var n, q := NumHeld(s.queue), Asked(cfg, o, s.queue, priority);
            && HeldUpTo(s.queue, n) && (if d.held then p <= n else p >= n) && |q| == |s.queue|
            && HeldUpTo(Insert(q, p, Cell(h, d)), if d.held then n + 1 else n)
            && (n < |q| ==> q[n] == s.queue[n])
  {
    var q, n := Asked(cfg, o, s.queue, priority), NumHeld(s.queue);
    SortedIsDivided(cfg, o, s.queue);
    AskedKeepsShape(cfg, o, s.queue, priority);
    AskedKeepsEntries(cfg, o, s.queue, priority, s.total);
    ShapeKeepsDivision(s.queue, q, n);
    PlaceDivides(cfg, o, q, n, p, d);
    InsertDivides(q, n, p, Cell(h, d));
  }

  /** Who is first in line once a request has been filed: whoever was before, or the request itself. */
  lemma FirstAfterAcquire<P(!new)>(cfg: Config, o: Order<P>, s: Sem<P>, priority: P, raw: nat, h: nat, p: nat)
      returns (n: nat, t: Sem<P>, m: nat, own: bool)
    requires Sane(cfg, o, s) && p <= |s.queue|
    requires At(SemOrder(cfg, o), Asked(cfg, o, s.queue, priority), NewEntry(cfg, o, s, priority, raw), p)
    ensures HeldUpTo(s.queue, n) && n == NumHeld(s.queue)
    ensures t == AcquireAt(cfg, o, s, priority, raw, h, p) && HeldUpTo(t.queue, m) && t.available <= s.available
    ensures own ==> m < |t.queue| && t.queue[m].d == NewEntry(cfg, o, s, priority, raw) && !t.queue[m].d.held && p == n
    ensures !own && m < |t.queue| ==> n < |s.queue| && t.queue[m] == s.queue[n]
    ensures !own && !NewEntry(cfg, o, s, priority, raw).held ==> t.available == s.available
  {
    hide At, Sane, HeldUpTo, Asked;
    var d := NewEntry(cfg, o, s, priority, raw);
    n, t := NumHeld(s.queue), AcquireAt(cfg, o, s, priority, raw, h, p);
    AcquireDivides(cfg, o, s, priority, d, h, p);
    m, own := if d.held then n + 1 else n, !d.held && p == n;
  }

  lemma AcquireStrandsNobody<P(!new)>(cfg: Config, o: Order<P>, s: Sem<P>, priority: P, raw: nat, h: nat, p: nat)
    requires Lawful(o) && Inv(cfg, o, s) && RawAllowed(cfg, s.total, raw)
    requires At(SemOrder(cfg, o), Asked(cfg, o, s.queue, priority), NewEntry(cfg, o, s, priority, raw), p)
    requires p <= |s.queue|
    ensures Unstranded(cfg, AcquireAt(cfg, o, s, priority, raw, h, p))
  {
    var n, t, m, own := FirstAfterAcquire(cfg, o, s, priority, raw, h, p);
    UnstrandedAt(cfg, s, n);
    UnstrandedAt(cfg, t, m);
    if own {
      OwnDoesNotFit(cfg, o, s, priority, raw, p);
    }
  }

  /** A request that is first in line does not fit. */
  lemma OwnDoesNotFit<P(!new)>(cfg: Config, o: Order<P>, s: Sem<P>, priority: P, raw: nat, p: nat)
    requires Lawful(o) && Sane(cfg, o, s) && RawAllowed(cfg, s.total, raw) && p == NumHeld(s.queue)
    requires At(SemOrder(cfg, o), Asked(cfg, o, s.queue, priority), NewEntry(cfg, o, s, priority, raw), p)
    requires !WillAcquire(cfg, o, s, priority, raw)
    ensures Count(cfg, NewEntry(cfg, o, s, priority, raw)) > s.available
  {
    if s.available >= CountOf(raw) {
      NotFirstInLine(cfg, o, s, priority, raw, p);
    }
  }

  /** A request that fits and yet has to wait is not the first in line. */
  lemma NotFirstInLine<P(!new)>(cfg: Config, o: Order<P>, s: Sem<P>, priority: P, raw: nat, p: nat)
    requires Lawful(o) && Sane(cfg, o, s)
    requires !WillAcquire(cfg, o, s, priority, raw) && s.available >= CountOf(raw)
    requires At(SemOrder(cfg, o), Asked(cfg, o, s.queue, priority), NewEntry(cfg, o, s, priority, raw), p)
    ensures NumHeld(s.queue) < p
  {
    var k := FirstNotSkipped(cfg, s.queue);
    AskedKeepsShape(cfg, o, s.queue, priority);
    AskedKeepsSane(cfg, o, s, priority);
    assert SameRank(s.queue[k], Asked(cfg, o, s.queue, priority)[k]);
    WaitsBehind(cfg, o, Asked(cfg, o, s.queue, priority), NewEntry(cfg, o, s, priority, raw), p, k);
  }

  /** Without `semaphore-total`: a request that is granted at once is outranked by no waiter. */
  lemma AtOnceDoesNotOvertake<P(!new)>(cfg: Config, o: Order<P>, s: Sem<P>, priority: P, raw: nat, j: nat)
    requires Lawful(o) && Sane(cfg, o, s) && !cfg.Total? && WillAcquire(cfg, o, s, priority, raw)
    requires j < |s.queue| && !s.queue[j].d.held
    ensures o.cmp(priority, s.queue[j].d.priority).IsGe()
  {
    var q, k := s.queue, FirstNotSkipped(cfg, s.queue);
    assert k <= j;
    if k < j {
      assert SemOrder(cfg, o).cmp(q[k].d, q[j].d).IsGe();
      Laws(o, priority, q[k].d.priority, q[j].d.priority);
    }
  }

  /** With it, a request granted at once overtakes a waiter exactly when it is outranked by the
      first one; and then that one is not to be evicted, which is what the search skips. */
  lemma AtOnceOvertakes<P(!new)>(cfg: Config, o: Order<P>, s: Sem<P>, priority: P, raw: nat)
    requires Lawful(o) && Sane(cfg, o, s) && WillAcquire(cfg, o, s, priority, raw)
    ensures var q, n := s.queue, NumHeld(s.queue);
            && ((exists j :: 0 <= j < |q| && !q[j].d.held && o.cmp(q[j].d.priority, priority) == Greater)
                <==> n < |q| && o.cmp(q[n].d.priority, priority) == Greater)
            && (n < |q| && o.cmp(q[n].d.priority, priority) == Greater ==> cfg.Total? && !q[n].d.wantsEvict)
  {
    var q, n, k := s.queue, NumHeld(s.queue), FirstNotSkipped(cfg, s.queue);
    SortedIsDivided(cfg, o, q);
    forall j | n <= j < |q| && o.cmp(q[j].d.priority, priority) == Greater
      ensures o.cmp(q[n].d.priority, priority) == Greater
    {
      if n < j {
        assert SemOrder(cfg, o).cmp(q[n].d, q[j].d).IsGe();
        StrictChain(o, q[n].d.priority, q[j].d.priority, priority);
      }
    }
    if n < |q| {
      Laws(o, priority, q[n].d.priority, priority);
      assert k == n || Skipped(cfg, q[n].d);
    }
  }

  // ----- Fewer or more permits

  /** With the total lowered and everybody from the first waiter on checked, the flags are right
      again, and no holder has been flagged. */
  lemma {:induction false} NotifyKeeps<P>(cfg: Config, o: Order<P>, q: Queue<P>, k: nat, oldTotal: nat, total: nat)
    requires cfg.Total? && Sorted(SemOrder(cfg, o), q) && Distinct(q) && EntriesOk(cfg, oldTotal, q)
    requires k <= NumHeld(q) && HeldSum(cfg, q) <= total
    ensures var r := NotifyFrom(cfg, q, k, total);
            && Distinct(r) && Sorted(SemOrder(cfg, o), r) && EntriesOk(cfg, total, r)
            && HeldSum(cfg, r) == HeldSum(cfg, q) && HeldUpTo(r, NumHeld(q))
            && (forall i :: 0 <= i < |q| && q[i].d.held ==> r[i] == q[i])
  {
    var r := NotifyFrom(cfg, q, k, total);
    SortedIsDivided(cfg, o, q);
    forall i | 0 <= i < |q|
      ensures SameRank(q[i], r[i]) && r[i].d.raw == q[i].d.raw
      ensures q[i].d.held ==> r[i] == q[i]
      ensures EntryOk(cfg, total, r[i].d)
    {
      SumRemove(HeldWeight(cfg), q, i);
      assert EntryOk(cfg, oldTotal, q[i].d);
    }
    SumSame(HeldWeight(cfg), q, r);
    ShapeKeepsOrder(cfg, o, q, r);
    ShapeKeepsDivision(q, r, NumHeld(q));
  }

  ghost predicate InOrder<P>(cfg: Config, o: Order<P>, total: nat, q: Queue<P>) {
    Distinct(q) && Sorted(SemOrder(cfg, o), q) && EntriesOk(cfg, total, q)
  }

  lemma NotifyKeepsFirst<P>(cfg: Config, s: Sem<P>, n: nat, t: Sem<P>, k: nat, total: nat)
    requires HeldUpTo(s.queue, n) && Unstranded(cfg, s) && t.available == s.available
    requires t.queue == NotifyFrom(cfg, s.queue, k, total) && HeldUpTo(t.queue, n)
    ensures Unstranded(cfg, t)
  {
    UnstrandedAt(cfg, s, n);
    UnstrandedAt(cfg, t, n);
  }

  /** Lowering the total on a state whose books are right but for that. */
  lemma LoweredKeepsInv<P>(cfg: Config, o: Order<P>, s: Sem<P>, k: nat, count: nat)
    requires InOrder(cfg, o, s.total, s.queue)
    requires s.available < WORD && k <= NumHeld(s.queue) && Unstranded(cfg, s)
    requires cfg.Total? ==> s.total < WORD && s.total == s.available + HeldSum(cfg, s.queue) + count
    ensures Inv(cfg, o, Lowered(cfg, s, k, count))
  {
    hide NotifyFrom, Unstranded;
    SortedIsDivided(cfg, o, s.queue);
    if cfg.Total? {
      NotifyKeeps(cfg, o, s.queue, k, s.total, s.total - count);
      NotifyKeepsFirst(cfg, s, NumHeld(s.queue), Lowered(cfg, s, k, count), k, s.total - count);
    }
  }

  /** Without a holder the first waiter is still the first, one place further on. */
  lemma HolderLeavesFirst<P>(cfg: Config, s: Sem<P>, i: nat)
    requires HeldUpTo(s.queue, NumHeld(s.queue)) && i < NumHeld(s.queue) <= |s.queue| && Unstranded(cfg, s)
    ensures i <= NumHeld(Remove(s.queue, i)) && Unstranded(cfg, s.(queue := Remove(s.queue, i)))
  {
    var n, r := NumHeld(s.queue), Remove(s.queue, i);
    RemoveDivides(s.queue, n, i);
    DividedOnce(r, n - 1);
    UnstrandedAt(cfg, s, n);
    UnstrandedAt(cfg, s.(queue := r), n - 1);
  }

  /** Without a holder the entries are in order, and its permits are missing from the sum. */
  lemma HolderLeavesOrder<P>(cfg: Config, o: Order<P>, total: nat, q: Queue<P>, i: nat)
    requires InOrder(cfg, o, total, q) && i < |q| && q[i].d.held
    ensures InOrder(cfg, o, total, Remove(q, i))
    ensures HeldSum(cfg, q) == HeldSum(cfg, Remove(q, i)) + Count(cfg, q[i].d)
  {
    DistinctRemove(q, i);
    RemoveKeepsSorted(SemOrder(cfg, o), q, i);
    SumRemove(HeldWeight(cfg), q, i);
    OkRemove(cfg, total, q, i);
  }

  lemma ForgetKeepsInv<P>(cfg: Config, o: Order<P>, s: Sem<P>, i: nat)
    requires Inv(cfg, o, s) && i < |s.queue| && s.queue[i].d.held
    ensures cfg.Total? ==> Count(cfg, s.queue[i].d) <= s.total
    ensures Inv(cfg, o, Forget(cfg, s, i))
  {
    hide Unstranded, NotifyFrom, Remove;
    SortedIsDivided(cfg, o, s.queue);
    HolderLeavesFirst(cfg, s, i);
    HolderLeavesOrder(cfg, o, s.total, s.queue, i);
    LoweredKeepsInv(cfg, o, s.(queue := Remove(s.queue, i)), i, Count(cfg, s.queue[i].d));
  }

  lemma ForgetPermitsKeepsInv<P>(cfg: Config, o: Order<P>, s: Sem<P>, count: nat)
    requires Inv(cfg, o, s)
    ensures Inv(cfg, o, ForgetPermits(cfg, s, count))
    ensures !cfg.Total? ==> ForgetPermits(cfg, s, count).queue == s.queue
  {
    var n := Min(count, s.available);
    if n > 0 {
      LoweredKeepsInv(cfg, o, s.(available := s.available - n), 0, n);
    }
  }

  lemma AddPermitsKeepsInv<P(!new)>(cfg: Config, o: Order<P>, s: Sem<P>, count: nat)
    requires Lawful(o) && Inv(cfg, o, s) && TryAddPermits(cfg, o, s, count).Some?
    ensures var t := TryAddPermits(cfg, o, s, count).value;
            Inv(cfg, o, t)
  {
    hide Activate;
    var u := s.(available := s.available + count, total := if cfg.Total? then s.total + count else s.total);
    forall i | 0 <= i < |u.queue| ensures EntryOk(cfg, u.total, u.queue[i].d) {
      assert EntryOk(cfg, s.total, s.queue[i].d);
    }
    ActivateKeepsInv(cfg, o, u, 0);
  }

  // ----- Dividing and joining

  /** The state between the two steps of a split or a merge: all is well except that `missing`
      permits are nobody's, or `twice` permits are counted twice. */
  ghost predicate HalfWay<P>(cfg: Config, o: Order<P>, s: Sem<P>, n: nat, missing: nat, twice: nat) {
    && InOrder(cfg, o, s.total, s.queue) && HeldUpTo(s.queue, n) && Unstranded(cfg, s)
    && s.available < WORD
    && (cfg.Total? ==> s.total < WORD && s.total + twice == s.available + HeldSum(cfg, s.queue) + missing)
  }

  lemma RecountKeepsShape<P>(cfg: Config, o: Order<P>, total: nat, q: Queue<P>, i: nat, raw: nat)
    requires i < |q| && q[i].d.held && EntriesOk(cfg, total, q)
    requires if cfg.Total? then raw < WORD else raw <= MAX_PERMITS
    ensures var r := q[i := Cell(q[i].h, q[i].d.(raw := raw))];
            SameShape(q, r) && EntriesOk(cfg, total, r)
  {
    var r := q[i := Cell(q[i].h, q[i].d.(raw := raw))];
    forall j | 0 <= j < |q| ensures SameRank(q[j], r[j]) && EntryOk(cfg, total, r[j].d) {
      assert EntryOk(cfg, total, q[j].d);
    }
  }

  /** Giving a holder another count leaves everything else as it was. */
  lemma RecountKeeps<P>(cfg: Config, o: Order<P>, s: Sem<P>, i: nat, raw: nat) returns (u: Sem<P>)
    requires Inv(cfg, o, s) && i < |s.queue| && s.queue[i].d.held
    requires if cfg.Total? then raw < WORD else raw <= MAX_PERMITS
    ensures u == s.(queue := s.queue[i := Cell(s.queue[i].h, s.queue[i].d.(raw := raw))])
    ensures HalfWay(cfg, o, u, NumHeld(s.queue), Count(cfg, s.queue[i].d), Count(cfg, u.queue[i].d))
    ensures forall h :: Has(u.queue, h) <==> Has(s.queue, h)
  {
    var n, c := NumHeld(s.queue), Cell(s.queue[i].h, s.queue[i].d.(raw := raw));
    u := s.(queue := s.queue[i := c]);
    SortedIsDivided(cfg, o, s.queue);
    RecountKeepsShape(cfg, o, s.total, s.queue, i, raw);
    ShapeKeepsOrder(cfg, o, s.queue, u.queue);
    ShapeKeepsDivision(s.queue, u.queue, n);
    SumRewrite(HeldWeight(cfg), s.queue, i, c.d);
    UnstrandedAt(cfg, s, n);
    UnstrandedAt(cfg, u, n);
  }

  /** Subtracting from the raw count never borrows from the tag. */
  lemma SplitCounts<P>(cfg: Config, d: SemWaiter<P>, count: nat)
    requires if cfg.Total? then d.raw < WORD else d.raw <= MAX_PERMITS
    requires 0 < count < Count(cfg, d)
    ensures var e := d.(raw := d.raw - count);
            && Count(cfg, e) == Count(cfg, d) - count && Count(cfg, e) > 0 && Tagged(e) == Tagged(d)
            && (if cfg.Total? then e.raw < WORD else e.raw <= MAX_PERMITS)
            && CountOf(count) == count && count < WITHIN_TOTAL_BIT
  {
  }

  /** Adding to it never carries into the tag. */
  lemma MergeCounts<P>(cfg: Config, d: SemWaiter<P>, count: nat)
    requires if cfg.Total? then d.raw < WORD else d.raw <= MAX_PERMITS
    requires Count(cfg, d) + count <= MAX_PERMITS
    ensures var e := d.(raw := d.raw + count);
            && Count(cfg, e) == Count(cfg, d) + count && Tagged(e) == Tagged(d)
            && (if cfg.Total? then e.raw < WORD else e.raw <= MAX_PERMITS)
  {
  }

  lemma PutInHolder<P(!new)>(cfg: Config, o: Order<P>, total: nat, q: Queue<P>, n: nat, p: nat,
                             c: Cell<nat, SemWaiter<P>>)
    requires Lawful(o) && InOrder(cfg, o, total, q) && HeldUpTo(q, n) && !Has(q, c.h)
    requires At(SemOrder(cfg, o), q, c.d, p) && p <= |q| && c.d.held && EntryOk(cfg, total, c.d)
    ensures var r := Insert(q, p, c);
            && InOrder(cfg, o, total, r) && HeldUpTo(r, n + 1)
            && HeldSum(cfg, r) == HeldSum(cfg, q) + Count(cfg, c.d)
            && (n < |q| ==> r[n + 1] == q[n])
  {
    SemOrderLaws(cfg, o);
    DistinctInsert(q, p, c);
    InsertKeepsSorted(SemOrder(cfg, o), q, p, c);
    SumInsert(HeldWeight(cfg), q, p, c);
    OkInsert(cfg, total, q, p, c);
    PlaceDivides(cfg, o, q, n, p, c.d);
    InsertDivides(q, n, p, c);
  }

  lemma TakeOutHolder<P>(cfg: Config, o: Order<P>, total: nat, q: Queue<P>, n: nat, i: nat)
    requires InOrder(cfg, o, total, q) && HeldUpTo(q, n) && i < n
    ensures var r := Remove(q, i);
            && InOrder(cfg, o, total, r) && HeldUpTo(r, n - 1)
            && HeldSum(cfg, q) == HeldSum(cfg, r) + Count(cfg, q[i].d)
            && (n < |q| ==> r[n - 1] == q[n])
  {
    DistinctRemove(q, i);
    RemoveKeepsSorted(SemOrder(cfg, o), q, i);
    SumRemove(HeldWeight(cfg), q, i);
    OkRemove(cfg, total, q, i);
    RemoveDivides(q, n, i);
  }

  /** Where the line begins makes no difference to whether its first is stranded. */
  lemma SameFirst<P>(cfg: Config, s: Sem<P>, n: nat, t: Sem<P>, m: nat)
    requires HeldUpTo(s.queue, n) && HeldUpTo(t.queue, m) && Unstranded(cfg, s) && s.available == t.available
    requires m < |t.queue| ==> n < |s.queue| && t.queue[m] == s.queue[n]
    ensures Unstranded(cfg, t)
  {
    UnstrandedAt(cfg, s, n);
    UnstrandedAt(cfg, t, m);
  }

  lemma PutInKeepsInv<P(!new)>(cfg: Config, o: Order<P>, s: Sem<P>, n: nat, p: nat, c: Cell<nat, SemWaiter<P>>)
    requires Lawful(o) && HalfWay(cfg, o, s, n, Count(cfg, c.d), 0)
    requires !Has(s.queue, c.h) && c.d.held && EntryOk(cfg, s.total, c.d)
    requires At(SemOrder(cfg, o), s.queue, c.d, p) && p <= |s.queue|
    ensures Inv(cfg, o, s.(queue := Insert(s.queue, p, c)))
  {
    PutInHolder(cfg, o, s.total, s.queue, n, p, c);
    SameFirst(cfg, s, n, s.(queue := Insert(s.queue, p, c)), n + 1);
  }

  lemma TakeOutKeepsInv<P>(cfg: Config, o: Order<P>, s: Sem<P>, n: nat, i: nat)
    requires i < n <= |s.queue| && HalfWay(cfg, o, s, n, 0, Count(cfg, s.queue[i].d))
    ensures Inv(cfg, o, s.(queue := Remove(s.queue, i)))
  {
    TakeOutHolder(cfg, o, s.total, s.queue, n, i);
    SameFirst(cfg, s, n, s.(queue := Remove(s.queue, i)), n - 1);
  }

  lemma ReducedKeeps<P>(cfg: Config, o: Order<P>, s: Sem<P>, i: nat, count: nat) returns (u: Sem<P>, n: nat)
    requires Inv(cfg, o, s) && i < |s.queue| && s.queue[i].d.held && 0 < count && CanSplit(cfg, s, i, count)
    ensures u == s.(queue := Reduced(cfg, s, i, count)) && HalfWay(cfg, o, u, n, count, 0)
    ensures forall h :: Has(u.queue, h) <==> Has(s.queue, h)
    ensures CountOf(count) == count && count <= MAX_PERMITS
  {
    n := NumHeld(s.queue);
    assert EntryOk(cfg, s.total, s.queue[i].d);
    SplitCounts(cfg, s.queue[i].d, count);
    u := RecountKeeps(cfg, o, s, i, s.queue[i].d.raw - count);
  }

  lemma SplitKeepsInv<P(!new)>(cfg: Config, o: Order<P>, s: Sem<P>, i: nat, count: nat, priority: P, h: nat, p: nat)
    requires Lawful(o) && Inv(cfg, o, s) && i < |s.queue| && s.queue[i].d.held
    requires 0 < count && CanSplit(cfg, s, i, count) && !Has(s.queue, h)
    requires At(SemOrder(cfg, o), Reduced(cfg, s, i, count), SemWaiter(priority, true, false, count), p)
    requires p <= |s.queue|
    ensures Inv(cfg, o, SplitAt(cfg, s, i, count, priority, h, p))
  {
    var u, n := ReducedKeeps(cfg, o, s, i, count);
    PutInKeepsInv(cfg, o, u, n, p, Cell(h, SemWaiter(priority, true, false, count)));
  }

  lemma EnlargedKeeps<P>(cfg: Config, o: Order<P>, s: Sem<P>, i: nat, count: nat) returns (u: Sem<P>, n: nat)
    requires Inv(cfg, o, s) && i < |s.queue| && s.queue[i].d.held && Count(cfg, s.queue[i].d) + count <= MAX_PERMITS
    ensures u == s.(queue := Enlarged(s.queue, i, count)) && HalfWay(cfg, o, u, n, 0, count)
    ensures n == NumHeld(s.queue)
  {
    n := NumHeld(s.queue);
    assert EntryOk(cfg, s.total, s.queue[i].d);
    MergeCounts(cfg, s.queue[i].d, count);
    u := RecountKeeps(cfg, o, s, i, s.queue[i].d.raw + count);
  }

  lemma MergeKeepsInv<P(!new)>(cfg: Config, o: Order<P>, s: Sem<P>, i: nat, j: nat)
    requires Lawful(o) && Inv(cfg, o, s) && i < |s.queue| && j < |s.queue| && i != j
    requires s.queue[i].d.held && s.queue[j].d.held
    ensures Inv(cfg, o, Merge(cfg, o, s, i, j))
  {
    if CanMerge(cfg, s, i, j) {
      SortedIsDivided(cfg, o, s.queue);
      var u, n := EnlargedKeeps(cfg, o, s, i, Count(cfg, s.queue[j].d));
      TakeOutKeepsInv(cfg, o, u, n, j);
    } else {
      ReleaseKeepsInv(cfg, o, s, j);
    }
  }
}
