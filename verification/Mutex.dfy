/** The mutex of src/mutex.rs as a state machine over the queue: the holder is pinned to the head
    and everybody else waits behind it by priority.  A guard is the handle of its entry, whether
    it has the lock already or still waits for it. */
module Mutexes {
  import opened Orders
  import opened QueueSpec

  /** `ticket` is not in the source: it numbers the requests in the order in which they came. */
  datatype MutexWaiter<+P> = MutexWaiter(priority: P, hasLock: bool, wantsEvict: bool, ticket: nat)

  type Queue<P> = seq<Cell<nat, MutexWaiter<P>>>

  /** `compare` ignores the lock; `compare_new` never puts a new entry before the holder. */
  function MutexOrder<P>(o: Order<P>): Order<MutexWaiter<P>> {
    Order((a: MutexWaiter<P>, b: MutexWaiter<P>) => o.cmp(a.priority, b.priority),
          (a: MutexWaiter<P>, b: MutexWaiter<P>) =>
            if b.hasLock then Less else o.cmpNew(a.priority, b.priority))
  }

  /** The requests come with a handle and, where the queue has a choice, a place. */
  datatype Op<P> = TryLock(priority: P, h: nat) | Lock(priority: P, h: nat, p: nat) | DropGuard(i: nat)

  /** `clock` is the next ticket. */
  datatype Mutex<P> = Mutex(queue: Queue<P>, clock: nat)

  function WithEvict<P>(q: Queue<P>): Queue<P>
    requires q != []
  {
    q[0 := Cell(q[0].h, q[0].d.(wantsEvict := true))]
  }

  /** What a `lock` of this priority does to the queue before it files its own entry. */
  function Asked<P>(o: Order<P>, evict: bool, q: Queue<P>, priority: P): (r: Queue<P>)
    requires q != []
    ensures |r| == |q| && r[1..] == q[1..] && r[0].h == q[0].h
    ensures r[0].d == q[0].d || r[0].d == q[0].d.(wantsEvict := true)
  {
    if evict && o.cmp(priority, q[0].d.priority) == Greater then WithEvict(q) else q
  }

  function Waiting<P>(priority: P, ticket: nat): MutexWaiter<P> {
    MutexWaiter(priority, false, false, ticket)
  }

  /** The head, if there is one, gets the lock. */
  function HandOver<P>(q: Queue<P>): Queue<P> {
    if q == [] then q else q[0 := Cell(q[0].h, q[0].d.(hasLock := true))]
  }

  ghost predicate Enabled<P>(o: Order<P>, evict: bool, m: Mutex<P>, op: Op<P>) {
    match op
    case TryLock(priority, h) => !Has(m.queue, h)
    case Lock(priority, h, p) =>
      !Has(m.queue, h) &&
      (m.queue != [] ==> At(MutexOrder(o), Asked(o, evict, m.queue, priority), Waiting(priority, m.clock), p))
    case DropGuard(i) => i < |m.queue|
  }

  function Apply<P>(o: Order<P>, evict: bool, m: Mutex<P>, op: Op<P>): Mutex<P> {
    match op
    case TryLock(priority, h) =>
      if m.queue == [] then Mutex([Cell(h, Waiting(priority, m.clock).(hasLock := true))], m.clock + 1) else m
    case Lock(priority, h, p) =>
      if m.queue == [] then Mutex([Cell(h, Waiting(priority, m.clock).(hasLock := true))], m.clock + 1)
      else if p > |m.queue| then m
      else Mutex(Insert(Asked(o, evict, m.queue, priority), p, Cell(h, Waiting(priority, m.clock))), m.clock + 1)
    case DropGuard(i) =>
      if i >= |m.queue| then m
      else
        var rest := Remove(m.queue, i);
        m.(queue := if m.queue[i].d.hasLock then HandOver(rest) else rest)
  }

  ghost predicate Possible<P>(o: Order<P>, evict: bool, run: seq<Op<P>>) {
    run == [] ||
    (Possible(o, evict, run[..|run| - 1])
     && Enabled(o, evict, After(o, evict, run[..|run| - 1]), run[|run| - 1]))
  }

  function After<P>(o: Order<P>, evict: bool, run: seq<Op<P>>): Mutex<P> {
    if run == [] then Mutex([], 0) else Apply(o, evict, After(o, evict, run[..|run| - 1]), run[|run| - 1])
  }

  // ----- What every operation keeps

  /** The head, and nobody else, has the lock. */
  ghost predicate OneHolder<P>(q: Queue<P>) {
    forall i :: 0 <= i < |q| ==> (q[i].d.hasLock <==> i == 0)
  }

  /** Those behind the head wait by priority. */
  ghost predicate WaitersSorted<P>(o: Order<P>, q: Queue<P>) {
    forall i, j :: 0 < i < j < |q| ==> o.cmp(q[i].d.priority, q[j].d.priority).IsGe()
  }

  /** A holder that has not been asked to leave is outranked by no waiter. */
  ghost predicate Covered<P>(o: Order<P>, evict: bool, q: Queue<P>) {
    evict && q != [] && !q[0].d.wantsEvict ==>
      forall i :: 0 < i < |q| ==> o.cmp(q[0].d.priority, q[i].d.priority).IsGe()
  }

  predicate Tied<P>(o: Order<P>, q: Queue<P>, i: nat, j: nat)
    requires i < |q| && j < |q|
  {
    o.cmp(q[i].d.priority, q[j].d.priority) == Equal
  }

  /** Waiters of one priority stand in their order of arrival, or against it. */
  ghost predicate Arrived<P(!new)>(o: Order<P>, m: Mutex<P>) {
    var q := m.queue;
    && (forall i :: 0 <= i < |q| ==> q[i].d.ticket < m.clock)
    && (OldestFirst(o) ==> forall i, j | 0 < i < j < |q| && Tied(o, q, i, j) :: q[i].d.ticket < q[j].d.ticket)
    && (NewestFirst(o) ==> forall i, j | 0 < i < j < |q| && Tied(o, q, i, j) :: q[i].d.ticket > q[j].d.ticket)
  }

  ghost predicate Inv<P(!new)>(o: Order<P>, evict: bool, m: Mutex<P>) {
    && Distinct(m.queue)
    && OneHolder(m.queue)
    && WaitersSorted(o, m.queue)
    && Covered(o, evict, m.queue)
    && Arrived(o, m)
  }

  /** A new entry compares with every waiter as its priority does, and is below the holder. */
  lemma NewEntry<P(!new)>(o: Order<P>, q: Queue<P>, d: MutexWaiter<P>, i: nat)
    requires OneHolder(q) && i < |q|
    ensures MutexOrder(o).cmpNew(d, q[i].d) == if i == 0 then Less else o.cmpNew(d.priority, q[i].d.priority)
  {
  }

  /** Wherever a queue files a new entry, it is behind the holder. */
  lemma NotBeforeHolder<P(!new)>(o: Order<P>, q: Queue<P>, d: MutexWaiter<P>, p: nat)
    requires OneHolder(q) && q != [] && At(MutexOrder(o), q, d, p)
    ensures 0 < p <= |q|
  {
    NewEntry(o, q, d, 0);
  }

  /** Those before the place rank no lower than the new entry, those after it no higher; where they
      tie, the order's own rule has put the new entry on this side of them. */
  lemma Neighbours<P(!new)>(o: Order<P>, q: Queue<P>, d: MutexWaiter<P>, p: nat, i: nat)
    requires Lawful(o) && OneHolder(q) && WaitersSorted(o, q) && q != []
    requires At(MutexOrder(o), q, d, p) && 0 < i < |q|
    ensures i < p ==> o.cmp(q[i].d.priority, d.priority).IsGe()
    ensures i >= p ==> o.cmp(d.priority, q[i].d.priority).IsGe()
    ensures OldestFirst(o) && i >= p ==> o.cmp(d.priority, q[i].d.priority) == Greater
    ensures NewestFirst(o) && i < p ==> o.cmp(q[i].d.priority, d.priority) == Greater
  {
    NotBeforeHolder(o, q, d, p);
    var x, y := d.priority, q[i].d.priority;
    if i < p {
      NewEntry(o, q, d, p - 1);
      var z := q[p - 1].d.priority;
      Laws(o, x, z, y);
      StrictDown(o, y, z, x);
    } else {
      Laws(o, x, y, x);
      if p < |q| && o.cmpNew(x, q[p].d.priority).IsGe() {
        var z := q[p].d.priority;
        Laws(o, x, z, y);
        Laws(o, z, z, z);
        StrictDown(o, x, z, y);
      } else {
        NewEntry(o, q, d, p - 1);
        var z := q[p - 1].d.priority;
        Laws(o, x, z, y);
      }
    }
  }

  lemma StrictDown<P(!new)>(o: Order<P>, a: P, b: P, c: P)
    requires Lawful(o)
    ensures o.cmp(a, b).IsGe() && o.cmp(b, c).IsGe() ==> o.cmp(a, c).IsGe()
    ensures o.cmp(a, b).IsGe() && o.cmp(b, c) == Greater ==> o.cmp(a, c) == Greater
    ensures o.cmp(a, b) == Greater && o.cmp(b, c).IsGe() ==> o.cmp(a, c) == Greater
    ensures o.cmp(b, a) == o.cmp(a, b).Reverse()
  {
    Laws(o, a, b, c);
    if o.cmp(a, b).IsGe() && o.cmp(b, c).IsGe() {
      StrictChain(o, a, b, c);
    }
  }

  /** Asking the holder to leave changes nothing but that. */
  lemma AskedKeeps<P(!new)>(o: Order<P>, evict: bool, m: Mutex<P>, priority: P)
    requires Lawful(o) && Inv(o, evict, m) && m.queue != []
    ensures var q := Asked(o, evict, m.queue, priority);
            && Distinct(q) && OneHolder(q) && WaitersSorted(o, q) && Covered(o, evict, q)
            && Arrived(o, Mutex(q, m.clock))
            && (forall h :: Has(q, h) <==> Has(m.queue, h))
            && (evict && !q[0].d.wantsEvict ==> o.cmp(q[0].d.priority, priority).IsGe())
  {
    var q := Asked(o, evict, m.queue, priority);
    forall i | 0 <= i < |q| ensures q[i].h == m.queue[i].h && (i > 0 ==> q[i] == m.queue[i]) {
      assert i > 0 ==> q[1..][i - 1] == m.queue[1..][i - 1];
    }
    forall i, j | 0 < i < j < |q| && Tied(o, q, i, j) ensures Tied(o, m.queue, i, j) {}
    forall h ensures Has(q, h) <==> Has(m.queue, h) {
      if Has(q, h) { assert m.queue[IndexOf(q, h)].h == h; }
      if Has(m.queue, h) { assert q[IndexOf(m.queue, h)].h == h; }
    }
    Laws(o, priority, q[0].d.priority, priority);
  }

  lemma LockKeepsInv<P(!new)>(o: Order<P>, evict: bool, m: Mutex<P>, op: Op<P>)
    requires Lawful(o) && Inv(o, evict, m) && op.Lock? && Enabled(o, evict, m, op) && m.queue != []
    ensures Inv(o, evict, Apply(o, evict, m, op))
  {
    var q, d := Asked(o, evict, m.queue, op.priority), Waiting(op.priority, m.clock);
    AskedKeeps(o, evict, m, op.priority);
    NotBeforeHolder(o, q, d, op.p);
    InsertKeepsInv(o, evict, Mutex(q, m.clock), op.p, Cell(op.h, d));
  }

  /** Whatever place the queue finds, filing the request there is a step of the mutex. */
  lemma LockIsStep<P(!new)>(o: Order<P>, evict: bool, m: Mutex<P>, priority: P, h: nat, p: nat)
    requires Lawful(o) && Inv(o, evict, m) && m.queue != []
    requires var q := Asked(o, evict, m.queue, priority);
             !Has(q, h) && At(MutexOrder(o), q, Waiting(priority, m.clock), p)
    ensures Enabled(o, evict, m, Lock(priority, h, p))
    ensures p <= |m.queue|
    ensures var q := Insert(Asked(o, evict, m.queue, priority), p, Cell(h, Waiting(priority, m.clock)));
            var r := Mutex(q, m.clock + 1);
            r == Apply(o, evict, m, Lock(priority, h, p)) && Inv(o, evict, r)
  {
    AskedKeeps(o, evict, m, priority);
    NotBeforeHolder(o, Asked(o, evict, m.queue, priority), Waiting(priority, m.clock), p);
    LockKeepsInv(o, evict, m, Lock(priority, h, p));
  }

  lemma InsertKeepsInv<P(!new)>(o: Order<P>, evict: bool, m: Mutex<P>, p: nat, c: Cell<nat, MutexWaiter<P>>)
    requires Lawful(o) && Inv(o, evict, m) && m.queue != [] && !Has(m.queue, c.h)
    requires At(MutexOrder(o), m.queue, c.d, p) && 0 < p <= |m.queue|
    requires !c.d.hasLock && c.d.ticket == m.clock
    requires evict && !m.queue[0].d.wantsEvict ==> o.cmp(m.queue[0].d.priority, c.d.priority).IsGe()
    ensures Inv(o, evict, Mutex(Insert(m.queue, p, c), m.clock + 1))
  {
    var q := m.queue;
    DistinctInsert(q, p, c);
    forall i | 0 < i < |q|
      ensures i < p ==> o.cmp(q[i].d.priority, c.d.priority).IsGe()
      ensures i >= p ==> o.cmp(c.d.priority, q[i].d.priority).IsGe()
      ensures OldestFirst(o) && i >= p ==> o.cmp(c.d.priority, q[i].d.priority) == Greater
      ensures NewestFirst(o) && i < p ==> o.cmp(q[i].d.priority, c.d.priority) == Greater
    {
      Neighbours(o, q, c.d, p, i);
    }
    InsertedArrived(o, q, m.clock, p, c);
  }

  lemma {:induction false} InsertedArrived<P(!new)>(o: Order<P>, q: Queue<P>, clock: nat, p: nat,
                                                    c: Cell<nat, MutexWaiter<P>>)
    requires Arrived(o, Mutex(q, clock)) && 0 < p <= |q| && c.d.ticket == clock
    requires OldestFirst(o) ==> forall i :: p <= i < |q| ==> o.cmp(c.d.priority, q[i].d.priority) != Equal
    requires NewestFirst(o) ==> forall i :: 0 < i < p ==> o.cmp(q[i].d.priority, c.d.priority) != Equal
    ensures Arrived(o, Mutex(Insert(q, p, c), clock + 1))
  {
    var r := Insert(q, p, c);
    forall i, j | 0 < i < j < |r| && Tied(o, r, i, j)
      ensures OldestFirst(o) ==> r[i].d.ticket < r[j].d.ticket
      ensures NewestFirst(o) ==> r[i].d.ticket > r[j].d.ticket
    {
      if i != p && j != p {
        assert Tied(o, q, if i < p then i else i - 1, if j < p then j else j - 1);
      }
    }
  }

  lemma {:induction false} RemovedArrived<P(!new)>(o: Order<P>, m: Mutex<P>, i: nat)
    requires Arrived(o, m) && i < |m.queue|
    ensures Arrived(o, m.(queue := Remove(m.queue, i)))
  {
    var q, r := m.queue, Remove(m.queue, i);
    forall a | 0 <= a < |r| ensures r[a] == q[if a < i then a else a + 1] {}
    forall a, b | 0 < a < b < |r| && Tied(o, r, a, b)
      ensures Tied(o, q, if a < i then a else a + 1, if b < i then b else b + 1)
    {
    }
  }

  lemma {:induction false} DropKeepsInv<P(!new)>(o: Order<P>, evict: bool, m: Mutex<P>, i: nat)
    requires Inv(o, evict, m) && i < |m.queue|
    ensures Inv(o, evict, Apply(o, evict, m, DropGuard(i)))
  {
    var q, r := m.queue, Remove(m.queue, i);
    DistinctRemove(q, i);
    RemovedArrived(o, m, i);
    forall a | 0 <= a < |r| ensures r[a] == q[if a < i then a else a + 1] {}
    if q[i].d.hasLock {
      HandOverKeeps(o, evict, Mutex(r, m.clock));
    }
  }

  lemma HandOverKeeps<P(!new)>(o: Order<P>, evict: bool, m: Mutex<P>)
    requires Distinct(m.queue) && Arrived(o, m)
    requires forall i :: 0 <= i < |m.queue| ==> !m.queue[i].d.hasLock
    requires forall i, j :: 0 <= i < j < |m.queue| ==> o.cmp(m.queue[i].d.priority, m.queue[j].d.priority).IsGe()
    ensures Inv(o, evict, m.(queue := HandOver(m.queue)))
  {
    var q := HandOver(m.queue);
    forall i, j | 0 < i < j < |q| && Tied(o, q, i, j) ensures Tied(o, m.queue, i, j) {}
  }

  lemma {:induction false} StepKeepsInv<P(!new)>(o: Order<P>, evict: bool, m: Mutex<P>, op: Op<P>)
    requires Lawful(o) && Inv(o, evict, m) && Enabled(o, evict, m, op)
    ensures Inv(o, evict, Apply(o, evict, m, op))
  {
    match op
    case TryLock(_, _) =>
    case Lock(_, _, _) => if m.queue != [] { LockKeepsInv(o, evict, m, op); }
    case DropGuard(i) => DropKeepsInv(o, evict, m, i);
  }

  lemma {:induction false} RunKeepsInv<P(!new)>(o: Order<P>, evict: bool, run: seq<Op<P>>)
    requires Lawful(o) && Possible(o, evict, run)
    ensures Inv(o, evict, After(o, evict, run))
  {
    if run != [] {
      RunKeepsInv(o, evict, run[..|run| - 1]);
      StepKeepsInv(o, evict, After(o, evict, run[..|run| - 1]), run[|run| - 1]);
    }
  }

  // ----- What that means for every run

  /** Mutual exclusion and progress: exactly one request has the lock, unless there is none at all,
      and it is the head of the queue. */
  lemma {:induction false} MutualExclusion<P(!new)>(o: Order<P>, evict: bool, run: seq<Op<P>>)
    requires Lawful(o) && Possible(o, evict, run)
    ensures var q := After(o, evict, run).queue;
            && (q != [] ==> q[0].d.hasLock)
            && (forall i, j :: 0 <= i < |q| && 0 <= j < |q| && q[i].d.hasLock && q[j].d.hasLock ==> i == j)
  {
    RunKeepsInv(o, evict, run);
  }

  /** With eviction, a holder that any waiter outranks has been asked to leave. */
  lemma {:induction false} EvictionCoverage<P(!new)>(o: Order<P>, run: seq<Op<P>>, i: nat)
    requires Lawful(o) && Possible(o, true, run) && i < |After(o, true, run).queue|
    ensures var q := After(o, true, run).queue;
            o.cmp(q[i].d.priority, q[0].d.priority) == Greater ==> q[0].d.wantsEvict
  {
    RunKeepsInv(o, true, run);
    var q := After(o, true, run).queue;
    Laws(o, q[i].d.priority, q[0].d.priority, q[0].d.priority);
  }

  /** A later request never takes the lock away from the holder. */
  lemma {:induction false} LockKeepsHolder<P(!new)>(o: Order<P>, evict: bool, run: seq<Op<P>>, priority: P,
                                                    h: nat, p: nat)
    requires Lawful(o) && Possible(o, evict, run) && After(o, evict, run).queue != []
    requires Enabled(o, evict, After(o, evict, run), Lock(priority, h, p))
    ensures var m := After(o, evict, run);
            var r := Apply(o, evict, m, Lock(priority, h, p)).queue;
            && |r| == |m.queue| + 1 && r[0].h == m.queue[0].h && r[0].d.hasLock
            && 0 < p <= |m.queue| && r[p] == Cell(h, Waiting(priority, m.clock))
  {
    RunKeepsInv(o, evict, run);
    var q := After(o, evict, run).queue;
    NotBeforeHolder(o, Asked(o, evict, q, priority), Waiting(priority, After(o, evict, run).clock), p);
  }

  /** When the holder lets go, the lock goes to a waiter that no other waiter outranks; among
      equals to the oldest under FIFO and to the newest under LIFO.  The others keep waiting. */
  lemma HandoverOrder<P(!new)>(o: Order<P>, evict: bool, run: seq<Op<P>>, j: nat)
    requires Lawful(o) && Possible(o, evict, run)
    requires 1 < |After(o, evict, run).queue| && 1 <= j < |After(o, evict, run).queue|
    ensures var m := After(o, evict, run);
            var q, r := m.queue, Apply(o, evict, m, DropGuard(0)).queue;
            && r == [Cell(q[1].h, q[1].d.(hasLock := true))] + q[2..]
            && o.cmp(q[1].d.priority, q[j].d.priority).IsGe()
            && (OldestFirst(o) && j > 1 && Tied(o, q, 1, j) ==> q[1].d.ticket < q[j].d.ticket)
            && (NewestFirst(o) && j > 1 && Tied(o, q, 1, j) ==> q[1].d.ticket > q[j].d.ticket)
  {
    RunKeepsInv(o, evict, run);
    var q := After(o, evict, run).queue;
    Laws(o, q[1].d.priority, q[1].d.priority, q[1].d.priority);
  }

  /** Giving up a request that still waits changes nothing for anybody else. */
  lemma CancelKeepsOthers<P(!new)>(o: Order<P>, evict: bool, run: seq<Op<P>>, i: nat)
    requires Lawful(o) && Possible(o, evict, run) && 0 < i < |After(o, evict, run).queue|
    ensures var m := After(o, evict, run);
            Apply(o, evict, m, DropGuard(i)) == m.(queue := Remove(m.queue, i))
  {
    RunKeepsInv(o, evict, run);
  }

  /** The pinned holder breaks the rule that `compare_new` has to agree with `compare` whenever
      that is not a tie, so the queue is not sorted by `compare`; yet a new entry has one place
      only, the same on every queue, as long as the order decides all ties. */
  lemma PlaceIsUnique<P(!new)>(o: Order<P>, evict: bool, run: seq<Op<P>>, priority: P, p: nat)
    requires Lawful(o) && NeverTies(o) && TieUniform(o) && Possible(o, evict, run)
    requires After(o, evict, run).queue != []
    ensures var m := After(o, evict, run);
            var q, d := Asked(o, evict, m.queue, priority), Waiting(priority, m.clock);
            At(MutexOrder(o), q, d, p) <==> p == Walk(MutexOrder(o), q, d)
  {
    RunKeepsInv(o, evict, run);
    var m := After(o, evict, run);
    AskedKeeps(o, evict, m, priority);
    PlaceIsWalk(o, Asked(o, evict, m.queue, priority), Waiting(priority, m.clock), p);
  }

  lemma PlaceIsWalk<P(!new)>(o: Order<P>, q: Queue<P>, d: MutexWaiter<P>, p: nat)
    requires Lawful(o) && NeverTies(o) && TieUniform(o)
    requires OneHolder(q) && WaitersSorted(o, q) && q != []
    ensures At(MutexOrder(o), q, d, p) <==> p == Walk(MutexOrder(o), q, d)
  {
    WaitersMakePrefix(o, q, d);
    if At(MutexOrder(o), q, d, p) {
      NotBeforeHolder(o, q, d, p);
      NewEntry(o, q, d, p - 1);
      BoundaryIsWalk(MutexOrder(o), q, d, p);
    }
  }

  lemma WaitersMakePrefix<P(!new)>(o: Order<P>, q: Queue<P>, d: MutexWaiter<P>)
    requires Lawful(o) && TieUniform(o) && OneHolder(q) && WaitersSorted(o, q)
    ensures LessIsPrefix(MutexOrder(o), q, d)
  {
    forall i, j | 0 <= i < j < |q| && MutexOrder(o).cmpNew(d, q[j].d) == Less
      ensures MutexOrder(o).cmpNew(d, q[i].d) == Less
    {
      NewEntry(o, q, d, i);
      NewEntry(o, q, d, j);
      if i > 0 {
        var s := [Cell(0, q[i].d.priority), Cell(1, q[j].d.priority)];
        SortedMakesPrefix(o, s, d.priority);
        assert o.cmpNew(d.priority, s[1].d) == Less;
        assert s[0].d == q[i].d.priority;
      }
    }
  }

  /** The law that `compare_new` agrees with `compare` unless that is a tie, for a given pair. */
  ghost predicate AgreesAt<T>(o: Order<T>, a: T, b: T) {
    o.cmp(a, b) != Equal ==> o.cmpNew(a, b) == o.cmp(a, b)
  }

  /** The pinned holder breaks that law exactly where a new entry outranks it. */
  lemma AgreesUnlessOutranked<P(!new)>(o: Order<P>, a: MutexWaiter<P>, b: MutexWaiter<P>)
    requires Lawful(o)
    ensures AgreesAt(MutexOrder(o), a, b) <==> !(b.hasLock && o.cmp(a.priority, b.priority) == Greater)
  {
    Laws(o, a.priority, b.priority, a.priority);
  }

  /** So the order of the mutex is lawful if and only if there is only one priority. */
  lemma MutexOrderLaws<P(!new)>(o: Order<P>)
    requires Lawful(o)
    ensures Lawful(MutexOrder(o)) <==> forall a, b :: o.cmp(a, b) == Equal
  {
    if Lawful(MutexOrder(o)) {
      forall a, b ensures o.cmp(a, b) == Equal {
        NeverOutranks(o, a, b);
        NeverOutranks(o, b, a);
        Laws(o, a, b, a);
      }
    }
    if forall a, b :: o.cmp(a, b) == Equal {
      forall a, b, c ensures LawAt(MutexOrder(o), a, b, c) {
        Laws(o, a.priority, b.priority, c.priority);
      }
    }
  }

  lemma NeverOutranks<P(!new)>(o: Order<P>, a: P, b: P)
    requires Lawful(o) && Lawful(MutexOrder(o))
    ensures o.cmp(a, b) != Greater
  {
    var x, y := MutexWaiter(a, false, false, 1), MutexWaiter(b, true, false, 0);
    Laws(MutexOrder(o), x, y, x);
    AgreesUnlessOutranked(o, x, y);
  }
}
