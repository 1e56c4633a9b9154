/** What each operation of the mutex does to each entry, and over runs, exactly which holders have been
    asked to leave. */
module MutexRuns {
  import opened Mutexes
  import opened Orders
  import opened QueueSpec

  /** A request on a mutex that nobody holds is served at once; `try_lock` otherwise changes nothing. */
  lemma FreeIsTaken<P>(o: Order<P>, evict: bool, m: Mutex<P>, priority: P, h: nat, p: nat)
    ensures var taken := Mutex([Cell(h, MutexWaiter(priority, true, false, m.clock))], m.clock + 1);
            && Apply(o, evict, m, TryLock(priority, h)) == (if m.queue == [] then taken else m)
            && (m.queue == [] ==> Apply(o, evict, m, Lock(priority, h, p)) == taken)
  {
  }

  /** A request on a mutex that is held waits behind the holder, unasked.  The holder is asked to leave if
      and only if the request outranks it and there is eviction, and nobody else is touched. */
  lemma LockEffect<P(!new)>(o: Order<P>, evict: bool, m: Mutex<P>, priority: P, h: nat, p: nat)
    requires OneHolder(m.queue) && m.queue != [] && Enabled(o, evict, m, Lock(priority, h, p))
    ensures var q, t := m.queue, Apply(o, evict, m, Lock(priority, h, p));
            var r := t.queue;
            && 0 < p <= |q| && |r| == |q| + 1 && t.clock == m.clock + 1
            && r[p] == Cell(h, MutexWaiter(priority, false, false, m.clock))
            && (forall i :: 0 < i < |q| ==> r[if i < p then i else i + 1] == q[i])
            && r[0].h == q[0].h
            && var asked := evict && o.cmp(priority, q[0].d.priority) == Greater;
               r[0].d == q[0].d.(wantsEvict := q[0].d.wantsEvict || asked)
  {
    var q := Asked(o, evict, m.queue, priority);
    forall i | 0 < i < |q| ensures q[i] == m.queue[i] {
      assert q[1..][i - 1] == m.queue[1..][i - 1];
    }
    assert OneHolder(q);
    NotBeforeHolder(o, q, Waiting(priority, m.clock), p);
  }

  /** The same, told from the entries afterwards. */
  lemma LockedFrom<P(!new)>(o: Order<P>, evict: bool, m: Mutex<P>, op: Op<P>, a: nat)
    requires OneHolder(m.queue) && m.queue != [] && op.Lock? && Enabled(o, evict, m, op)
    requires a < |Apply(o, evict, m, op).queue|
    ensures var q, c, x := m.queue, Apply(o, evict, m, op).queue[a], if a < op.p then a else a - 1;
            if a == op.p then c == Cell(op.h, MutexWaiter(op.priority, false, false, m.clock))
            else
              var asked := evict && x == 0 && o.cmp(op.priority, q[0].d.priority) == Greater;
              0 <= x < |q| && c == Cell(q[x].h, q[x].d.(wantsEvict := q[x].d.wantsEvict || asked))
  {
    LockEffect(o, evict, m, op.priority, op.h, op.p);
    var r, x := Apply(o, evict, m, op).queue, if a < op.p then a else a - 1;
    hide Apply, Enabled, OneHolder;
    if a != op.p && x > 0 {
      assert r[if x < op.p then x else x + 1] == m.queue[x];
    }
  }

  /** An entry that goes leaves the others as they are, except that the lock goes from the holder to the
      next in line. */
  lemma DropEffect<P>(o: Order<P>, evict: bool, m: Mutex<P>, i: nat)
    requires OneHolder(m.queue) && i < |m.queue|
    ensures var q, t := m.queue, Apply(o, evict, m, DropGuard(i));
            && |t.queue| == |q| - 1 && t.clock == m.clock
            && forall j :: 0 <= j < |q| && j != i ==>
                 t.queue[if j < i then j else j - 1]
                 == Cell(q[j].h, q[j].d.(hasLock := q[j].d.hasLock || (i == 0 && j == 1)))
  {
  }

  /** The `k`-th operation is a request that outranks the holder with this ticket. */
  ghost predicate AsksAt<P>(o: Order<P>, evict: bool, run: seq<Op<P>>, k: nat, ticket: nat, priority: P) {
    && evict && k < |run| && run[k].Lock? && o.cmp(run[k].priority, priority) == Greater
    && var q := After(o, evict, run[..k]).queue;
       q != [] && q[0].d.ticket == ticket
  }

  ghost predicate HasBeenAsked<P>(o: Order<P>, evict: bool, run: seq<Op<P>>, d: MutexWaiter<P>) {
    exists k: nat :: AsksAt(o, evict, run, k, d.ticket, d.priority)
  }

  lemma AskedSoFar<P>(o: Order<P>, evict: bool, run: seq<Op<P>>, d: MutexWaiter<P>)
    requires run != []
    ensures HasBeenAsked(o, evict, run, d) <==>
            || HasBeenAsked(o, evict, run[..|run| - 1], d)
            || AsksAt(o, evict, run, |run| - 1, d.ticket, d.priority)
  {
    var n := |run| - 1;
    forall k: nat | k < n
      ensures AsksAt(o, evict, run, k, d.ticket, d.priority) <==> AsksAt(o, evict, run[..n], k, d.ticket, d.priority)
    {
      assert run[..n][..k] == run[..k] && run[..n][k] == run[k];
    }
    if HasBeenAsked(o, evict, run[..n], d) {
      var k: nat :| AsksAt(o, evict, run[..n], k, d.ticket, d.priority);
      assert AsksAt(o, evict, run, k, d.ticket, d.priority);
    }
  }

  /** Tickets tell requests apart, and nobody carries one that has not been given out. */
  ghost predicate Ticketed<P>(m: Mutex<P>) {
    && (forall i :: 0 <= i < |m.queue| ==> m.queue[i].d.ticket < m.clock)
    && (forall i, j :: 0 <= i < j < |m.queue| ==> m.queue[i].d.ticket != m.queue[j].d.ticket)
  }

  /** What a step makes of an entry: it is the new request, or it was there and has been asked now or
      before, or not at all. */
  ghost predicate Traced<P>(o: Order<P>, evict: bool, m: Mutex<P>, op: Op<P>, c: Cell<nat, MutexWaiter<P>>) {
    || (!op.DropGuard? && c.h == op.h && c.d.priority == op.priority && c.d.ticket == m.clock && !c.d.wantsEvict)
    || exists i: nat :: TracedTo(o, evict, m, op, c, i)
  }

  ghost predicate TracedTo<P>(o: Order<P>, evict: bool, m: Mutex<P>, op: Op<P>, c: Cell<nat, MutexWaiter<P>>, i: nat) {
    && i < |m.queue| && c.h == m.queue[i].h && c.d.priority == m.queue[i].d.priority
    && c.d.ticket == m.queue[i].d.ticket
    && var asked := evict && op.Lock? && i == 0 && o.cmp(op.priority, c.d.priority) == Greater;
       c.d.wantsEvict == (m.queue[i].d.wantsEvict || asked)
  }

  lemma LockTraces<P(!new)>(o: Order<P>, evict: bool, m: Mutex<P>, op: Op<P>, a: nat)
    requires OneHolder(m.queue) && m.queue != [] && op.Lock? && Enabled(o, evict, m, op)
    requires a < |Apply(o, evict, m, op).queue|
    ensures Traced(o, evict, m, op, Apply(o, evict, m, op).queue[a])
  {
    LockedFrom(o, evict, m, op, a);
    hide Apply, Enabled, OneHolder;
    if a != op.p {
      assert TracedTo(o, evict, m, op, Apply(o, evict, m, op).queue[a], if a < op.p then a else a - 1);
    }
  }

  lemma DropTraces<P(!new)>(o: Order<P>, evict: bool, m: Mutex<P>, op: Op<P>, a: nat)
    requires OneHolder(m.queue) && op.DropGuard? && Enabled(o, evict, m, op)
    requires a < |Apply(o, evict, m, op).queue|
    ensures Traced(o, evict, m, op, Apply(o, evict, m, op).queue[a])
  {
    var r, x := Apply(o, evict, m, op).queue, if a < op.i then a else a + 1;
    DropEffect(o, evict, m, op.i);
    hide Apply, OneHolder;
    assert r[if x < op.i then x else x - 1].h == m.queue[x].h;
    assert TracedTo(o, evict, m, op, r[a], x);
  }

  lemma StepTraces<P(!new)>(o: Order<P>, evict: bool, m: Mutex<P>, op: Op<P>, a: nat)
    requires OneHolder(m.queue) && Enabled(o, evict, m, op) && a < |Apply(o, evict, m, op).queue|
    ensures Traced(o, evict, m, op, Apply(o, evict, m, op).queue[a])
  {
    hide OneHolder;
    if op.DropGuard? {
      DropTraces(o, evict, m, op, a);
    } else if op.Lock? && m.queue != [] {
      LockTraces(o, evict, m, op, a);
    } else {
      FreeIsTaken(o, evict, m, op.priority, op.h, 0);
      assert m.queue != [] ==> TracedTo(o, evict, m, op, m.queue[a], a);
    }
  }

  /** Each entry keeps its ticket, and the new one has the next. */
  lemma OneMoreTicket<P>(q: Queue<P>, clock: nat, p: nat, r: Queue<P>)
    requires Ticketed(Mutex(q, clock)) && p < |r| == |q| + 1
    requires forall i :: 0 <= i < |r| ==>
               r[i].d.ticket == if i == p then clock else q[if i < p then i else i - 1].d.ticket
    ensures Ticketed(Mutex(r, clock + 1))
  {
    forall i, j | 0 <= i < j < |r| ensures r[i].d.ticket != r[j].d.ticket {
      if i != p && j != p {
        var x, y := if i < p then i else i - 1, if j < p then j else j - 1;
        assert q[x].d.ticket != q[y].d.ticket;
      }
    }
  }

  lemma LockKeepsTickets<P(!new)>(o: Order<P>, evict: bool, m: Mutex<P>, op: Op<P>)
    requires OneHolder(m.queue) && m.queue != [] && op.Lock? && Enabled(o, evict, m, op) && Ticketed(m)
    ensures Ticketed(Apply(o, evict, m, op))
  {
    var t := Apply(o, evict, m, op);
    LockEffect(o, evict, m, op.priority, op.h, op.p);
    hide Apply, Enabled, Ticketed, OneHolder;
    forall i | 0 <= i < |t.queue|
      ensures t.queue[i].d.ticket == if i == op.p then m.clock else m.queue[if i < op.p then i else i - 1].d.ticket
    {
      LockedFrom(o, evict, m, op, i);
    }
    OneMoreTicket(m.queue, m.clock, op.p, t.queue);
  }

  lemma StepKeepsTickets<P(!new)>(o: Order<P>, evict: bool, m: Mutex<P>, op: Op<P>)
    requires OneHolder(m.queue) && Enabled(o, evict, m, op) && Ticketed(m)
    ensures Ticketed(Apply(o, evict, m, op))
  {
    var t := Apply(o, evict, m, op);
    match op
    case TryLock(priority, h) => FreeIsTaken(o, evict, m, priority, h, 0);
    case Lock(priority, h, p) =>
      if m.queue != [] {
        LockKeepsTickets(o, evict, m, op);
      }
    case DropGuard(i) =>
      forall j | 0 <= j < |t.queue| ensures t.queue[j].d.ticket == m.queue[if j < i then j else j + 1].d.ticket {}
  }

  lemma {:induction false} RunKeepsTickets<P(!new)>(o: Order<P>, evict: bool, run: seq<Op<P>>)
    requires Lawful(o) && Possible(o, evict, run)
    ensures Ticketed(After(o, evict, run))
  {
    if run != [] {
      var before := run[..|run| - 1];
      RunKeepsTickets(o, evict, before);
      RunKeepsInv(o, evict, before);
      StepKeepsTickets(o, evict, After(o, evict, before), run[|run| - 1]);
    }
  }

  /** Nobody has been asked whose ticket has not been given out yet. */
  lemma {:induction false} NotAskedYet<P(!new)>(o: Order<P>, evict: bool, run: seq<Op<P>>, d: MutexWaiter<P>)
    requires Lawful(o) && Possible(o, evict, run) && d.ticket >= After(o, evict, run).clock
    ensures !HasBeenAsked(o, evict, run, d)
  {
    if run != [] {
      var n := |run| - 1;
      NotAskedYet(o, evict, run[..n], d);
      RunKeepsTickets(o, evict, run[..n]);
      AskedSoFar(o, evict, run, d);
    }
  }

  /** In every run an entry carries the mark if and only if some request outranked it while it had the
      lock, and there is eviction: nobody is asked to leave for a request that it ranks with or above, and
      nobody who waits. */
  lemma {:induction false} AskedExactly<P(!new)>(o: Order<P>, evict: bool, run: seq<Op<P>>, a: nat)
    requires Lawful(o) && Possible(o, evict, run) && a < |After(o, evict, run).queue|
    ensures var d := After(o, evict, run).queue[a].d;
            d.wantsEvict <==> HasBeenAsked(o, evict, run, d)
  {
    if run != [] {
      var n := |run| - 1;
      var m, d := After(o, evict, run[..n]), After(o, evict, run).queue[a].d;
      RunKeepsInv(o, evict, run[..n]);
      RunKeepsTickets(o, evict, run[..n]);
      StepTraces(o, evict, m, run[n], a);
      AskedSoFar(o, evict, run, d);
      if i: nat :| TracedTo(o, evict, m, run[n], After(o, evict, run).queue[a], i) {
        AskedExactly(o, evict, run[..n], i);
        SameAsked(o, evict, run[..n], d, m.queue[i].d);
      } else {
        NotAskedYet(o, evict, run[..n], d);
      }
    }
  }

  lemma SameAsked<P>(o: Order<P>, evict: bool, run: seq<Op<P>>, d: MutexWaiter<P>, e: MutexWaiter<P>)
    requires d.ticket == e.ticket && d.priority == e.priority
    ensures HasBeenAsked(o, evict, run, d) <==> HasBeenAsked(o, evict, run, e)
  {
  }

  ghost predicate WaitersUnasked<P>(q: Queue<P>) {
    forall i :: 0 < i < |q| ==> !q[i].d.wantsEvict
  }

  lemma LockKeepsUnasked<P(!new)>(o: Order<P>, evict: bool, m: Mutex<P>, op: Op<P>)
    requires OneHolder(m.queue) && m.queue != [] && op.Lock? && Enabled(o, evict, m, op) && WaitersUnasked(m.queue)
    ensures WaitersUnasked(Apply(o, evict, m, op).queue)
  {
    LockEffect(o, evict, m, op.priority, op.h, op.p);
    var r := Apply(o, evict, m, op).queue;
    hide Apply, Enabled;
    forall i | 0 < i < |r| ensures !r[i].d.wantsEvict {
      LockedFrom(o, evict, m, op, i);
    }
  }

  lemma StepKeepsUnasked<P(!new)>(o: Order<P>, evict: bool, m: Mutex<P>, op: Op<P>)
    requires OneHolder(m.queue) && Enabled(o, evict, m, op) && WaitersUnasked(m.queue)
    ensures WaitersUnasked(Apply(o, evict, m, op).queue)
  {
    if op.Lock? && m.queue != [] {
      LockKeepsUnasked(o, evict, m, op);
    }
  }

  /** Those who wait have not been asked anything. */
  lemma {:induction false} WaitersAreNotAsked<P(!new)>(o: Order<P>, evict: bool, run: seq<Op<P>>)
    requires Lawful(o) && Possible(o, evict, run)
    ensures WaitersUnasked(After(o, evict, run).queue)
  {
    if run != [] {
      var before := run[..|run| - 1];
      RunKeepsInv(o, evict, before);
      WaitersAreNotAsked(o, evict, before);
      StepKeepsUnasked(o, evict, After(o, evict, before), run[|run| - 1]);
    }
  }
}
