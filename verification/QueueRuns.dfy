/** Whole runs of a queue.  On all four queues and for every lawful order a run keeps the queue sorted and
    every live handle naming its data; for orders that leave no tie open it also gives the same sequence
    on the arena, whose insertion starts from a guess, as on the box queue, whose insertion walks from
    the head. */
module QueueRuns {
  import opened Orders
  import opened QueueSpec
  import opened ArenaQueues
  import opened BoxQueues

  /** Entries are named by tickets: the n-th entry enqueued has ticket n.  An update leaves the data `d`
      behind; its closure reports a change if the priority changed or `report` is set. */
  datatype Op<T> = Enqueue(d: T) | Dequeue(t: nat) | Update(t: nat, d: T, report: bool)

  datatype Run<T> = Run(queue: seq<Cell<nat, T>>, next: nat)

  /** `p` is the place that the queue has found for a new entry; the single-link box queue is `eager`. */
  ghost function Step<T>(o: Order<T>, eager: bool, r: Run<T>, op: Op<T>, p: nat): Run<T> {
    match op
    case Enqueue(d) => if p <= |r.queue| then Run(Insert(r.queue, p, Cell(r.next, d)), r.next + 1) else r
    case Dequeue(t) =>
      if Has(r.queue, t) then r.(queue := Remove(r.queue, IndexOf(r.queue, t))) else r
    case Update(t, d, report) =>
      if Has(r.queue, t) then
        var i := IndexOf(r.queue, t);
        r.(queue := UpdateBy(o, r.queue, i, d, report || o.cmp(r.queue[i].d, d) != Equal, eager))
      else r
  }

  ghost predicate Fits<T>(o: Order<T>, r: Run<T>, op: Op<T>, p: nat) {
    op.Enqueue? ==> p <= |r.queue| && At(o, r.queue, op.d, p)
  }

  ghost function After<T>(o: Order<T>, eager: bool, ops: seq<Op<T>>, places: seq<nat>): Run<T>
    requires |places| == |ops|
  {
    if ops == [] then Run([], 0)
    else
      var n := |ops| - 1;
      Step(o, eager, After(o, eager, ops[..n], places[..n]), ops[n], places[n])
  }

  ghost predicate Possible<T>(o: Order<T>, eager: bool, ops: seq<Op<T>>, places: seq<nat>) {
    && |places| == |ops|
    && (ops == [] ||
        var n := |ops| - 1;
        Possible(o, eager, ops[..n], places[..n])
        && Fits(o, After(o, eager, ops[..n], places[..n]), ops[n], places[n]))
  }

  lemma Longer<T>(o: Order<T>, eager: bool, ops: seq<Op<T>>, places: seq<nat>, op: Op<T>, p: nat)
    requires Possible(o, eager, ops, places) && Fits(o, After(o, eager, ops, places), op, p)
    ensures Possible(o, eager, ops + [op], places + [p])
    ensures After(o, eager, ops + [op], places + [p]) == Step(o, eager, After(o, eager, ops, places), op, p)
  {
    assert (ops + [op])[..|ops|] == ops && (places + [p])[..|ops|] == places;
  }

  // ----- What a run has filed, without looking at any queue

  function Enqueued<T>(ops: seq<Op<T>>): (n: nat)
    ensures n <= |ops|
  {
    if ops == [] then 0 else Enqueued(ops[..|ops| - 1]) + if ops[|ops| - 1].Enqueue? then 1 else 0
  }

  /** What is filed under each ticket: everything enqueued and not dequeued since, as last updated. */
  function Filed<T>(ops: seq<Op<T>>): map<nat, T> {
    if ops == [] then map[]
    else
      var before := ops[..|ops| - 1];
      FiledNext(Filed(before), Enqueued(before), ops[|ops| - 1])
  }

  function FiledNext<T>(m: map<nat, T>, next: nat, op: Op<T>): map<nat, T> {
    match op
    case Enqueue(d) => m[next := d]
    case Dequeue(t) => m - {t}
    case Update(t, d, _) => if t in m then m[t := d] else m
  }

  lemma FiledGrows<T>(ops: seq<Op<T>>, op: Op<T>)
    ensures Filed(ops + [op]) == FiledNext(Filed(ops), Enqueued(ops), op)
    ensures Enqueued(ops + [op]) == Enqueued(ops) + if op.Enqueue? then 1 else 0
  {
    assert (ops + [op])[..|ops|] == ops;
  }

  /** The queue holds exactly what the map says. */
  ghost predicate Lists<T>(q: seq<Cell<nat, T>>, m: map<nat, T>) {
    && (forall i :: 0 <= i < |q| ==> q[i].h in m && m[q[i].h] == q[i].d)
    && (forall t :: t in m ==> Has(q, t))
  }

  lemma ListsInsert<T>(q: seq<Cell<nat, T>>, m: map<nat, T>, p: nat, t: nat, d: T)
    requires Lists(q, m) && p <= |q| && t !in m
    ensures Lists(Insert(q, p, Cell(t, d)), m[t := d])
  {
    var r := Insert(q, p, Cell(t, d));
    forall i | 0 <= i < |r| ensures r[i].h in m[t := d] && m[t := d][r[i].h] == r[i].d {
      assert i != p ==> r[i] == q[if i < p then i else i - 1];
    }
    forall u | u in m[t := d] ensures Has(r, u) {
      if u == t {
        assert r[p].h == u;
      } else {
        var j := IndexOf(q, u);
        assert r[if j < p then j else j + 1].h == u;
      }
    }
  }

  lemma ListsRemove<T>(q: seq<Cell<nat, T>>, m: map<nat, T>, i: nat)
    requires Lists(q, m) && Distinct(q) && i < |q|
    ensures Lists(Remove(q, i), m - {q[i].h})
  {
    var r := Remove(q, i);
    forall j | 0 <= j < |r| ensures r[j] == q[if j < i then j else j + 1] && r[j].h != q[i].h {}
    forall u | u in m - {q[i].h} ensures Has(r, u) {
      var j := IndexOf(q, u);
      assert r[if j < i then j else j - 1].h == u;
    }
  }

  lemma ListsMove<T>(q: seq<Cell<nat, T>>, m: map<nat, T>, i: nat, j: nat, d: T)
    requires Lists(q, m) && Distinct(q) && i < |q| && j < |q|
    ensures Lists(Insert(Remove(q, i), j, Cell(q[i].h, d)), m[q[i].h := d])
  {
    var t := q[i].h;
    ListsRemove(q, m, i);
    ListsInsert(Remove(q, i), m - {t}, j, t, d);
    assert (m - {t})[t := d] == m[t := d];
  }

  lemma ListsHas<T>(q: seq<Cell<nat, T>>, m: map<nat, T>, t: nat)
    requires Lists(q, m)
    ensures Has(q, t) <==> t in m
  {
  }

  // ----- What every run keeps

  ghost predicate RunInv<T>(o: Order<T>, ops: seq<Op<T>>, r: Run<T>) {
    && Sorted(o, r.queue)
    && Distinct(r.queue)
    && r.next == Enqueued(ops)
    && (forall t :: t in Filed(ops) ==> t < r.next)
    && Lists(r.queue, Filed(ops))
  }

  lemma RewriteKeepsSorted<H, T(!new)>(o: Order<T>, s: seq<Cell<H, T>>, i: nat, d: T)
    requires Lawful(o) && Sorted(o, s) && i < |s| && o.cmp(s[i].d, d) == Equal
    ensures Sorted(o, s[i := Cell(s[i].h, d)])
  {
    forall k | 0 <= k < |s|
      ensures o.cmp(d, s[k].d) == o.cmp(s[i].d, s[k].d) && o.cmp(s[k].d, d) == o.cmp(s[k].d, s[i].d)
    {
      Laws(o, s[i].d, d, s[k].d);
      Laws(o, d, s[k].d, d);
      Laws(o, s[i].d, s[k].d, d);
    }
  }

  lemma EnqueueKeepsInv<T(!new)>(o: Order<T>, eager: bool, ops: seq<Op<T>>, r: Run<T>, op: Op<T>, p: nat)
    requires Lawful(o) && RunInv(o, ops, r) && op.Enqueue? && Fits(o, r, op, p)
    ensures RunInv(o, ops + [op], Step(o, eager, r, op, p))
  {
    var c := Cell(r.next, op.d);
    FiledGrows(ops, op);
    ListsHas(r.queue, Filed(ops), r.next);
    InsertKeepsSorted(o, r.queue, p, c);
    DistinctInsert(r.queue, p, c);
    ListsInsert(r.queue, Filed(ops), p, r.next, op.d);
  }

  lemma DequeueKeepsInv<T(!new)>(o: Order<T>, eager: bool, ops: seq<Op<T>>, r: Run<T>, op: Op<T>, p: nat)
    requires RunInv(o, ops, r) && op.Dequeue?
    ensures RunInv(o, ops + [op], Step(o, eager, r, op, p))
  {
    FiledGrows(ops, op);
    ListsHas(r.queue, Filed(ops), op.t);
    if Has(r.queue, op.t) {
      var i := IndexOf(r.queue, op.t);
      RemoveKeepsSorted(o, r.queue, i);
      DistinctRemove(r.queue, i);
      ListsRemove(r.queue, Filed(ops), i);
    } else {
      assert Filed(ops) - {op.t} == Filed(ops);
    }
  }

  lemma UpdateKeepsInv<T(!new)>(o: Order<T>, eager: bool, ops: seq<Op<T>>, r: Run<T>, op: Op<T>, p: nat)
    requires Lawful(o) && RunInv(o, ops, r) && op.Update?
    ensures RunInv(o, ops + [op], Step(o, eager, r, op, p))
  {
    FiledGrows(ops, op);
    ListsHas(r.queue, Filed(ops), op.t);
    if Has(r.queue, op.t) {
      var i := IndexOf(r.queue, op.t);
      var changed := op.report || o.cmp(r.queue[i].d, op.d) != Equal;
      var j := Settled(o, r.queue, i, op.d, changed, eager);
      UpdateSorts(o, r.queue, i, op.d, changed, eager);
      UpdateKeepsOthers(o, r.queue, i, op.d, changed, eager);
      DistinctRemove(r.queue, i);
      DistinctInsert(Remove(r.queue, i), j, Cell(op.t, op.d));
      ListsMove(r.queue, Filed(ops), i, j, op.d);
    }
  }

  lemma UpdateSorts<T(!new)>(o: Order<T>, q: seq<Cell<nat, T>>, i: nat, d: T, changed: bool, eager: bool)
    requires Lawful(o) && Sorted(o, q) && i < |q| && (changed || o.cmp(q[i].d, d) == Equal)
    ensures Sorted(o, UpdateBy(o, q, i, d, changed, eager))
  {
    if changed {
      UpdateKeepsSorted(o, q, i, d, eager);
    } else {
      RewriteKeepsSorted(o, q, i, d);
    }
  }

  lemma StepKeepsInv<T(!new)>(o: Order<T>, eager: bool, ops: seq<Op<T>>, r: Run<T>, op: Op<T>, p: nat)
    requires Lawful(o) && RunInv(o, ops, r) && Fits(o, r, op, p)
    ensures RunInv(o, ops + [op], Step(o, eager, r, op, p))
  {
    match op
    case Enqueue(_) => EnqueueKeepsInv(o, eager, ops, r, op, p);
    case Dequeue(_) => DequeueKeepsInv(o, eager, ops, r, op, p);
    case Update(_, _, _) => UpdateKeepsInv(o, eager, ops, r, op, p);
  }

  /** Any lawful order, any places that a queue may choose: the queue stays sorted, and holds under each
      ticket, once, what the run has filed under it, and nothing else. */
  lemma {:induction false} RunsListEntries<T(!new)>(o: Order<T>, eager: bool, ops: seq<Op<T>>, places: seq<nat>)
    requires Lawful(o) && Possible(o, eager, ops, places)
    ensures RunInv(o, ops, After(o, eager, ops, places))
  {
    if ops != [] {
      var n := |ops| - 1;
      RunsListEntries(o, eager, ops[..n], places[..n]);
      assert ops == ops[..n] + [ops[n]];
      StepKeepsInv(o, eager, ops[..n], After(o, eager, ops[..n], places[..n]), ops[n], places[n]);
    }
  }

  /** The operation at `k` gives out ticket `t`, and none after it dequeues what is filed under it. */
  ghost predicate GivenOutAt<T>(ops: seq<Op<T>>, t: nat, k: nat) {
    k < |ops| && ops[k].Enqueue? && Enqueued(ops[..k]) == t && forall l :: k < l < |ops| ==> ops[l] != Dequeue(t)
  }

  /** What is filed under a ticket is there if and only if the ticket has been given out and what was
      enqueued then has not been dequeued since. */
  lemma {:induction false} LiveTickets<T>(ops: seq<Op<T>>, t: nat)
    ensures t in Filed(ops) <==> exists k: nat :: GivenOutAt(ops, t, k)
  {
    if ops != [] {
      var n := |ops| - 1;
      var before, op := ops[..n], ops[n];
      LiveTickets(before, t);
      forall k: nat | k < n ensures GivenOutAt(ops, t, k) <==> GivenOutAt(before, t, k) && op != Dequeue(t) {
        assert before[..k] == ops[..k] && before[k] == ops[k];
        assert forall l :: k < l < n ==> ops[l] == before[l];
      }
      assert op.Enqueue? && Enqueued(before) == t ==> GivenOutAt(ops, t, n);
    }
  }

  /** An order that leaves no tie open leaves the queue no choice: the places are those of the walk from
      the head, and all runs of the same operations agree. */
  lemma {:induction false} PlacesAreForced<T(!new)>(o: Order<T>, ops: seq<Op<T>>, a: seq<nat>, b: seq<nat>)
    requires Lawful(o) && NeverTies(o) && TieUniform(o)
    requires Possible(o, false, ops, a) && Possible(o, false, ops, b)
    ensures After(o, false, ops, a) == After(o, false, ops, b)
  {
    if ops != [] {
      var n := |ops| - 1;
      PlacesAreForced(o, ops[..n], a[..n], b[..n]);
      var r := After(o, false, ops[..n], a[..n]);
      RunsListEntries(o, false, ops[..n], a[..n]);
      if ops[n].Enqueue? {
        SortedMakesPrefix(o, r.queue, ops[n].d);
        AtIsWalk(o, r.queue, ops[n].d, a[n]);
        AtIsWalk(o, r.queue, ops[n].d, b[n]);
      }
    }
  }

  // ----- The queues themselves

  /** The queue `e` holds what `s` holds, and `m` has the handle of every ticket. */
  ghost predicate Sim<H, T>(s: seq<Cell<nat, T>>, e: seq<Cell<H, T>>, m: map<nat, H>) {
    && |s| == |e|
    && (forall i :: 0 <= i < |s| ==> s[i].d == e[i].d && s[i].h in m && m[s[i].h] == e[i].h)
    && forall t :: t in m ==> Has(s, t)
  }

  lemma SimInsert<H, T>(s: seq<Cell<nat, T>>, e: seq<Cell<H, T>>, m: map<nat, H>, p: nat, t: nat, h: H, d: T)
    requires Sim(s, e, m) && p <= |s| && !Has(s, t)
    ensures Sim(Insert(s, p, Cell(t, d)), Insert(e, p, Cell(h, d)), m[t := h])
  {
    var s', e', m' := Insert(s, p, Cell(t, d)), Insert(e, p, Cell(h, d)), m[t := h];
    forall i | 0 <= i < |s'| ensures s'[i].d == e'[i].d && s'[i].h in m' && m'[s'[i].h] == e'[i].h {
      if i != p {
        assert s'[i] == s[if i < p then i else i - 1];
      }
    }
    forall u | u in m' ensures Has(s', u) {
      if u == t {
        assert s'[p].h == u;
      } else {
        var j := IndexOf(s, u);
        assert s'[if j < p then j else j + 1].h == u;
      }
    }
  }

  lemma SimRemove<H, T>(s: seq<Cell<nat, T>>, e: seq<Cell<H, T>>, m: map<nat, H>, i: nat)
    requires Sim(s, e, m) && i < |s| && Distinct(s)
    ensures Sim(Remove(s, i), Remove(e, i), m - {s[i].h})
  {
    DistinctRemove(s, i);
    var s', e', m' := Remove(s, i), Remove(e, i), m - {s[i].h};
    forall k | 0 <= k < |s'| ensures s'[k].d == e'[k].d && s'[k].h in m' && m'[s'[k].h] == e'[k].h {
      assert s'[k] == s[if k < i then k else k + 1];
    }
    forall u | u in m' ensures Has(s', u) {
      var j := IndexOf(s, u);
      assert s'[if j < i then j else j - 1].h == u;
    }
  }

  lemma SimMove<H, T>(s: seq<Cell<nat, T>>, e: seq<Cell<H, T>>, m: map<nat, H>, i: nat, j: nat, d: T)
    requires Sim(s, e, m) && i < |s| && j < |s| && Distinct(s)
    ensures Sim(Insert(Remove(s, i), j, Cell(s[i].h, d)), Insert(Remove(e, i), j, Cell(e[i].h, d)), m)
  {
    hide Insert, Distinct;
    var t, h := s[i].h, e[i].h;
    assert m == (m - {t})[t := h];
    hide Sim;
    SimRemove(s, e, m, i);
    DistinctRemove(s, i);
    SimInsert(Remove(s, i), Remove(e, i), m - {t}, j, t, h, d);
  }

  lemma SimUpdate<H, T(!new)>(o: Order<T>, s: seq<Cell<nat, T>>, e: seq<Cell<H, T>>, m: map<nat, H>, i: nat,
                              d: T, changed: bool, eager: bool)
    requires Sim(s, e, m) && i < |s| && Distinct(s)
    ensures Sim(UpdateBy(o, s, i, d, changed, eager), UpdateBy(o, e, i, d, changed, eager), m)
  {
    SameSettled(o, s, e, i, d, changed, eager);
    UpdateKeepsOthers(o, s, i, d, changed, eager);
    UpdateKeepsOthers(o, e, i, d, changed, eager);
    SimMove(s, e, m, i, Settled(o, s, i, d, changed, eager), d);
  }

  lemma SimIndex<H, T>(s: seq<Cell<nat, T>>, e: seq<Cell<H, T>>, m: map<nat, H>, t: nat)
    requires Sim(s, e, m) && Distinct(s) && Distinct(e)
    ensures t in m <==> Has(s, t)
    ensures t in m ==> Has(e, m[t]) && IndexOf(e, m[t]) == IndexOf(s, t)
  {
    if t in m {
      IndexIs(e, IndexOf(s, t));
    }
  }

  lemma SimKeepsSorted<H, T>(o: Order<T>, s: seq<Cell<nat, T>>, e: seq<Cell<H, T>>, m: map<nat, H>)
    requires Sim(s, e, m) && Sorted(o, s)
    ensures Sorted(o, e)
  {
  }

  lemma SimKeepsAt<H, T>(o: Order<T>, s: seq<Cell<nat, T>>, e: seq<Cell<H, T>>, m: map<nat, H>, d: T, p: nat)
    requires Sim(s, e, m) && At(o, e, d, p) && p <= |e|
    ensures At(o, s, d, p)
  {
  }

  /** The handles in `m` are those of what is filed: each names its data, and every entry has one. */
  ghost predicate Names<H, T>(e: seq<Cell<H, T>>, m: map<nat, H>, f: map<nat, T>) {
    && m.Keys == f.Keys
    && (forall t :: t in m ==> NamesAt(e, m[t], f[t]))
    && (forall i :: 0 <= i < |e| ==> Named(e[i].h, m))
  }

  ghost predicate NamesAt<H, T>(e: seq<Cell<H, T>>, h: H, d: T) {
    Has(e, h) && e[IndexOf(e, h)].d == d
  }

  ghost predicate Named<H>(h: H, m: map<nat, H>) {
    exists t :: t in m && m[t] == h
  }

  lemma TicketNames<H, T>(q: seq<Cell<nat, T>>, f: map<nat, T>, e: seq<Cell<H, T>>, m: map<nat, H>, t: nat)
    requires Lists(q, f) && Distinct(q) && Sim(q, e, m) && Distinct(e)
    ensures t in m <==> t in f
    ensures t in m ==> NamesAt(e, m[t], f[t])
  {
    SimIndex(q, e, m, t);
    ListsHas(q, f, t);
    if t in m {
      assert q[IndexOf(q, t)].d == f[t];
    }
  }

  lemma EntryNamed<H, T>(q: seq<Cell<nat, T>>, e: seq<Cell<H, T>>, m: map<nat, H>, i: nat)
    requires Sim(q, e, m) && i < |e|
    ensures Named(e[i].h, m)
  {
    assert q[i].h in m && m[q[i].h] == e[i].h;
  }

  lemma HandlesName<H, T>(ops: seq<Op<T>>, o: Order<T>, r: Run<T>, e: seq<Cell<H, T>>, m: map<nat, H>)
    requires RunInv(o, ops, r) && Sim(r.queue, e, m) && Distinct(e)
    ensures Sorted(o, e) && Names(e, m, Filed(ops))
  {
    hide Filed, Sim, Lists, Named, NamesAt;
    SimKeepsSorted(o, r.queue, e, m);
    forall t ensures (t in m <==> t in Filed(ops)) && (t in m ==> NamesAt(e, m[t], Filed(ops)[t])) {
      TicketNames(r.queue, Filed(ops), e, m, t);
    }
    forall i | 0 <= i < |e| ensures Named(e[i].h, m) {
      EntryNamed(r.queue, e, m, i);
    }
  }

  /** The queue `e` is where the operations `ops` have brought it; `next` is the next ticket. */
  ghost predicate Tracks<H, T>(o: Order<T>, eager: bool, ops: seq<Op<T>>, places: seq<nat>, next: nat,
                               e: seq<Cell<H, T>>, m: map<nat, H>) {
    && Possible(o, eager, ops, places)
    && next == After(o, eager, ops, places).next
    && Sim(After(o, eager, ops, places).queue, e, m)
  }

  lemma TracksNothing<H, T>(o: Order<T>, eager: bool, ops: seq<Op<T>>, e: seq<Cell<H, T>>, m: map<nat, H>)
    requires e == [] && m == map[]
    ensures Tracks(o, eager, ops[..0], [], 0, e, m)
  {
  }

  lemma TracksOn<H, T>(o: Order<T>, eager: bool, ops: seq<Op<T>>, n: nat, places: seq<nat>, r: Run<T>, p: nat,
                       e: seq<Cell<H, T>>, m: map<nat, H>)
    requires n < |ops| && Possible(o, eager, ops[..n], places) && r == After(o, eager, ops[..n], places)
    requires Fits(o, r, ops[n], p) && Sim(Step(o, eager, r, ops[n], p).queue, e, m)
    ensures Tracks(o, eager, ops[..n + 1], places + [p], if ops[n].Enqueue? then r.next + 1 else r.next, e, m)
  {
    Longer(o, eager, ops[..n], places, ops[n], p);
    assert ops[..n + 1] == ops[..n] + [ops[n]];
  }

  /** The next ticket is not in use. */
  lemma NextIsFree<T(!new)>(o: Order<T>, eager: bool, ops: seq<Op<T>>, places: seq<nat>) returns (r: Run<T>)
    requires Lawful(o) && Possible(o, eager, ops, places)
    ensures r == After(o, eager, ops, places) && Distinct(r.queue) && !Has(r.queue, r.next)
  {
    r := After(o, eager, ops, places);
    RunsListEntries(o, eager, ops, places);
    ListsHas(r.queue, Filed(ops), r.next);
  }

  lemma Tracked<H, T(!new)>(o: Order<T>, eager: bool, ops: seq<Op<T>>, places: seq<nat>, next: nat,
                            e: seq<Cell<H, T>>, m: map<nat, H>)
    requires Lawful(o) && Tracks(o, eager, ops, places, next, e, m) && Distinct(e)
    ensures Sorted(o, e) && Names(e, m, Filed(ops))
    ensures Possible(o, eager, ops, places) && SameData(After(o, eager, ops, places).queue, e)
  {
    RunsListEntries(o, eager, ops, places);
    HandlesName(ops, o, After(o, eager, ops, places), e, m);
  }

  /** Carry out one operation on an arena; `m` has the handle of every live ticket. */
  method StepArena<T(!new)>(q: ArenaQueue<T>, m: map<nat, nat>, next: nat, op: Op<T>, ghost r: Run<T>)
      returns (m': map<nat, nat>, ghost p: nat)
    requires q.Valid() && Lawful(q.ord) && Distinct(r.queue) && !Has(r.queue, next)
    requires r.next == next && Sim(r.queue, q.entries, m)
    modifies q, q.nodes
    ensures q.Valid() && (q.nodes == old(q.nodes) || fresh(q.nodes))
    ensures Fits(q.ord, r, op, p) && Sim(Step(q.ord, false, r, op, p).queue, q.entries, m')
  {
    hide Walk, Refile;
    ghost var s := q.entries;
    m', p := m, 0;
    match op {
      case Enqueue(d) =>
        var h;
        h, p := q.Enqueue(d);
        SimKeepsAt(q.ord, r.queue, s, m, d, p);
        SimInsert(r.queue, s, m, p, next, h, d);
        m' := m[next := h];
      case Dequeue(t) =>
        SimIndex(r.queue, s, m, t);
        if t in m {
          SimRemove(r.queue, s, m, IndexOf(r.queue, t));
          var _, _ := q.Dequeue(m[t]);
          m' := m - {t};
        }
      case Update(t, d, report) =>
        SimIndex(r.queue, s, m, t);
        if t in m {
          var changed := report || q.ord.cmp(q.GetByHandle(m[t]), d) != Equal;
          SimUpdate(q.ord, r.queue, s, m, IndexOf(r.queue, t), d, changed, false);
          q.UpdateNode(m[t], d, changed);
        }
    }
  }

  /** Carry out a run on an arena, single- or dual-link. */
  method RunArena<T(!new)>(o: Order<T>, dual: bool, ops: seq<Op<T>>)
      returns (q: ArenaQueue<T>, m: map<nat, nat>, ghost places: seq<nat>)
    requires Lawful(o)
    ensures q.Valid() && Sorted(o, q.entries) && Names(q.entries, m, Filed(ops))
    ensures Possible(o, false, ops, places) && SameData(After(o, false, ops, places).queue, q.entries)
  {
    hide Possible, After, Step, Fits, Sim, Filed;
    q := new ArenaQueue(o, dual);
    var next;
    m, next, places := map[], 0, [];
    TracksNothing(o, false, ops, q.entries, m);
    for n := 0 to |ops|
      invariant fresh(q) && fresh(q.nodes) && q.Valid() && q.ord == o
      invariant Tracks(o, false, ops[..n], places, next, q.entries, m)
    {
      ghost var r := NextIsFree(o, false, ops[..n], places);
      ghost var p;
      m, p := StepArena(q, m, next, ops[n], r);
      TracksOn(o, false, ops, n, places, r, p, q.entries, m);
      next, places := if ops[n].Enqueue? then next + 1 else next, places + [p];
    }
    assert ops[..|ops|] == ops;
    Tracked(o, false, ops, places, next, q.entries, m);
  }

  /** A box queue files a new entry where the walk from the head ends, which is a permitted place. */
  lemma WalkFits<H, T>(o: Order<T>, s: seq<Cell<nat, T>>, e: seq<Cell<H, T>>, d: T)
    requires SameData(s, e)
    ensures Walk(o, e, d) <= |s| && At(o, s, d, Walk(o, e, d))
  {
  }

  lemma UpdateKeepsNodes<T(!new)>(o: Order<T>, s: seq<Cell<BoxNode<T>, T>>, i: nat, d: T, changed: bool, eager: bool)
    requires i < |s|
    ensures var r := UpdateBy(o, s, i, d, changed, eager);
            forall k :: 0 <= k < |r| ==> r[k].h in Nodes(s)
  {
    UpdateKeepsOthers(o, s, i, d, changed, eager);
    var j, r := Settled(o, s, i, d, changed, eager), UpdateBy(o, s, i, d, changed, eager);
    forall k | 0 <= k < |r| ensures r[k].h in Nodes(s) {
      var x := if k < j then k else k - 1;
      assert k != j ==> r[k] == s[if x < i then x else x + 1];
    }
  }

  method UpdateBox<T(!new)>(q: BoxQueue<T>, h: BoxNode<T>, d: T, changed: bool)
    requires q.Valid() && Has(q.entries, h)
    modifies q, Nodes(q.entries)
    ensures q.Valid()
    ensures q.entries == UpdateBy(q.ord, old(q.entries), IndexOf(old(q.entries), h), d, changed, !q.dual)
    ensures forall i :: 0 <= i < |q.entries| ==> q.entries[i].h in old(Nodes(q.entries))
  {
    hide UpdateBy;
    UpdateKeepsNodes(q.ord, q.entries, IndexOf(q.entries, h), d, changed, !q.dual);
    q.UpdateNode(h, d, changed);
  }

  method DequeueBox<T(!new)>(q: BoxQueue<T>, h: BoxNode<T>)
    requires q.Valid() && Has(q.entries, h)
    modifies q, Nodes(q.entries)
    ensures q.Valid() && q.entries == Remove(old(q.entries), IndexOf(old(q.entries), h))
    ensures forall i :: 0 <= i < |q.entries| ==> q.entries[i].h in old(Nodes(q.entries))
  {
    var _, _ := q.Dequeue(h);
  }

  method EnqueueBox<T(!new)>(q: BoxQueue<T>, d: T) returns (h: BoxNode<T>)
    requires q.Valid()
    modifies q, Nodes(q.entries)
    ensures q.Valid()
    ensures var p := Walk(q.ord, old(q.entries), d);
            q.entries == Insert(old(q.entries), p, Cell(h, d))
    ensures forall i :: 0 <= i < |q.entries| ==> q.entries[i].h in old(Nodes(q.entries)) || fresh(q.entries[i].h)
  {
    hide Walk;
    ghost var s := q.entries;
    h := q.Enqueue(d);
    forall i | 0 <= i < |q.entries| && i != Walk(q.ord, s, d) ensures q.entries[i].h in Nodes(s) {
      assert q.entries[i] == s[if i < Walk(q.ord, s, d) then i else i - 1];
    }
  }

  /** Carry out one operation on a box queue. */
  method StepBox<T(!new)>(q: BoxQueue<T>, m: map<nat, BoxNode<T>>, next: nat, op: Op<T>, ghost r: Run<T>)
      returns (m': map<nat, BoxNode<T>>, ghost p: nat)
    requires q.Valid() && Distinct(r.queue) && !Has(r.queue, next)
    requires r.next == next && Sim(r.queue, q.entries, m)
    modifies q, Nodes(q.entries)
    ensures q.Valid()
    ensures forall i :: 0 <= i < |q.entries| ==> q.entries[i].h in old(Nodes(q.entries)) || fresh(q.entries[i].h)
    ensures Fits(q.ord, r, op, p) && Sim(Step(q.ord, !q.dual, r, op, p).queue, q.entries, m')
  {
    hide Walk, Refile;
    ghost var s := q.entries;
    m', p := m, 0;
    match op {
      case Enqueue(d) =>
        p := Walk(q.ord, s, d);
        WalkFits(q.ord, r.queue, s, d);
        var h := EnqueueBox(q, d);
        SimInsert(r.queue, s, m, p, next, h, d);
        m' := m[next := h];
      case Dequeue(t) =>
        SimIndex(r.queue, s, m, t);
        if t in m {
          SimRemove(r.queue, s, m, IndexOf(r.queue, t));
          DequeueBox(q, m[t]);
          m' := m - {t};
        }
      case Update(t, d, report) =>
        SimIndex(r.queue, s, m, t);
        if t in m {
          var changed := report || q.ord.cmp(q.GetByHandle(m[t]), d) != Equal;
          SimUpdate(q.ord, r.queue, s, m, IndexOf(r.queue, t), d, changed, !q.dual);
          UpdateBox(q, m[t], d, changed);
        }
    }
  }

  /** Carry out a run on a box queue, single- or dual-link. */
  method RunBox<T(!new)>(o: Order<T>, dual: bool, ops: seq<Op<T>>)
      returns (q: BoxQueue<T>, m: map<nat, BoxNode<T>>, ghost places: seq<nat>)
    requires Lawful(o)
    ensures q.Valid() && Sorted(o, q.entries) && Names(q.entries, m, Filed(ops))
    ensures Possible(o, !dual, ops, places) && SameData(After(o, !dual, ops, places).queue, q.entries)
  {
    hide Possible, After, Step, Fits, Sim, Filed;
    q := new BoxQueue(o, dual);
    var next;
    m, next, places := map[], 0, [];
    TracksNothing(o, !dual, ops, q.entries, m);
    for n := 0 to |ops|
      invariant fresh(q) && (forall i :: 0 <= i < |q.entries| ==> fresh(q.entries[i].h))
      invariant q.Valid() && q.ord == o && q.dual == dual
      invariant Tracks(o, !dual, ops[..n], places, next, q.entries, m)
    {
      ghost var r := NextIsFree(o, !dual, ops[..n], places);
      ghost var p;
      m, p := StepBox(q, m, next, ops[n], r);
      TracksOn(o, !dual, ops, n, places, r, p, q.entries, m);
      next, places := if ops[n].Enqueue? then next + 1 else next, places + [p];
    }
    assert ops[..|ops|] == ops;
    Tracked(o, !dual, ops, places, next, q.entries, m);
  }

  /** Under an order that leaves no tie open, any run on an arena, single- or dual-link, and on the
      dual-link box queue leaves the same data in the same order. */
  method RunBoth<T(!new)>(o: Order<T>, dual: bool, ops: seq<Op<T>>) returns (arena: ArenaQueue<T>, box: BoxQueue<T>)
    requires Lawful(o) && NeverTies(o) && TieUniform(o)
    ensures arena.Valid() && box.Valid() && SameData(arena.entries, box.entries)
  {
    hide Possible, After, Filed, Names;
    var m, n;
    ghost var a, b;
    arena, m, a := RunArena(o, dual, ops);
    box, n, b := RunBox(o, true, ops);
    PlacesAreForced(o, ops, a, b);
  }
}
