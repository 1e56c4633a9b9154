/** What a `PriorityQueue` (src/queue.rs) does to the sequence of its entries, whatever it is
    made of.  An entry is a handle and the data filed under it. */
module QueueSpec {
  import opened Orders

  datatype Option<+T> = None | Some(value: T)

  datatype Cell<H, T> = Cell(h: H, d: T)

  // ----- Handles

  ghost predicate Distinct<H, T>(s: seq<Cell<H, T>>) {
    forall i, j :: 0 <= i < j < |s| ==> s[i].h != s[j].h
  }

  ghost predicate Has<H, T>(s: seq<Cell<H, T>>, h: H) {
    exists i :: 0 <= i < |s| && s[i].h == h
  }

  ghost function IndexOf<H, T>(s: seq<Cell<H, T>>, h: H): (i: nat)
    requires Has(s, h)
    ensures i < |s| && s[i].h == h
  {
    var i :| 0 <= i < |s| && s[i].h == h;
    i
  }

  lemma IndexIs<H, T>(s: seq<Cell<H, T>>, i: nat)
    requires Distinct(s) && i < |s|
    ensures Has(s, s[i].h) && IndexOf(s, s[i].h) == i
  {
  }

  // ----- Inserting and removing

  function Insert<H, T>(s: seq<Cell<H, T>>, p: nat, c: Cell<H, T>): (r: seq<Cell<H, T>>)
    requires p <= |s|
    ensures |r| == |s| + 1 && r[p] == c
    ensures forall i :: 0 <= i < p ==> r[i] == s[i]
    ensures forall i :: p < i < |r| ==> r[i] == s[i - 1]
  {
    s[..p] + [c] + s[p..]
  }

  function Remove<H, T>(s: seq<Cell<H, T>>, i: nat): (r: seq<Cell<H, T>>)
    requires i < |s|
    ensures |r| == |s| - 1
    ensures forall j :: 0 <= j < i ==> r[j] == s[j]
    ensures forall j :: i <= j < |r| ==> r[j] == s[j + 1]
  {
    s[..i] + s[i + 1..]
  }

  lemma InsertThenRemove<H, T>(s: seq<Cell<H, T>>, p: nat, c: Cell<H, T>)
    requires p <= |s|
    ensures Remove(Insert(s, p, c), p) == s
  {
  }

  lemma RemoveThenInsert<H, T>(s: seq<Cell<H, T>>, i: nat)
    requires i < |s|
    ensures Insert(Remove(s, i), i, s[i]) == s
  {
  }

  lemma RemoveForgets<H, T>(s: seq<Cell<H, T>>, i: nat, c: Cell<H, T>)
    requires i < |s|
    ensures Remove(s[i := c], i) == Remove(s, i)
  {
  }

  // ----- Sums over the entries

  function SumBy<H, T>(w: Cell<H, T> -> nat, s: seq<Cell<H, T>>): nat {
    if s == [] then 0 else w(s[0]) + SumBy(w, s[1..])
  }

  lemma {:induction false} SumConcat<H, T>(w: Cell<H, T> -> nat, a: seq<Cell<H, T>>, b: seq<Cell<H, T>>)
    ensures SumBy(w, a + b) == SumBy(w, a) + SumBy(w, b)
  {
    if a == [] {
      assert a + b == b;
    } else {
      assert (a + b)[1..] == a[1..] + b;
      SumConcat(w, a[1..], b);
    }
  }

  lemma InsertIsConcat<H, T>(s: seq<Cell<H, T>>, p: nat, c: Cell<H, T>)
    requires p <= |s|
    ensures s == s[..p] + s[p..] && Insert(s, p, c) == s[..p] + ([c] + s[p..])
  {
  }

  lemma {:induction false} SumInsert<H, T>(w: Cell<H, T> -> nat, s: seq<Cell<H, T>>, p: nat, c: Cell<H, T>)
    requires p <= |s|
    ensures SumBy(w, Insert(s, p, c)) == SumBy(w, s) + w(c)
  {
    InsertIsConcat(s, p, c);
    SumConcat(w, s[..p], s[p..]);
    SumConcat(w, s[..p], [c] + s[p..]);
  }

  lemma SumRemove<H, T>(w: Cell<H, T> -> nat, s: seq<Cell<H, T>>, i: nat)
    requires i < |s|
    ensures SumBy(w, s) == SumBy(w, Remove(s, i)) + w(s[i])
  {
    RemoveThenInsert(s, i);
    SumInsert(w, Remove(s, i), i, s[i]);
  }

  lemma SumRewrite<H, T>(w: Cell<H, T> -> nat, s: seq<Cell<H, T>>, i: nat, d: T)
    requires i < |s|
    ensures SumBy(w, s[i := Cell(s[i].h, d)]) + w(s[i]) == SumBy(w, s) + w(Cell(s[i].h, d))
  {
    var t := s[i := Cell(s[i].h, d)];
    RemoveForgets(s, i, t[i]);
    SumRemove(w, s, i);
    SumRemove(w, t, i);
  }

  lemma {:induction false} SumSame<H, T>(w: Cell<H, T> -> nat, s: seq<Cell<H, T>>, t: seq<Cell<H, T>>)
    requires |s| == |t| && forall i :: 0 <= i < |s| ==> w(s[i]) == w(t[i])
    ensures SumBy(w, s) == SumBy(w, t)
  {
    if s != [] {
      SumSame(w, s[1..], t[1..]);
    }
  }

  // ----- Where an entry goes

  /** The reference: walk from the head to the first entry that the new one may precede. */
  function Walk<H, T>(o: Order<T>, s: seq<Cell<H, T>>, d: T): (p: nat)
    ensures p <= |s|
    ensures forall i :: 0 <= i < p ==> o.cmpNew(d, s[i].d) == Less
    ensures p < |s| ==> o.cmpNew(d, s[p].d).IsGe()
  {
    if s == [] || o.cmpNew(d, s[0].d).IsGe() then 0 else 1 + Walk(o, s[1..], d)
  }

  /** Only the two neighbours of the place are looked at. */
  ghost predicate Boundary<H, T>(o: Order<T>, s: seq<Cell<H, T>>, d: T, p: nat) {
    && p <= |s|
    && (p > 0 ==> o.cmpNew(d, s[p - 1].d) == Less)
    && (p < |s| ==> o.cmpNew(d, s[p].d).IsGe())
  }

  /** Every place at which a queue may file a new entry: between a predecessor and a successor,
      or straight after an entry that it ties with. */
  ghost predicate At<H, T>(o: Order<T>, s: seq<Cell<H, T>>, d: T, p: nat) {
    Boundary(o, s, d, p) || (0 < p <= |s| && o.cmpNew(d, s[p - 1].d) == Equal)
  }

  /** The entries a new one has to follow come before those it may precede. */
  ghost predicate LessIsPrefix<H, T>(o: Order<T>, s: seq<Cell<H, T>>, d: T) {
    forall i, j :: 0 <= i < j < |s| && o.cmpNew(d, s[j].d) == Less ==> o.cmpNew(d, s[i].d) == Less
  }

  /** A shortcut that checks only the neighbours ends where the walk from the head ends. */
  lemma BoundaryIsWalk<H, T>(o: Order<T>, s: seq<Cell<H, T>>, d: T, p: nat)
    requires LessIsPrefix(o, s, d) && Boundary(o, s, d, p)
    ensures p == Walk(o, s, d)
  {
  }

  lemma AtIsWalk<H, T(!new)>(o: Order<T>, s: seq<Cell<H, T>>, d: T, p: nat)
    requires NeverTies(o) && LessIsPrefix(o, s, d) && At(o, s, d, p)
    ensures p == Walk(o, s, d)
  {
    BoundaryIsWalk(o, s, d, p);
  }

  // ----- Sorted queues

  ghost predicate Sorted<H, T>(o: Order<T>, s: seq<Cell<H, T>>) {
    forall i, j :: 0 <= i < j < |s| ==> o.cmp(s[i].d, s[j].d).IsGe()
  }

  lemma SortedMakesPrefix<H, T(!new)>(o: Order<T>, s: seq<Cell<H, T>>, d: T)
    requires Lawful(o) && TieUniform(o) && Sorted(o, s)
    ensures LessIsPrefix(o, s, d)
  {
    forall i, j | 0 <= i < j < |s| && o.cmpNew(d, s[j].d) == Less
      ensures o.cmpNew(d, s[i].d) == Less
    {
      var a, b := s[i].d, s[j].d;
      assert o.cmp(a, b).IsGe();
      Laws(o, d, b, a);
      Laws(o, b, d, a);
      Laws(o, a, b, d);
      Laws(o, d, a, b);
      if o.cmp(d, b) == Equal && o.cmp(a, b) == Equal {
        Laws(o, b, a, d);
        assert UniformAt(o, d, a, b);
      } else {
        StrictChain(o, a, b, d);
      }
    }
  }

  lemma InsertKeepsSorted<H, T(!new)>(o: Order<T>, s: seq<Cell<H, T>>, p: nat, c: Cell<H, T>)
    requires Lawful(o) && Sorted(o, s) && At(o, s, c.d, p)
    ensures Sorted(o, Insert(s, p, c))
  {
    var r := Insert(s, p, c);
    forall i | 0 <= i < p ensures o.cmp(s[i].d, c.d).IsGe() {
      Laws(o, c.d, s[p - 1].d, c.d);
      Laws(o, s[i].d, s[p - 1].d, c.d);
    }
    forall j | p <= j < |s| ensures o.cmp(c.d, s[j].d).IsGe() {
      if Boundary(o, s, c.d, p) {
        Laws(o, c.d, s[p].d, s[j].d);
        Laws(o, s[p].d, s[p].d, s[p].d);
      } else {
        Laws(o, c.d, s[p - 1].d, s[j].d);
      }
    }
  }

  lemma RemoveKeepsSorted<H, T>(o: Order<T>, s: seq<Cell<H, T>>, i: nat)
    requires i < |s| && Sorted(o, s)
    ensures Sorted(o, Remove(s, i))
  {
    var r := Remove(s, i);
    forall a, b | 0 <= a < b < |r| ensures o.cmp(r[a].d, r[b].d).IsGe() {
      assert r[a] == s[if a < i then a else a + 1] && r[b] == s[if b < i then b else b + 1];
    }
  }

  // ----- update_node

  /** The updated entry no longer fits between its neighbours. */
  predicate Misplaced<H, T>(o: Order<T>, s: seq<Cell<H, T>>, i: nat)
    requires i < |s|
  {
    || (i > 0 && o.cmp(s[i].d, s[i - 1].d) == Greater)
    || (i + 1 < |s| && o.cmp(s[i].d, s[i + 1].d) == Less)
  }

  /** Take the entry out and file it again by the walk from the head. */
  function Refile<H, T>(o: Order<T>, s: seq<Cell<H, T>>, i: nat): (r: seq<Cell<H, T>>)
    requires i < |s|
    ensures |r| == |s|
  {
    var rest := Remove(s, i);
    Insert(rest, Walk(o, rest, s[i].d), s[i])
  }

  /** `update_node`: `d` is the data the closure leaves behind, `changed` what it returns. */
  function Update<H, T>(o: Order<T>, s: seq<Cell<H, T>>, i: nat, d: T, changed: bool): (r: seq<Cell<H, T>>)
    requires i < |s|
    ensures |r| == |s|
  {
    var t := s[i := Cell(s[i].h, d)];
    if changed && Misplaced(o, t, i) then Refile(o, t, i) else t
  }

  /** The single-link box queue decides differently: it also moves a head that merely ties with
      its successor. */
  function UpdateEager<H, T>(o: Order<T>, s: seq<Cell<H, T>>, i: nat, d: T, changed: bool): (r: seq<Cell<H, T>>)
    requires i < |s|
    ensures |r| == |s|
  {
    var t := s[i := Cell(s[i].h, d)];
    if changed && (Misplaced(o, t, i) || (i == 0 && |t| > 1 && o.cmp(d, t[1].d).IsLe()))
    then Refile(o, t, i) else t
  }

  /** Where the updated entry ends up. */
  function Settled<H, T>(o: Order<T>, s: seq<Cell<H, T>>, i: nat, d: T, changed: bool, eager: bool): (j: nat)
    requires i < |s|
  {
    var t := s[i := Cell(s[i].h, d)];
    if changed && (Misplaced(o, t, i) || (eager && i == 0 && |t| > 1 && o.cmp(d, t[1].d).IsLe()))
    then Walk(o, Remove(t, i), d) else i
  }

  function UpdateBy<H, T>(o: Order<T>, s: seq<Cell<H, T>>, i: nat, d: T, changed: bool, eager: bool)
      : (r: seq<Cell<H, T>>)
    requires i < |s|
    ensures |r| == |s|
  {
    if eager then UpdateEager(o, s, i, d, changed) else Update(o, s, i, d, changed)
  }

  lemma RefileMoves<H, T>(o: Order<T>, s: seq<Cell<H, T>>, i: nat, c: Cell<H, T>)
    requires i < |s|
    ensures var j := Walk(o, Remove(s, i), c.d);
            j < |s| && Refile(o, s[i := c], i) == Insert(Remove(s, i), j, c)
  {
    RemoveForgets(s, i, c);
  }

  lemma StayMoves<H, T>(s: seq<Cell<H, T>>, i: nat, c: Cell<H, T>)
    requires i < |s|
    ensures s[i := c] == Insert(Remove(s, i), i, c)
  {
    RemoveForgets(s, i, c);
    RemoveThenInsert(s[i := c], i);
  }

  /** All four queues: the handle survives with its new data, and the other entries keep their
      handles, their data and their relative order. */
  lemma UpdateKeepsOthers<H, T>(o: Order<T>, s: seq<Cell<H, T>>, i: nat, d: T, changed: bool, eager: bool)
    requires i < |s|
    ensures var r, j := UpdateBy(o, s, i, d, changed, eager), Settled(o, s, i, d, changed, eager);
            j < |s| && r == Insert(Remove(s, i), j, Cell(s[i].h, d)) && Remove(r, j) == Remove(s, i)
  {
    hide Walk, Insert, Remove, Refile;
    var c, j := Cell(s[i].h, d), Settled(o, s, i, d, changed, eager);
    RemoveForgets(s, i, c);
    RefileMoves(o, s, i, c);
    StayMoves(s, i, c);
    InsertThenRemove(Remove(s, i), j, c);
  }

  /** All four queues: whatever the new priority is, the queue is sorted afterwards. */
  lemma UpdateKeepsSorted<H, T(!new)>(o: Order<T>, s: seq<Cell<H, T>>, i: nat, d: T, eager: bool)
    requires Lawful(o) && Sorted(o, s) && i < |s|
    ensures Sorted(o, UpdateBy(o, s, i, d, true, eager))
  {
    var c := Cell(s[i].h, d);
    var t, rest := s[i := c], Remove(s, i);
    RemoveForgets(s, i, c);
    RemoveKeepsSorted(o, s, i);
    if UpdateBy(o, s, i, d, true, eager) == Refile(o, t, i) {
      InsertKeepsSorted(o, rest, Walk(o, rest, d), c);
    } else {
      InPlaceIsSorted(o, s, i, d);
    }
  }

  /** An entry that fits between its neighbours fits where it is. */
  lemma InPlaceIsSorted<H, T(!new)>(o: Order<T>, s: seq<Cell<H, T>>, i: nat, d: T)
    requires Lawful(o) && Sorted(o, s) && i < |s| && !Misplaced(o, s[i := Cell(s[i].h, d)], i)
    ensures Sorted(o, s[i := Cell(s[i].h, d)])
  {
    var t := s[i := Cell(s[i].h, d)];
    forall k | 0 <= k < i ensures o.cmp(t[k].d, d).IsGe() {
      Laws(o, d, t[i - 1].d, d);
      Laws(o, t[k].d, t[i - 1].d, d);
    }
    forall k | i < k < |t| ensures o.cmp(d, t[k].d).IsGe() {
      Laws(o, d, t[i + 1].d, t[k].d);
      Laws(o, t[k].d, t[k].d, t[k].d);
    }
  }

  /** The updated entry may stand between its neighbours. */
  ghost predicate FitsBetween<H, T>(o: Order<T>, s: seq<Cell<H, T>>, i: nat, d: T)
    requires i < |s|
  {
    (i > 0 ==> o.cmp(d, s[i - 1].d) != Greater) && (i + 1 < |s| ==> o.cmp(d, s[i + 1].d) != Less)
  }

  /** `update_node`, branch by branch: an entry that is not said to have changed or that still fits stays,
      a tie with a neighbour included; any other is taken out and filed where the walk from the head
      ends. */
  lemma UpdateStaysOrRefiles<H, T>(o: Order<T>, s: seq<Cell<H, T>>, i: nat, d: T, changed: bool)
    requires i < |s|
    ensures var r, c, rest := Update(o, s, i, d, changed), Cell(s[i].h, d), Remove(s, i);
            r == if changed && !FitsBetween(o, s, i, d) then Insert(rest, Walk(o, rest, d), c) else s[i := c]
  {
    hide Walk;
    RefileMoves(o, s, i, Cell(s[i].h, d));
  }

  /** The single-link box queue: the same, but a head that ties with its successor is filed again too. */
  lemma EagerStaysOrRefiles<H, T>(o: Order<T>, s: seq<Cell<H, T>>, i: nat, d: T, changed: bool)
    requires i < |s|
    ensures var r, c, rest := UpdateEager(o, s, i, d, changed), Cell(s[i].h, d), Remove(s, i);
            var tied := i == 0 && |s| > 1 && o.cmp(d, s[1].d) == Equal;
            r == if changed && (!FitsBetween(o, s, i, d) || tied) then Insert(rest, Walk(o, rest, d), c) else s[i := c]
  {
    hide Walk;
    RefileMoves(o, s, i, Cell(s[i].h, d));
  }

  lemma Unchanged<H, T>(o: Order<T>, s: seq<Cell<H, T>>, i: nat, d: T, eager: bool)
    requires i < |s|
    ensures UpdateBy(o, s, i, d, false, eager) == s[i := Cell(s[i].h, d)]
  {
  }

  /** Both, in terms of the queue with the new data in place. */
  lemma UpdateByEither<H, T>(o: Order<T>, s: seq<Cell<H, T>>, i: nat, d: T, eager: bool)
    requires i < |s|
    ensures var t := s[i := Cell(s[i].h, d)];
            UpdateBy(o, s, i, d, true, eager) ==
            if && (i > 0 ==> o.cmp(d, t[i - 1].d) != Greater) && (i + 1 < |t| ==> o.cmp(d, t[i + 1].d) != Less)
               && (eager && i == 0 && |t| > 1 ==> o.cmp(d, t[1].d) == Greater)
            then t else Refile(o, t, i)
  {
    hide Walk;
  }

  /** An entry that may stand between its neighbours may stand where it is: the queue is sorted with it
      there if and only if it fits.  So an entry is moved only if it has to be. */
  lemma FitsIfSorted<H, T(!new)>(o: Order<T>, s: seq<Cell<H, T>>, i: nat, d: T)
    requires Lawful(o) && Sorted(o, s) && i < |s|
    ensures FitsBetween(o, s, i, d) <==> Sorted(o, s[i := Cell(s[i].h, d)])
    ensures Sorted(o, s[i := Cell(s[i].h, d)]) ==> Update(o, s, i, d, true) == s[i := Cell(s[i].h, d)]
  {
    hide Walk;
    var t := s[i := Cell(s[i].h, d)];
    if Sorted(o, t) {
      if i > 0 {
        assert o.cmp(t[i - 1].d, t[i].d).IsGe();
        Laws(o, s[i - 1].d, d, d);
      }
      if i + 1 < |s| {
        assert o.cmp(t[i].d, t[i + 1].d).IsGe();
      }
    }
    if FitsBetween(o, s, i, d) {
      InPlaceIsSorted(o, s, i, d);
    }
  }

  lemma DistinctInsert<H, T>(s: seq<Cell<H, T>>, p: nat, c: Cell<H, T>)
    requires p <= |s| && Distinct(s) && !Has(s, c.h)
    ensures Distinct(Insert(s, p, c))
  {
    var r := Insert(s, p, c);
    forall i, j | 0 <= i < j < |r| ensures r[i].h != r[j].h {
      if i < p { assert r[i] == s[i]; }
      if p < j { assert r[j] == s[j - 1]; }
    }
  }

  lemma DistinctRemove<H, T>(s: seq<Cell<H, T>>, i: nat)
    requires i < |s| && Distinct(s)
    ensures Distinct(Remove(s, i)) && !Has(Remove(s, i), s[i].h)
  {
    var r := Remove(s, i);
    forall j | 0 <= j < |r| ensures r[j] == s[if j < i then j else j + 1] {}
  }

  // ----- Two queues that hold the same data

  ghost predicate SameData<G, H, T>(s: seq<Cell<G, T>>, t: seq<Cell<H, T>>) {
    |s| == |t| && forall i :: 0 <= i < |s| ==> s[i].d == t[i].d
  }

  lemma SameWalk<G, H, T>(o: Order<T>, s: seq<Cell<G, T>>, t: seq<Cell<H, T>>, d: T)
    requires SameData(s, t)
    ensures Walk(o, s, d) == Walk(o, t, d)
  {
  }

  /** Where an updated entry settles depends on the data only. */
  lemma SameSettled<G, H, T>(o: Order<T>, s: seq<Cell<G, T>>, t: seq<Cell<H, T>>, i: nat, d: T, changed: bool,
                             eager: bool)
    requires SameData(s, t) && i < |s|
    ensures Settled(o, s, i, d, changed, eager) == Settled(o, t, i, d, changed, eager)
  {
    SameWalk(o, Remove(s[i := Cell(s[i].h, d)], i), Remove(t[i := Cell(t[i].h, d)], i), d);
  }

  // ----- The single-link box queue

  /** The single-link box queue agrees with the other three on an update unless it is of a head
      that ties with its successor and would, as a new entry, go behind it. */
  lemma SingleLinkBoxDiffers<H, T(!new)>(o: Order<T>, s: seq<Cell<H, T>>, i: nat, d: T, changed: bool)
    requires i < |s| && Distinct(s)
    ensures UpdateEager(o, s, i, d, changed) != Update(o, s, i, d, changed) <==>
            changed && i == 0 && |s| > 1 && o.cmp(d, s[1].d) == Equal && o.cmpNew(d, s[1].d) == Less
  {
    var t := s[i := Cell(s[i].h, d)];
    if changed && i == 0 && |s| > 1 && o.cmp(d, s[1].d) == Equal {
      var rest := Remove(t, 0);
      assert rest[0] == s[1];
      if o.cmpNew(d, s[1].d) == Less {
        assert Refile(o, t, 0)[0] == s[1];
      } else {
        assert Walk(o, rest, d) == 0;
        assert Refile(o, t, 0) == t;
      }
    }
  }

  /** Two entries of priorities 2 and 1 under `FIFO`, and the first is lowered to 1: it stays ahead of the
      other on three of the queues and falls behind it on the single-link box queue. */
  lemma TiedHeadMoves()
    ensures var o, s := Fifo(HighestNumber()), [Cell(0, 2), Cell(1, 1)];
            && Update(o, s, 0, 1, true) == [Cell(0, 1), Cell(1, 1)]
            && UpdateEager(o, s, 0, 1, true) == [Cell(1, 1), Cell(0, 1)]
  {
    hide Walk;
    var o, t := Fifo(HighestNumber()), [Cell(0, 1), Cell(1, 1)];
    var rest := Remove(t, 0);
    assert rest[0] == Cell(1, 1) && o.cmpNew(1, 1) == Less;
    assert Walk(o, rest, 1) == 1;
    assert Refile(o, t, 0) == [rest[0], t[0]];
  }
}
