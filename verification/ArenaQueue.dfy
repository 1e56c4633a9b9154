/** `ArenaQueue` (src/queue/arena.rs): a sorted list threaded through a growable array of slots.
    A handle is the index of a slot. */
module ArenaQueues {
  import opened Masks
  import opened Orders
  import opened QueueSpec

  /** The link of the last node, and of the head's predecessor. */
  const SENTINEL: int := -1
  /** The link of a node that is not in use. */
  const UNALLOCATED: int := -2

  /** `data` is `None` while the memory of the slot is uninitialised. */
  datatype Node<+T> = Node(next: int, prev: int, data: Option<T>)

  // ----- The list in the slots

  function FirstOf<T>(s: seq<Cell<nat, T>>): int {
    if s == [] then SENTINEL else s[0].h
  }

  function NextOf<T>(s: seq<Cell<nat, T>>, i: nat): int
    requires i < |s|
  {
    if i + 1 < |s| then s[i + 1].h else SENTINEL
  }

  function PrevOf<T>(s: seq<Cell<nat, T>>, i: nat): int
    requires i < |s|
  {
    if i > 0 then s[i - 1].h else SENTINEL
  }

  ghost predicate NodeAt<T>(ns: seq<Node<T>>, dual: bool, s: seq<Cell<nat, T>>, i: nat)
    requires i < |s|
  {
    && s[i].h < |ns|
    && ns[s[i].h].next == NextOf(s, i)
    && (dual ==> ns[s[i].h].prev == PrevOf(s, i))
    && ns[s[i].h].data == Some(s[i].d)
  }

  /** Following `next` from the first slot of `s` visits the slots of `s` in order, each once;
      with dual links `prev` mirrors `next`. */
  ghost predicate Thread<T>(ns: seq<Node<T>>, dual: bool, s: seq<Cell<nat, T>>) {
    Distinct(s) && forall i :: 0 <= i < |s| ==> NodeAt(ns, dual, s, i)
  }

  /** No slot outside `s` is marked as in use, with the possible exception of `loose`. */
  ghost predicate NoStrays<T>(ns: seq<Node<T>>, s: seq<Cell<nat, T>>, loose: int) {
    forall k :: 0 <= k < |ns| && ns[k].next != UNALLOCATED && k != loose ==> Has(s, k)
  }

  function WithPrev<T>(n: Node<T>, dual: bool, link: int): Node<T> {
    if dual then n.(prev := link) else n
  }

  /** The nodes after slot `slot` has been filed at place `p`. */
  ghost predicate Filed<T>(ns: seq<Node<T>>, ms: seq<Node<T>>, dual: bool, s: seq<Cell<nat, T>>, p: nat, slot: nat)
    requires p <= |s| && |ms| == |ns| && slot < |ns| && ms[slot].data.Some?
    requires Thread(ns, dual, s)
  {
    var r := Insert(s, p, Cell(slot, ms[slot].data.value));
    assert p > 0 ==> NodeAt(ns, dual, s, p - 1);
    assert p < |s| ==> NodeAt(ns, dual, s, p);
    && ms[slot].next == NextOf(r, p)
    && (dual ==> ms[slot].prev == PrevOf(r, p))
    && (p > 0 ==> ms[s[p - 1].h] == ns[s[p - 1].h].(next := slot))
    && (p < |s| ==> ms[s[p].h] == WithPrev(ns[s[p].h], dual, slot))
    && forall k | 0 <= k < |ns| && k != slot && (p > 0 ==> k != s[p - 1].h) && (p < |s| ==> k != s[p].h) ::
         ms[k] == ns[k]
  }

  lemma FiledIsThread<T>(ns: seq<Node<T>>, ms: seq<Node<T>>, dual: bool, s: seq<Cell<nat, T>>, p: nat, slot: nat)
    requires p <= |s| && |ms| == |ns| && slot < |ns| && ms[slot].data.Some? && !Has(s, slot)
    requires Thread(ns, dual, s) && NoStrays(ns, s, slot) && Filed(ns, ms, dual, s, p, slot)
    ensures var r := Insert(s, p, Cell(slot, ms[slot].data.value));
            Thread(ms, dual, r) && NoStrays(ms, r, SENTINEL)
  {
    var r := Insert(s, p, Cell(slot, ms[slot].data.value));
    DistinctInsert(s, p, r[p]);
    forall i | 0 <= i < |r| ensures NodeAt(ms, dual, r, i) {
      if i != p {
        assert NodeAt(ns, dual, s, if i < p then i else i - 1);
      }
    }
    forall k | 0 <= k < |ms| && ms[k].next != UNALLOCATED ensures Has(r, k) {
      if k == slot {
        assert r[p].h == k;
      } else {
        assert p > 0 ==> NodeAt(ns, dual, s, p - 1);
        var j := IndexOf(s, k);
        assert r[if j < p then j else j + 1].h == k;
      }
    }
  }

  /** What filing a slot behind the entry at `k` writes to the three nodes concerned. */
  lemma LinkedAfter<T>(ns: seq<Node<T>>, ms: seq<Node<T>>, dual: bool, s: seq<Cell<nat, T>>, k: nat, slot: nat)
    requires Thread(ns, dual, s) && k < |s| && |ms| == |ns| && slot < |ns| && !Has(s, slot) && ms[slot].data.Some?
    requires NodeAt(ns, dual, s, k) && (k + 1 < |s| ==> NodeAt(ns, dual, s, k + 1))
    requires var prev, next := s[k].h, NextOf(s, k);
             && ms[slot].next == next && (dual ==> ms[slot].prev == prev)
             && ms[prev] == ns[prev].(next := slot)
             && (next != SENTINEL ==> ms[next] == WithPrev(ns[next], dual, slot))
             && forall i | 0 <= i < |ns| && i != slot && i != prev && i != next :: ms[i] == ns[i]
    ensures Filed(ns, ms, dual, s, k + 1, slot)
  {
  }

  /** The nodes after the entry at place `i` has been unlinked. */
  ghost predicate Unlinked<T>(ns: seq<Node<T>>, ms: seq<Node<T>>, dual: bool, s: seq<Cell<nat, T>>, i: nat)
    requires i < |s| && |ms| == |ns|
    requires Thread(ns, dual, s)
  {
    assert NodeAt(ns, dual, s, i);
    assert i > 0 ==> NodeAt(ns, dual, s, i - 1);
    assert i + 1 < |s| ==> NodeAt(ns, dual, s, i + 1);
    && (i > 0 ==> ms[s[i - 1].h] == ns[s[i - 1].h].(next := NextOf(s, i)))
    && (i + 1 < |s| ==> ms[s[i + 1].h] == WithPrev(ns[s[i + 1].h], dual, PrevOf(s, i)))
    && forall k | 0 <= k < |ns| && k != s[i].h && (i > 0 ==> k != s[i - 1].h) && (i + 1 < |s| ==> k != s[i + 1].h) ::
         ms[k] == ns[k]
  }

  lemma UnlinkedIsThread<T>(ns: seq<Node<T>>, ms: seq<Node<T>>, dual: bool, s: seq<Cell<nat, T>>, i: nat)
    requires i < |s| && |ms| == |ns|
    requires Thread(ns, dual, s) && NoStrays(ns, s, SENTINEL) && Unlinked(ns, ms, dual, s, i)
    ensures Thread(ms, dual, Remove(s, i)) && NoStrays(ms, Remove(s, i), s[i].h)
    ensures !Has(Remove(s, i), s[i].h)
  {
    var r := Remove(s, i);
    DistinctRemove(s, i);
    forall j | 0 <= j < |r| ensures NodeAt(ms, dual, r, j) {
      assert NodeAt(ns, dual, s, if j < i then j else j + 1);
    }
    forall k | 0 <= k < |ms| && ms[k].next != UNALLOCATED && k != s[i].h ensures Has(r, k) {
      assert i > 0 ==> NodeAt(ns, dual, s, i - 1);
      assert i + 1 < |s| ==> NodeAt(ns, dual, s, i + 1);
      var j := IndexOf(s, k);
      assert r[if j < i then j else j - 1].h == k;
    }
  }

  lemma RewrittenIsThread<T>(ns: seq<Node<T>>, dual: bool, s: seq<Cell<nat, T>>, i: nat, d: T)
    requires i < |s| && Thread(ns, dual, s) && NoStrays(ns, s, SENTINEL) && NodeAt(ns, dual, s, i)
    ensures var ms, r := ns[s[i].h := ns[s[i].h].(data := Some(d))], s[i := Cell(s[i].h, d)];
            Thread(ms, dual, r) && NoStrays(ms, r, SENTINEL)
  {
    var ms, r := ns[s[i].h := ns[s[i].h].(data := Some(d))], s[i := Cell(s[i].h, d)];
    forall j | 0 <= j < |r| ensures NodeAt(ms, dual, r, j) {
      assert NodeAt(ns, dual, s, j);
    }
    forall k | 0 <= k < |ms| && ms[k].next != UNALLOCATED ensures Has(r, k) {
      assert r[IndexOf(s, k)].h == k;
    }
  }

  /** The same nodes at the front of a larger array whose other slots are free. */
  lemma CopiedIsThread<T>(ns: seq<Node<T>>, ms: seq<Node<T>>, dual: bool, s: seq<Cell<nat, T>>)
    requires |ns| <= |ms| && ms[..|ns|] == ns && forall k :: |ns| <= k < |ms| ==> ms[k].next == UNALLOCATED
    requires Thread(ns, dual, s) && NoStrays(ns, s, SENTINEL)
    ensures Thread(ms, dual, s) && NoStrays(ms, s, SENTINEL)
  {
    forall k | 0 <= k < |ns| ensures ms[k] == ns[k] {
      assert ms[..|ns|][k] == ms[k];
    }
    forall i | 0 <= i < |s| ensures NodeAt(ms, dual, s, i) {
      assert NodeAt(ns, dual, s, i);
    }
    forall k | 0 <= k < |ms| && ms[k].next != UNALLOCATED ensures Has(s, k) {
      assert ns[k].next != UNALLOCATED;
    }
  }

  /** Only its predecessor links to an entry. */
  lemma OnlyPrevLinks<T>(ns: seq<Node<T>>, dual: bool, s: seq<Cell<nat, T>>, i: nat, k: nat)
    requires 0 < i < |s| && k < |ns| && ns[k].next == s[i].h
    requires Thread(ns, dual, s) && NoStrays(ns, s, SENTINEL)
    ensures k == s[i - 1].h
  {
    assert NodeAt(ns, dual, s, IndexOf(s, k));
  }

  /** The nodes after the slot of the entry at `i` has been marked as free. */
  ghost function Freed<T>(ns: seq<Node<T>>, dual: bool, s: seq<Cell<nat, T>>, i: nat): (ms: seq<Node<T>>)
    requires i < |s| && NodeAt(ns, dual, s, i) && (i + 1 < |s| ==> NodeAt(ns, dual, s, i + 1))
  {
    var ms := ns[s[i].h := ns[s[i].h].(next := UNALLOCATED, data := None)];
    if i + 1 < |s| then ms[s[i + 1].h := WithPrev(ms[s[i + 1].h], dual, ns[s[i].h].prev)] else ms
  }

  lemma FreedLinks<T>(ns: seq<Node<T>>, dual: bool, s: seq<Cell<nat, T>>, i: nat, k: nat)
    requires 0 < i < |s| && NodeAt(ns, dual, s, i) && (i + 1 < |s| ==> NodeAt(ns, dual, s, i + 1))
    requires Thread(ns, dual, s) && NoStrays(ns, s, SENTINEL)
    requires k < |ns| && Freed(ns, dual, s, i)[k].next == s[i].h
    ensures k == s[i - 1].h
  {
    OnlyPrevLinks(ns, dual, s, i, k);
  }

  // ----- Probing

  /** Steps from slot `k` to slot `f` going round an array of the given size. */
  function Ahead(k: nat, f: nat, size: nat): (d: nat)
    requires k < size && f < size
    ensures d < size && (d == 0 <==> k == f)
  {
    if k <= f then f - k else f + size - k
  }

  /** Pigeonhole: fewer entries than slots leave a slot without an entry. */
  lemma {:induction false} SomeSlotFree<T>(s: seq<Cell<nat, T>>, size: nat)
    requires |s| < size
    ensures exists f :: 0 <= f < size && !Has(s, f)
  {
    if s == [] {
      assert !Has(s, 0);
    } else if Has(s, size - 1) {
      var i := IndexOf(s, size - 1);
      SomeSlotFree(Remove(s, i), size - 1);
      var f :| 0 <= f < size - 1 && !Has(Remove(s, i), f);
      forall j | 0 <= j < |s| ensures s[j].h != f {
        assert j != i ==> Remove(s, i)[if j < i then j else j - 1] == s[j];
      }
      assert !Has(s, f);
    }
  }

  class ArenaQueue<T(!new)> {
    const ord: Order<T>
    /** Dual-link nodes know their predecessor (`HAS_PREV`). */
    const dual: bool

    var nodes: array<Node<T>>
    var size: nat
    var used: nat
    var good: nat
    var head: int

    /** The queue from head to tail. */
    ghost var entries: seq<Cell<nat, T>>

    /** The entries are linked, whatever is in the other slots. */
    ghost predicate Threaded()
      reads this, nodes
    {
      size == nodes.Length && head == FirstOf(entries) && Thread(nodes[..], dual, entries)
    }

    ghost predicate Linked()
      reads this, nodes
    {
      Threaded() && NoStrays(nodes[..], entries, SENTINEL)
    }

    ghost predicate Valid()
      reads this, nodes
    {
      && Linked()
      && used == |entries| <= size
      && (size == 0 || (size >= 4 && PowerOfTwo(size) && good < size))
    }

    constructor (ord: Order<T>, dual: bool)
      ensures Valid() && entries == [] && this.ord == ord && this.dual == dual
      ensures fresh(nodes)
    {
      this.ord, this.dual := ord, dual;
      nodes := new Node<T>[0];
      size, used, good, head := 0, 0, 0, SENTINEL;
      entries := [];
    }

    // ----- Reading

    lemma Locate(h: nat) returns (i: nat)
      requires Threaded() && Has(entries, h)
      ensures i < |entries| && entries[i].h == h && i == IndexOf(entries, h)
      ensures NodeAt(nodes[..], dual, entries, i) && h < size
    {
      i := IndexOf(entries, h);
      assert NodeAt(nodes[..], dual, entries, i);
    }

    function GetByHandle(h: nat): (d: T)
      requires Threaded() && Has(entries, h)
      reads this, nodes
      ensures d == entries[IndexOf(entries, h)].d
    {
      assert NodeAt(nodes[..], dual, entries, IndexOf(entries, h));
      nodes[h].data.value
    }

    function HeadHandle(): (r: Option<nat>)
      requires Threaded()
      reads this, nodes
      ensures r == if entries == [] then None else Some(entries[0].h)
    {
      if head != SENTINEL then Some(head) else None
    }

    function GetNextHandle(h: nat): (r: Option<nat>)
      requires Threaded() && Has(entries, h)
      reads this, nodes
      ensures var i := IndexOf(entries, h);
              r == if i + 1 < |entries| then Some(entries[i + 1].h) else None
    {
      assert NodeAt(nodes[..], dual, entries, IndexOf(entries, h));
      if nodes[h].next != SENTINEL then Some(nodes[h].next) else None
    }

    predicate IsEmpty()
      requires Threaded()
      reads this, nodes
      ensures IsEmpty() <==> entries == []
    {
      HeadHandle() == None
    }

    // ----- Writing data in place, through a shared reference to it

    method SetInPlace(h: nat, d: T)
      requires Valid() && Has(entries, h)
      modifies this`entries, nodes
      ensures Valid() && entries == old(entries)[IndexOf(old(entries), h) := Cell(h, d)]
    {
      ghost var i := Locate(h);
      RewrittenIsThread(nodes[..], dual, entries, i, d);
      nodes[h] := nodes[h].(data := Some(d));
      entries := entries[i := Cell(h, d)];
      assert nodes[..] == old(nodes[..])[h := nodes[h]];
    }

    // ----- enqueue

    method Expand()
      requires Valid() && used == size
      modifies this`nodes, this`size, this`good
      ensures Valid() && used < size && fresh(nodes)
      ensures size == if old(size) == 0 then 4 else 2 * old(size)
    {
      var oldSize, oldNodes := size, nodes;
      if size == 0 {
        size := 4;
        nodes := new Node<T>[size](_ => Node(0, 0, None));
      } else {
        size := 2 * size;
        nodes := new Node<T>[size](
          k requires 0 <= k reads oldNodes =>
            if k < oldNodes.Length then oldNodes[k] else Node(0, 0, None));
      }
      for k := oldSize to size
        modifies nodes
        invariant forall j :: 0 <= j < oldSize ==> nodes[j] == oldNodes[j]
        invariant forall j :: oldSize <= j < k ==> nodes[j].next == UNALLOCATED
      {
        nodes[k] := nodes[k].(next := UNALLOCATED);
      }
      good := oldSize;
      CopiedIsThread(oldNodes[..], nodes[..], dual, entries);
    }

    /** Find a slot for the new data by probing from `good`, and with it, if the probe passes
        one, an entry that the new one may follow; `tie` says that it may follow it directly. */
    method Emplace(d: T) returns (slot: nat, hint: Option<nat>, tie: bool)
      requires Valid() && used < size
      modifies this`good, this`used, nodes
      ensures Linked() && used == old(used) + 1 && good < size
      ensures slot < size && !Has(entries, slot) && nodes[slot].data == Some(d)
      ensures tie ==> hint.Some?
      ensures hint.Some? ==> Has(entries, hint.value)
      ensures hint.Some? ==> ord.cmpNew(d, GetByHandle(hint.value)) == if tie then Equal else Less
    {
      hint, tie := None, false;
      var mask := size - 1;
      slot := good;
      SomeSlotFree(entries, size);
      ghost var free :| 0 <= free < size && !Has(entries, free);
      assert nodes[..][free].next == UNALLOCATED;
      while nodes[slot].next != UNALLOCATED
        invariant slot < size
        invariant tie ==> hint.Some?
        invariant hint.Some? ==> Has(entries, hint.value)
        invariant hint.Some? ==> ord.cmpNew(d, GetByHandle(hint.value)) == if tie then Equal else Less
        decreases Ahead(slot, free, size)
      {
        var probed := slot;
        assert nodes[..][probed].next != UNALLOCATED;
        slot := Around(slot, mask);
        if !tie {
          var data := GetByHandle(probed);
          match ord.cmpNew(d, data) {
            case Greater =>
            case Equal =>
              hint, tie := Some(probed), true;
            case Less =>
              if hint.None? || ord.cmp(data, GetByHandle(hint.value)) == Greater {
                hint := Some(probed);
              }
          }
        }
      }
      good := Around(slot, mask);
      used := used + 1;
      assert !Has(entries, slot) by {
        if Has(entries, slot) {
          ghost var i := Locate(slot);
        }
      }
      nodes[slot] := nodes[slot].(data := Some(d));
      forall i | 0 <= i < |entries| ensures NodeAt(nodes[..], dual, entries, i) {
        assert NodeAt(old(nodes[..]), dual, entries, i);
      }
      forall k | 0 <= k < size && nodes[..][k].next != UNALLOCATED ensures Has(entries, k) {
        assert old(nodes[..])[k].next != UNALLOCATED;
      }
    }

    /** The slot after `k`, going round. */
    function Around(k: nat, mask: nat): (r: nat)
      requires Valid() && k < size && mask == size - 1
      reads this, nodes
      ensures r == if k + 1 < size then k + 1 else 0
    {
      MaskWraps(k, size);
      And(k + 1, mask)
    }

    method SetPrev(k: nat, link: int)
      requires k < nodes.Length
      modifies nodes
      ensures nodes[..] == old(nodes[..])[k := WithPrev(old(nodes[k]), dual, link)]
    {
      nodes[k] := WithPrev(nodes[k], dual, link);
    }

    /** Link the slot in before everything else. */
    method InsertFirst(slot: nat)
      requires Threaded() && NoStrays(nodes[..], entries, slot) && slot < size && !Has(entries, slot)
      requires nodes[slot].data.Some?
      modifies this`head, this`entries, nodes
      ensures Linked()
      ensures entries == Insert(old(entries), 0, Cell(slot, old(nodes[slot].data.value)))
    {
      ghost var before := nodes[..];
      assert entries != [] ==> NodeAt(before, dual, entries, 0);
      var first := head;
      nodes[slot] := nodes[slot].(next := first);
      head := slot;
      SetPrev(slot, SENTINEL);
      if first != SENTINEL {
        SetPrev(first, slot);
      }
      FiledIsThread(before, nodes[..], dual, entries, 0, slot);
      entries := Insert(entries, 0, Cell(slot, nodes[slot].data.value));
    }

    /** Link the slot in directly after the entry at `k`, which lives in slot `prev`. */
    method InsertAfter(slot: nat, prev: nat, ghost k: nat)
      requires Threaded() && NoStrays(nodes[..], entries, slot) && slot < size && !Has(entries, slot)
      requires nodes[slot].data.Some?
      requires k < |entries| && entries[k].h == prev
      modifies this`entries, nodes
      ensures Linked()
      ensures entries == Insert(old(entries), k + 1, Cell(slot, old(nodes[slot].data.value)))
    {
      ghost var before := nodes[..];
      assert NodeAt(before, dual, entries, k);
      assert k + 1 < |entries| ==> NodeAt(before, dual, entries, k + 1);
      var next := nodes[prev].next;
      if next != SENTINEL {
        SetPrev(next, slot);
      }
      nodes[slot] := nodes[slot].(next := next);
      SetPrev(slot, prev);
      nodes[prev] := nodes[prev].(next := slot);
      LinkedAfter(before, nodes[..], dual, entries, k, slot);
      FiledIsThread(before, nodes[..], dual, entries, k + 1, slot);
      entries := Insert(entries, k + 1, Cell(slot, nodes[slot].data.value));
    }

    /** Link the slot in, walking on from `after`, or from the head if there is no `after`. */
    method InsertNode(slot: nat, after: Option<nat>) returns (ghost p: nat)
      requires Threaded() && NoStrays(nodes[..], entries, slot) && slot < size && !Has(entries, slot)
      requires nodes[slot].data.Some?
      requires after.Some? ==> Has(entries, after.value)
      requires after.Some? ==> ord.cmpNew(nodes[slot].data.value, GetByHandle(after.value)) == Less
      modifies this`head, this`entries, nodes
      ensures Linked()
      ensures Boundary(ord, old(entries), old(nodes[slot].data.value), p)
      ensures entries == Insert(old(entries), p, Cell(slot, old(nodes[slot].data.value)))
      ensures forall i | (if after.Some? then IndexOf(old(entries), after.value) else 0) <= i < p ::
                ord.cmpNew(old(nodes[slot].data.value), old(entries)[i].d) == Less
    {
      var d := nodes[slot].data.value;
      var prev: nat;
      ghost var k: nat;
      if after.Some? {
        k := Locate(after.value);
        prev := after.value;
      } else {
        var first := HeadHandle();
        assert entries != [] ==> IndexOf(entries, entries[0].h) == 0 by {
          if entries != [] { IndexIs(entries, 0); }
        }
        if first == None || ord.cmpNew(d, GetByHandle(first.value)).IsGe() {
          p := 0;
          InsertFirst(slot);
          return;
        }
        k, prev := 0, first.value;
      }
      ghost var from := k;
      while true
        invariant k < |entries| && prev == entries[k].h
        invariant from <= k && forall i :: from <= i <= k ==> ord.cmpNew(d, entries[i].d) == Less
        invariant Threaded() && entries == old(entries) && nodes[..] == old(nodes[..])
        decreases |entries| - k
      {
        IndexIs(entries, k);
        var next := GetNextHandle(prev);
        if next == None {
          break;
        }
        IndexIs(entries, k + 1);
        if ord.cmpNew(d, GetByHandle(next.value)).IsGe() {
          break;
        }
        k, prev := k + 1, next.value;
      }
      p := k + 1;
      InsertAfter(slot, prev, k);
    }

    method Enqueue(d: T) returns (h: nat, ghost p: nat)
      requires Valid()
      modifies this, nodes
      ensures Valid() && (nodes == old(nodes) || fresh(nodes))
      ensures At(ord, old(entries), d, p) && !Has(old(entries), h)
      ensures entries == Insert(old(entries), p, Cell(h, d))
    {
      if size == used {
        Expand();
      }
      var hint, tie;
      h, hint, tie := Emplace(d);
      if tie {
        ghost var k := Locate(hint.value);
        p := k + 1;
        InsertAfter(h, hint.value, k);
      } else {
        p := InsertNode(h, hint);
      }
    }

    // ----- dequeue and update_node

    /** The predecessor of an entry that is not the head: its `prev` link, or a search. */
    method PrevFor(h: nat, ghost prev: nat) returns (k: nat)
      requires h < nodes.Length && prev < nodes.Length && nodes[prev].next == h
      requires forall j :: 0 <= j < nodes.Length && nodes[j].next == h ==> j == prev
      requires dual ==> nodes[h].prev == prev
      ensures k == prev
    {
      if dual {
        return nodes[h].prev;
      }
      k := 0;
      while nodes[k].next != h
        invariant k <= prev
        decreases prev - k
      {
        k := k + 1;
      }
    }

    /** Mark the slot as free, and tell the successor about its new predecessor. */
    method FreeSlot(h: nat, ghost i: nat) returns (oldNext: int)
      requires Valid() && i < |entries| && entries[i].h == h && NodeAt(nodes[..], dual, entries, i)
      requires i + 1 < |entries| ==> NodeAt(nodes[..], dual, entries, i + 1)
      modifies this`good, this`used, nodes
      ensures nodes[..] == Freed(old(nodes[..]), dual, entries, i) && oldNext == NextOf(entries, i)
      ensures used == old(used) - 1 && good == h
    {
      good := h;
      oldNext := nodes[h].next;
      nodes[h] := nodes[h].(next := UNALLOCATED, data := None);
      used := used - 1;
      if dual && oldNext != SENTINEL {
        SetPrev(oldNext, nodes[h].prev);
      }
    }

    /** Returns the data of the predecessor and the handle of the successor. */
    method Dequeue(h: nat) returns (prevData: Option<T>, next: Option<nat>)
      requires Valid() && Has(entries, h)
      modifies this`head, this`good, this`used, this`entries, nodes
      ensures Valid()
      ensures entries == Remove(old(entries), IndexOf(old(entries), h))
      ensures var i := IndexOf(old(entries), h);
              && prevData == (if i > 0 then Some(old(entries)[i - 1].d) else None)
              && next == (if i + 1 < |old(entries)| then Some(old(entries)[i + 1].h) else None)
    {
      ghost var before, s := nodes[..], entries;
      ghost var i := Locate(h);
      assert i > 0 ==> NodeAt(before, dual, s, i - 1);
      assert i + 1 < |s| ==> NodeAt(before, dual, s, i + 1);
      var oldNext := FreeSlot(h, i);
      next := if oldNext != SENTINEL then Some(oldNext) else None;
      if h == head {
        head := oldNext;
        prevData := None;
        assert i == 0;
      } else {
        assert i > 0;
        forall k | 0 <= k < nodes.Length && nodes[k].next == h ensures k == s[i - 1].h {
          FreedLinks(before, dual, s, i, k);
        }
        var prev := PrevFor(h, s[i - 1].h);
        nodes[prev] := nodes[prev].(next := oldNext);
        prevData := nodes[prev].data;
      }
      UnlinkedIsThread(before, nodes[..], dual, s, i);
      entries := Remove(s, i);
    }

    /** Unlink an entry that is out of place; its slot keeps the data. */
    method Detach(h: nat, prev: Option<nat>, next: Option<nat>, ghost i: nat)
      requires Linked() && i < |entries| && entries[i].h == h
      requires prev == if i > 0 then Some(entries[i - 1].h) else None
      requires next == if i + 1 < |entries| then Some(entries[i + 1].h) else None
      modifies this`head, this`entries, nodes
      ensures Threaded() && NoStrays(nodes[..], entries, h) && !Has(entries, h)
      ensures h < size && nodes[h].data == Some(old(entries)[i].d) && entries == Remove(old(entries), i)
    {
      ghost var before, s := nodes[..], entries;
      assert NodeAt(before, dual, s, i);
      assert i > 0 ==> NodeAt(before, dual, s, i - 1);
      assert i + 1 < |s| ==> NodeAt(before, dual, s, i + 1);
      if prev.Some? {
        nodes[prev.value] := nodes[prev.value].(next := nodes[h].next);
        if dual && next.Some? {
          SetPrev(next.value, nodes[h].prev);
        }
      } else {
        head := nodes[h].next;
        if next.Some? {
          SetPrev(next.value, SENTINEL);
        }
      }
      UnlinkedIsThread(before, nodes[..], dual, s, i);
      entries := Remove(s, i);
    }

    /** Unlink it and file it again; a head that moves is known to follow its successor. */
    method Reposition(h: nat, prev: Option<nat>, next: Option<nat>, ghost i: nat)
      requires Linked() && i < |entries| && entries[i].h == h
      requires prev == if i > 0 then Some(entries[i - 1].h) else None
      requires next == if i + 1 < |entries| then Some(entries[i + 1].h) else None
      requires i == 0 ==> |entries| > 1 && ord.cmpNew(entries[0].d, entries[1].d) == Less
      modifies this`head, this`entries, nodes
      ensures Linked() && entries == Refile(ord, old(entries), i)
    {
      ghost var d := entries[i].d;
      Detach(h, prev, next, i);
      ghost var rest, p := entries, 0;
      if prev.Some? {
        p := InsertNode(h, None);
      } else {
        IndexIs(entries, 0);
        p := InsertNode(h, Some(head));
      }
      assert p == Walk(ord, rest, d);
    }

    method PrevHandle(h: nat, ghost i: nat) returns (prev: Option<nat>)
      requires Linked() && i < |entries| && entries[i].h == h && IndexOf(entries, h) == i
      ensures prev == if i > 0 then Some(entries[i - 1].h) else None
    {
      ghost var before := nodes[..];
      assert NodeAt(before, dual, entries, i);
      if h == head {
        assert i == 0;
        return None;
      }
      assert i > 0;
      assert NodeAt(before, dual, entries, i - 1);
      forall k | 0 <= k < nodes.Length && nodes[k].next == h ensures k == entries[i - 1].h {
        OnlyPrevLinks(before, dual, entries, i, k);
      }
      var k := PrevFor(h, entries[i - 1].h);
      return Some(k);
    }

    /** Whether an entry whose data has changed is out of place. */
    method IsMisplaced(d: T, prev: Option<nat>, next: Option<nat>, ghost i: nat) returns (move: bool)
      requires Valid() && i < |entries| && entries[i].d == d
      requires prev == if i > 0 then Some(entries[i - 1].h) else None
      requires next == if i + 1 < |entries| then Some(entries[i + 1].h) else None
      ensures move <==> || (i > 0 && ord.cmp(d, entries[i - 1].d) == Greater)
                        || (i + 1 < |entries| && ord.cmp(d, entries[i + 1].d) == Less)
    {
      move := false;
      if prev.Some? {
        IndexIs(entries, i - 1);
        move := ord.cmp(d, GetByHandle(prev.value)) == Greater;
      }
      if !move && next.Some? {
        IndexIs(entries, i + 1);
        move := ord.cmp(d, GetByHandle(next.value)) == Less;
      }
    }

    /** `d` is the data that the update closure leaves behind and `changed` what it returns. */
    method UpdateNode(h: nat, d: T, changed: bool)
      requires Valid() && Has(entries, h) && Lawful(ord)
      modifies this`head, this`entries, nodes
      ensures Valid()
      ensures entries == Update(ord, old(entries), IndexOf(old(entries), h), d, changed)
    {
      ghost var i := Locate(h);
      SetInPlace(h, d);
      if !changed {
        return;
      }
      IndexIs(entries, i);
      var next := GetNextHandle(h);
      var prev := PrevHandle(h, i);
      var move := IsMisplaced(d, prev, next, i);
      if move {
        if i == 0 {
          Laws(ord, d, entries[1].d, d);
        }
        Reposition(h, prev, next, i);
      }
    }
  }
}
