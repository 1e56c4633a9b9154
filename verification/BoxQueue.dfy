/** `BoxQueue` (src/queue/boxed.rs): every entry is a node of its own, and insertion walks from
    the head.  A handle is a reference to a node. */
module BoxQueues {
  import opened Orders
  import opened QueueSpec

  class BoxNode<T> {
    var data: T
    var next: BoxNode?<T>
    var prev: BoxNode?<T>

    constructor (data: T)
      ensures this.data == data && next == null && prev == null
    {
      this.data, next, prev := data, null, null;
    }
  }

  ghost function Nodes<T>(s: seq<Cell<BoxNode<T>, T>>): set<BoxNode<T>>
  {
    set i | 0 <= i < |s| :: s[i].h
  }

  lemma SameNodes<T>(s: seq<Cell<BoxNode<T>, T>>, i: nat, d: T)
    requires i < |s|
    ensures Nodes(s[i := Cell(s[i].h, d)]) == Nodes(s)
  {
    var t := s[i := Cell(s[i].h, d)];
    forall n | n in Nodes(s) ensures n in Nodes(t) {
      var j :| 0 <= j < |s| && s[j].h == n;
      assert t[j].h == n;
    }
  }

  function FirstOf<T>(s: seq<Cell<BoxNode<T>, T>>): BoxNode?<T> {
    if s == [] then null else s[0].h
  }

  function NextOf<T>(s: seq<Cell<BoxNode<T>, T>>, i: nat): BoxNode?<T>
    requires i < |s|
  {
    if i + 1 < |s| then s[i + 1].h else null
  }

  function PrevOf<T>(s: seq<Cell<BoxNode<T>, T>>, i: nat): BoxNode?<T>
    requires i < |s|
  {
    if i > 0 then s[i - 1].h else null
  }

  class BoxQueue<T(!new)> {
    const ord: Order<T>
    const dual: bool

    var head: BoxNode?<T>

    /** The queue from head to tail. */
    ghost var entries: seq<Cell<BoxNode<T>, T>>

    ghost predicate NodeAt(i: nat)
      requires i < |entries|
      reads this, Nodes(entries)
    {
      assert Has(entries, entries[i].h);
      && entries[i].h.next == NextOf(entries, i)
      && entries[i].h.data == entries[i].d
      && (dual ==> entries[i].h.prev == PrevOf(entries, i))
    }

    ghost predicate Valid()
      reads this, Nodes(entries)
    {
      && Distinct(entries)
      && head == FirstOf(entries)
      && forall i :: 0 <= i < |entries| ==> NodeAt(i)
    }

    constructor (ord: Order<T>, dual: bool)
      ensures Valid() && entries == [] && this.ord == ord && this.dual == dual
    {
      this.ord, this.dual := ord, dual;
      head, entries := null, [];
    }

    lemma Locate(h: BoxNode<T>) returns (i: nat)
      requires Valid() && Has(entries, h)
      ensures i < |entries| && entries[i].h == h && i == IndexOf(entries, h) && NodeAt(i)
    {
      i := IndexOf(entries, h);
    }

    function GetByHandle(h: BoxNode<T>): (d: T)
      requires Valid() && Has(entries, h)
      reads this, Nodes(entries)
      ensures d == entries[IndexOf(entries, h)].d
    {
      assert NodeAt(IndexOf(entries, h));
      h.data
    }

    function GetNextHandle(h: BoxNode<T>): (r: BoxNode?<T>)
      requires Valid() && Has(entries, h)
      reads this, Nodes(entries)
      ensures r == NextOf(entries, IndexOf(entries, h))
    {
      assert NodeAt(IndexOf(entries, h));
      h.next
    }

    /** A node that is in no queue. */
    ghost predicate Detached(n: BoxNode<T>)
      reads this, n
    {
      !Has(entries, n) && n.next == null && (dual ==> n.prev == null)
    }

    method InsertFirst(n: BoxNode<T>)
      requires Valid() && Detached(n)
      modifies this, n, Nodes(entries)
      ensures Valid() && entries == QueueSpec.Insert(old(entries), 0, Cell(n, old(n.data)))
    {
      assert entries != [] ==> NodeAt(0);
      if head != null {
        if dual {
          head.prev := n;
        }
        n.next := head;
      }
      head := n;
      DistinctInsert(entries, 0, Cell(n, n.data));
      entries := QueueSpec.Insert(entries, 0, Cell(n, n.data));
      forall i | 0 <= i < |entries| ensures NodeAt(i) {
        assert i > 0 ==> old(NodeAt(i - 1));
      }
    }

    method InsertAfter(n: BoxNode<T>, curr: BoxNode<T>, ghost k: nat)
      requires Valid() && Detached(n) && k < |entries| && entries[k].h == curr
      modifies this, n, Nodes(entries)
      ensures Valid() && entries == QueueSpec.Insert(old(entries), k + 1, Cell(n, old(n.data)))
    {
      assert NodeAt(k);
      assert k + 1 < |entries| ==> NodeAt(k + 1);
      var next := curr.next;
      if next != null && dual {
        next.prev := n;
      }
      n.next := next;
      if dual {
        n.prev := curr;
      }
      curr.next := n;
      DistinctInsert(entries, k + 1, Cell(n, n.data));
      entries := QueueSpec.Insert(entries, k + 1, Cell(n, n.data));
      forall i | 0 <= i < |entries| ensures NodeAt(i) {
        assert i != k + 1 ==> old(NodeAt(if i <= k then i else i - 1));
      }
    }

    method Insert(n: BoxNode<T>)
      requires Valid() && Detached(n)
      modifies this, n, Nodes(entries)
      ensures Valid()
      ensures var s, d := old(entries), old(n.data);
              entries == QueueSpec.Insert(s, Walk(ord, s, d), Cell(n, d))
    {
      var d := n.data;
      assert entries != [] ==> NodeAt(0);
      if head == null || ord.cmpNew(d, head.data).IsGe() {
        assert Walk(ord, entries, d) == 0;
        InsertFirst(n);
        return;
      }
      var curr: BoxNode<T> := head;
      ghost var k := 0;
      while curr.next != null && ord.cmpNew(d, curr.next.data) == Less
        invariant k < |entries| && curr == entries[k].h && NodeAt(k)
        invariant forall i :: 0 <= i <= k ==> ord.cmpNew(d, entries[i].d) == Less
        decreases |entries| - k
      {
        assert NodeAt(k + 1);
        curr, k := curr.next, k + 1;
      }
      assert k + 1 < |entries| ==> NodeAt(k + 1);
      assert Walk(ord, entries, d) == k + 1;
      InsertAfter(n, curr, k);
    }

    method Enqueue(d: T) returns (h: BoxNode<T>)
      requires Valid()
      modifies this, Nodes(entries)
      ensures Valid() && fresh(h)
      ensures var s := old(entries); entries == QueueSpec.Insert(s, Walk(ord, s, d), Cell(h, d))
    {
      h := new BoxNode(d);
      Insert(h);
    }

    /** The single-link search for the entry before `h`, which is not the head. */
    method FindPrev(h: BoxNode<T>) returns (node: BoxNode<T>, ghost k: nat)
      requires Valid() && Has(entries, h) && head != h
      ensures Valid()
      ensures k + 1 < |entries| && entries[k].h == node && entries[k + 1].h == h && node.next == h
    {
      ghost var i := Locate(h);
      assert NodeAt(0);
      node, k := head, 0;
      while node.next != h
        invariant k < i && node == entries[k].h && NodeAt(k)
        decreases i - k
      {
        assert NodeAt(k + 1);
        node, k := node.next, k + 1;
      }
    }

    /** The predecessor: its link, or a search. */
    method Predecessor(h: BoxNode<T>, ghost i: nat) returns (prev: BoxNode?<T>)
      requires Valid() && i < |entries| && entries[i].h == h
      ensures Valid() && prev == PrevOf(entries, i)
    {
      assert NodeAt(i);
      IndexIs(entries, i);
      if dual {
        prev := h.prev;
      } else if head == h {
        prev := null;
      } else {
        ghost var k;
        prev, k := FindPrev(h);
        IndexIs(entries, k + 1);
      }
    }

    /** Unlink an entry and leave its node detached. */
    method Unlink(h: BoxNode<T>) returns (prev: BoxNode?<T>)
      requires Valid() && Has(entries, h)
      modifies this, Nodes(entries)
      ensures Valid() && Detached(h) && h.data == old(h.data)
      ensures entries == Remove(old(entries), IndexOf(old(entries), h))
      ensures prev == PrevOf(old(entries), IndexOf(old(entries), h))
    {
      ghost var i := Locate(h);
      prev := Bypass(h, i);
      DistinctRemove(entries, i);
      entries := Remove(entries, i);
      forall j | 0 <= j < |entries| ensures NodeAt(j) {
        assert old(NodeAt(if j < i then j else j + 1));
      }
    }

    /** The writes of that: the neighbours of `h` point to each other and `h` to nobody. */
    method Bypass(h: BoxNode<T>, ghost i: nat) returns (prev: BoxNode?<T>)
      requires Valid() && i < |entries| && entries[i].h == h
      modifies this`head, Nodes(entries)
      ensures h.next == null && (dual ==> h.prev == null) && prev == PrevOf(entries, i)
      ensures forall n :: n in Nodes(entries) ==> n.data == old(n.data)
      ensures head == if i == 0 then NextOf(entries, 0) else old(head)
      ensures forall j :: 0 <= j < |entries| && j != i ==>
                entries[j].h.next == (if j + 1 == i then NextOf(entries, i) else old(entries[j].h.next))
      ensures forall j :: 0 <= j < |entries| && j != i ==>
                entries[j].h.prev == (if dual && j == i + 1 then PrevOf(entries, i) else old(entries[j].h.prev))
    {
      assert NodeAt(i);
      assert i > 0 ==> NodeAt(i - 1);
      assert i + 1 < |entries| ==> NodeAt(i + 1);
      prev := Predecessor(h, i);
      var next := h.next;
      h.next := null;
      if next != null && dual {
        next.prev := h.prev;
      }
      if dual {
        h.prev := null;
      }
      if prev != null {
        prev.next := next;
      } else {
        head := next;
      }
    }

    /** Returns the data of the predecessor and the handle of the successor. */
    method Dequeue(h: BoxNode<T>) returns (prevData: Option<T>, next: BoxNode?<T>)
      requires Valid() && Has(entries, h)
      modifies this, Nodes(entries)
      ensures Valid()
      ensures entries == Remove(old(entries), IndexOf(old(entries), h))
      ensures var i := IndexOf(old(entries), h);
              && prevData == (if i > 0 then Some(old(entries)[i - 1].d) else None)
              && next == NextOf(old(entries), i)
    {
      ghost var i := Locate(h);
      next := h.next;
      assert i > 0 ==> NodeAt(i - 1);
      var prev := Unlink(h);
      assert i > 0 ==> NodeAt(i - 1);
      prevData := if prev == null then None else Some(prev.data);
    }

    method SetInPlace(h: BoxNode<T>, d: T)
      requires Valid() && Has(entries, h)
      modifies this`entries, h
      ensures Valid() && entries == old(entries)[IndexOf(old(entries), h) := Cell(h, d)]
      ensures Nodes(entries) == old(Nodes(entries))
    {
      ghost var i := Locate(h);
      SameNodes(entries, i, d);
      h.data := d;
      entries := entries[i := Cell(h, d)];
      forall j | 0 <= j < |entries| ensures NodeAt(j) {
        assert old(NodeAt(j));
      }
    }

    /** Whether an entry whose data has changed may stay; without `prev` links the head, which has no
        predecessor to compare with, may not stay on a tie with its successor. */
    method Stays(h: BoxNode<T>, d: T, ghost i: nat) returns (stays: bool)
      requires Valid() && i < |entries| && entries[i] == Cell(h, d)
      ensures Valid()
      ensures stays <==> && (i > 0 ==> ord.cmp(d, entries[i - 1].d) != Greater)
                         && (i + 1 < |entries| ==> ord.cmp(d, entries[i + 1].d) != Less)
                         && (!dual && i == 0 && |entries| > 1 ==> ord.cmp(d, entries[1].d) == Greater)
    {
      assert NodeAt(i);
      assert i > 0 ==> NodeAt(i - 1);
      assert i + 1 < |entries| ==> NodeAt(i + 1);
      var prev := Predecessor(h, i);
      var next := h.next;
      stays :=
        if !dual && prev == null then next == null || ord.cmp(d, next.data) == Greater
        else (prev == null || ord.cmp(d, prev.data).IsLe()) && (next == null || ord.cmp(d, next.data).IsGe());
    }

    /** `d` is the data that the update closure leaves behind and `changed` what it returns. */
    method UpdateNode(h: BoxNode<T>, d: T, changed: bool)
      requires Valid() && Has(entries, h)
      modifies this, Nodes(entries)
      ensures Valid()
      ensures entries == UpdateBy(ord, old(entries), IndexOf(old(entries), h), d, changed, !dual)
    {
      hide UpdateBy, Walk;
      ghost var i := Locate(h);
      UpdateByEither(ord, entries, i, d, !dual);
      SetInPlace(h, d);
      if !changed {
        Unchanged(ord, old(entries), i, d, !dual);
        return;
      }
      IndexIs(entries, i);
      assert NodeAt(i);
      var stays := Stays(h, d, i);
      if !stays {
        var _ := Unlink(h);
        Insert(h);
      }
    }
  }
}
