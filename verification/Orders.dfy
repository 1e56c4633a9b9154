/** The `Priority` trait of src/priority.rs, as a pair of comparison functions, with the
    wrappers that change how ties between a new and a queued entry are broken. */
module Orders {

  datatype Ordering = Less | Equal | Greater {
    predicate IsGe() { this != Less }

    predicate IsLe() { this != Greater }

    function Reverse(): Ordering {
      match this
      case Less => Greater
      case Equal => Equal
      case Greater => Less
    }

    function Then(other: Ordering): (r: Ordering)
      ensures r == Equal <==> this == Equal && other == Equal
    {
      if this == Equal then other else this
    }
  }

  /** `cmp(a, b)` is `a.compare(&b)`; `cmpNew(a, b)` is `a.compare_new(&b)`, with `a` the entry
      about to be queued and `b` one that is queued already. */
  datatype Order<!T> = Order(cmp: (T, T) -> Ordering, cmpNew: (T, T) -> Ordering)

  /** What the trait's documentation demands of an implementation, for three given values. */
  ghost predicate LawAt<T>(o: Order<T>, a: T, b: T, c: T) {
    && o.cmp(a, a) == Equal
    && o.cmp(b, a) == o.cmp(a, b).Reverse()
    && (o.cmp(a, b).IsGe() && o.cmp(b, c).IsGe() ==> o.cmp(a, c).IsGe())
    && (o.cmp(a, b) == Equal ==> o.cmp(a, c) == o.cmp(b, c))
    && (o.cmp(a, b) != Equal ==> o.cmpNew(a, b) == o.cmp(a, b))
  }

  /** The laws are only ever used at values named by a call of `Laws`. */
  ghost predicate Lawful<T(!new)>(o: Order<T>) {
    forall a, b, c :: LawAt(o, a, b, c)
  }

  lemma Laws<T(!new)>(o: Order<T>, a: T, b: T, c: T)
    requires Lawful(o)
    ensures o.cmp(a, a) == Equal
    ensures o.cmp(b, a) == o.cmp(a, b).Reverse()
    ensures o.cmp(a, b).IsGe() && o.cmp(b, c).IsGe() ==> o.cmp(a, c).IsGe()
    ensures o.cmp(a, b) == Equal ==> o.cmp(a, c) == o.cmp(b, c)
    ensures o.cmp(a, b) != Equal ==> o.cmpNew(a, b) == o.cmp(a, b)
  {
    assert LawAt(o, a, b, c);
  }

  /** A step down followed by a weak step down is a step down. */
  lemma StrictChain<T(!new)>(o: Order<T>, a: T, b: T, c: T)
    requires Lawful(o)
    requires o.cmp(a, b).IsGe() && o.cmp(b, c).IsGe()
    ensures o.cmp(a, b) == Greater || o.cmp(b, c) == Greater ==> o.cmp(a, c) == Greater
  {
    Laws(o, a, b, c);
    Laws(o, a, c, b);
    Laws(o, c, b, a);
    Laws(o, b, c, a);
  }

  /** A new entry never ties with a queued one. */
  ghost predicate NeverTies<T(!new)>(o: Order<T>) {
    forall a, b :: o.cmpNew(a, b) != Equal
  }

  /** Queued entries of the same priority are indistinguishable to a new one. */
  ghost predicate TieUniform<T(!new)>(o: Order<T>) {
    forall a, b, c :: UniformAt(o, a, b, c)
  }

  ghost predicate UniformAt<T>(o: Order<T>, a: T, b: T, c: T) {
    o.cmp(b, c) == Equal ==> o.cmpNew(a, b) == o.cmpNew(a, c)
  }

  /** Ties of `compare` are broken in favour of the entry queued first. */
  ghost predicate OldestFirst<T(!new)>(o: Order<T>) {
    forall a, b :: o.cmp(a, b) == Equal ==> o.cmpNew(a, b) == Less
  }

  /** Ties of `compare` are broken in favour of the newest entry. */
  ghost predicate NewestFirst<T(!new)>(o: Order<T>) {
    forall a, b :: o.cmp(a, b) == Equal ==> o.cmpNew(a, b) == Greater
  }

  // ----- The implementations

  function IntCmp(a: int, b: int): Ordering {
    if a < b then Less else if a == b then Equal else Greater
  }

  /** What `Ord` demands of a comparison, for three given values. */
  ghost predicate TotalAt<T>(cmp: (T, T) -> Ordering, a: T, b: T, c: T) {
    && cmp(a, a) == Equal
    && cmp(b, a) == cmp(a, b).Reverse()
    && (cmp(a, b).IsGe() && cmp(b, c).IsGe() ==> cmp(a, c).IsGe())
  }

  ghost predicate TotalOrder<T(!new)>(cmp: (T, T) -> Ordering) {
    forall a, b, c :: TotalAt(cmp, a, b, c)
  }

  /** Any `Ord` type is a priority as it stands: highest first, ties left open. */
  function HighestFirst<T>(cmp: (T, T) -> Ordering): Order<T> {
    Order(cmp, cmp)
  }

  function HighestNumber(): Order<int> {
    HighestFirst(IntCmp)
  }

  function LowestFirst<T>(o: Order<T>): Order<T> {
    Order((a, b) => o.cmp(b, a), (a, b) => o.cmp(b, a))
  }

  function Fifo<T>(o: Order<T>): Order<T> {
    Order(o.cmp, (a, b) => o.cmpNew(a, b).Then(Less))
  }

  function Lifo<T>(o: Order<T>): Order<T> {
    Order(o.cmp, (a, b) => o.cmpNew(a, b).Then(Greater))
  }

  lemma HighestFirstLaws<T(!new)>(cmp: (T, T) -> Ordering)
    requires TotalOrder(cmp)
    ensures Lawful(HighestFirst(cmp)) && TieUniform(HighestFirst(cmp))
    ensures forall a, b :: HighestFirst(cmp).cmp(a, b) == cmp(a, b) == HighestFirst(cmp).cmpNew(a, b)
  {
    forall a, b, c ensures LawAt(HighestFirst(cmp), a, b, c) && UniformAt(HighestFirst(cmp), a, b, c) {
      assert TotalAt(cmp, a, b, c) && TotalAt(cmp, b, a, c);
      assert TotalAt(cmp, c, a, b) && TotalAt(cmp, c, b, a);
      assert TotalAt(cmp, a, c, b) && TotalAt(cmp, b, c, a);
    }
  }

  lemma NumbersAreTotal()
    ensures TotalOrder(IntCmp) && Lawful(HighestNumber()) && TieUniform(HighestNumber())
    ensures forall a, b :: HighestNumber().cmp(a, b) == HighestNumber().cmpNew(a, b)
    ensures forall a, b :: (HighestNumber().cmp(a, b) == Greater <==> a > b)
                           && (HighestNumber().cmp(a, b) == Equal <==> a == b)
  {
    forall a: int, b: int, c: int ensures TotalAt(IntCmp, a, b, c) {}
    HighestFirstLaws(IntCmp);
  }

  lemma LowestFirstLaws<T(!new)>(o: Order<T>)
    requires Lawful(o)
    ensures Lawful(LowestFirst(o)) && TieUniform(LowestFirst(o))
    ensures forall a, b :: LowestFirst(o).cmp(a, b) == o.cmp(a, b).Reverse() == LowestFirst(o).cmpNew(a, b)
  {
    forall a, b ensures LowestFirst(o).cmp(a, b) == o.cmp(a, b).Reverse() == LowestFirst(o).cmpNew(a, b) {
      Laws(o, a, b, a);
    }
    forall a, b, c ensures LawAt(LowestFirst(o), a, b, c) && UniformAt(LowestFirst(o), a, b, c) {
      Laws(o, c, b, a);
      Laws(o, b, a, c);
      Laws(o, a, b, c);
      Laws(o, b, c, a);
      Laws(o, a, c, b);
    }
  }

  /** FIFO keeps the laws and the order, never ties, and favours the oldest entry unless the
      order inside it has already decided the tie. */
  lemma FifoLaws<T(!new)>(o: Order<T>)
    requires Lawful(o)
    ensures Lawful(Fifo(o)) && NeverTies(Fifo(o))
    ensures TieUniform(o) ==> TieUniform(Fifo(o))
    ensures forall a, b :: Fifo(o).cmp(a, b) == o.cmp(a, b)
    ensures forall a, b :: o.cmpNew(a, b) != Equal ==> Fifo(o).cmpNew(a, b) == o.cmpNew(a, b)
    ensures OldestFirst(Fifo(o)) <==> forall a, b :: o.cmp(a, b) == Equal ==> o.cmpNew(a, b).IsLe()
  {
    forall a, b, c ensures LawAt(Fifo(o), a, b, c) {
      Laws(o, a, b, c);
    }
    forall a, b ensures Fifo(o).cmpNew(a, b) != Equal {
      assert Fifo(o).cmpNew(a, b) == o.cmpNew(a, b).Then(Less);
    }
    if TieUniform(o) {
      forall a, b, c ensures UniformAt(Fifo(o), a, b, c) {
        assert UniformAt(o, a, b, c);
      }
    }
    if OldestFirst(Fifo(o)) {
      forall a, b | o.cmp(a, b) == Equal ensures o.cmpNew(a, b).IsLe() {
        assert Fifo(o).cmpNew(a, b) == Less;
      }
    }
  }

  lemma LifoLaws<T(!new)>(o: Order<T>)
    requires Lawful(o)
    ensures Lawful(Lifo(o)) && NeverTies(Lifo(o))
    ensures TieUniform(o) ==> TieUniform(Lifo(o))
    ensures forall a, b :: Lifo(o).cmp(a, b) == o.cmp(a, b)
    ensures forall a, b :: o.cmpNew(a, b) != Equal ==> Lifo(o).cmpNew(a, b) == o.cmpNew(a, b)
    ensures NewestFirst(Lifo(o)) <==> forall a, b :: o.cmp(a, b) == Equal ==> o.cmpNew(a, b).IsGe()
  {
    forall a, b, c ensures LawAt(Lifo(o), a, b, c) {
      Laws(o, a, b, c);
    }
    forall a, b ensures Lifo(o).cmpNew(a, b) != Equal {
      assert Lifo(o).cmpNew(a, b) == o.cmpNew(a, b).Then(Greater);
    }
    if TieUniform(o) {
      forall a, b, c ensures UniformAt(Lifo(o), a, b, c) {
        assert UniformAt(o, a, b, c);
      }
    }
    if NewestFirst(Lifo(o)) {
      forall a, b | o.cmp(a, b) == Equal ensures o.cmpNew(a, b).IsGe() {
        assert Lifo(o).cmpNew(a, b) == Greater;
      }
    }
  }

  /** In a stack of wrappers the innermost one decides every tie. */
  lemma InnermostWrapperDecides<T(!new)>(o: Order<T>, a: T, b: T)
    ensures Fifo(Lifo(o)).cmpNew(a, b) == Lifo(o).cmpNew(a, b)
    ensures Lifo(Fifo(o)).cmpNew(a, b) == Fifo(o).cmpNew(a, b)
  {
    assert Lifo(o).cmpNew(a, b) == o.cmpNew(a, b).Then(Greater);
    assert Fifo(o).cmpNew(a, b) == o.cmpNew(a, b).Then(Less);
  }
}
