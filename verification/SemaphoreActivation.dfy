/** `activate_waiters` moves entries about while it walks the queue.  Here it is shown to do what a
    walk over the waiters alone would do, and to keep the queue in order while doing it. */
module SemaphoreActivation {
  import opened Orders
  import opened QueueSpec
  import opened Semaphores

  // ----- The reference: granting from a list of waiters

  /** `left` keeps waiting, in the same order; `granted` has been served. */
  datatype Grants<P> = Grants(left: Queue<P>, granted: Queue<P>, available: nat)

  predicate PassedOver<P>(cfg: Config, d: SemWaiter<P>) {
    cfg.Total? && d.wantsEvict
  }

  /** Serve the waiters in order as long as the next one fits; those about to be evicted are
      served if they fit and passed over if they do not. */
  function Greedy<P>(cfg: Config, waiters: Queue<P>, available: nat): Grants<P> {
    if waiters == [] then Grants([], [], available)
    else if Count(cfg, waiters[0].d) <= available then
      var rest := Greedy(cfg, waiters[1..], available - Count(cfg, waiters[0].d));
      rest.(granted := [waiters[0]] + rest.granted)
    else if PassedOver(cfg, waiters[0].d) then
      var rest := Greedy(cfg, waiters[1..], available);
      rest.(left := [waiters[0]] + rest.left)
    else Grants(waiters, [], available)
  }

  function Requested<P>(cfg: Config, waiters: Queue<P>): nat {
    if waiters == [] then 0 else Count(cfg, waiters[0].d) + Requested(cfg, waiters[1..])
  }

  lemma InFront<P>(cfg: Config, c: Cell<nat, SemWaiter<P>>, rest: Queue<P>)
    ensures multiset([c] + rest) == multiset{c} + multiset(rest)
    ensures Requested(cfg, [c] + rest) == Count(cfg, c.d) + Requested(cfg, rest)
  {
    assert ([c] + rest)[1..] == rest;
  }

  /** The walk, one waiter at a time. */
  lemma OneByOne<P>(cfg: Config, waiters: Queue<P>, available: nat)
    ensures Greedy(cfg, waiters, available) ==
            if waiters == [] then Grants([], [], available)
            else if Count(cfg, waiters[0].d) <= available then
              var rest := Greedy(cfg, waiters[1..], available - Count(cfg, waiters[0].d));
              rest.(granted := [waiters[0]] + rest.granted)
            else if PassedOver(cfg, waiters[0].d) then
              var rest := Greedy(cfg, waiters[1..], available);
              rest.(left := [waiters[0]] + rest.left)
            else Grants(waiters, [], available)
  {
  }

  /** Every waiter is either served or left, and the permits handed out are those asked for. */
  lemma {:induction false} GreedyAccounts<P>(cfg: Config, waiters: Queue<P>, available: nat) returns (g: Grants<P>)
    ensures g == Greedy(cfg, waiters, available)
    ensures g.available + Requested(cfg, g.granted) == available
    ensures multiset(g.left) + multiset(g.granted) == multiset(waiters)
  {
    hide Greedy;
    g := Greedy(cfg, waiters, available);
    OneByOne(cfg, waiters, available);
    if waiters != [] {
      var c, others := waiters[0], waiters[1..];
      assert waiters == [c] + others;
      InFront(cfg, c, others);
      if Count(cfg, c.d) <= available {
        var rest := GreedyAccounts(cfg, others, available - Count(cfg, c.d));
        InFront(cfg, c, rest.granted);
      } else if PassedOver(cfg, c.d) {
        var rest := GreedyAccounts(cfg, others, available);
        InFront(cfg, c, rest.left);
      }
    }
  }

  /** Those passed over are all to be evicted and do not fit; behind them stands, with everybody
      it had behind it, the one that blocked the walk, and that does not fit either. */
  lemma {:induction false} GreedyStops<P>(cfg: Config, waiters: Queue<P>, available: nat) returns (b: nat, a: nat)
    ensures var g := Greedy(cfg, waiters, available);
            && b <= |g.left| && a <= |waiters| && g.left[b..] == waiters[a..]
            && (forall i :: 0 <= i < b ==> PassedOver(cfg, g.left[i].d) && Count(cfg, g.left[i].d) > g.available)
            && (b < |g.left| ==> !PassedOver(cfg, g.left[b].d) && Count(cfg, g.left[b].d) > g.available)
  {
    if waiters == [] {
      b, a := 0, 0;
    } else if Count(cfg, waiters[0].d) <= available {
      b, a := GreedyStops(cfg, waiters[1..], available - Count(cfg, waiters[0].d));
      a := a + 1;
    } else if PassedOver(cfg, waiters[0].d) {
      b, a := GreedyStops(cfg, waiters[1..], available);
      GreedyTakes(cfg, waiters[1..], available);
      var left := Greedy(cfg, waiters[1..], available).left;
      assert ([waiters[0]] + left)[b + 1..] == left[b..];
      b, a := b + 1, a + 1;
    } else {
      b, a := 0, 0;
    }
  }

  lemma {:induction false} GreedyTakes<P>(cfg: Config, waiters: Queue<P>, available: nat)
    ensures Greedy(cfg, waiters, available).available <= available
  {
    if waiters != [] {
      if Count(cfg, waiters[0].d) <= available {
        GreedyTakes(cfg, waiters[1..], available - Count(cfg, waiters[0].d));
      } else {
        GreedyTakes(cfg, waiters[1..], available);
      }
    }
  }

  lemma RequestedFront<P>(cfg: Config, waiters: Queue<P>, m: nat)
    requires m < |waiters|
    ensures waiters[..m + 1][0] == waiters[0] && waiters[..m + 1][1..] == waiters[1..][..m]
    ensures Requested(cfg, waiters[..m + 1]) == Count(cfg, waiters[0].d) + Requested(cfg, waiters[1..][..m])
  {
    var front := waiters[..m + 1];
    assert front[1..] == waiters[1..][..m];
  }

  /** Without evictions among the waiters: the served ones are exactly the longest run from the
      front that fits. */
  lemma {:induction false} GreedyIsPrefix<P>(cfg: Config, waiters: Queue<P>, available: nat)
      returns (g: Grants<P>, m: nat)
    requires forall i :: 0 <= i < |waiters| ==> !PassedOver(cfg, waiters[i].d)
    ensures g == Greedy(cfg, waiters, available) && m == |g.granted|
    ensures m <= |waiters| && g.granted == waiters[..m] && g.left == waiters[m..]
    ensures Requested(cfg, waiters[..m]) <= available
    ensures m < |waiters| ==> Requested(cfg, waiters[..m + 1]) > available
  {
    g := Greedy(cfg, waiters, available);
    if waiters == [] {
      m := 0;
    } else if Count(cfg, waiters[0].d) <= available {
      var rest, n := GreedyIsPrefix(cfg, waiters[1..], available - Count(cfg, waiters[0].d));
      m := n + 1;
      RequestedFront(cfg, waiters, n);
      assert waiters[..m] == [waiters[0]] + waiters[1..][..n];
      if m < |waiters| {
        RequestedFront(cfg, waiters, m);
      }
    } else {
      m := 0;
      RequestedFront(cfg, waiters, 0);
    }
  }

  // ----- Holders, then waiters

  ghost predicate HeldUpTo<P>(q: Queue<P>, n: nat) {
    n <= |q| && (forall i :: 0 <= i < n ==> q[i].d.held) && (forall i :: n <= i < |q| ==> !q[i].d.held)
  }

  function NumHeld<P>(q: Queue<P>): (n: nat)
    ensures n <= |q| && (forall i :: 0 <= i < n ==> q[i].d.held) && (n < |q| ==> !q[n].d.held)
  {
    if q == [] || !q[0].d.held then 0 else 1 + NumHeld(q[1..])
  }

  lemma SortedIsDivided<P>(cfg: Config, o: Order<P>, q: Queue<P>)
    requires Sorted(SemOrder(cfg, o), q)
    ensures HeldUpTo(q, NumHeld(q))
  {
    var n := NumHeld(q);
    forall i | n <= i < |q| ensures !q[i].d.held {
      if n < i {
        HoldersFirst(cfg, o, q, n, i);
      }
    }
  }

  lemma {:induction false} DividedOnce<P>(q: Queue<P>, n: nat)
    requires HeldUpTo(q, n)
    ensures n == NumHeld(q)
  {
    if n > 0 {
      DividedOnce(q[1..], n - 1);
    }
  }

  // ----- What every operation keeps

  /** Every permit of the semaphore is available or held, and every counter fits in a word. */
  ghost predicate Balanced<P>(cfg: Config, s: Sem<P>) {
    && s.available < WORD
    && (cfg.Total? ==> s.total < WORD && s.total == s.available + HeldSum(cfg, s.queue))
  }

  /** A count fits in its word.  A waiter is flagged only if it came from `acquire_within_total`,
      and it is flagged if it came from there and asks for more than there is in all. */
  predicate EntryOk<P>(cfg: Config, total: nat, d: SemWaiter<P>) {
    && (if cfg.Total? then d.raw < WORD else d.raw <= MAX_PERMITS)
    && (!d.held ==>
          && (d.wantsEvict ==> cfg.Total? && Tagged(d))
          && (cfg.Total? && Tagged(d) && Count(cfg, d) > total ==> d.wantsEvict))
  }

  ghost predicate EntriesOk<P>(cfg: Config, total: nat, q: Queue<P>) {
    forall i :: 0 <= i < |q| ==> EntryOk(cfg, total, q[i].d)
  }

  lemma OkInsert<P>(cfg: Config, total: nat, q: Queue<P>, p: nat, c: Cell<nat, SemWaiter<P>>)
    requires EntriesOk(cfg, total, q) && EntryOk(cfg, total, c.d) && p <= |q|
    ensures EntriesOk(cfg, total, Insert(q, p, c))
  {
    var r := Insert(q, p, c);
    forall i | 0 <= i < |r| ensures EntryOk(cfg, total, r[i].d) {
      assert i == p || r[i] == q[if i < p then i else i - 1];
    }
  }

  lemma OkRemove<P>(cfg: Config, total: nat, q: Queue<P>, i: nat)
    requires EntriesOk(cfg, total, q) && i < |q|
    ensures EntriesOk(cfg, total, Remove(q, i))
  {
    var r := Remove(q, i);
    forall j | 0 <= j < |r| ensures EntryOk(cfg, total, r[j].d) {
      assert r[j] == q[if j < i then j else j + 1];
    }
  }

  ghost predicate Sane<P>(cfg: Config, o: Order<P>, s: Sem<P>) {
    && Distinct(s.queue)
    && Sorted(SemOrder(cfg, o), s.queue)
    && Balanced(cfg, s)
    && EntriesOk(cfg, s.total, s.queue)
  }

  // ----- One grant

  /** Where an entry of the queue came from when the entry at `k` has been moved to `j`. */
  function Source(j: nat, k: nat, i: nat): int {
    if i == j then k else
    var t := if i < j then i else i - 1;
    if t < k then t else t + 1
  }

  lemma MovedFrom<P>(q: Queue<P>, k: nat, j: nat, c: Cell<nat, SemWaiter<P>>, i: nat)
    requires k < |q| && j < |q| && i < |q|
    ensures var x := Source(j, k, i);
            && 0 <= x < |q| && (x == k <==> i == j)
            && Insert(Remove(q, k), j, c)[i] == if i == j then c else q[x]
  {
  }

  /** A holder's walk ends at the first waiter at the latest. */
  lemma HolderStopsAtWaiter<P>(cfg: Config, o: Order<P>, q: Queue<P>, n: nat, d: SemWaiter<P>)
    requires n <= |q| && d.held && (n < |q| ==> !q[n].d.held)
    ensures Walk(SemOrder(cfg, o), q, d) <= n
  {
    assert n < |q| ==> SemOrder(cfg, o).cmpNew(d, q[n].d) == Greater;
  }

  /** The granted entry goes to the holders, and everything behind it stays where it is. */
  lemma GrantMoves<P(!new)>(cfg: Config, o: Order<P>, q: Queue<P>, n: nat, k: nat) returns (j: nat)
    requires HeldUpTo(q, n) && n <= k < |q|
    ensures var d := q[k].d.(held := true);
            && j <= n && Update(SemOrder(cfg, o), q, k, d, true) == Insert(Remove(q, k), j, Cell(q[k].h, d))
  {
    var so, d := SemOrder(cfg, o), q[k].d.(held := true);
    var c := Cell(q[k].h, d);
    var t := q[k := c];
    UpdateKeepsOthers(so, q, k, d, true, false);
    j := Settled(so, q, k, d, true, false);
    RemoveForgets(q, k, c);
    HolderStopsAtWaiter(cfg, o, Remove(q, k), n, d);
    assert n < k ==> so.cmp(t[k].d, t[k - 1].d) == Greater;
  }

  lemma {:induction false} GrantPlaces<P(!new)>(cfg: Config, o: Order<P>, q: Queue<P>, n: nat, k: nat)
    requires HeldUpTo(q, n) && n <= k < |q|
    ensures var r := Update(SemOrder(cfg, o), q, k, q[k].d.(held := true), true);
            && HeldUpTo(r, n + 1)
            && r[n + 1..k + 1] == q[n..k] && r[k + 1..] == q[k + 1..]
            && (forall i :: n < i < |r| ==> r[i] == q[if i <= k then i - 1 else i])
  {
    hide Update, Insert, Remove;
    var c, r := Cell(q[k].h, q[k].d.(held := true)), Update(SemOrder(cfg, o), q, k, q[k].d.(held := true), true);
    var j := GrantMoves(cfg, o, q, n, k);
    forall i | 0 <= i < |q|
      ensures i <= n ==> r[i].d.held
      ensures n < i ==> r[i] == q[if i <= k then i - 1 else i]
    {
      MovedFrom(q, k, j, c, i);
    }
  }

  /** The single-link box queue files it there too: a new holder does not tie with a waiter behind it. */
  lemma GrantOnSingleLinkBox<P(!new)>(cfg: Config, o: Order<P>, q: Queue<P>, n: nat, k: nat)
    requires HeldUpTo(q, n) && n <= k < |q| && Distinct(q)
    ensures var so, d := SemOrder(cfg, o), q[k].d.(held := true);
            UpdateEager(so, q, k, d, true) == Update(so, q, k, d, true)
  {
    SingleLinkBoxDiffers(SemOrder(cfg, o), q, k, q[k].d.(held := true), true);
  }

  lemma {:induction false} GrantKeepsOrder<P(!new)>(cfg: Config, o: Order<P>, q: Queue<P>, k: nat, j: nat)
    requires Lawful(o) && Distinct(q) && Sorted(SemOrder(cfg, o), q) && k < |q| && j < |q|
    requires var d := q[k].d.(held := true);
             Update(SemOrder(cfg, o), q, k, d, true) == Insert(Remove(q, k), j, Cell(q[k].h, d))
    ensures var r := Update(SemOrder(cfg, o), q, k, q[k].d.(held := true), true);
            Distinct(r) && Sorted(SemOrder(cfg, o), r)
  {
    var d := q[k].d.(held := true);
    SemOrderLaws(cfg, o);
    UpdateKeepsSorted(SemOrder(cfg, o), q, k, d, false);
    DistinctRemove(q, k);
    DistinctInsert(Remove(q, k), j, Cell(q[k].h, d));
  }

  lemma GrantKeepsBalance<P(!new)>(cfg: Config, o: Order<P>, s: Sem<P>, k: nat, j: nat)
    requires Balanced(cfg, s) && EntriesOk(cfg, s.total, s.queue) && k < |s.queue| && j < |s.queue|
    requires !s.queue[k].d.held && Count(cfg, s.queue[k].d) <= s.available
    requires var d := s.queue[k].d.(held := true);
             GrantAt(cfg, o, s, k).queue == Insert(Remove(s.queue, k), j, Cell(s.queue[k].h, d))
    ensures var t := GrantAt(cfg, o, s, k);
            Balanced(cfg, t) && EntriesOk(cfg, t.total, t.queue)
  {
    var c := Cell(s.queue[k].h, s.queue[k].d.(held := true));
    SumRemove(HeldWeight(cfg), s.queue, k);
    SumInsert(HeldWeight(cfg), Remove(s.queue, k), j, c);
    OkRemove(cfg, s.total, s.queue, k);
    OkInsert(cfg, s.total, Remove(s.queue, k), j, c);
  }

  lemma GrantKeepsSane<P(!new)>(cfg: Config, o: Order<P>, s: Sem<P>, n: nat, k: nat)
    requires Lawful(o) && Sane(cfg, o, s) && HeldUpTo(s.queue, n) && n <= k < |s.queue|
    requires Count(cfg, s.queue[k].d) <= s.available
    ensures Sane(cfg, o, GrantAt(cfg, o, s, k))
  {
    var j := GrantMoves(cfg, o, s.queue, n, k);
    GrantKeepsOrder(cfg, o, s.queue, k, j);
    GrantKeepsBalance(cfg, o, s, k, j);
  }

  // ----- The whole walk

  /** From holder to holder nothing happens. */
  lemma {:induction false} ActivateSkipsHolders<P>(cfg: Config, o: Order<P>, s: Sem<P>, k: nat, n: nat)
    requires HeldUpTo(s.queue, n) && k <= n
    ensures Activate(cfg, o, s, k) == Activate(cfg, o, s, n)
    decreases n - k
  {
    if k < n {
      ActivateSkipsHolders(cfg, o, s, k + 1, n);
    }
  }

  lemma Granted<P(!new)>(cfg: Config, o: Order<P>, s: Sem<P>, n: nat, k: nat) returns (u: Sem<P>)
    requires HeldUpTo(s.queue, n) && n <= k < |s.queue| && Count(cfg, s.queue[k].d) <= s.available
    ensures u == GrantAt(cfg, o, s, k) && HeldUpTo(u.queue, n + 1)
    ensures Activate(cfg, o, s, k) == Activate(cfg, o, u, k + 1)
    ensures u.queue[n + 1..k + 1] == s.queue[n..k]
    ensures var h := Greedy(cfg, u.queue[k + 1..], u.available);
            Greedy(cfg, s.queue[k..], s.available) == h.(granted := [s.queue[k]] + h.granted)
  {
    GrantPlaces(cfg, o, s.queue, n, k);
    u := GrantAt(cfg, o, s, k);
    assert s.queue[k..][1..] == u.queue[k + 1..];
  }

  lemma Passed<P>(cfg: Config, o: Order<P>, s: Sem<P>, n: nat, k: nat)
    requires HeldUpTo(s.queue, n) && n <= k < |s.queue|
    requires Count(cfg, s.queue[k].d) > s.available && PassedOver(cfg, s.queue[k].d)
    ensures Activate(cfg, o, s, k) == Activate(cfg, o, s, k + 1)
    ensures var g, h := Greedy(cfg, s.queue[k..], s.available), Greedy(cfg, s.queue[k + 1..], s.available);
            && g.granted == h.granted && g.available == h.available
            && s.queue[n..k + 1] + h.left == s.queue[n..k] + g.left
  {
    assert s.queue[k..][1..] == s.queue[k + 1..];
    Shift(s.queue, n, k, Greedy(cfg, s.queue[k + 1..], s.available).left);
  }

  lemma Shift<T>(q: seq<T>, n: nat, k: nat, left: seq<T>)
    requires n <= k < |q|
    ensures q[n..k + 1] + left == q[n..k] + ([q[k]] + left)
  {
  }

  lemma Stopped<P>(cfg: Config, o: Order<P>, s: Sem<P>, n: nat, k: nat)
    requires HeldUpTo(s.queue, n) && n <= k <= |s.queue|
    requires k < |s.queue| ==> Count(cfg, s.queue[k].d) > s.available && !PassedOver(cfg, s.queue[k].d)
    ensures Activate(cfg, o, s, k) == s
    ensures Greedy(cfg, s.queue[k..], s.available) == Grants(s.queue[k..], [], s.available)
    ensures s.queue[n..] == s.queue[n..k] + s.queue[k..]
  {
  }

  /** The walk from `k` on, with `n` holders before it and `m` after it, against the reference. */
  lemma {:induction false} ActivatePlaces<P(!new)>(cfg: Config, o: Order<P>, s: Sem<P>, n: nat, k: nat)
      returns (t: Sem<P>, m: nat, g: Grants<P>)
    requires HeldUpTo(s.queue, n) && n <= k <= |s.queue|
    ensures t == Activate(cfg, o, s, k) && t.total == s.total && |t.queue| == |s.queue|
    ensures g == Greedy(cfg, s.queue[k..], s.available)
    ensures HeldUpTo(t.queue, m) && m == n + |g.granted|
    ensures t.queue[m..] == s.queue[n..k] + g.left && t.available == g.available
    decreases |s.queue| - k
  {
    g := Greedy(cfg, s.queue[k..], s.available);
    var h: Grants<P>;
    if k == |s.queue| || (Count(cfg, s.queue[k].d) > s.available && !PassedOver(cfg, s.queue[k].d)) {
      t, m := s, n;
      Stopped(cfg, o, s, n, k);
    } else if Count(cfg, s.queue[k].d) <= s.available {
      var u := Granted(cfg, o, s, n, k);
      t, m, h := ActivatePlaces(cfg, o, u, n + 1, k + 1);
    } else {
      Passed(cfg, o, s, n, k);
      t, m, h := ActivatePlaces(cfg, o, s, n, k + 1);
    }
  }

  lemma StepSane<P(!new)>(cfg: Config, o: Order<P>, s: Sem<P>, n: nat, k: nat) returns (u: Sem<P>, n': nat)
    requires Lawful(o) && Sane(cfg, o, s) && HeldUpTo(s.queue, n) && n <= k < |s.queue|
    requires Count(cfg, s.queue[k].d) <= s.available || PassedOver(cfg, s.queue[k].d)
    ensures HeldUpTo(u.queue, n') && |u.queue| == |s.queue| && n' <= k + 1
    ensures Activate(cfg, o, s, k) == Activate(cfg, o, u, k + 1) && Sane(cfg, o, u)
  {
    if Count(cfg, s.queue[k].d) <= s.available {
      n' := n + 1;
      GrantKeepsSane(cfg, o, s, n, k);
      u := Granted(cfg, o, s, n, k);
    } else {
      u, n' := s, n;
    }
  }

  lemma {:induction false} ActivateKeepsSane<P(!new)>(cfg: Config, o: Order<P>, s: Sem<P>, n: nat, k: nat)
      returns (t: Sem<P>)
    requires Lawful(o) && Sane(cfg, o, s) && HeldUpTo(s.queue, n) && n <= k <= |s.queue|
    ensures t == Activate(cfg, o, s, k) && Sane(cfg, o, t)
    decreases |s.queue| - k
  {
    hide Sane;
    if k < |s.queue| && (Count(cfg, s.queue[k].d) <= s.available || PassedOver(cfg, s.queue[k].d)) {
      var u, n' := StepSane(cfg, o, s, n, k);
      t := ActivateKeepsSane(cfg, o, u, n', k + 1);
    } else {
      t := s;
    }
  }

  /** A waiter that cannot be served, or that asks for nothing while nothing is available. */
  predicate Blocked<P>(cfg: Config, d: SemWaiter<P>, available: nat) {
    Count(cfg, d) > available || (Count(cfg, d) == 0 && available == 0)
  }

  ghost predicate Unstranded<P>(cfg: Config, s: Sem<P>) {
    var n := NumHeld(s.queue);
    n < |s.queue| ==> Blocked(cfg, s.queue[n].d, s.available)
  }

  /** The entries of those granted, as holders. */
  function Holding<P>(q: Queue<P>): (r: Queue<P>)
    ensures |r| == |q| && forall i :: 0 <= i < |q| ==> r[i] == Cell(q[i].h, q[i].d.(held := true))
  {
    seq(|q|, i requires 0 <= i < |q| => Cell(q[i].h, q[i].d.(held := true)))
  }

  lemma InsertCounts<H, T>(s: seq<Cell<H, T>>, p: nat, c: Cell<H, T>)
    requires p <= |s|
    ensures multiset(Insert(s, p, c)) == multiset(s) + multiset{c}
  {
    assert s == s[..p] + s[p..];
  }

  lemma GrantAddsHolder<P(!new)>(cfg: Config, o: Order<P>, q: Queue<P>, n: nat, k: nat)
    requires HeldUpTo(q, n) && n <= k < |q|
    ensures var c := Cell(q[k].h, q[k].d.(held := true));
            multiset(Update(SemOrder(cfg, o), q, k, c.d, true)[..n + 1]) == multiset(q[..n]) + multiset{c}
  {
    var c := Cell(q[k].h, q[k].d.(held := true));
    var j := GrantMoves(cfg, o, q, n, k);
    var r := Insert(Remove(q, k), j, c);
    assert r[..n + 1] == Insert(q[..n], j, c);
    InsertCounts(q[..n], j, c);
  }

  lemma HoldingFront<P>(c: Cell<nat, SemWaiter<P>>, rest: Queue<P>)
    ensures multiset(Holding([c] + rest)) == multiset{Cell(c.h, c.d.(held := true))} + multiset(Holding(rest))
  {
    assert Holding([c] + rest) == [Cell(c.h, c.d.(held := true))] + Holding(rest);
  }

  /** The holders there are, and those there will be if `granted` are served. */
  ghost function HoldersWith<P>(q: Queue<P>, n: nat, granted: Queue<P>): multiset<Cell<nat, SemWaiter<P>>>
    requires n <= |q|
  {
    multiset(q[..n]) + multiset(Holding(granted))
  }

  lemma NobodyElseHolds<P>(cfg: Config, o: Order<P>, s: Sem<P>, n: nat, k: nat)
    requires HeldUpTo(s.queue, n) && n <= k <= |s.queue|
    requires k < |s.queue| ==> Count(cfg, s.queue[k].d) > s.available && !PassedOver(cfg, s.queue[k].d)
    ensures Activate(cfg, o, s, k) == s
    ensures multiset(s.queue[..n]) == HoldersWith(s.queue, n, Greedy(cfg, s.queue[k..], s.available).granted)
  {
    Stopped(cfg, o, s, n, k);
    assert Holding(Greedy(cfg, s.queue[k..], s.available).granted) == [];
  }

  /** One step of the walk, whether it serves the waiter or passes it over. */
  lemma StepHolds<P(!new)>(cfg: Config, o: Order<P>, s: Sem<P>, n: nat, k: nat) returns (u: Sem<P>, n': nat)
    requires HeldUpTo(s.queue, n) && n <= k < |s.queue|
    requires Count(cfg, s.queue[k].d) <= s.available || PassedOver(cfg, s.queue[k].d)
    ensures HeldUpTo(u.queue, n') && |u.queue| == |s.queue| && n' <= k + 1
    ensures Activate(cfg, o, s, k) == Activate(cfg, o, u, k + 1)
    ensures HoldersWith(s.queue, n, Greedy(cfg, s.queue[k..], s.available).granted)
         == HoldersWith(u.queue, n', Greedy(cfg, u.queue[k + 1..], u.available).granted)
  {
    if Count(cfg, s.queue[k].d) <= s.available {
      n' := n + 1;
      u := Granted(cfg, o, s, n, k);
      GrantAddsHolder(cfg, o, s.queue, n, k);
      HoldingFront(s.queue[k], Greedy(cfg, u.queue[k + 1..], u.available).granted);
    } else {
      u, n' := s, n;
      Passed(cfg, o, s, n, k);
    }
  }

  /** The holders afterwards are those from before and those that the reference serves. */
  lemma {:induction false} ActivateAddsHolders<P(!new)>(cfg: Config, o: Order<P>, s: Sem<P>, n: nat, k: nat)
      returns (t: Sem<P>, m: nat)
    requires HeldUpTo(s.queue, n) && n <= k <= |s.queue|
    ensures t == Activate(cfg, o, s, k) && HeldUpTo(t.queue, m)
    ensures multiset(t.queue[..m]) == HoldersWith(s.queue, n, Greedy(cfg, s.queue[k..], s.available).granted)
    decreases |s.queue| - k
  {
    if k < |s.queue| && (Count(cfg, s.queue[k].d) <= s.available || PassedOver(cfg, s.queue[k].d)) {
      var u, n' := StepHolds(cfg, o, s, n, k);
      t, m := ActivateAddsHolders(cfg, o, u, n', k + 1);
    } else {
      t, m := s, n;
      NobodyElseHolds(cfg, o, s, n, k);
    }
  }

  lemma FirstLeftDoesNotFit<P>(cfg: Config, waiters: Queue<P>, available: nat)
    ensures var g := Greedy(cfg, waiters, available);
            g.left != [] ==> Count(cfg, g.left[0].d) > g.available
  {
    var b, _ := GreedyStops(cfg, waiters, available);
  }

  lemma ActivateServes<P(!new)>(cfg: Config, o: Order<P>, s: Sem<P>, k: nat)
      returns (t: Sem<P>, n: nat, m: nat, g: Grants<P>)
    requires Sorted(SemOrder(cfg, o), s.queue) && k <= NumHeld(s.queue)
    ensures t == Activate(cfg, o, s, k) && n == NumHeld(s.queue) && m == NumHeld(t.queue)
    ensures g == Greedy(cfg, s.queue[n..], s.available)
    ensures t.total == s.total && |t.queue| == |s.queue| && HeldUpTo(s.queue, n) && HeldUpTo(t.queue, m)
    ensures m == n + |g.granted| && t.queue[m..] == g.left && t.available == g.available
    ensures multiset(t.queue[..m]) == HoldersWith(s.queue, n, g.granted)
  {
    n := NumHeld(s.queue);
    SortedIsDivided(cfg, o, s.queue);
    ActivateSkipsHolders(cfg, o, s, k, n);
    t, m, g := ActivatePlaces(cfg, o, s, n, n);
    DividedOnce(t.queue, m);
    var _, m' := ActivateAddsHolders(cfg, o, s, n, n);
    DividedOnce(t.queue, m');
    assert s.queue[n..n] == [];
  }

  /** `activate_waiters`, started anywhere among the holders or at the first waiter: it serves
      exactly the waiters that the reference serves, the others keep their places in line, the
      queue stays in order, no permit is lost, and whoever is first in line afterwards does not fit. */
  lemma ActivateIsGreedy<P(!new)>(cfg: Config, o: Order<P>, s: Sem<P>, k: nat)
    requires Lawful(o) && Sane(cfg, o, s) && k <= NumHeld(s.queue)
    ensures var t, n := Activate(cfg, o, s, k), NumHeld(s.queue);
            var g := Greedy(cfg, s.queue[n..], s.available);
            && Sane(cfg, o, t) && t.total == s.total && |t.queue| == |s.queue|
            && NumHeld(t.queue) == n + |g.granted|
            && t.queue[NumHeld(t.queue)..] == g.left && t.available == g.available
            && multiset(t.queue[..NumHeld(t.queue)]) == HoldersWith(s.queue, n, g.granted)
            && (g.left != [] ==> Count(cfg, g.left[0].d) > t.available)
            && Unstranded(cfg, t)
  {
    hide Activate;
    var t, n, m, g := ActivateServes(cfg, o, s, k);
    ActivateSkipsHolders(cfg, o, s, k, n);
    FirstLeftDoesNotFit(cfg, s.queue[n..], s.available);
    assert m < |t.queue| ==> t.queue[m] == g.left[0];
    var _ := ActivateKeepsSane(cfg, o, s, n, n);
  }

  lemma EarlierRanks<P>(cfg: Config, o: Order<P>, q: Queue<P>, i: nat, j: nat)
    requires Sorted(SemOrder(cfg, o), q) && i < j < |q| && q[i].d.held == q[j].d.held
    ensures o.cmp(q[i].d.priority, q[j].d.priority).IsGe()
  {
    assert SemOrder(cfg, o).cmp(q[i].d, q[j].d).IsGe();
  }

  ghost predicate InLine<P>(o: Order<P>, waiters: Queue<P>) {
    forall i, j :: 0 <= i < j < |waiters| ==> o.cmp(waiters[i].d.priority, waiters[j].d.priority).IsGe()
  }

  lemma WaitersAreInLine<P>(cfg: Config, o: Order<P>, q: Queue<P>)
    requires Sorted(SemOrder(cfg, o), q)
    ensures InLine(o, q[NumHeld(q)..])
  {
    var n := NumHeld(q);
    var w := q[n..];
    SortedIsDivided(cfg, o, q);
    forall i, j | 0 <= i < j < |w| ensures o.cmp(w[i].d.priority, w[j].d.priority).IsGe() {
      EarlierRanks(cfg, o, q, n + i, n + j);
    }
  }

  lemma {:induction false} GreedyKeepsLine<P>(cfg: Config, waiters: Queue<P>, available: nat, i: nat, j: nat)
      returns (x: nat, y: nat)
    requires i < j < |Greedy(cfg, waiters, available).left|
    ensures var left := Greedy(cfg, waiters, available).left;
            x < y < |waiters| && waiters[x] == left[i] && waiters[y] == left[j]
  {
    hide Greedy;
    OneByOne(cfg, waiters, available);
    if Count(cfg, waiters[0].d) <= available {
      x, y := GreedyKeepsLine(cfg, waiters[1..], available - Count(cfg, waiters[0].d), i, j);
      x, y := x + 1, y + 1;
    } else if !PassedOver(cfg, waiters[0].d) {
      x, y := i, j;
    } else if i > 0 {
      x, y := GreedyKeepsLine(cfg, waiters[1..], available, i - 1, j - 1);
      x, y := x + 1, y + 1;
    } else {
      y := GreedyKeeps(cfg, waiters[1..], available, j - 1);
      x, y := 0, y + 1;
    }
  }

  lemma {:induction false} GreedyKeeps<P>(cfg: Config, waiters: Queue<P>, available: nat, j: nat) returns (y: nat)
    requires j < |Greedy(cfg, waiters, available).left|
    ensures y < |waiters| && waiters[y] == Greedy(cfg, waiters, available).left[j]
  {
    hide Greedy;
    OneByOne(cfg, waiters, available);
    if Count(cfg, waiters[0].d) <= available {
      y := GreedyKeeps(cfg, waiters[1..], available - Count(cfg, waiters[0].d), j);
      y := y + 1;
    } else if !PassedOver(cfg, waiters[0].d) {
      y := j;
    } else if j > 0 {
      y := GreedyKeeps(cfg, waiters[1..], available, j - 1);
      y := y + 1;
    } else {
      y := 0;
    }
  }

  /** Whoever is served stood before whoever is left, unless the one left was passed over: it is about to
      be evicted, and not even what is left over would be enough for it. */
  lemma {:induction false} GreedyServesInOrder<P>(cfg: Config, waiters: Queue<P>, available: nat, i: nat, j: nat)
      returns (x: nat, y: nat)
    requires i < |Greedy(cfg, waiters, available).granted| && j < |Greedy(cfg, waiters, available).left|
    ensures var g := Greedy(cfg, waiters, available);
            && x < |waiters| && y < |waiters| && g.granted[i] == waiters[x] && g.left[j] == waiters[y]
            && (x < y || (PassedOver(cfg, g.left[j].d) && Count(cfg, g.left[j].d) > g.available))
  {
    if Count(cfg, waiters[0].d) <= available {
      var rest := available - Count(cfg, waiters[0].d);
      if i == 0 {
        y := GreedyKeeps(cfg, waiters[1..], rest, j);
        x, y := 0, y + 1;
      } else {
        x, y := GreedyServesInOrder(cfg, waiters[1..], rest, i - 1, j);
        x, y := x + 1, y + 1;
      }
    } else if j == 0 {
      x := GreedyGrants(cfg, waiters[1..], available, i);
      GreedyTakes(cfg, waiters[1..], available);
      x, y := x + 1, 0;
    } else {
      x, y := GreedyServesInOrder(cfg, waiters[1..], available, i, j - 1);
      x, y := x + 1, y + 1;
    }
  }

  lemma {:induction false} GreedyGrants<P>(cfg: Config, waiters: Queue<P>, available: nat, i: nat) returns (x: nat)
    requires i < |Greedy(cfg, waiters, available).granted|
    ensures x < |waiters| && waiters[x] == Greedy(cfg, waiters, available).granted[i]
  {
    if Count(cfg, waiters[0].d) > available {
      x := GreedyGrants(cfg, waiters[1..], available, i);
      x := x + 1;
    } else if i > 0 {
      x := GreedyGrants(cfg, waiters[1..], available - Count(cfg, waiters[0].d), i - 1);
      x := x + 1;
    } else {
      x := 0;
    }
  }

  /** In every configuration: somebody left waiting outranks somebody who was served only if it is about
      to be evicted and would still not fit.  Without `semaphore-total` nobody is passed over. */
  lemma ActivateDoesNotOvertake<P(!new)>(cfg: Config, o: Order<P>, s: Sem<P>, g: Grants<P>, i: nat, j: nat)
    requires Sorted(SemOrder(cfg, o), s.queue)
    requires g == Greedy(cfg, s.queue[NumHeld(s.queue)..], s.available) && i < |g.granted| && j < |g.left|
    ensures || o.cmp(g.granted[i].d.priority, g.left[j].d.priority).IsGe()
            || (PassedOver(cfg, g.left[j].d) && Count(cfg, g.left[j].d) > g.available)
  {
    hide Greedy;
    WaitersAreInLine(cfg, o, s.queue);
    var x, y := GreedyServesInOrder(cfg, s.queue[NumHeld(s.queue)..], s.available, i, j);
  }
}
