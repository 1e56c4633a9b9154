/** Whom a walk of `activate_waiters` serves, told from the line before it: everybody whose turn comes and
    who then fits. */
module SemaphoreTurns {
  import opened QueueSpec
  import opened SemaphoreActivation
  import opened Semaphores

  /** The permits left when the walk comes to the waiter at `x`. */
  function LeftAt<P>(cfg: Config, waiters: Queue<P>, available: nat, x: nat): nat
    requires x <= |waiters|
  {
    if x == 0 then available
    else
      var n := Count(cfg, waiters[0].d);
      LeftAt(cfg, waiters[1..], if n <= available then available - n else available, x - 1)
  }

  predicate FitsInTurn<P>(cfg: Config, waiters: Queue<P>, available: nat, x: nat) {
    x < |waiters| && Count(cfg, waiters[x].d) <= LeftAt(cfg, waiters, available, x)
  }

  /** It fits in its turn, and so does everybody ahead who is not to be passed over. */
  predicate Served<P>(cfg: Config, waiters: Queue<P>, available: nat, x: nat) {
    && FitsInTurn(cfg, waiters, available, x)
    && forall y :: 0 <= y < x ==> FitsInTurn(cfg, waiters, available, y) || PassedOver(cfg, waiters[y].d)
  }

  /** From the second waiter on it is the same with the permits that the first one leaves. */
  lemma ServedBehind<P>(cfg: Config, waiters: Queue<P>, available: nat, x: nat)
    requires 0 < x < |waiters|
    ensures var n := Count(cfg, waiters[0].d);
            Served(cfg, waiters, available, x) <==>
            && (n <= available || PassedOver(cfg, waiters[0].d))
            && Served(cfg, waiters[1..], if n <= available then available - n else available, x - 1)
  {
    var n, w := Count(cfg, waiters[0].d), waiters[1..];
    var rest := if n <= available then available - n else available;
    forall y | 0 < y <= x
      ensures FitsInTurn(cfg, waiters, available, y) <==> FitsInTurn(cfg, w, rest, y - 1)
      ensures waiters[y] == w[y - 1]
    {
    }
    assert FitsInTurn(cfg, waiters, available, 0) <==> n <= available;
    if Served(cfg, waiters, available, x) {
      forall y | 0 <= y < x - 1 ensures FitsInTurn(cfg, w, rest, y) || PassedOver(cfg, w[y].d) {
        assert FitsInTurn(cfg, waiters, available, y + 1) || PassedOver(cfg, waiters[y + 1].d);
      }
    }
  }

  /** Whoever is granted permits is one of those. */
  lemma {:induction false} GrantedIsServed<P>(cfg: Config, waiters: Queue<P>, available: nat, i: nat) returns (x: nat)
    requires i < |Greedy(cfg, waiters, available).granted|
    ensures Served(cfg, waiters, available, x) && waiters[x] == Greedy(cfg, waiters, available).granted[i]
  {
    hide Greedy, Served;
    OneByOne(cfg, waiters, available);
    var n := Count(cfg, waiters[0].d);
    if n <= available && i == 0 {
      x := 0;
      FirstServed(cfg, waiters, available);
    } else {
      var rest := if n <= available then available - n else available;
      x := GrantedIsServed(cfg, waiters[1..], rest, if n <= available then i - 1 else i);
      ServedIsWaiting(cfg, waiters[1..], rest, x);
      x := x + 1;
      ServedBehind(cfg, waiters, available, x);
    }
  }

  lemma FirstServed<P>(cfg: Config, waiters: Queue<P>, available: nat)
    ensures Served(cfg, waiters, available, 0) <==> waiters != [] && Count(cfg, waiters[0].d) <= available
  {
  }

  lemma ServedIsWaiting<P>(cfg: Config, waiters: Queue<P>, available: nat, x: nat)
    requires Served(cfg, waiters, available, x)
    ensures x < |waiters|
  {
  }

  /** And each of those is granted permits. */
  lemma {:induction false} ServedIsGranted<P>(cfg: Config, waiters: Queue<P>, available: nat, x: nat) returns (i: nat)
    requires Served(cfg, waiters, available, x)
    ensures i < |Greedy(cfg, waiters, available).granted|
    ensures waiters[x] == Greedy(cfg, waiters, available).granted[i]
  {
    hide Greedy, Served;
    ServedIsWaiting(cfg, waiters, available, x);
    OneByOne(cfg, waiters, available);
    if x == 0 {
      FirstServed(cfg, waiters, available);
      i := 0;
    } else {
      var n := Count(cfg, waiters[0].d);
      ServedBehind(cfg, waiters, available, x);
      i := ServedIsGranted(cfg, waiters[1..], if n <= available then available - n else available, x - 1);
      i := if n <= available then i + 1 else i;
    }
  }

  /** The first waiter that does not fit in its turn. */
  function FirstUnfit<P>(cfg: Config, waiters: Queue<P>, available: nat): (k: nat)
    ensures k <= |waiters|
  {
    if waiters != [] && Count(cfg, waiters[0].d) <= available
    then 1 + FirstUnfit(cfg, waiters[1..], available - Count(cfg, waiters[0].d)) else 0
  }

  /** Those ahead of it can all be served together, and it cannot be served with them. */
  lemma {:induction false} FirstUnfitIs<P>(cfg: Config, waiters: Queue<P>, available: nat)
    ensures var k := FirstUnfit(cfg, waiters, available);
            && Requested(cfg, waiters[..k]) <= available
            && (k < |waiters| ==> Requested(cfg, waiters[..k + 1]) > available)
  {
    var k := FirstUnfit(cfg, waiters, available);
    if k > 0 {
      FirstUnfitIs(cfg, waiters[1..], available - Count(cfg, waiters[0].d));
      RequestedFront(cfg, waiters, k - 1);
    }
    if k < |waiters| {
      RequestedFront(cfg, waiters, k);
    }
  }

  /** It is the first that is left, and nobody is served past it unless it is passed over. */
  lemma {:induction false} FirstUnfitIsLeft<P>(cfg: Config, waiters: Queue<P>, available: nat)
    ensures var k, left := FirstUnfit(cfg, waiters, available), Greedy(cfg, waiters, available).left;
            && (left != [] <==> k < |waiters|) && (left != [] ==> left[0] == waiters[k])
            && (forall x: nat :: Served(cfg, waiters, available, x) ==> x < k || PassedOver(cfg, waiters[k].d))
            && !Served(cfg, waiters, available, k)
  {
    hide Greedy, Served;
    OneByOne(cfg, waiters, available);
    var k := FirstUnfit(cfg, waiters, available);
    if k > 0 {
      FirstUnfitIsLeft(cfg, waiters[1..], available - Count(cfg, waiters[0].d));
    }
    forall x: nat | Served(cfg, waiters, available, x)
      ensures x != k && (x < k || (k < |waiters| && PassedOver(cfg, waiters[k].d)))
    {
      ServedIsWaiting(cfg, waiters, available, x);
      FirstServed(cfg, waiters, available);
      if x > 0 {
        ServedBehind(cfg, waiters, available, x);
      }
    }
  }
}
