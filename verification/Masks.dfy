/** Machine words as natural numbers: the masks used by src/queue/arena.rs and src/semaphore.rs. */
module Masks {

  /** Bitwise and. */
  function And(x: nat, y: nat): nat
    decreases x
  {
    if x == 0 || y == 0 then 0 else 2 * And(x / 2, y / 2) + (x % 2) * (y % 2)
  }

  /** Bitwise or. */
  function Or(x: nat, y: nat): nat
    decreases x + y
  {
    if x == 0 then y
    else if y == 0 then x
    else 2 * Or(x / 2, y / 2) + if x % 2 + y % 2 > 0 then 1 else 0
  }

  predicate PowerOfTwo(n: nat) {
    n == 1 || (n > 1 && n % 2 == 0 && PowerOfTwo(n / 2))
  }

  function Power(k: nat): nat {
    if k == 0 then 1 else 2 * Power(k - 1)
  }

  lemma {:induction false} PowersAre(k: nat)
    ensures PowerOfTwo(Power(k)) && Power(k) > 0
  {
    if k > 0 {
      PowersAre(k - 1);
    }
  }

  lemma {:induction false} PowerSum(a: nat, b: nat)
    ensures Power(a + b) == Power(a) * Power(b)
  {
    if a > 0 {
      PowerSum(a - 1, b);
    }
  }

  /** The arena's "fast modulo": for a power of two, masking with n - 1 is reduction modulo n. */
  lemma {:induction false} MaskIsModulo(x: nat, n: nat)
    requires PowerOfTwo(n)
    ensures And(x, n - 1) == x % n
  {
    if x != 0 && n != 1 {
      MaskIsModulo(x / 2, n / 2);
      assert n == 2 * (n / 2) && (n - 1) / 2 == n / 2 - 1 && (n - 1) % 2 == 1;
      RemainderOfDouble(x, n / 2);
    }
  }

  /** Stepping round a ring whose size is a power of two. */
  lemma MaskWraps(k: nat, n: nat)
    requires PowerOfTwo(n) && k < n
    ensures And(k + 1, n - 1) == if k + 1 < n then k + 1 else 0
  {
    MaskIsModulo(k + 1, n);
    if k + 1 == n {
      RemainderIs(k + 1, n, 1, 0);
    } else {
      RemainderIs(k + 1, n, 0, k + 1);
    }
  }

  lemma {:induction false} RemainderOfDouble(x: nat, h: nat)
    requires h > 0
    ensures x % (2 * h) == 2 * (x / 2 % h) + x % 2
  {
    var y, b := x / 2, x % 2;
    assert y / h * (2 * h) == 2 * (y / h * h);
    RemainderIs(x, 2 * h, y / h, 2 * (y % h) + b);
  }

  lemma {:induction false} RemainderIs(x: int, n: int, q: int, r: int)
    requires n > 0 && x == q * n + r && 0 <= r < n
    ensures x % n == r
  {
    var e, m := x / n, x % n;
    assert x == e * n + m;
    MultipleIsFar(e - q, n, r - m);
  }

  lemma MultipleIsFar(d: int, n: int, z: int)
    requires n > 0 && d * n == z && -n < z < n
    ensures z == 0
  {
    assert d >= 1 ==> d * n >= n;
    assert d <= -1 ==> -d * n >= n;
  }

  /** Below a power of two the next higher bit is free to carry a tag: setting it adds it, and
      testing it is a comparison. */
  lemma {:induction false} TagBit(x: nat, n: nat)
    requires PowerOfTwo(n)
    ensures x < n ==> Or(x, n) == x + n
    ensures x < 2 * n ==> (And(x, n) != 0 <==> x >= n)
  {
    if x == 0 {
    } else if n == 1 {
      assert And(1, 1) == 2 * And(0, 0) + 1;
    } else {
      TagBit(x / 2, n / 2);
    }
  }
}
