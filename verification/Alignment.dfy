/** The pointer alignment macros, with C's `&` and `~` spelled out bit by bit. */
module Alignment {

  function Pow2(k: nat): (r: nat)
    ensures 1 <= r
  {
    if k == 0 then 1 else 2 * Pow2(k - 1)
  }

  /** One less than a power of two. */
  ghost predicate IsMask(a: nat) {
    exists k: nat :: a + 1 == Pow2(k)
  }

  ghost predicate IsMultiple(x: int, m: nat) {
    m > 0 && x % m == 0
  }

  /** q lies a whole number of alignment units from the origin b. */
  ghost predicate Aligned(b: int, q: int, a: nat) {
    IsMultiple(q - b, a + 1)
  }

  /** The value of the C expression `x & ~a` for non-negative x and a, one bit at a time. */
  function AndNot(x: nat, a: nat): nat {
    if x == 0 then 0
    else 2 * AndNot(x / 2, a / 2) + if x % 2 == 1 && a % 2 == 0 then 1 else 0
  }

  /** __BPTR_ALIGN (B, P, A) */
  function BptrAlign(b: int, p: int, a: nat): int
    requires b <= p
  {
    b + AndNot(p - b + a, a)
  }

  /** __PTR_ALIGN (B, P, A): `narrow` says that a pointer difference is narrower than a pointer. */
  function PtrAlign(narrow: bool, b: nat, p: nat, a: nat): int
    requires b <= p
  {
    BptrAlign(if narrow then b else 0, p, a)
  }

  lemma ModOfDouble(x: nat, m: nat)
    requires m > 0
    ensures x % (2 * m) == 2 * ((x / 2) % m) + x % 2
  {
    var q, r := (x / 2) / m, (x / 2) % m;
    assert x == 2 * (q * m + r) + x % 2;
    QuotientUnique(x, 2 * m, q, 2 * r + x % 2) by {
      assert 2 * (q * m) == q * (2 * m);
    }
  }

  lemma QuotientUnique(x: int, m: nat, q: int, r: int)
    requires m > 0 && 0 <= r < m && x == q * m + r
    ensures x % m == r && x / m == q
  {
    var d := x / m - q;
    NonZeroProduct(d, m);
    assert x == (x / m) * m + x % m;
    assert d * m == r - x % m;
  }

  lemma NonZeroProduct(d: int, m: nat)
    ensures d > 0 ==> m <= d * m
    ensures d < 0 ==> d * m <= -(m as int)
  {
  }

  /** Clearing the bits of a mask rounds down to a multiple of mask + 1. */
  lemma {:induction false} AndNotRoundsDown(x: nat, k: nat)
    ensures AndNot(x, Pow2(k) - 1) == x - x % Pow2(k)
  {
    if k == 0 {
      AndNotZero(x);
    } else if x != 0 {
      var m := Pow2(k - 1);
      assert Pow2(k) == 2 * m;
      assert (2 * m - 1) / 2 == m - 1;
      AndNotRoundsDown(x / 2, k - 1);
      ModOfDouble(x, m);
    }
  }

  lemma {:induction false} AndNotZero(x: nat)
    ensures AndNot(x, 0) == x
  {
    if x != 0 {
      AndNotZero(x / 2);
    }
  }

  lemma RoundUp(d: nat, m: nat)
    requires m > 0
    ensures var r := d + m - 1 - (d + m - 1) % m;
            d <= r <= d + m - 1 && r % m == 0 && forall q: nat :: d <= q && q % m == 0 ==> r <= q
  {
    var y := d + m - 1;
    var r := y - y % m;
    assert y == (y / m) * m + y % m;
    QuotientUnique(r, m, y / m, 0);
    forall q: nat | d <= q && q % m == 0 ensures r <= q {
      var e := r / m - q / m;
      NonZeroProduct(e, m);
      assert q == (q / m) * m && r == (r / m) * m;
      assert e * m == r - q;
    }
  }

  /** BPTR_ALIGN is the least address at or above P whose offset from B is a multiple of A + 1. */
  lemma BptrAlignIsLeast(b: int, p: int, a: nat)
    requires IsMask(a) && b <= p
    ensures var r := BptrAlign(b, p, a);
            && p <= r <= p + a
            && Aligned(b, r, a)
            && forall q: int :: p <= q && Aligned(b, q, a) ==> r <= q
  {
    var k: nat :| a + 1 == Pow2(k);
    AndNotRoundsDown(p - b + a, k);
    RoundUp(p - b, a + 1);
    var r := BptrAlign(b, p, a);
    forall q: int | p <= q && Aligned(b, q, a) ensures r <= q {
      assert (q - b) % (a + 1) == 0;
      assert r - b <= q - b;
    }
  }

  /** The two strategies of PTR_ALIGN agree exactly when B itself is a multiple of A + 1. */
  lemma StrategiesAgree(b: nat, p: nat, a: nat)
    requires IsMask(a) && b <= p
    ensures IsMultiple(b, a + 1) <==> PtrAlign(true, b, p, a) == PtrAlign(false, b, p, a)
  {
    var r, r0 := BptrAlign(b, p, a), BptrAlign(0, p, a);
    BptrAlignIsLeast(b, p, a);
    BptrAlignIsLeast(0, p, a);
    assert IsMultiple(r - b, a + 1) && IsMultiple(r0, a + 1);
    if IsMultiple(b, a + 1) {
      MultipleSum(r - b, b, a + 1);
      MultipleDiff(r0, b, a + 1);
      assert Aligned(0, r, a) && Aligned(b, r0, a);
    } else if r == r0 {
      MultipleDiff(r, r - b, a + 1);
    }
  }

  lemma MultipleSum(x: int, y: int, m: nat)
    requires IsMultiple(x, m) && IsMultiple(y, m)
    ensures IsMultiple(x + y, m)
  {
    assert x == (x / m) * m && y == (y / m) * m;
    QuotientUnique(x + y, m, x / m + y / m, 0);
  }

  lemma MultipleDiff(x: int, y: int, m: nat)
    requires IsMultiple(x, m) && IsMultiple(y, m)
    ensures IsMultiple(x - y, m)
  {
    assert x == (x / m) * m && y == (y / m) * m;
    QuotientUnique(x - y, m, x / m - y / m, 0);
  }
}
