/** An int64 stored in a `double`, as `std::atomic<double> request_id_` does: conversion under
    round-to-nearest, ties to even, section 4.3.1 of IEEE 754-2019. The doubles met here are
    integers, so they are modelled as `int`. */
module Float64 {

  function Pow2(k: nat): (p: nat)
    ensures p > 0
  {
    if k == 0 then 1 else 2 * Pow2(k - 1)
  }

  const PRECISION: nat := 53
  const TWO_53: int := 0x20_0000_0000_0000
  const TWO_63: int := 0x8000_0000_0000_0000

  /** An integer that a binary64 can hold: at most 53 significant bits. */
  ghost predicate IsDouble(x: int) {
    exists m: int, k: nat {:trigger m * Pow2(k)} ::
      x == m * Pow2(k) && 0 - TWO_53 <= m <= TWO_53
  }

  /** The least exponent whose unit lets 53 bits reach beyond `n`. */
  function Exponent(n: nat): (e: nat)
    ensures n < Pow2(PRECISION + e)
    ensures e > 0 ==> Pow2(PRECISION + e - 1) <= n
  {
    ExponentFrom(n, 0)
  }

  function ExponentFrom(n: nat, e: nat): (r: nat)
    requires e > 0 ==> Pow2(PRECISION + e - 1) <= n
    ensures n < Pow2(PRECISION + r)
    ensures r > 0 ==> Pow2(PRECISION + r - 1) <= n
    decreases if Pow2(PRECISION + e) <= n then n - Pow2(PRECISION + e) + 1 else 0
  {
    if n < Pow2(PRECISION + e) then e else ExponentFrom(n, e + 1)
  }

  /** `n / unit`, rounded to nearest with ties to even. */
  function RoundHalfEven(n: nat, unit: nat): nat
    requires unit > 0
  {
    var q := n / unit;
    var r := n % unit;
    if 2 * r < unit then q
    else if 2 * r > unit then q + 1
    else if q % 2 == 0 then q else q + 1
  }

  function RoundNat(n: nat): nat {
    var unit := Pow2(Exponent(n));
    RoundHalfEven(n, unit) * unit
  }

  /** `static_cast<double>` of an integer. */
  function ToDouble(n: int): int {
    if n >= 0 then RoundNat(n) else 0 - RoundNat(-n)
  }

  function Abs(x: int): nat {
    if x >= 0 then x else -x
  }

  // ---------------------------------------------------------------- arithmetic

  lemma {:induction false} Pow2Sum(a: nat, b: nat)
    ensures Pow2(a + b) == Pow2(a) * Pow2(b)
  {
    if a > 0 {
      Pow2Sum(a - 1, b);
      Associate(2, Pow2(a - 1), Pow2(b));
    }
  }

  lemma {:induction false} Pow2Monotone(a: nat, b: nat)
    requires a <= b
    ensures Pow2(a) <= Pow2(b)
    decreases b
  {
    if a < b { Pow2Monotone(a, b - 1); }
  }

  lemma Pow2Less(a: nat, b: nat)
    requires Pow2(a) < Pow2(b)
    ensures a < b
  {
    if b <= a { Pow2Monotone(b, a); }
  }

  lemma DivMod(n: nat, unit: nat)
    requires unit > 0
    ensures n == (n / unit) * unit + n % unit
  {
  }

  lemma MulMonotone(a: int, b: int, c: nat)
    requires a <= b
    ensures a * c <= b * c
  {
  }

  /** The rounded value is the multiple of `unit` below `n` or the one above, whichever is nearer,
      and on a tie the one whose quotient is even. */
  lemma RoundedQuotient(n: nat, unit: nat)
    requires unit > 0
    ensures var q := n / unit; var r := RoundHalfEven(n, unit);
      && q * unit <= n < q * unit + unit
      && (r == q || r == q + 1) && (q + 1) * unit == q * unit + unit
      && Abs(r * unit - n) <= n - q * unit
      && Abs(r * unit - n) <= q * unit + unit - n
      && 2 * Abs(r * unit - n) <= unit
      && (2 * Abs(r * unit - n) == unit ==> r % 2 == 0)
  {
    DivMod(n, unit);
    assert (n / unit + 1) * unit == (n / unit) * unit + unit;
  }

  /** No multiple of `unit` is nearer to `n` than the rounded value. */
  lemma NearestMultiple(n: nat, unit: nat, j: int)
    requires unit > 0
    ensures Abs(RoundHalfEven(n, unit) * unit - n) <= Abs(j * unit - n)
  {
    RoundedQuotient(n, unit);
    var q := n / unit;
    if j <= q { MulMonotone(j, q, unit); } else { MulMonotone(q + 1, j, unit); }
  }

  // ---------------------------------------------------------------- rounding is to nearest

  /** A value of at most `p` bits that is not below half the top of the range of exponent `e` is
      a multiple of the unit of that exponent. */
  lemma BigIsMultiple(m: int, k: nat, p: nat, e: nat) returns (j: int)
    requires p > 0 && e > 0 && m <= Pow2(p) && m * Pow2(k) >= Pow2(p + e - 1)
    ensures m * Pow2(k) == j * Pow2(e)
  {
    if k >= e {
      Pow2Sum(k - e, e);
      j := m * Pow2(k - e);
      Associate(m, Pow2(k - e), Pow2(e));
    } else {
      MulMonotone(m, Pow2(p), Pow2(k));
      Pow2Sum(p, k);
      Pow2Monotone(p + k, p + e - 1);
      j := Pow2(p - 1);
      Pow2Sum(p - 1, e);
      assert p - 1 + e == p + e - 1;
    }
  }

  lemma Associate(a: int, b: int, c: int)
    ensures a * (b * c) == (a * b) * c
  {
  }

  lemma BigDoubleIsMultiple(y: int, e: nat) returns (j: int)
    requires IsDouble(y) && e > 0 && y >= Pow2(PRECISION + e - 1)
    ensures y == j * Pow2(e)
  {
    var m: int, k: nat :| y == m * Pow2(k) && 0 - TWO_53 <= m <= TWO_53;
    Pow2Values();
    j := BigIsMultiple(m, k, PRECISION, e);
  }

  lemma NearestNat(n: nat, y: int)
    requires IsDouble(y)
    ensures Abs(RoundNat(n) - n) <= Abs(y - n)
  {
    var e := Exponent(n);
    var unit := Pow2(e);
    RoundedQuotient(n, unit);
    if e > 0 && y >= Pow2(PRECISION + e - 1) {
      var j := BigDoubleIsMultiple(y, e);
      NearestMultiple(n, unit, j);
    } else if e > 0 {
      Pow2Sum(PRECISION - 1, e);
      NearestMultiple(n, unit, Pow2(PRECISION - 1));
    }
  }

  lemma QuotientBelow(n: nat, unit: nat, bound: nat)
    requires unit > 0 && n < bound * unit
    ensures n / unit < bound
  {
    if bound <= n / unit { MulMonotone(bound, n / unit, unit); }
  }

  lemma RoundNatIsDouble(n: nat)
    ensures IsDouble(RoundNat(n))
  {
    var e := Exponent(n);
    RoundedQuotient(n, Pow2(e));
    Pow2Sum(PRECISION, e);
    Pow2Values();
    QuotientBelow(n, Pow2(e), TWO_53);
    assert RoundNat(n) == RoundHalfEven(n, Pow2(e)) * Pow2(e);
  }

  lemma NegatedDouble(y: int)
    requires IsDouble(y)
    ensures IsDouble(-y)
  {
    var m: int, k: nat :| y == m * Pow2(k) && 0 - TWO_53 <= m <= TWO_53;
    assert -y == (-m) * Pow2(k);
  }

  /** The stored value is a double, and no double is nearer to the id. */
  lemma RoundsToNearest(n: int)
    ensures IsDouble(ToDouble(n))
    ensures forall y :: IsDouble(y) ==> Abs(ToDouble(n) - n) <= Abs(y - n)
  {
    RoundNatIsDouble(Abs(n));
    if n < 0 { NegatedDouble(RoundNat(-n)); }
    forall y | IsDouble(y) ensures Abs(ToDouble(n) - n) <= Abs(y - n) {
      if n >= 0 {
        NearestNat(n, y);
      } else {
        NegatedDouble(y);
        NearestNat(-n, -y);
      }
    }
  }

  /** When another double is just as near, the stored one has an even significand. */
  lemma TiesToEven(n: int, y: int)
    requires IsDouble(y) && y != ToDouble(n) && Abs(y - n) == Abs(ToDouble(n) - n)
    ensures RoundHalfEven(Abs(n), Pow2(Exponent(Abs(n)))) % 2 == 0
  {
    if n >= 0 {
      NatTiesToEven(n, y);
    } else {
      NegatedDouble(y);
      NatTiesToEven(-n, -y);
    }
  }

  lemma NatTiesToEven(n: nat, y: int)
    requires IsDouble(y) && y != RoundNat(n) && Abs(y - n) == Abs(RoundNat(n) - n)
    ensures RoundHalfEven(n, Pow2(Exponent(n))) % 2 == 0
  {
    var e := Exponent(n);
    if e > 0 && y >= Pow2(PRECISION + e - 1) {
      var j := BigDoubleIsMultiple(y, e);
      TieIsHalf(n, Pow2(e), j);
    } else if e > 0 {
      BelowRange(n, y, e);
    } else {
      RoundedQuotient(n, 1);
    }
  }

  /** A double below the range of exponent `e` is farther from `n` than the least one in it. */
  lemma BelowRange(n: nat, y: int, e: nat)
    requires e > 0 && y < Pow2(PRECISION + e - 1) <= n
    ensures Abs(RoundHalfEven(n, Pow2(e)) * Pow2(e) - n) < Abs(y - n)
  {
    Pow2Sum(PRECISION - 1, e);
    assert PRECISION - 1 + e == PRECISION + e - 1;
    NearestMultiple(n, Pow2(e), Pow2(PRECISION - 1));
  }

  lemma TieIsHalf(n: nat, unit: nat, j: int)
    requires unit > 0 && j != RoundHalfEven(n, unit)
    requires Abs(j * unit - n) == Abs(RoundHalfEven(n, unit) * unit - n)
    ensures RoundHalfEven(n, unit) % 2 == 0
  {
    RoundedQuotient(n, unit);
    Apart(j, RoundHalfEven(n, unit), unit);
  }

  /** Different multiples are at least one unit apart. */
  lemma Apart(a: int, b: int, unit: nat)
    requires a != b
    ensures Abs(a * unit - b * unit) >= unit
  {
    if a > b {
      MulMonotone(b + 1, a, unit);
      assert (b + 1) * unit == b * unit + unit;
    } else {
      MulMonotone(a + 1, b, unit);
      assert (a + 1) * unit == a * unit + unit;
    }
  }

  // ---------------------------------------------------------------- request ids

  /** Storing an id and reading it back gives the id itself up to 2^53. */
  lemma SmallIdsAreExact(n: int)
    requires Abs(n) <= TWO_53
    ensures ToDouble(n) == n
  {
    assert n == n * Pow2(0) && IsDouble(n);
    RoundsToNearest(n);
  }

  lemma DoubleIsMonotone(a: int, b: int)
    requires a <= b
    ensures ToDouble(a) <= ToDouble(b)
  {
    RoundsToNearest(a);
    RoundsToNearest(b);
  }

  lemma SmallPowers()
    ensures Pow2(9) == 512 && Pow2(10) == 1024 && Pow2(13) == 8192 && Pow2(20) == 0x10_0000
  {
    assert Pow2(3) == 8;
    Pow2Sum(10, 3);
    Pow2Sum(10, 10);
  }

  lemma Pow2Values()
    ensures Pow2(10) == 1024 && Pow2(PRECISION) == TWO_53
    ensures 2 * Pow2(62) == Pow2(63) == TWO_63
  {
    SmallPowers();
    Pow2Sum(20, 20);
    Pow2Sum(40, 13);
    Pow2Sum(53, 9);
    Pow2Sum(53, 10);
  }

  /** Multiples of 1024 up to 2^63 are doubles. */
  lemma CoarseDouble(m: int)
    requires 0 - TWO_53 <= m <= TWO_53
    ensures IsDouble(m * 1024)
  {
    Pow2Values();
    assert m * 1024 == m * Pow2(10);
  }

  /** Half a unit below 2^63 lies between an odd and an even significand. */
  lemma TopTie()
    ensures ToDouble(TWO_63 - 512) == TWO_63
  {
    Pow2Values();
    TopExponent(TWO_63 - 512);
    assert RoundHalfEven(0x7FFF_FFFF_FFFF_FE00, 1024) == 0x20_0000_0000_0000;
  }

  lemma TopExponent(n: nat)
    requires TWO_63 / 2 <= n < TWO_63
    ensures Exponent(n) == 10
  {
    Pow2Values();
    var e := Exponent(n);
    Pow2Less(62, PRECISION + e);
    Pow2Less(PRECISION + e - 1, 63);
  }

  /** Among int64 values, the stored double is in the range of int64 again exactly below
      2^63 - 512, and it errs by at most 512. */
  lemma IdsStayInRange(n: int)
    requires 0 - TWO_63 <= n < TWO_63
    ensures Abs(ToDouble(n) - n) <= 512
    ensures 0 - TWO_63 <= ToDouble(n) <= TWO_63
    ensures ToDouble(n) < TWO_63 <==> n < TWO_63 - 512
  {
    Pow2Values();
    RoundsToNearest(n);
    CoarseDouble((n + 512) / 1024);
    CoarseDouble(TWO_53);
    CoarseDouble(0 - TWO_53);
    RoundsToNearest(TWO_63);
    RoundsToNearest(0 - TWO_63);
    DoubleIsMonotone(n, TWO_63);
    DoubleIsMonotone(0 - TWO_63, n);
    if n >= TWO_63 - 512 {
      TopTie();
      DoubleIsMonotone(TWO_63 - 512, n);
    }
  }
}
