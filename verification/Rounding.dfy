// Basis points: two roundings in a row (28 digits half-even, then to an integer half-up)
// that together are one exact rounding.
module Rounding {
  import opened Basics
  import opened Arithmetic
  import opened Decimals

  function BasisPoints(numerator: int, denominator: int): nat {
    if denominator <= 0 || numerator <= 0 then 0
    else
      var product := Multiply(Decimal(numerator, 0), Decimal(10000, 0));
      var value := QuantizeHalfUp(Divide(product, Decimal(denominator, 0)));
      Max(0, Min(10000, value))
  }

  /** 10000 n / d rounded to the nearest integer, ties upwards. */
  function Nearest(n: nat, d: nat): nat
    requires d > 0
  {
    (20000 * n + d) / (2 * d)
  }

  /** The core of the argument. x/d is scaled by a power of ten power = 2 * half larger than
      d and rounded to an integer c. Half-integers survive the scaling exactly, and x/d is
      otherwise at least 1/(2d) away from one, more than c's error of 1/(2P). */
  lemma DoubleRoundingIsExact(x: nat, d: nat, power: nat, half: nat)
    requires power > d > 0 && power == 2 * half
    ensures (2 * HalfEven(x * power, d) + power) / (2 * power) == (2 * x + d) / (2 * d)
  {
    var c, r := HalfEven(x * power, d), (2 * x + d) / (2 * d);
    DivBounds(2 * x + d, 2 * d);
    Associate(r, 2, d);
    Associate(r, 4, half);
    HalfIntegerBelow(x, d, half, r);
    HalfIntegerAbove(x, d, half, r);
    FloorIs(2 * c + power, 2 * power, r);
  }

  lemma SwapFactors(r: nat, a: nat, b: nat)
    ensures 2 * (r * a) * b == 2 * (r * b) * a
  {
  }

  lemma HalfIntegerBelow(x: nat, d: nat, half: nat, r: nat)
    requires d > 0 && 2 * (r * d) <= 2 * x + d
    ensures HalfEven(x * (2 * half), d) >= 2 * (r * half) - half
  {
    var h := 2 * (r * half) - half;
    MulMonotone(2 * (r * d) - d, 2 * x, half);
    Distribute(2 * (r * d), d, half);
    Distribute(2 * (r * half), half, d);
    SwapFactors(r, half, d);
    Associate(x, 2, half);
    HalfEvenAtLeast(x * (2 * half), d, h);
  }

  lemma HalfIntegerAbove(x: nat, d: nat, half: nat, r: nat)
    requires 2 * half > d > 0 && 2 * x < 2 * (r * d) + d
    ensures HalfEven(x * (2 * half), d) < 2 * (r * half) + half
  {
    var h := 2 * (r * half) + half;
    MulMonotone(2 * x + 1, 2 * (r * d) + d, half);
    Distribute(2 * x, 1, half);
    Distribute(2 * (r * d), d, half);
    Distribute(2 * (r * half), half, d);
    SwapFactors(r, half, d);
    Associate(x, 2, half);
    HalfEvenBelow(x * (2 * half), d, h);
  }

  /** What the two-step computation reduces to: the scale power has at least one digit, and
      outgrows every 64-bit denominator while the quotient is below 10000. */
  lemma BasisPointsScaled(n: nat, d: nat) returns (power: nat, half: nat)
    requires 0 < n < INT64_LIMIT && 0 < d < INT64_LIMIT
    ensures power == 2 * half > 0 && (n < d ==> power > d)
    ensures BasisPoints(n, d) == Max(0, Min(10000, (2 * HalfEven(10000 * n * power, d) + power) / (2 * power)))
  {
    var x := 10000 * n;
    var k := Places(x, d);
    power, half := Pow10(k), 5 * Pow10(k - 1);
    assert Multiply(Decimal(n, 0), Decimal(10000, 0)) == Decimal(x, 0);
    if n < d && power <= d {
      MulMonotone(x, 10000 * d, power);
      Associate(10000, d, power);
      MulMonotone(power, d, d);
      MulMonotone(d, INT64_LIMIT, d);
    }
  }

  /** For amounts that fit a 64-bit column the two roundings give exactly the nearest
      basis point, capped at 10000. */
  lemma BasisPointsExact(n: int, d: int)
    requires n < INT64_LIMIT && 0 < d < INT64_LIMIT
    ensures BasisPoints(n, d) == if n <= 0 then 0 else Min(10000, Nearest(n, d))
  {
    if n > 0 {
      var power, half := BasisPointsScaled(n, d);
      if n < d {
        DoubleRoundingIsExact(10000 * n, d, power, half);
      } else {
        CappedAtFull(n, d, power);
      }
    }
  }

  lemma CappedAtFull(n: nat, d: nat, power: nat)
    requires n >= d > 0 && power > 0
    ensures (2 * HalfEven(10000 * n * power, d) + power) / (2 * power) >= 10000
    ensures Nearest(n, d) >= 10000
  {
    var x := 10000 * n;
    MulMonotone(10000 * d, x, power);
    Associate(10000, d, power);
    HalfEvenAtLeast(x * power, d, 10000 * power);
    AtLeastQuotient(2 * HalfEven(x * power, d) + power, 2 * power, 10000);
    AtLeastQuotient(2 * x + d, 2 * d, 10000);
  }

  lemma NearestBound(n: nat, d: nat)
    requires n < d
    ensures Nearest(n, d) <= 10000 && 2 * Abs(Nearest(n, d) * d - 10000 * n) <= d
  {
    var q := Nearest(n, d);
    DivBounds(20000 * n + d, 2 * d);
    Associate(q, 2, d);
    MulCancel(q, 10001, 2 * d);
  }

  lemma NearestMonotone(n: nat, m: nat, d: nat)
    requires n <= m && d > 0
    ensures Nearest(n, d) <= Nearest(m, d)
  {
    DivBounds(20000 * n + d, 2 * d);
    AtLeastQuotient(20000 * m + d, 2 * d, Nearest(n, d));
  }

  /** Below the threshold the cap never bites, and the error of what is returned is at
      most half a basis point. */
  lemma BasisPointsBound(n: nat, d: nat)
    requires n < d < INT64_LIMIT
    ensures BasisPoints(n, d) == Nearest(n, d) <= 10000
    ensures 2 * Abs(BasisPoints(n, d) * d - 10000 * n) <= d
  {
    BasisPointsExact(n, d);
    NearestBound(n, d);
    if n == 0 {
      FloorIs(d, 2 * d, 0);
    }
  }

  /** The percentage reads 100.00 before the next tier is reached exactly when the
      amount left is at most 1/20000 of the interval. */
  lemma FullBeforeReachedIff(n: nat, d: nat)
    requires n < d < INT64_LIMIT
    ensures BasisPoints(n, d) == 10000 <==> 20000 * (d - n) <= d
  {
    BasisPointsBound(n, d);
    if 20000 * (d - n) <= d {
      AtLeastQuotient(20000 * n + d, 2 * d, 10000);
    }
  }
}
