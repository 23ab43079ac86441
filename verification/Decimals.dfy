// Python's default decimal context, as far as the repository uses it: non-negative
// finite numbers, results rounded half-even to 28 significant digits, and quantisation
// to an integer with ROUND_HALF_UP.
module Decimals {
  import opened Basics
  import opened Arithmetic

  /** The value `coefficient * 10^exponent`. */
  datatype Decimal = Decimal(coefficient: nat, exponent: int)

  const TEN27: nat := 1000000000000000000000000000
  const TEN28: nat := 10000000000000000000000000000
  const INT64_LIMIT: nat := 0x8000_0000_0000_0000

  function Pow10(n: nat): (p: nat)
    ensures p > 0
  {
    if n == 0 then 1 else 10 * Pow10(n - 1)
  }

  lemma {:induction false} Pow10Add(a: nat, b: nat)
    ensures Pow10(a + b) == Pow10(a) * Pow10(b)
  {
    if a == 0 {
    } else {
      Pow10Add(a - 1, b);
    }
  }

  /** Division of naturals rounded to the nearest integer, ties to even. */
  function HalfEven(num: nat, den: nat): nat
    requires den > 0
  {
    var q, r := num / den, num % den;
    if 2 * r < den || (2 * r == den && q % 2 == 0) then q else q + 1
  }

  /** Rounding never falls below an integer the quotient reaches. */
  lemma HalfEvenAtLeast(num: nat, den: nat, h: int)
    requires den > 0 && num >= h * den
    ensures HalfEven(num, den) >= h
  {
    var q := num / den;
    assert num < (q + 1) * den;
    MulCancel(h, q + 1, den);
  }

  /** A quotient more than half a unit below an integer is rounded below it. */
  lemma HalfEvenBelow(num: nat, den: nat, h: int)
    requires den > 0 && 2 * num < 2 * (h * den) - den
    ensures HalfEven(num, den) < h
  {
  }

  lemma HalfEvenExact(q: nat, den: nat)
    requires den > 0
    ensures HalfEven(q * den, den) == q
  {
  }

  /** The number of decimal places a quotient below 10^28 has to be extended by
      to carry 28 significant digits. */
  function Places(num: nat, den: nat): (k: nat)
    requires 0 < num < TEN28 * den
    ensures TEN27 * den <= num * Pow10(k) < TEN28 * den
    decreases TEN28 * den - num
  {
    if num >= TEN27 * den then 0
    else
      var k := Places(10 * num, den);
      assert num * Pow10(k + 1) == 10 * num * Pow10(k);
      k + 1
  }

  /** The number of trailing places a coefficient of more than 28 digits loses. */
  function Surplus(num: nat): (k: nat)
    ensures num < TEN28 * Pow10(k)
    ensures k > 0 ==> TEN27 * Pow10(k) <= num
  {
    if num < TEN28 then 0
    else
      var k := Surplus(num / 10);
      assert Pow10(k + 1) == 10 * Pow10(k);
      k + 1
  }

  /** A coefficient rounded to at most 28 digits. */
  function Fit(d: Decimal): Decimal {
    var k := Surplus(d.coefficient);
    if k == 0 then d else Decimal(HalfEven(d.coefficient, Pow10(k)), d.exponent + k)
  }

  function Multiply(a: Decimal, b: Decimal): Decimal {
    Fit(Decimal(a.coefficient * b.coefficient, a.exponent + b.exponent))
  }

  function Divide(a: Decimal, b: Decimal): Decimal
    requires b.coefficient > 0
  {
    if a.coefficient == 0 then Decimal(0, 0)
    else if a.coefficient < TEN28 * b.coefficient then
      var k := Places(a.coefficient, b.coefficient);
      Decimal(HalfEven(a.coefficient * Pow10(k), b.coefficient), a.exponent - b.exponent - k)
    else
      var k := Surplus(a.coefficient / b.coefficient);
      Decimal(HalfEven(a.coefficient, b.coefficient * Pow10(k)), a.exponent - b.exponent + k)
  }

  /** quantize(Decimal("1"), rounding=ROUND_HALF_UP) */
  function QuantizeHalfUp(d: Decimal): nat {
    if d.exponent >= 0 then d.coefficient * Pow10(d.exponent)
    else Quotient(2 * d.coefficient + Pow10(-d.exponent), 2 * Pow10(-d.exponent))
  }

  /** The integer a decimal denotes, when it denotes one. */
  function IntegerValue(d: Decimal): Option<nat> {
    if d.exponent >= 0 then Some(d.coefficient * Pow10(d.exponent))
    else if d.coefficient % Pow10(-d.exponent) == 0 then Some(Quotient(d.coefficient, Pow10(-d.exponent)))
    else None
  }
}
