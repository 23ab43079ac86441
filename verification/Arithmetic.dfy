// Small facts about products and quotients that the solver needs one at a time.
module Arithmetic {
  function Quotient(n: nat, d: nat): (q: nat)
    requires d > 0
  {
    n / d
  }

  function Remainder(n: nat, d: nat): (r: nat)
    requires d > 0
    ensures n == Quotient(n, d) * d + r && r < d
  {
    n % d
  }

  lemma MulMonotone(a: int, b: int, c: nat)
    requires a <= b
    ensures a * c <= b * c
  {
  }

  lemma MulCancel(a: int, b: int, c: nat)
    requires c > 0 && a * c < b * c
    ensures a < b
  {
  }

  lemma Distribute(a: int, b: int, c: int)
    ensures (a + b) * c == a * c + b * c
    ensures (a - b) * c == a * c - b * c
  {
  }

  lemma Associate(a: int, b: int, c: int)
    ensures a * b * c == a * (b * c) == a * c * b
  {
  }

  lemma DivBounds(num: nat, den: nat)
    requires den > 0
    ensures num / den * den <= num < num / den * den + den
  {
  }

  lemma FloorIs(num: nat, den: nat, q: nat)
    requires den > 0 && q * den <= num < q * den + den
    ensures num / den == q
  {
    var f := num / den;
    DivBounds(num, den);
    Distribute(f, 1, den);
    Distribute(q, 1, den);
    MulCancel(f, q + 1, den);
    MulCancel(q, f + 1, den);
  }

  lemma AtLeastQuotient(num: nat, den: nat, q: nat)
    requires den > 0 && q * den <= num
    ensures num / den >= q
  {
    var f := num / den;
    DivBounds(num, den);
    Distribute(f, 1, den);
    MulCancel(q, f + 1, den);
  }

  lemma QuotientRemainder(num: nat, den: nat, q: nat, r: nat)
    requires den > 0 && num == q * den + r && r < den
    ensures num / den == q && num % den == r
  {
    FloorIs(num, den, q);
  }

  lemma ExactQuotient(c: nat, m: nat) returns (q: nat)
    requires m > 0 && c % m == 0
    ensures c == q * m
  {
    q := c / m;
  }

  /** A common factor does not change a quotient. */
  lemma CommonFactor(c: nat, m: nat, p: nat)
    requires m > 0 && p > 0
    ensures m * p > 0
    ensures c * p % (m * p) == 0 <==> c % m == 0
    ensures c % m == 0 ==> c * p / (m * p) == c / m
  {
    var f, r := c / m, c % m;
    Distribute(f * m, r, p);
    Associate(f, m, p);
    MulMonotone(r + 1, m, p);
    Distribute(r, 1, p);
    QuotientRemainder(c * p, m * p, f, r * p);
    if r > 0 {
      MulMonotone(1, r, p);
    }
  }
}
