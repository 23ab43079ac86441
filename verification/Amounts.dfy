// The amount parser of the CSV import: separators are guessed, the numeral becomes a
// decimal, and the decimal is scaled to minor units in 28-digit arithmetic.
module Amounts {
  import opened Basics
  import opened Arithmetic
  import opened Decimals
  import opened Strings

  datatype AmountError = Required | NotANumber | Negative | TooManyFractionalDigits

  // ----- the parser -----

  function EmptyToNone(value: Option<string>): Option<string> {
    if value.None? || Strip(value.value) == "" then None else Some(Strip(value.value))
  }

  predicate LooksLikeThousands(value: string) {
    var parts := Split(value, ',');
    && |parts| > 1
    && 1 <= |parts[0]| <= 3
    && forall i :: 1 <= i < |parts| ==> |parts[i]| == 3 && AllDigits(parts[i])
  }

  /** Which characters group digits and which one is the decimal point. */
  function Normalize(text: string): string {
    var squeezed := Remove(Remove(text, ' '), '_');
    if ',' in squeezed && '.' in squeezed then Remove(squeezed, ',')
    else if ',' in squeezed then
      if LooksLikeThousands(squeezed) then Remove(squeezed, ',') else Replace(squeezed, ',', '.')
    else squeezed
  }

  function Value(digits: string): nat
    requires AllDigits(digits)
  {
    if digits == "" then 0
    else 10 * Value(digits[..|digits| - 1]) + (digits[|digits| - 1] as int - '0' as int)
  }

  datatype Numeral = Numeral(negative: bool, magnitude: Decimal)

  /** digits, optionally with a point before, inside or after them */
  function ParseMagnitude(s: string): Option<Decimal> {
    if '.' in s then
      var i := IndexOf(s, '.');
      var whole, fraction := s[..i], s[i + 1..];
      if AllDigits(whole) && AllDigits(fraction) && |s| > 1
      then Some(Decimal(Value(whole + fraction), -|fraction|)) else None
    else if AllDigits(s) && s != "" then Some(Decimal(Value(s), 0)) else None
  }

  /** Decimal(s) on plain ASCII numerals */
  function ParseNumeral(s: string): Option<Numeral> {
    var t := Strip(s);
    var signed := t != "" && (t[0] == '-' || t[0] == '+');
    match ParseMagnitude(if signed then t[1..] else t)
    case None => None
    case Some(magnitude) => Some(Numeral(signed && t[0] == '-', magnitude))
  }

  /** Scaling to minor units. 10 ** scale enters as 1E+scale, the same value. */
  function ToMinor(n: Numeral, scale: nat): Result<nat, AmountError> {
    if n.negative && n.magnitude.coefficient > 0 then Err(Negative)
    else
      match IntegerValue(Multiply(n.magnitude, Decimal(1, scale)))
      case None => Err(TooManyFractionalDigits)
      case Some(minor) => Ok(minor)
  }

  function ParseAmountMinor(value: Option<string>, scale: nat): Result<nat, AmountError> {
    match EmptyToNone(value)
    case None => Err(Required)
    case Some(text) =>
      match ParseNumeral(Normalize(text))
      case None => Err(NotANumber)
      case Some(n) => ToMinor(n, scale)
  }

  // ----- when scaling is exact -----

  /** The specification: the value times 10^scale, if that is a natural number. */
  function ExactMinor(n: Numeral, scale: nat): Result<nat, AmountError> {
    if n.negative && n.magnitude.coefficient > 0 then Err(Negative)
    else
      match IntegerValue(n.magnitude.(exponent := n.magnitude.exponent + scale))
      case None => Err(TooManyFractionalDigits)
      case Some(minor) => Ok(minor)
  }

  /** No digit past the 28th significant one is other than zero. */
  predicate Clean(n: Numeral) {
    n.magnitude.coefficient % Pow10(Surplus(n.magnitude.coefficient)) == 0
  }

  lemma ShiftWhole(c: nat, j: nat, e: nat)
    ensures c * Pow10(j) * Pow10(e) == c * Pow10(e + j)
  {
    Pow10Add(j, e);
    Associate(c, Pow10(j), Pow10(e));
    assert Pow10(j + e) == Pow10(e + j);
  }

  lemma ShiftToInteger(c: nat, j: nat, f: nat)
    requires f <= j
    ensures c * Pow10(j) % Pow10(f) == 0 && c * Pow10(j) / Pow10(f) == c * Pow10(j - f)
  {
    var unit := Pow10(f);
    Pow10Add(j - f, f);
    Associate(c, Pow10(j - f), unit);
    QuotientRemainder(c * Pow10(j), unit, c * Pow10(j - f), 0);
  }

  lemma ShiftFraction(c: nat, j: nat, f: nat)
    requires j < f
    ensures c * Pow10(j) % Pow10(f) == 0 <==> c % Pow10(f - j) == 0
    ensures c % Pow10(f - j) == 0 ==> c * Pow10(j) / Pow10(f) == c / Pow10(f - j)
  {
    Pow10Add(f - j, j);
    CommonFactor(c, Pow10(f - j), Pow10(j));
  }

  /** Moving j zeros between coefficient and exponent changes no value. */
  lemma ShiftValue(c: nat, j: nat, e: int, shifted: nat)
    requires shifted == c * Pow10(j)
    ensures IntegerValue(Decimal(shifted, e)) == IntegerValue(Decimal(c, e + j))
  {
    var long, short := IntegerValue(Decimal(shifted, e)), IntegerValue(Decimal(c, e + j));
    if e >= 0 {
      assert long == Some(shifted * Pow10(e)) && short == Some(c * Pow10(e + j));
      ShiftWhole(c, j, e);
    } else if e + j >= 0 {
      var unit := Pow10(-e);
      assert long == if shifted % unit == 0 then Some(shifted / unit) else None;
      assert short == Some(c * Pow10(e + j));
      ShiftToInteger(c, j, -e);
    } else {
      var unit, shortUnit := Pow10(-e), Pow10(-e - j);
      assert long == if shifted % unit == 0 then Some(shifted / unit) else None;
      assert short == if c % shortUnit == 0 then Some(c / shortUnit) else None;
      ShiftFraction(c, j, -e);
    }
  }

  lemma FitClean(c: nat, e: int)
    requires c % Pow10(Surplus(c)) == 0
    ensures IntegerValue(Fit(Decimal(c, e))) == IntegerValue(Decimal(c, e))
  {
    var k := Surplus(c);
    var q := ExactQuotient(c, Pow10(k));
    HalfEvenExact(q, Pow10(k));
    assert k > 0 ==> Fit(Decimal(c, e)) == Decimal(q, e + k);
    ShiftValue(q, k, e, c);
  }

  lemma FitUnclean(c: nat, e: int)
    requires c % Pow10(Surplus(c)) != 0
    ensures var fitted, exact := IntegerValue(Fit(Decimal(c, e))), IntegerValue(Decimal(c, e));
            fitted == exact <==> fitted.None?
  {
    var k := Surplus(c);
    var r := HalfEven(c, Pow10(k));
    var restored := r * Pow10(k);
    ShiftValue(r, k, e, restored);
    assert restored != c by {
      QuotientRemainder(restored, Pow10(k), r, 0);
    }
    var exact := IntegerValue(Decimal(c, e));
    if exact.Some? && e + k < 0 {
      ExactIsClean(c, k, e);
    } else if exact.Some? && exact == IntegerValue(Decimal(restored, e)) {
      SameIntegerValue(c, restored, e);
    }
  }

  /** Rounded to 28 digits the numeral still has a fraction at this scale. */
  predicate StaysFractional(n: Numeral, scale: nat) {
    var k := Surplus(n.magnitude.coefficient);
    var e := n.magnitude.exponent + scale + k;
    e < 0 && HalfEven(n.magnitude.coefficient, Pow10(k)) % Pow10(-e) != 0
  }

  /** Scaling is exact for a numeral if and only if it is negative, or has no digit other
      than zero past the 28th significant one, or its first 28 digits, rounded, still have
      a fraction. Any other numeral is accepted with a value it does not have. */
  lemma ScalingExactIff(n: Numeral, scale: nat)
    ensures ToMinor(n, scale) == ExactMinor(n, scale)
       <==> (n.negative && n.magnitude.coefficient > 0) || Clean(n) || StaysFractional(n, scale)
  {
    var c, e := n.magnitude.coefficient, n.magnitude.exponent + scale;
    assert Multiply(n.magnitude, Decimal(1, scale)) == Fit(Decimal(c, e)) by {
      assert c * 1 == c;
    }
    if Clean(n) {
      FitClean(c, e);
    } else {
      FitUnclean(c, e);
    }
  }

  /** Within 28 digits a numeral is accepted if and only if it is not negative and its
      value times 10^scale is an integer, and then it is read as that integer. */
  lemma AcceptedIff(n: Numeral, scale: nat)
    requires n.magnitude.coefficient < TEN28
    ensures var c, e := n.magnitude.coefficient, n.magnitude.exponent + scale;
      && (ToMinor(n, scale).Ok? <==>
            (!n.negative || c == 0) && (e >= 0 || c % Pow10(-e) == 0))
      && (ToMinor(n, scale).Ok? ==>
            ToMinor(n, scale).value == if e >= 0 then c * Pow10(e) else c / Pow10(-e))
  {
  }

  lemma SameIntegerValue(a: nat, b: nat, e: int)
    requires IntegerValue(Decimal(a, e)).Some? && IntegerValue(Decimal(a, e)) == IntegerValue(Decimal(b, e))
    ensures a == b
  {
  }

  /** If dropping k digits leaves a value that is still not an integer, the full value
      can only be an integer when the dropped digits are zeros. */
  lemma ExactIsClean(c: nat, k: nat, e: int)
    requires e + k < 0 && IntegerValue(Decimal(c, e)).Some?
    ensures c % Pow10(k) == 0
  {
    var rest, dropped := Pow10(-e - k), Pow10(k);
    Pow10Add(-e - k, k);
    var q := c / (rest * dropped);
    DivBounds(c, rest * dropped);
    Multiple(c, q, rest, dropped);
  }

  lemma Multiple(c: nat, q: nat, a: nat, k: nat)
    requires k > 0 && c == q * (a * k)
    ensures c % k == 0
  {
    Associate(q, a, k);
    QuotientRemainder(c, k, q * a, 0);
  }
}
