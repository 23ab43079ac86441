// The printed forms an amount may take in a file, and what the parser makes of each.
module AmountForms {
  import opened Basics
  import opened Arithmetic
  import opened Decimals
  import opened Strings
  import opened Amounts

  // ----- printers -----

  function DigitChar(d: nat): (c: char)
    requires d < 10
    ensures IsDigit(c)
  {
    ('0' as int + d) as char
  }

  /** n without leading zeros */
  function Digits(n: nat): (s: string)
    ensures AllDigits(s) && s != ""
  {
    if n < 10 then [DigitChar(n)] else Digits(n / 10) + [DigitChar(n % 10)]
  }

  /** the last `width` digits of n */
  function Padded(n: nat, width: nat): (s: string)
    ensures AllDigits(s) && |s| == width
  {
    if width == 0 then "" else Padded(n / 10, width - 1) + [DigitChar(n % 10)]
  }

  /** digits in groups of three from the right */
  function Grouped(digits: string, separator: char): string {
    if |digits| <= 3 then digits
    else Grouped(digits[..|digits| - 3], separator) + [separator] + digits[|digits| - 3..]
  }

  function Whole(m: nat, scale: nat): string { Digits(Quotient(m, Pow10(scale))) }

  function Fraction(m: nat, scale: nat): string { Padded(Remainder(m, Pow10(scale)), scale) }

  function WithPoint(whole: string, fraction: string): string {
    if fraction == "" then whole else whole + "." + fraction
  }

  /** 1234.50 */
  function Plain(m: nat, scale: nat): string { WithPoint(Whole(m, scale), Fraction(m, scale)) }

  /** 1,234.50 or 1 234.50 or 1_234.50 */
  function GroupedForm(m: nat, scale: nat, separator: char): string {
    WithPoint(Grouped(Whole(m, scale), separator), Fraction(m, scale))
  }

  /** 1234,50 */
  function CommaDecimal(m: nat, scale: nat): string { Whole(m, scale) + "," + Fraction(m, scale) }

  // ----- digits denote what was printed -----

  lemma {:induction false} ValueAppend(a: string, b: string)
    requires AllDigits(a) && AllDigits(b)
    ensures AllDigits(a + b) && Value(a + b) == Value(a) * Pow10(|b|) + Value(b)
  {
    if b == "" {
      assert a + b == a;
    } else {
      var front, last := b[..|b| - 1], b[|b| - 1] as int - '0' as int;
      ValueAppend(a, front);
      assert (a + b)[..|a + b| - 1] == a + front;
      assert Value(a + b) == 10 * Value(a + front) + last;
      Associate(Value(a), Pow10(|front|), 10);
    }
  }

  lemma {:induction false} ValueDigits(n: nat)
    ensures Value(Digits(n)) == n
  {
    if n < 10 {
    } else {
      ValueDigits(n / 10);
    }
  }

  lemma {:induction false} ValuePadded(n: nat, width: nat)
    requires n < Pow10(width)
    ensures Value(Padded(n, width)) == n
  {
    if width == 0 {
    } else {
      ValuePadded(n / 10, width - 1);
    }
  }

  lemma ValueWholeFraction(m: nat, scale: nat)
    ensures AllDigits(Whole(m, scale) + Fraction(m, scale))
    ensures Value(Whole(m, scale) + Fraction(m, scale)) == m
  {
    var unit := Pow10(scale);
    ValueDigits(Quotient(m, unit));
    ValuePadded(Remainder(m, unit), scale);
    ValueAppend(Whole(m, scale), Fraction(m, scale));
  }

  lemma ThreeDigitsOrFewer(n: nat)
    ensures |Digits(n)| <= 3 <==> n < 1000
  {
    if n >= 10 {
      assert |Digits(n)| == |Digits(n / 10)| + 1;
      if n >= 100 {
        assert |Digits(n / 10)| == |Digits(n / 10 / 10)| + 1;
        assert n / 10 / 10 >= 10 <==> n >= 1000;
      }
    }
  }

  // ----- string operations on the printed forms -----

  lemma ConcatAssociates<T>(x: seq<T>, y: seq<T>, z: seq<T>)
    ensures x + y + z == x + (y + z)
  {
  }

  lemma {:induction false} RemoveAbsent(s: string, c: char)
    requires c !in s
    ensures Remove(s, c) == s
  {
    if s == "" {
    } else {
      RemoveAbsent(s[1..], c);
    }
  }

  lemma {:induction false} RemoveAppend(a: string, b: string, c: char)
    ensures Remove(a + b, c) == Remove(a, c) + Remove(b, c)
  {
    if a == "" {
      assert a + b == b;
    } else {
      RemoveAppend(a[1..], b, c);
      assert (a + b)[1..] == a[1..] + b;
      ConcatAssociates(if a[0] == c then "" else [a[0]], Remove(a[1..], c), Remove(b, c));
    }
  }

  lemma RemoveIt(c: char)
    ensures Remove([c], c) == ""
  {
  }

  lemma {:induction false} ReplaceComma(a: string, b: string)
    requires ',' !in a && ',' !in b
    ensures Replace(a + "," + b, ',', '.') == a + "." + b
  {
    var s := a + "," + b;
    if a == "" {
      assert s[1..] == b;
      ReplaceAbsent(b);
    } else {
      assert s[1..] == a[1..] + "," + b;
      ReplaceComma(a[1..], b);
    }
  }

  lemma {:induction false} ReplaceAbsent(s: string)
    requires ',' !in s
    ensures Replace(s, ',', '.') == s
  {
    if s == "" {
    } else {
      ReplaceAbsent(s[1..]);
    }
  }

  lemma {:induction false} GroupedUngrouped(digits: string, separator: char)
    requires AllDigits(digits) && !IsDigit(separator)
    ensures Remove(Grouped(digits, separator), separator) == digits
  {
    if |digits| <= 3 {
      RemoveAbsent(digits, separator);
    } else {
      var front, back := digits[..|digits| - 3], digits[|digits| - 3..];
      var head := Grouped(front, separator);
      GroupedUngrouped(front, separator);
      RemoveAppend(head + [separator], back, separator);
      RemoveAppend(head, [separator], separator);
      RemoveIt(separator);
      RemoveAbsent(back, separator);
      assert front + "" == front && front + back == digits;
    }
  }

  lemma {:induction false} GroupedChars(digits: string, separator: char)
    requires AllDigits(digits) && digits != ""
    ensures var g := Grouped(digits, separator);
            && g != "" && IsDigit(g[0]) && IsDigit(g[|g| - 1])
            && (forall c :: c in g ==> IsDigit(c) || c == separator)
            && (separator in g <==> |digits| > 3 || separator in digits)
  {
    if |digits| <= 3 {
    } else {
      GroupedChars(digits[..|digits| - 3], separator);
    }
  }

  lemma {:induction false} SplitAppend(a: string, c: char, b: string)
    ensures Split(a + [c] + b, c) == Split(a, c) + Split(b, c)
    decreases |a|
  {
    if c in a {
      var i := IndexOf(a, c);
      var p, q := a[..i], a[i + 1..];
      var rest := q + [c] + b;
      assert a == p + [c] + q;
      ConcatAssociates(p + [c], q, [c] + b);
      assert a + [c] + b == p + [c] + rest;
      SplitFirst(p, c, q);
      SplitFirst(p, c, rest);
      SplitAppend(q, c, b);
      ConcatAssociates([p], Split(q, c), Split(b, c));
    } else {
      SplitFirst(a, c, b);
    }
  }

  /** One group of up to three digits and then groups of exactly three. */
  ghost predicate InThousands(parts: seq<string>) {
    && parts != [] && 1 <= |parts[0]| <= 3
    && forall i :: 1 <= i < |parts| ==> |parts[i]| == 3 && AllDigits(parts[i])
  }

  lemma ThousandsSnoc(parts: seq<string>, last: string)
    requires InThousands(parts) && |last| == 3 && AllDigits(last)
    ensures InThousands(parts + [last])
  {
  }

  lemma OneGroup(digits: string)
    requires AllDigits(digits)
    ensures Split(digits, ',') == [digits]
  {
  }

  /** Digits grouped by commas split into their groups. */
  lemma {:induction false} SplitGrouped(digits: string)
    requires AllDigits(digits) && digits != ""
    ensures var parts := Split(Grouped(digits, ','), ',');
            InThousands(parts) && (|parts| > 1 <==> |digits| > 3)
  {
    if |digits| <= 3 {
      OneGroup(digits);
    } else {
      var front, back := digits[..|digits| - 3], digits[|digits| - 3..];
      SplitGrouped(front);
      SplitAppend(Grouped(front, ','), ',', back);
      OneGroup(back);
      ThousandsSnoc(Split(Grouped(front, ','), ','), back);
    }
  }

  lemma StripNothing(s: string)
    requires s != "" && !IsSpace(s[0]) && !IsSpace(s[|s| - 1])
    ensures Strip(s) == s
  {
  }

  // ----- reading a numeral -----

  /** What a normalised numeral of digits with an optional point denotes. */
  lemma ReadNumeral(whole: string, fraction: string)
    requires AllDigits(whole) && AllDigits(fraction) && whole != ""
    ensures AllDigits(whole + fraction)
    ensures ParseNumeral(WithPoint(whole, fraction))
         == Some(Numeral(false, Decimal(Value(whole + fraction), 0 - |fraction|)))
  {
    WithPointShape(whole, fraction);
    StripNothing(WithPoint(whole, fraction));
    PlainMagnitude(whole, fraction);
  }

  /** Scaling a numeral of at most 28 digits is exact. */
  lemma ScaleExact(c: nat, places: nat, scale: nat)
    requires c < TEN28 && places <= scale
    ensures ToMinor(Numeral(false, Decimal(c, 0 - places)), scale) == Ok(c * Pow10(scale - places))
  {
  }

  /** A text that normalises to a plain numeral is scaled as that numeral. */
  lemma ReadNormalized(text: string, whole: string, fraction: string)
    returns (n: Numeral)
    requires text != "" && !IsSpace(text[0]) && !IsSpace(text[|text| - 1])
    requires AllDigits(whole) && AllDigits(fraction) && whole != "" && AllDigits(whole + fraction)
    requires Normalize(text) == WithPoint(whole, fraction)
    ensures n == Numeral(false, Decimal(Value(whole + fraction), -|fraction|))
    ensures forall scale: nat :: ParseAmountMinor(Some(text), scale) == ToMinor(n, scale)
  {
    StripNothing(text);
    ReadNumeral(whole, fraction);
    n := Numeral(false, Decimal(Value(whole + fraction), -|fraction|));
  }

  /** value / 10^places in minor units: too many places are an error unless zeros. */
  function InMinorUnits(value: nat, places: nat, scale: nat): Result<nat, AmountError> {
    if places <= scale then Ok(value * Pow10(scale - places))
    else if value % Pow10(places - scale) == 0 then Ok(Quotient(value, Pow10(places - scale)))
    else Err(TooManyFractionalDigits)
  }

  lemma ShortNumeralIsExact(value: nat, places: nat, scale: nat)
    requires value < TEN28
    ensures ToMinor(Numeral(false, Decimal(value, 0 - places)), scale) == InMinorUnits(value, places, scale)
  {
    var n := Numeral(false, Decimal(value, 0 - places));
    assert Clean(n) by {
      assert Pow10(Surplus(value)) == 1;
    }
    ScalingExactIff(n, scale);
  }

  /** A text that normalises to digits with a fraction is accepted, within 28 digits, if and
      only if the fraction fits the scale up to trailing zeros, and is read as its value in
      minor units. */
  lemma TextIsReadExactly(text: string, whole: string, fraction: string, scale: nat)
    requires text != "" && !IsSpace(text[0]) && !IsSpace(text[|text| - 1])
    requires AllDigits(whole) && AllDigits(fraction) && whole != "" && AllDigits(whole + fraction)
    requires Normalize(text) == WithPoint(whole, fraction) && Value(whole + fraction) < TEN28
    ensures ParseAmountMinor(Some(text), scale) == InMinorUnits(Value(whole + fraction), |fraction|, scale)
  {
    var n := ReadNormalized(text, whole, fraction);
    ShortNumeralIsExact(Value(whole + fraction), |fraction|, scale);
  }

  /** A text parses to what it normalises to: digits with all the places the currency
      has, or digits alone, which count as units. */
  lemma ParseNormalized(text: string, whole: string, fraction: string, scale: nat, value: nat)
    requires text != "" && !IsSpace(text[0]) && !IsSpace(text[|text| - 1])
    requires AllDigits(whole) && AllDigits(fraction) && whole != ""
    requires AllDigits(whole + fraction) && Value(whole + fraction) == value < TEN28
    requires Normalize(text) == WithPoint(whole, fraction)
    ensures |fraction| == scale ==> ParseAmountMinor(Some(text), scale) == Ok(value)
    ensures fraction == "" ==> ParseAmountMinor(Some(text), scale) == Ok(value * Pow10(scale))
  {
    var n := ReadNormalized(text, whole, fraction);
    if |fraction| == scale {
      ScaleExact(value, scale, scale);
      assert Pow10(0) == 1;
    }
    if fraction == "" {
      ScaleExact(value, 0, scale);
    }
  }

  lemma NoSeparators(s: string)
    requires ' ' !in s && '_' !in s
    ensures Remove(Remove(s, ' '), '_') == s
  {
  }

  lemma WithPointShape(whole: string, fraction: string)
    requires whole != "" && IsDigit(whole[0]) && IsDigit(whole[|whole| - 1]) && AllDigits(fraction)
    ensures var s := WithPoint(whole, fraction);
            && s == whole + WithPoint("", fraction)
            && s != "" && IsDigit(s[0]) && IsDigit(s[|s| - 1])
            && (fraction != "" ==> '.' in s)
  {
  }

  lemma NotInWithPoint(whole: string, fraction: string, c: char)
    requires c !in whole && c != '.' && !IsDigit(c) && AllDigits(fraction)
    ensures c !in WithPoint(whole, fraction)
  {
  }

  lemma NormalizeSqueezed(text: string, squeezed: string)
    requires Remove(Remove(text, ' '), '_') == squeezed
    ensures ',' !in squeezed ==> Normalize(text) == squeezed
    ensures ',' in squeezed && ('.' in squeezed || LooksLikeThousands(squeezed))
        ==> Normalize(text) == Remove(squeezed, ',')
    ensures ',' in squeezed && '.' !in squeezed && !LooksLikeThousands(squeezed)
        ==> Normalize(text) == Replace(squeezed, ',', '.')
  {
  }

  /** Groups of three, with or without a fraction, normalise to the digits alone. */
  lemma NormalizeGrouped(whole: string, fraction: string, separator: char)
    requires AllDigits(whole) && AllDigits(fraction) && whole != "" && separator in [',', ' ', '_']
    ensures Normalize(WithPoint(Grouped(whole, separator), fraction)) == WithPoint(whole, fraction)
  {
    var text, plain := WithPoint(Grouped(whole, separator), fraction), WithPoint(whole, fraction);
    RemoveGroups(whole, fraction, separator);
    SeparatorsOf(whole, fraction, separator);
    if separator == ',' {
      NoSeparators(text);
      NormalizeCommas(whole, fraction);
      NormalizeSqueezed(text, text);
    } else {
      if separator == '_' {
        RemoveAbsent(text, ' ');
      } else {
        RemoveAbsent(plain, '_');
      }
      NormalizeSqueezed(text, plain);
    }
  }

  lemma SeparatorsOf(whole: string, fraction: string, separator: char)
    requires AllDigits(whole) && AllDigits(fraction) && whole != ""
    ensures var text, plain := WithPoint(Grouped(whole, separator), fraction), WithPoint(whole, fraction);
            && (separator != ' ' ==> ' ' !in text) && (separator != '_' ==> '_' !in text)
            && '_' !in plain && ',' !in plain && ' ' !in plain
            && plain != "" && IsDigit(plain[0]) && IsDigit(plain[|plain| - 1])
  {
    GroupedChars(whole, separator);
    if separator != ' ' { NotInWithPoint(Grouped(whole, separator), fraction, ' '); }
    if separator != '_' { NotInWithPoint(Grouped(whole, separator), fraction, '_'); }
    NotInWithPoint(whole, fraction, '_');
    NotInWithPoint(whole, fraction, ',');
    NotInWithPoint(whole, fraction, ' ');
    WithPointShape(whole, fraction);
  }

  lemma RemoveGroups(whole: string, fraction: string, separator: char)
    requires AllDigits(whole) && AllDigits(fraction) && whole != "" && separator in [',', ' ', '_']
    ensures Remove(WithPoint(Grouped(whole, separator), fraction), separator) == WithPoint(whole, fraction)
  {
    var grouped, tail := Grouped(whole, separator), WithPoint("", fraction);
    GroupedChars(whole, separator);
    WithPointShape(grouped, fraction);
    WithPointShape(whole, fraction);
    NotInWithPoint("", fraction, separator);
    GroupedUngrouped(whole, separator);
    RemoveAppend(grouped, tail, separator);
    RemoveAbsent(tail, separator);
  }

  lemma NormalizeCommas(whole: string, fraction: string)
    requires AllDigits(whole) && AllDigits(fraction) && whole != ""
    ensures var text := WithPoint(Grouped(whole, ','), fraction);
            && (',' in text ==> '.' in text || LooksLikeThousands(text))
            && (',' !in text ==> Remove(text, ',') == text)
  {
    var text := WithPoint(Grouped(whole, ','), fraction);
    GroupedChars(whole, ',');
    if fraction == "" {
      SplitGrouped(whole);
    } else {
      assert text[|Grouped(whole, ',')|] == '.';
    }
    if ',' !in text {
      RemoveAbsent(text, ',');
    }
  }

  // ----- the round trips -----

  lemma ParsePlain(m: nat, scale: nat)
    requires m < TEN28
    ensures ParseAmountMinor(Some(Plain(m, scale)), scale) == Ok(m)
  {
    NormalizePlain(Whole(m, scale), Fraction(m, scale));
    ValueWholeFraction(m, scale);
    ParseNormalized(Plain(m, scale), Whole(m, scale), Fraction(m, scale), scale, m);
  }

  lemma NormalizePlain(whole: string, fraction: string)
    requires AllDigits(whole) && AllDigits(fraction) && whole != ""
    ensures var s := WithPoint(whole, fraction);
            Normalize(s) == s && s != "" && !IsSpace(s[0]) && !IsSpace(s[|s| - 1])
  {
    var s := WithPoint(whole, fraction);
    SeparatorsOf(whole, fraction, ',');
    NoSeparators(s);
    NormalizeSqueezed(s, s);
  }

  /** Commas, spaces and underscores are all accepted between groups of three. */
  lemma ParseGrouped(m: nat, scale: nat, separator: char)
    requires m < TEN28 && separator in [',', ' ', '_']
    ensures ParseAmountMinor(Some(GroupedForm(m, scale, separator)), scale) == Ok(m)
  {
    var whole, fraction := Whole(m, scale), Fraction(m, scale);
    GroupedChars(whole, separator);
    WithPointShape(Grouped(whole, separator), fraction);
    NormalizeGrouped(whole, fraction, separator);
    ValueWholeFraction(m, scale);
    ParseNormalized(GroupedForm(m, scale, separator), whole, fraction, scale, m);
  }

  /** A grouped number of whole units is read as units at every scale. */
  lemma ParseGroupedUnits(units: nat, scale: nat, separator: char)
    requires units < TEN28 && separator in [',', ' ', '_']
    ensures ParseAmountMinor(Some(Grouped(Digits(units), separator)), scale)
         == Ok(units * Pow10(scale))
  {
    var whole := Digits(units);
    GroupedChars(whole, separator);
    NormalizeGrouped(whole, "", separator);
    ValueDigits(units);
    assert whole + "" == whole;
    ParseNormalized(Grouped(whole, separator), whole, "", scale, units);
  }

  lemma NormalizeCommaDecimal(whole: string, fraction: string)
    requires AllDigits(whole) && AllDigits(fraction) && whole != "" && fraction != ""
    ensures Normalize(whole + "," + fraction)
         == if |whole| <= 3 && |fraction| == 3 then whole + fraction else whole + "." + fraction
  {
    var text := whole + "," + fraction;
    NoSeparators(text);
    assert text[|whole|] == ',' && '.' !in text;
    ShapeOfCommaDecimal(whole, fraction);
    RemoveOneComma(whole, fraction);
    ReplaceComma(whole, fraction);
    NormalizeSqueezed(text, text);
  }

  lemma ShapeOfCommaDecimal(whole: string, fraction: string)
    requires AllDigits(whole) && AllDigits(fraction) && whole != ""
    ensures LooksLikeThousands(whole + "," + fraction) <==> |whole| <= 3 && |fraction| == 3
  {
    SplitFirst(whole, ',', fraction);
    assert Split(fraction, ',') == [fraction];
    var parts := Split(whole + "," + fraction, ',');
    assert parts == [whole] + [fraction];
    assert parts[0] == whole && parts[1] == fraction;
  }

  lemma {:induction false} RemoveOneComma(a: string, b: string)
    requires ',' !in a && ',' !in b
    ensures Remove(a + "," + b, ',') == a + b
  {
    var s := a + "," + b;
    if a == "" {
      assert s[1..] == b;
      RemoveAbsent(b, ',');
    } else {
      assert s[1..] == a[1..] + "," + b;
      RemoveOneComma(a[1..], b);
    }
  }

  /** A decimal comma is read correctly unless the text has the shape of one group of
      thousands: three fraction digits after at most three digits. Such a text is read a
      thousand times too large, which only zero survives. */
  lemma ParseCommaDecimalIff(m: nat, scale: nat)
    requires scale > 0 && m < TEN28
    ensures ParseAmountMinor(Some(CommaDecimal(m, scale)), scale)
         == Ok(if scale == 3 && m < 1_000_000 then 1000 * m else m)
    ensures ParseAmountMinor(Some(CommaDecimal(m, scale)), scale) == Ok(m)
       <==> !(scale == 3 && 0 < m < 1_000_000)
  {
    ValueWholeFraction(m, scale);
    ParseOneComma(Whole(m, scale), Fraction(m, scale), m);
    AmbiguousShape(m);
  }

  lemma AmbiguousShape(m: nat)
    ensures |Whole(m, 3)| <= 3 <==> m < 1_000_000
    ensures m * Pow10(3) == 1000 * m
  {
    assert Pow10(3) == 1000;
    ThreeDigitsOrFewer(m / 1000);
  }

  lemma ParseOneComma(whole: string, fraction: string, m: nat)
    requires AllDigits(whole) && AllDigits(fraction) && whole != "" && fraction != ""
    requires AllDigits(whole + fraction) && Value(whole + fraction) == m < TEN28
    ensures ParseAmountMinor(Some(whole + "," + fraction), |fraction|)
         == Ok(if |whole| <= 3 && |fraction| == 3 then m * Pow10(3) else m)
  {
    var text := whole + "," + fraction;
    NormalizeCommaDecimal(whole, fraction);
    if |whole| <= 3 && |fraction| == 3 {
      assert whole + fraction + "" == whole + fraction;
      ParseNormalized(text, whole + fraction, "", 3, m);
    } else {
      ParseNormalized(text, whole, fraction, |fraction|, m);
    }
  }

  // ----- signs, blanks and malformed texts -----

  lemma SignThenNumeral(sign: char, m: string)
    requires (sign == '-' || sign == '+') && m != "" && IsDigit(m[0]) && IsDigit(m[|m| - 1])
    ensures ParseNumeral([sign] + m) == match ParseMagnitude(m)
      case None => None
      case Some(magnitude) => Some(Numeral(sign == '-', magnitude))
  {
    StripNothing([sign] + m);
    assert ([sign] + m)[1..] == m;
  }

  /** A sign in front of a numeral is read as its sign. */
  lemma ReadSigned(whole: string, fraction: string)
    requires AllDigits(whole) && AllDigits(fraction) && whole != "" && AllDigits(whole + fraction)
    ensures var m, magnitude := WithPoint(whole, fraction), Decimal(Value(whole + fraction), 0 - |fraction|);
      && ParseNumeral(['-'] + m) == Some(Numeral(true, magnitude))
      && ParseNumeral(['+'] + m) == Some(Numeral(false, magnitude))
  {
    var m := WithPoint(whole, fraction);
    WithPointShape(whole, fraction);
    PlainMagnitude(whole, fraction);
    SignThenNumeral('-', m);
    SignThenNumeral('+', m);
  }

  lemma PlainMagnitude(whole: string, fraction: string)
    requires AllDigits(whole) && AllDigits(fraction) && whole != "" && AllDigits(whole + fraction)
    ensures ParseMagnitude(WithPoint(whole, fraction)) == Some(Decimal(Value(whole + fraction), 0 - |fraction|))
  {
    var s := WithPoint(whole, fraction);
    if fraction == "" {
      assert whole + fraction == whole;
    } else {
      assert s == whole + ['.'] + fraction;
      assert s[|whole|] == '.';
      SplitFirst(whole, '.', fraction);
      assert s[..|whole|] == whole && s[|whole| + 1..] == fraction;
    }
  }

  /** A negative amount is refused, minus zero is zero, whatever the scale. */
  lemma ParseNegative(m: nat, scale: nat)
    requires m < TEN28
    ensures ParseAmountMinor(Some("-" + Plain(m, scale)), scale) == if m > 0 then Err(Negative) else Ok(0)
  {
    var whole, fraction := Whole(m, scale), Fraction(m, scale);
    ValueWholeFraction(m, scale);
    NegativeText(whole, fraction);
    NegativeScaled(m, |fraction|, scale);
  }

  lemma NegativeScaled(m: nat, places: nat, scale: nat)
    requires places == scale
    ensures ToMinor(Numeral(true, Decimal(m, 0 - places)), scale) == if m > 0 then Err(Negative) else Ok(0)
  {
    if m == 0 {
      assert Surplus(0) == 0;
      assert Pow10(0) == 1;
    }
  }

  lemma NegativeText(whole: string, fraction: string)
    requires AllDigits(whole) && AllDigits(fraction) && whole != "" && AllDigits(whole + fraction)
    ensures forall scale: nat :: ParseAmountMinor(Some("-" + WithPoint(whole, fraction)), scale)
                              == ToMinor(Numeral(true, Decimal(Value(whole + fraction), 0 - |fraction|)), scale)
  {
    var m := WithPoint(whole, fraction);
    var text := "-" + m;
    WithPointShape(whole, fraction);
    assert text == ['-'] + m;
    StripNothing(text);
    ReadSigned(whole, fraction);
    MinusNormalizes(whole, fraction);
  }

  lemma MinusNormalizes(whole: string, fraction: string)
    requires AllDigits(whole) && AllDigits(fraction) && whole != ""
    ensures Normalize("-" + WithPoint(whole, fraction)) == "-" + WithPoint(whole, fraction)
  {
    var m := WithPoint(whole, fraction);
    SeparatorsOf(whole, fraction, ',');
    NoSeparators("-" + m);
    NormalizeSqueezed("-" + m, "-" + m);
  }

  /** Nothing but blanks is a missing amount. */
  lemma ParseBlank(text: string, scale: nat)
    requires forall i :: 0 <= i < |text| ==> IsSpace(text[i])
    ensures ParseAmountMinor(None, scale) == Err(Required)
    ensures ParseAmountMinor(Some(text), scale) == Err(Required)
  {
    StripBlank(text);
  }

  lemma {:induction false} StripBlank(text: string)
    requires forall i :: 0 <= i < |text| ==> IsSpace(text[i])
    ensures Strip(text) == ""
  {
    if text == "" {
    } else {
      StripBlank(text[1..]);
    }
  }

  /** What is no numeral: no digit at all, a second point, or any other character. */
  lemma MagnitudeIff(s: string)
    ensures ParseMagnitude(s).Some? <==>
      || (s != "" && AllDigits(s))
      || exists i :: 0 <= i < |s| && s[i] == '.' && |s| > 1 && AllDigits(s[..i]) && AllDigits(s[i + 1..])
  {
    if '.' in s {
      var i := IndexOf(s, '.');
      forall j | 0 <= j < |s| && s[j] == '.' && AllDigits(s[..j]) ensures j == i {
      }
    }
  }

  lemma {:induction false} ValueZeros(zeros: string)
    requires forall i :: 0 <= i < |zeros| ==> zeros[i] == '0'
    ensures AllDigits(zeros) && Value(zeros) == 0
  {
    if zeros == "" {
    } else {
      ValueZeros(zeros[..|zeros| - 1]);
    }
  }

  const NINE_ZEROS := "000000000"
  const LONG_FRACTION := NINE_ZEROS + NINE_ZEROS + NINE_ZEROS + "1"
  const LONG_NUMERAL := Numeral(false, Decimal(TEN28 + 1, -28))

  lemma LongFractionValue()
    ensures |LONG_FRACTION| == 28 && AllDigits(LONG_FRACTION) && AllDigits("1" + LONG_FRACTION)
    ensures Value("1" + LONG_FRACTION) == TEN28 + 1
  {
    var zeros := NINE_ZEROS + NINE_ZEROS + NINE_ZEROS;
    ValueZeros(zeros);
    assert Value("1") == 1 by {
      assert "1"[..0] == "";
    }
    ValueAppend(zeros, "1");
    ValueAppend("1", LONG_FRACTION);
    LongScale();
  }

  /** The text 1.0000000000000000000000000001 */
  lemma LongTextReads()
    ensures ParseAmountMinor(Some("1." + LONG_FRACTION), 0) == ToMinor(LONG_NUMERAL, 0)
  {
    LongFractionValue();
    assert "1." + LONG_FRACTION == WithPoint("1", LONG_FRACTION);
    NormalizePlain("1", LONG_FRACTION);
    var n := ReadNormalized("1." + LONG_FRACTION, "1", LONG_FRACTION);
  }

  lemma LongScale()
    ensures Pow10(27) == TEN27 && Pow10(28) == TEN28
  {
    Pow10Add(9, 9);
    Pow10Add(18, 9);
    assert Pow10(9) == 1000000000;
  }

  lemma LongNumeralFits()
    ensures Fit(Decimal(TEN28 + 1, -28)) == Decimal(TEN27, -27)
  {
    assert Surplus(TEN27) == 0;
    assert Pow10(1) == 10;
    assert Surplus(TEN28 + 1) == 1;
    assert HalfEven(TEN28 + 1, 10) == TEN27;
  }

  lemma LongNumeralRounds()
    ensures ToMinor(LONG_NUMERAL, 0) == Ok(1)
  {
    LongNumeralFits();
    LongScale();
    assert Multiply(Decimal(TEN28 + 1, -28), Decimal(1, 0)) == Decimal(TEN27, -27);
    assert IntegerValue(Decimal(TEN27, -27)) == Some(1);
  }

  lemma LongNumeralIsFractional()
    ensures ExactMinor(LONG_NUMERAL, 0) == Err(TooManyFractionalDigits)
  {
    LongScale();
    assert (TEN28 + 1) % TEN28 == 1;
  }

  /** A text exact arithmetic would refuse: one, a point, 27 zeros and a one, at scale 0.
      The product is rounded to 28 digits first, and the text is accepted as 1. */
  lemma RoundedBeforeChecked()
    ensures ParseAmountMinor(Some("1." + LONG_FRACTION), 0) == Ok(1)
    ensures ExactMinor(LONG_NUMERAL, 0) == Err(TooManyFractionalDigits)
  {
    LongTextReads();
    LongNumeralRounds();
    LongNumeralIsFractional();
  }
}
