// The Python string operations the services use, on ASCII text.
module Strings {
  import opened Basics

  predicate IsSpace(c: char) { c == ' ' || 9 <= c as int <= 13 || 28 <= c as int <= 31 }

  predicate IsDigit(c: char) { '0' <= c <= '9' }

  predicate AllDigits(s: string) { forall i :: 0 <= i < |s| ==> IsDigit(s[i]) }

  predicate IsLetter(c: char) { 'a' <= c <= 'z' || 'A' <= c <= 'Z' }

  function Lower(c: char): char { if 'A' <= c <= 'Z' then (c as int + 32) as char else c }

  function Upper(c: char): char { if 'a' <= c <= 'z' then (c as int - 32) as char else c }

  function LowerAll(s: string): string { seq(|s|, i requires 0 <= i < |s| => Lower(s[i])) }

  function UpperAll(s: string): string { seq(|s|, i requires 0 <= i < |s| => Upper(s[i])) }

  function StripLeft(s: string): string {
    if s != "" && IsSpace(s[0]) then StripLeft(s[1..]) else s
  }

  function StripRight(s: string): string {
    if s != "" && IsSpace(s[|s| - 1]) then StripRight(s[..|s| - 1]) else s
  }

  function Strip(s: string): string { StripRight(StripLeft(s)) }

  /** s.replace(c, "") */
  function Remove(s: string, c: char): string {
    if s == "" then "" else (if s[0] == c then "" else [s[0]]) + Remove(s[1..], c)
  }

  /** s.replace(c, d) for two characters */
  function Replace(s: string, c: char, d: char): string {
    if s == "" then "" else [if s[0] == c then d else s[0]] + Replace(s[1..], c, d)
  }

  function IndexOf(s: string, c: char): (i: nat)
    requires c in s
    ensures i < |s| && s[i] == c && c !in s[..i]
  {
    if s[0] == c then 0 else 1 + IndexOf(s[1..], c)
  }

  /** s.split(c) */
  function Split(s: string, c: char): (parts: seq<string>)
    ensures |parts| >= 1
  {
    if c !in s then [s]
    else
      var i := IndexOf(s, c);
      [s[..i]] + Split(s[i + 1..], c)
  }

  /** A three-letter code in capitals, without outer blanks. */
  function NormalizeCurrency(value: string): Option<string> {
    var code := UpperAll(Strip(value));
    if |code| == 3 && forall i :: 0 <= i < |code| ==> IsLetter(code[i]) then Some(code) else None
  }

  lemma SplitFirst(a: string, c: char, b: string)
    requires c !in a
    ensures var s := a + [c] + b; IndexOf(s, c) == |a| && Split(s, c) == [a] + Split(b, c)
  {
    var s := a + [c] + b;
    assert s[|a|] == c;
    var i := IndexOf(s, c);
    assert s[..|a|] == a && s[|a| + 1..] == b;
  }

  /** Stripping removes spaces at both ends, as far as they go, and nothing else. */
  lemma StripMeaning(s: string) returns (left: string, right: string)
    ensures s == left + Strip(s) + right
    ensures (forall i :: 0 <= i < |left| ==> IsSpace(left[i])) && (forall i :: 0 <= i < |right| ==> IsSpace(right[i]))
    ensures Strip(s) != "" ==> !IsSpace(Strip(s)[0]) && !IsSpace(Strip(s)[|Strip(s)| - 1])
  {
    left := StripLeftMeaning(s);
    right := StripRightMeaning(StripLeft(s));
    assert s == left + (Strip(s) + right);
    assert left + (Strip(s) + right) == left + Strip(s) + right;
  }

  lemma {:induction false} StripLeftMeaning(s: string) returns (left: string)
    ensures s == left + StripLeft(s) && forall i :: 0 <= i < |left| ==> IsSpace(left[i])
    ensures StripLeft(s) != "" ==> !IsSpace(StripLeft(s)[0])
  {
    if s == "" || !IsSpace(s[0]) {
      left := "";
    } else {
      left := StripLeftMeaning(s[1..]);
      left := [s[0]] + left;
      assert s == [s[0]] + s[1..];
    }
  }

  lemma {:induction false} StripRightMeaning(s: string) returns (right: string)
    ensures s == StripRight(s) + right && forall i :: 0 <= i < |right| ==> IsSpace(right[i])
    ensures StripRight(s) != "" ==> !IsSpace(StripRight(s)[|StripRight(s)| - 1]) && StripRight(s)[0] == s[0]
  {
    if s == "" || !IsSpace(s[|s| - 1]) {
      right := "";
    } else {
      right := StripRightMeaning(s[..|s| - 1]);
      right := right + [s[|s| - 1]];
      assert s == s[..|s| - 1] + [s[|s| - 1]];
    }
  }

  /** The blanks and the letters, character by character. */
  lemma CharactersMeaning(c: char)
    ensures IsSpace(c) <==>
      c in [' ', '\t', '\n', 11 as char, 12 as char, '\r', 28 as char, 29 as char, 30 as char, 31 as char]
    ensures 'A' <= c <= 'Z' ==> 'a' <= Lower(c) <= 'z' && Lower(c) as int == c as int + 32 && Upper(Lower(c)) == c
    ensures 'a' <= c <= 'z' ==> 'A' <= Upper(c) <= 'Z' && Lower(Upper(c)) == c
    ensures !('A' <= c <= 'Z') ==> Lower(c) == c
    ensures !('a' <= c <= 'z') ==> Upper(c) == c
    ensures IsLetter(c) <==> Lower(c) != Upper(c)
  {
  }

  /** A currency code is three capitals; blanks around it and small letters are put right. */
  lemma CurrencyMeaning(value: string)
    ensures NormalizeCurrency(value).Some?
       <==> |Strip(value)| == 3 && forall i :: 0 <= i < 3 ==> IsLetter(Strip(value)[i])
    ensures NormalizeCurrency(value).Some? ==>
      var code := NormalizeCurrency(value).value;
      && |code| == 3 && (forall i :: 0 <= i < 3 ==> 'A' <= code[i] <= 'Z')
      && forall i :: 0 <= i < 3 ==> code[i] == Strip(value)[i] || code[i] as int + 32 == Strip(value)[i] as int
  {
    var stripped := Strip(value);
    if |stripped| == 3 {
      assert forall i :: 0 <= i < 3 ==> UpperAll(stripped)[i] == Upper(stripped[i]);
    }
  }
}
