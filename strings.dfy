/** Text helpers: decimal rendering of numbers (JavaScript's `String(n)` and
    template interpolation of integers), ASCII case mapping, substring search
    and joining. */
module Strings {

  predicate IsDigit(c: char) {
    '0' <= c <= '9'
  }

  predicate AllDigits(s: string) {
    forall i :: 0 <= i < |s| ==> IsDigit(s[i])
  }

  function DigitChar(d: nat): (c: char)
    requires d < 10
    ensures IsDigit(c)
  {
    (48 + d) as char
  }

  function DigitValue(c: char): (d: nat)
    requires IsDigit(c)
    ensures d < 10
  {
    (c as int) - 48
  }

  /** Decimal rendering of a natural number, without leading zeros. */
  function NatToString(n: nat): (s: string)
    ensures |s| >= 1 && AllDigits(s)
    ensures s[0] == '0' ==> n == 0 && |s| == 1
  {
    if n < 10 then [DigitChar(n)] else NatToString(n / 10) + [DigitChar(n % 10)]
  }

  /** Decimal rendering of an integer, with a leading minus sign when negative. */
  function IntToString(i: int): (s: string)
    ensures |s| >= 1
    ensures (s[0] == '-') <==> i < 0
  {
    if i < 0 then "-" + NatToString(-i) else NatToString(i)
  }

  /** The value of a string of decimal digits. */
  function DigitsValue(s: string): nat
    requires AllDigits(s)
  {
    if s == [] then 0 else DigitsValue(s[..|s| - 1]) * 10 + DigitValue(s[|s| - 1])
  }

  lemma {:induction false} NatToStringRoundTrip(n: nat)
    ensures DigitsValue(NatToString(n)) == n
  {
    if n >= 10 {
      NatToStringRoundTrip(n / 10);
      var s := NatToString(n);
      assert s[..|s| - 1] == NatToString(n / 10);
    }
  }

  lemma NatToStringInjective(m: nat, n: nat)
    requires NatToString(m) == NatToString(n)
    ensures m == n
  {
    NatToStringRoundTrip(m);
    NatToStringRoundTrip(n);
  }

  /** The longest prefix made of digits. */
  function LeadingDigits(s: string): (d: string)
    ensures d <= s && AllDigits(d)
    ensures |d| < |s| ==> !IsDigit(s[|d|])
  {
    if s == [] || !IsDigit(s[0]) then "" else [s[0]] + LeadingDigits(s[1..])
  }

  /** A digit string followed by something that does not start with a digit
      can be split back uniquely. */
  lemma DigitsSplit(d1: string, r1: string, d2: string, r2: string)
    requires AllDigits(d1) && AllDigits(d2)
    requires r1 != [] && !IsDigit(r1[0])
    requires r2 != [] && !IsDigit(r2[0])
    requires d1 + r1 == d2 + r2
    ensures d1 == d2 && r1 == r2
  {
    var k := if |d1| < |d2| then |d1| else |d2|;
    assert IsDigit((d1 + r1)[k]) <==> k < |d1|;
    assert IsDigit((d2 + r2)[k]) <==> k < |d2|;
    assert d1 == (d1 + r1)[..|d1|];
    assert d2 == (d2 + r2)[..|d2|];
    assert r1 == (d1 + r1)[|d1|..];
    assert r2 == (d2 + r2)[|d2|..];
  }

  function UpperChar(c: char): char {
    if 'a' <= c <= 'z' then (c as int - 32) as char else c
  }

  function LowerChar(c: char): char {
    if 'A' <= c <= 'Z' then (c as int + 32) as char else c
  }

  /** `toUpperCase`, on the ASCII letters. */
  function ToUpper(s: string): (r: string)
    ensures |r| == |s|
    ensures forall i :: 0 <= i < |s| ==> r[i] == UpperChar(s[i])
  {
    seq(|s|, i requires 0 <= i < |s| => UpperChar(s[i]))
  }

  /** `toLowerCase`, on the ASCII letters. */
  function ToLower(s: string): (r: string)
    ensures |r| == |s|
    ensures forall i :: 0 <= i < |s| ==> r[i] == LowerChar(s[i])
  {
    seq(|s|, i requires 0 <= i < |s| => LowerChar(s[i]))
  }

  /** `s.includes(sub)`: `sub` occurs in `s` at some position. */
  predicate Contains(s: string, sub: string)
    decreases |s|
  {
    sub <= s || (s != [] && Contains(s[1..], sub))
  }

  lemma ContainsEmpty(s: string)
    ensures Contains(s, "")
  {
  }

  /** `parts.join(sep)`. */
  function Join(parts: seq<string>, sep: string): string {
    if parts == [] then ""
    else if |parts| == 1 then parts[0]
    else parts[0] + sep + Join(parts[1..], sep)
  }

  /** A join of several parts is the first part, the separator and the
      join of the others. */
  lemma JoinCons(parts: seq<string>, sep: string, rest: string)
    requires |parts| >= 2
    ensures Join(parts, sep) + rest == parts[0] + (sep + (Join(parts[1..], sep) + rest))
  {
  }

  /** `s.split(sep)[0]`: the text before the first `sep`, or all of `s`. */
  function BeforeFirst(s: string, sep: char): (r: string)
    ensures r <= s
    ensures forall i :: 0 <= i < |r| ==> r[i] != sep
    ensures |r| < |s| ==> s[|r|] == sep
  {
    if s == [] || s[0] == sep then "" else [s[0]] + BeforeFirst(s[1..], sep)
  }

  /** `String(n).padStart(2, "0")`. */
  function Pad2(n: nat): (s: string)
    ensures AllDigits(s)
    ensures n < 100 ==> |s| == 2
  {
    var d := NatToString(n);
    assert n >= 10 ==> d == NatToString(n / 10) + [DigitChar(n % 10)];
    if |d| < 2 then "0" + d else d
  }

  lemma Pad2RoundTrip(n: nat)
    requires n < 100
    ensures DigitsValue(Pad2(n)) == n
  {
    NatToStringRoundTrip(n);
    var d := NatToString(n);
    if |d| < 2 {
      assert Pad2(n)[..1] == "0";
    }
  }
}
