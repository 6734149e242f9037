/** The dashboard home chart's time axis: a tick value "H:MM" is labelled
    with its hour on a 12-hour clock and an AM / PM suffix. */
module Home {
  import opened Strings

  /** A number `parseInt` can produce. */
  datatype JsInt = Int(n: int) | NaN

  /** The ASCII white space `parseInt` skips: space, tab, line feed,
      vertical tab, form feed and carriage return. */
  predicate IsSpace(c: char) {
    c == ' ' || c == '\t' || c == '\n' || c == '\U{000B}' || c == '\U{000C}' || c == '\r'
  }

  function TrimStart(s: string): (r: string)
    ensures |r| <= |s| && r == s[|s| - |r|..]
    ensures forall i :: 0 <= i < |s| - |r| ==> IsSpace(s[i])
    ensures r != [] ==> !IsSpace(r[0])
    ensures s != [] && !IsSpace(s[0]) ==> r == s
  {
    if s != [] && IsSpace(s[0]) then
      var t := TrimStart(s[1..]);
      assert s[|s| - |t|..] == s[1..][|s| - 1 - |t|..];
      assert forall i :: 1 <= i < |s| - |t| ==> s[i] == s[1..][i - 1];
      t
    else s
  }

  /** `Number.parseInt(s)` in base 10: leading white space, an optional
      sign, then the longest run of digits; NaN when there is no digit. */
  function ParseInt(s: string): (r: JsInt)
    ensures s == "" ==> r.NaN?
    ensures s != "" && AllDigits(s) ==> r == Int(DigitsValue(s))
  {
    ParseSigned(TrimStart(s))
  }

  /** What `parseInt` reads once the leading white space is gone. */
  function ParseSigned(t: string): (r: JsInt)
    ensures t == "" ==> r.NaN?
    ensures t != "" && AllDigits(t) ==> r == Int(DigitsValue(t))
  {
    var negative := t != [] && t[0] == '-';
    var body := if t != [] && (t[0] == '-' || t[0] == '+') then t[1..] else t;
    var digits := LeadingDigits(body);
    assert t != "" && AllDigits(t) ==> digits == t;
    var magnitude: int := DigitsValue(digits);
    if digits == "" then NaN
    else Int(if negative then -magnitude else magnitude)
  }

  /** `hour >= 12 ? "PM" : "AM"`; NaN compares false. */
  function Suffix(hour: JsInt): string {
    if hour.Int? && hour.n >= 12 then "PM" else "AM"
  }

  /** `hour > 12 ? hour - 12 : hour`. */
  function DisplayHour(hour: JsInt): JsInt {
    if hour.Int? && hour.n > 12 then Int(hour.n - 12) else hour
  }

  /** A number in a template literal. */
  function NumberText(x: JsInt): string {
    match x
    case Int(n) => IntToString(n)
    case NaN => "NaN"
  }

  /** The axis `tickFormatter`. */
  function TickLabel(value: string): string {
    var hour := ParseInt(BeforeFirst(value, ':'));
    NumberText(DisplayHour(hour)) + " " + Suffix(hour)
  }

  /** The text before the first colon of `d + ":" + rest`, when `d` has no
      colon, is `d`. */
  lemma {:induction false} BeforeColonOf(d: string, rest: string)
    requires forall i :: 0 <= i < |d| ==> d[i] != ':'
    ensures BeforeFirst(d + ":" + rest, ':') == d
  {
    if d != [] {
      assert (d + ":" + rest)[1..] == d[1..] + ":" + rest;
      BeforeColonOf(d[1..], rest);
    }
  }

  /** `parseInt` skips leading white space, form feed and vertical tab
      included. */
  lemma ParseIntSkipsSpace(c: char, s: string)
    requires IsSpace(c)
    ensures ParseInt([c] + s) == ParseInt(s)
  {
    var cs := [c] + s;
    assert cs != [] && IsSpace(cs[0]) && cs[1..] == s;
    assert TrimStart(cs) == TrimStart(s);
  }

  /** "\f5" (form feed, then 5) reads as 5. */
  lemma FormFeedThenDigit()
    ensures ParseInt("\U{000C}5") == Int(5)
  {
    var five := "5";
    assert five[..0] == [] && AllDigits(five) && DigitsValue(five) == 5;
    assert !IsSpace(five[0]);
    assert ParseInt(five) == Int(5);
    ParseIntSkipsSpace('\U{000C}', five);
    assert "\U{000C}5" == ['\U{000C}'] + five;
  }

  /** For a tick "H:MM" with hour `h`, the label is `h` itself up to noon and
      `h - 12` after it, with "PM" from 12 on; the minutes play no part. */
  lemma HourLabel(h: nat, minutes: string)
    ensures TickLabel(NatToString(h) + ":" + minutes)
      == IntToString(if h > 12 then h - 12 else h) + " " + (if h >= 12 then "PM" else "AM")
  {
    BeforeColonOf(NatToString(h), minutes);
    NatToStringRoundTrip(h);
  }

  /** The label ends in "PM" exactly when a number at least 12 is parsed. */
  lemma PmIffAfterNoon(value: string)
    ensures var text := TickLabel(value);
      |text| >= 2 &&
      (text[|text| - 2..] == "PM" <==> ParseInt(BeforeFirst(value, ':')).Int? && ParseInt(BeforeFirst(value, ':')).n >= 12)
  {
  }

  /** A tick without a leading number is labelled "NaN AM". */
  lemma NoNumberLabel(value: string)
    requires value == "" || value[0] == ':' || (!IsDigit(value[0]) && !IsSpace(value[0]) && value[0] != '-' && value[0] != '+')
    ensures TickLabel(value) == "NaN AM"
  {
    var before := BeforeFirst(value, ':');
    if before != "" {
      assert !IsSpace(before[0]);
      assert TrimStart(before) == before;
      assert LeadingDigits(before) == "";
      assert ParseSigned(before) == NaN;
    }
  }
}
