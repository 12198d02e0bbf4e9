/**
 * The pieces of .NET text handling the wrapper relies on: `String.IsNullOrWhiteSpace`,
 * the decimal renderings of integers (`ToString()`, the `D2` format) and the `N2`
 * format of an amount in the invariant culture.
 */
module Text {
  import opened Wrappers

  /** A .NET `string` reference: `None` is null. */
  type NetString = Option<string>

  /** The value of a C# `int`. */
  newtype Int32 = x: int | -0x8000_0000 <= x < 0x8000_0000

  /** `Char.IsWhiteSpace`: U+0009..U+000D, U+0085 and the Unicode space, line and paragraph separators. */
  predicate IsWhiteSpace(c: char) {
    ('\U{9}' <= c <= '\U{D}') || c == ' ' || c == '\U{85}' || c == '\U{A0}' || c == '\U{1680}'
    || ('\U{2000}' <= c <= '\U{200A}') || c == '\U{2028}' || c == '\U{2029}' || c == '\U{202F}'
    || c == '\U{205F}' || c == '\U{3000}'
  }

  /** `String.IsNullOrWhiteSpace`: null, empty, or white space only. */
  predicate IsNullOrWhiteSpace(s: NetString) {
    s.None? || forall i | 0 <= i < |s.value| :: IsWhiteSpace(s.value[i])
  }

  /** `Boolean.ToString()` of `true`, the only flag value the wrapper ever sends. */
  const TrueString: string := "True"

  predicate IsDigit(c: char) {
    '0' <= c <= '9'
  }

  predicate AllDigits(s: string) {
    forall i | 0 <= i < |s| :: IsDigit(s[i])
  }

  function Digit(d: nat): (c: char)
    requires d < 10
    ensures IsDigit(c) && DigitValue(c) == d
  {
    ('0' as int + d) as char
  }

  function DigitValue(c: char): nat
    requires IsDigit(c)
  {
    c as int - '0' as int
  }

  function Pow10(k: nat): nat {
    if k == 0 then 1 else 10 * Pow10(k - 1)
  }

  /** The number a string of decimal digits denotes (the empty string denotes 0). */
  function DigitsValue(s: string): nat
    requires AllDigits(s)
  {
    if s == [] then 0 else DigitsValue(s[..|s| - 1]) * 10 + DigitValue(s[|s| - 1])
  }

  /** The decimal rendering of a natural number, with no leading zero. */
  function NatToString(n: nat): (s: string)
    ensures |s| >= 1 && AllDigits(s)
    ensures (s[0] == '0') == (n == 0)
    ensures n < 10 <==> |s| == 1
    decreases n
  {
    if n < 10 then [Digit(n)] else NatToString(n / 10) + [Digit(n % 10)]
  }

  /** `Int32.ToString()` in the invariant culture. */
  function IntToString(i: Int32): (s: string)
    ensures |s| >= 1
  {
    if i < 0 then "-" + NatToString(-(i as int)) else NatToString(i as int)
  }

  /** Reads back a rendering of `IntToString`; None when the text is not an optional '-' followed by digits. */
  function ParseInt(s: string): Option<int> {
    if |s| > 0 && s[0] == '-' then
      (if |s| > 1 && AllDigits(s[1..]) then Some(0 - DigitsValue(s[1..])) else None)
    else if |s| > 0 && AllDigits(s) then Some(DigitsValue(s))
    else None
  }

  /** The `D2` format of a natural number: its digits, zero-padded on the left to at least two. */
  function PadTwo(n: nat): (s: string)
    ensures |s| >= 2 && AllDigits(s)
    ensures n < 100 ==> |s| == 2
  {
    if n < 10 then "0" + NatToString(n) else NatToString(n)
  }

  /** Three digits, zero-padded: one group of the `N` format. */
  function PadThree(n: nat): (s: string)
    requires n < 1000
    ensures |s| == 3 && AllDigits(s)
  {
    [Digit(n / 100), Digit(n / 10 % 10), Digit(n % 10)]
  }

  /** The integer part of the `N` format: the digits of `n` in groups of three separated by ','. */
  function Grouped(n: nat): (s: string)
    ensures |s| >= 1 && IsDigit(s[0])
    decreases n
  {
    if n < 1000 then NatToString(n) else Grouped(n / 1000) + "," + PadThree(n % 1000)
  }

  /** `s` with every group separator removed. */
  function WithoutCommas(s: string): string {
    if s == [] then [] else WithoutCommas(s[..|s| - 1]) + (if s[|s| - 1] == ',' then [] else [s[|s| - 1]])
  }

  /** A real rounded to the nearest integer, halves away from zero, as .NET rounds a decimal it formats. */
  function RoundHalfAwayFromZero(x: real): (r: int)
    ensures x >= 0.0 ==> x - 0.5 < r as real <= x + 0.5
    ensures x < 0.0 ==> x - 0.5 <= r as real < x + 0.5
  {
    if x >= 0.0 then (x + 0.5).Floor else -((-x + 0.5).Floor)
  }

  /** The number of hundredths an amount shows in the `N2` format. */
  function Cents(a: real): int {
    RoundHalfAwayFromZero(a * 100.0)
  }

  /**
   * `String.Format("{0:N2}", a)` for a decimal in the invariant culture: a minus sign unless the
   * amount rounds to zero, the grouped integer part, '.', and two digits of hundredths.
   */
  function FormatN2(a: real): (s: string)
    ensures |s| >= 4 && s[|s| - 3] == '.' && IsDigit(s[|s| - 2]) && IsDigit(s[|s| - 1])
    ensures (s[0] == '-') <==> Cents(a) < 0
  {
    CentsText(Cents(a))
  }

  /** The `N2` text of a number of hundredths. */
  function CentsText(c: int): (s: string)
    ensures |s| >= 4 && s[|s| - 3] == '.' && IsDigit(s[|s| - 2]) && IsDigit(s[|s| - 1])
    ensures (s[0] == '-') <==> c < 0
  {
    var m: nat := if c < 0 then -c else c;
    (if c < 0 then "-" else "") + Grouped(m / 100) + "." + PadTwo(m % 100)
  }

  /** `String.Format("{0:N2}", a)` for a `decimal?`: a null argument formats as the empty string. */
  function FormatNullableN2(a: Option<real>): (s: string)
    ensures a.None? <==> s == ""
  {
    match a
    case None => ""
    case Some(v) => FormatN2(v)
  }

  /** Reads back the number of hundredths an `N2` rendering denotes; None when the text has another shape. */
  function ParseN2(s: string): Option<int> {
    var negative := |s| > 0 && s[0] == '-';
    var t := if negative then s[1..] else s;
    if |t| < 4 || t[|t| - 3] != '.' then None
    else
      var whole := WithoutCommas(t[..|t| - 3]);
      var hundredths := t[|t| - 2..];
      if !AllDigits(whole) || !AllDigits(hundredths) then None
      else
        var m := DigitsValue(whole) * 100 + DigitsValue(hundredths);
        Some(if negative then -m else m)
  }

  // ---------------------------------------------------------------------------------------------
  // Round trips

  lemma {:induction false} DigitsValueAppend(a: string, b: string)
    requires AllDigits(a) && AllDigits(b)
    ensures AllDigits(a + b)
    ensures DigitsValue(a + b) == DigitsValue(a) * Pow10(|b|) + DigitsValue(b)
    decreases |b|
  {
    if b == [] {
      assert a + b == a;
    } else {
      var b' := b[..|b| - 1];
      DigitsValueAppend(a, b');
      assert (a + b)[..|a + b| - 1] == a + b';
      ShiftedDigits(DigitsValue(a), Pow10(|b'|), DigitsValue(b'), DigitValue(b[|b| - 1]));
    }
  }

  lemma ShiftedDigits(x: int, p: int, y: int, d: int)
    ensures (x * p + y) * 10 + d == x * (p * 10) + (y * 10 + d)
  {
  }

  /** Reading back the rendering of a natural number gives the number. */
  lemma {:induction false} NatToStringRoundTrip(n: nat)
    ensures DigitsValue(NatToString(n)) == n
    decreases n
  {
    if n >= 10 {
      NatToStringRoundTrip(n / 10);
      var s := NatToString(n);
      assert s[..|s| - 1] == NatToString(n / 10);
    }
  }

  /** Reading back `Int32.ToString()` gives the integer. */
  lemma IntToStringRoundTrip(i: Int32)
    ensures ParseInt(IntToString(i)) == Some(i as int)
  {
    NatToStringRoundTrip(if i < 0 then -(i as int) else i as int);
    if i < 0 {
      assert IntToString(i)[1..] == NatToString(-(i as int));
    }
  }

  /** The `D2` rendering reads back as the number. */
  lemma PadTwoRoundTrip(n: nat)
    ensures DigitsValue(PadTwo(n)) == n
  {
    NatToStringRoundTrip(n);
    if n < 10 {
      DigitsValueAppend("0", NatToString(n));
    }
  }

  lemma PadThreeRoundTrip(n: nat)
    requires n < 1000
    ensures DigitsValue(PadThree(n)) == n
  {
    var a, b, c := n / 100, n / 10 % 10, n % 10;
    ThreeDigitsValue(Digit(a), Digit(b), Digit(c));
    assert n / 10 == a * 10 + b;
  }

  lemma ThreeDigitsValue(x: char, y: char, z: char)
    requires IsDigit(x) && IsDigit(y) && IsDigit(z)
    ensures DigitsValue([x, y, z]) == (DigitValue(x) * 10 + DigitValue(y)) * 10 + DigitValue(z)
  {
    assert [x, y, z][..2] == [x, y];
    assert [x, y][..1] == [x];
    assert [x][..0] == [];
    assert DigitsValue([x]) == DigitValue(x);
    assert DigitsValue([x, y]) == DigitValue(x) * 10 + DigitValue(y);
  }

  lemma {:induction false} WithoutCommasAppend(a: string, b: string)
    ensures WithoutCommas(a + b) == WithoutCommas(a) + WithoutCommas(b)
    decreases |b|
  {
    if b == [] {
      assert a + b == a;
    } else {
      WithoutCommasAppend(a, b[..|b| - 1]);
      assert (a + b)[..|a + b| - 1] == a + b[..|b| - 1];
    }
  }

  lemma {:induction false} WithoutCommasOfDigits(s: string)
    requires AllDigits(s)
    ensures WithoutCommas(s) == s
    decreases |s|
  {
    if s != [] {
      WithoutCommasOfDigits(s[..|s| - 1]);
    }
  }

  /** Removing the separators from `g,ttt` leaves the digits of `g` followed by `ttt`. */
  lemma GroupStep(g: string, t: string)
    requires AllDigits(t)
    ensures WithoutCommas(g + "," + t) == WithoutCommas(g) + t
  {
    WithoutCommasAppend(g + ",", t);
    WithoutCommasAppend(g, ",");
    assert [','][..0] == [];
    assert WithoutCommas(",") == [];
    WithoutCommasOfDigits(t);
  }

  /** Removing the group separators from the integer part leaves the plain digits of the number. */
  lemma {:induction false} GroupedRoundTrip(n: nat)
    ensures AllDigits(WithoutCommas(Grouped(n)))
    ensures DigitsValue(WithoutCommas(Grouped(n))) == n
    decreases n
  {
    if n < 1000 {
      WithoutCommasOfDigits(NatToString(n));
      NatToStringRoundTrip(n);
    } else {
      var q, r := n / 1000, n % 1000;
      var g, t := Grouped(q), PadThree(r);
      assert Grouped(n) == g + "," + t;
      GroupedRoundTrip(q);
      GroupStep(g, t);
      var w := WithoutCommas(g);
      PadThreeRoundTrip(r);
      DigitsValueAppend(w, t);
      assert Pow10(|t|) == 1000 by {
        assert Pow10(3) == 10 * Pow10(2) == 10 * (10 * Pow10(1)) == 10 * (10 * (10 * Pow10(0)));
      }
      assert DigitsValue(w + t) == q * 1000 + r;
    }
  }

  /** The unsigned part of an `N2` rendering reads back as its hundredths. */
  lemma ParseUnsignedN2(m: nat, t: string)
    requires t == Grouped(m / 100) + "." + PadTwo(m % 100)
    ensures |t| >= 4 && t[|t| - 3] == '.'
    ensures AllDigits(WithoutCommas(t[..|t| - 3])) && AllDigits(t[|t| - 2..])
    ensures DigitsValue(WithoutCommas(t[..|t| - 3])) * 100 + DigitsValue(t[|t| - 2..]) == m
  {
    var g, h := Grouped(m / 100), PadTwo(m % 100);
    assert |h| == 2;
    assert t[..|t| - 3] == g;
    assert t[|t| - 2..] == h;
    GroupedRoundTrip(m / 100);
    PadTwoRoundTrip(m % 100);
  }

  /** A sign followed by a well-formed unsigned rendering reads back as the signed hundredths. */
  lemma ParseSignedN2(negative: bool, t: string, m: nat)
    requires |t| >= 4 && t[|t| - 3] == '.' && IsDigit(t[0])
    requires AllDigits(WithoutCommas(t[..|t| - 3])) && AllDigits(t[|t| - 2..])
    requires DigitsValue(WithoutCommas(t[..|t| - 3])) * 100 + DigitsValue(t[|t| - 2..]) == m
    ensures ParseN2((if negative then "-" else "") + t) == Some(if negative then -(m as int) else m as int)
  {
    var s := (if negative then "-" else "") + t;
    if negative {
      assert s[1..] == t;
    } else {
      assert s == t;
    }
  }

  /** Reading back the `N2` rendering of an amount gives its rounded number of hundredths. */
  lemma FormatN2RoundTrip(a: real)
    ensures ParseN2(FormatN2(a)) == Some(Cents(a))
  {
    CentsTextRoundTrip(Cents(a));
  }

  lemma CentsTextRoundTrip(c: int)
    ensures ParseN2(CentsText(c)) == Some(c)
  {
    var m: nat := if c < 0 then -c else c;
    var t := Grouped(m / 100) + "." + PadTwo(m % 100);
    var s := (if c < 0 then "-" else "") + t;
    assert CentsText(c) == s;
    assert t[0] == Grouped(m / 100)[0];
    ParseUnsignedN2(m, t);
    ParseSignedN2(c < 0, t, m);
    assert (if c < 0 then -(m as int) else m as int) == c;
  }
}
