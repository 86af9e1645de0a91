/**
 * Numeric text as the tax form reads and writes it: JavaScript's Math.round,
 * the two-decimal renderings the form uses for calculated fields, and the
 * lenient parser behind getFieldValue. Numbers are exact reals here.
 */
module Decimal {
  import opened Wrappers

  function Abs(x: real): real { if x < 0.0 then -x else x }

  /** Math.max(0, x). */
  function Max0(x: real): (r: real)
    ensures r >= 0.0 && r >= x
    ensures r == x || r == 0.0
  {
    if x > 0.0 then x else 0.0
  }

  /** Math.round: the integer nearest to x, halves going up. */
  function Round(x: real): (n: int)
    ensures n as real - 0.5 <= x < n as real + 0.5
  {
    (x + 0.5).Floor
  }

  /** The magnitude of x in whole cents, halves rounded away from zero, as
      both toFixed(2) and the en-US two-decimal locale format round. */
  function CentMagnitude(x: real): (c: nat)
    ensures c as real - 0.5 <= Abs(x) * 100.0 < c as real + 0.5
  {
    Round(Abs(x) * 100.0)
  }

  /** x rounded to cents the way a two-decimal rendering rounds it. */
  function Cents(x: real): (r: real)
    ensures (r * 100.0).Floor as real == r * 100.0
    ensures Abs(r - x) <= 0.005
    ensures x >= 0.0 ==> r >= 0.0
    ensures x <= 0.0 ==> r <= 0.0
  {
    var c := CentMagnitude(x);
    var m := c as real / 100.0;
    assert m * 100.0 == c as real && (c as real).Floor == c;
    if x < 0.0 then (assert -m * 100.0 == -(c as real) && (-(c as real)).Floor == -(c as int); -m) else m
  }

  lemma RoundOfInteger(n: int)
    ensures Round(n as real) == n
  {
  }

  /** Rounding to cents a value already in cents changes nothing. */
  lemma CentsIdempotent(x: real)
    ensures Cents(Cents(x)) == Cents(x)
  {
    var c := CentMagnitude(x);
    assert Abs(Cents(x)) * 100.0 == c as real;
    RoundOfInteger(c);
  }

  /** Rounding to cents is symmetric about zero. */
  lemma CentsOdd(x: real)
    ensures Cents(-x) == -Cents(x)
  {
    assert Abs(-x) == Abs(x);
  }

  lemma RoundMonotone(x: real, y: real)
    requires x <= y
    ensures Round(x) <= Round(y)
  {
  }

  /** Rounding to cents never reverses the order of two amounts. */
  lemma CentsMonotone(x: real, y: real)
    requires x <= y
    ensures Cents(x) <= Cents(y)
  {
    if 0.0 <= x {
      RoundMonotone(Abs(x) * 100.0, Abs(y) * 100.0);
    } else if y < 0.0 {
      RoundMonotone(Abs(y) * 100.0, Abs(x) * 100.0);
    }
  }

  // ----- characters -----

  predicate IsDigit(ch: char) { '0' <= ch <= '9' }

  /** The characters kept by `replace(/[^0-9.-]/g, '')`. */
  predicate IsNumeric(ch: char) { IsDigit(ch) || ch == '.' || ch == '-' }

  /** The characters JavaScript's `\s` class and `String.prototype.trim` treat as white space. */
  predicate IsWhitespace(ch: char) {
    || ch == ' ' || ch == '\t' || ch == '\n' || ch == '\U{000B}' || ch == '\U{000C}' || ch == '\r'
    || ch == '\U{00A0}' || ch == '\U{1680}' || ('\U{2000}' <= ch <= '\U{200A}')
    || ch == '\U{2028}' || ch == '\U{2029}' || ch == '\U{202F}' || ch == '\U{205F}'
    || ch == '\U{3000}' || ch == '\U{FEFF}'
  }

  predicate AllDigits(s: string) { forall i :: 0 <= i < |s| ==> IsDigit(s[i]) }

  predicate AllNumeric(s: string) { forall i :: 0 <= i < |s| ==> IsNumeric(s[i]) }

  /** `!value || value.trim() === ''`: empty, or white space only. */
  predicate IsBlank(s: string) { forall i :: 0 <= i < |s| ==> IsWhitespace(s[i]) }

  function DigitValue(ch: char): nat
    requires IsDigit(ch)
  {
    ch as int - '0' as int
  }

  function DigitChar(d: nat): (ch: char)
    requires d < 10
    ensures IsDigit(ch) && DigitValue(ch) == d
  {
    ('0' as int + d) as char
  }

  /** Value of a run of decimal digits, most significant first. */
  function DigitsValue(s: string): nat
    requires AllDigits(s)
  {
    if s == [] then 0 else DigitsValue(s[..|s| - 1]) * 10 + DigitValue(s[|s| - 1])
  }

  /** Value of the digits written after a decimal point. */
  function FractionValue(s: string): real
    requires AllDigits(s)
  {
    if s == [] then 0.0 else (DigitValue(s[0]) as real + FractionValue(s[1..])) / 10.0
  }

  // ----- writing numbers -----

  /** The decimal numeral of n, without leading zeros; reading it back gives n. */
  function Numeral(n: nat): (s: string)
    ensures |s| > 0 && AllDigits(s)
    ensures DigitsValue(s) == n
    decreases n
  {
    if n < 10 then [DigitChar(n)]
    else
      var s := Numeral(n / 10) + [DigitChar(n % 10)];
      assert s[..|s| - 1] == Numeral(n / 10);
      s
  }

  /** The two digits of a cent count below 100; as a fraction they are worth r/100. */
  function TwoDigits(r: nat): (s: string)
    requires r < 100
    ensures |s| == 2 && AllDigits(s)
    ensures FractionValue(s) == r as real / 100.0
  {
    var s := [DigitChar(r / 10), DigitChar(r % 10)];
    assert s[1..][1..] == [];
    assert FractionValue(s[1..]) == (r % 10) as real / 10.0;
    assert (r / 10) * 10 + r % 10 == r;
    s
  }

  /** `replace(/[^0-9.-]/g, '')`: only digits, points and minus signs survive. */
  function KeepNumeric(s: string): string
  {
    if s == [] then []
    else (if IsNumeric(s[0]) then [s[0]] else []) + KeepNumeric(s[1..])
  }

  /** Only digits, points and minus signs survive the filter. */
  lemma {:induction false} KeepNumericIsNumeric(s: string)
    ensures AllNumeric(KeepNumeric(s))
  {
    if s != [] {
      KeepNumericIsNumeric(s[1..]);
    }
  }

  /** Text made only of digits, points and minus signs passes the filter unchanged. */
  lemma {:induction false} KeepNumericKeepsNumeric(s: string)
    requires AllNumeric(s)
    ensures KeepNumeric(s) == s
  {
    if s != [] {
      KeepNumericKeepsNumeric(s[1..]);
      assert [s[0]] + s[1..] == s;
    }
  }

  /** Filtering text piecewise is filtering it whole. */
  lemma {:induction false} KeepNumericConcat(a: string, b: string)
    ensures KeepNumeric(a + b) == KeepNumeric(a) + KeepNumeric(b)
  {
    if a == [] {
      assert a + b == b;
    } else {
      var h: string := if IsNumeric(a[0]) then [a[0]] else [];
      assert (a + b)[0] == a[0];
      assert (a + b)[1..] == a[1..] + b;
      assert KeepNumeric(a + b) == h + KeepNumeric(a[1..] + b);
      assert KeepNumeric(a) == h + KeepNumeric(a[1..]);
      KeepNumericConcat(a[1..], b);
      assert h + (KeepNumeric(a[1..]) + KeepNumeric(b)) == (h + KeepNumeric(a[1..])) + KeepNumeric(b);
    }
  }

  /** en-US digit grouping: a comma before every three digits counted from the right. */
  function Grouped(s: string): (g: string)
    ensures |s| > 0 ==> |g| > 0
    decreases |s|
  {
    if |s| <= 3 then s
    else Grouped(s[..|s| - 3]) + "," + s[|s| - 3..]
  }

  /** Removing the commas of a grouped run of digits gives the digits back. */
  lemma {:induction false} GroupingDropsOut(s: string)
    requires AllDigits(s)
    ensures KeepNumeric(Grouped(s)) == s
    decreases |s|
  {
    if |s| <= 3 {
      KeepNumericKeepsNumeric(s);
    } else {
      var head, tail := s[..|s| - 3], s[|s| - 3..];
      var gh := Grouped(head);
      GroupingDropsOut(head);
      KeepNumericKeepsNumeric(tail);
      KeepNumericConcat(gh + ",", tail);
      KeepNumericConcat(gh, ",");
      assert KeepNumeric(",") == [];
      assert head + tail == s;
    }
  }

  /** `value.toFixed(2)`. */
  function ToFixed2(x: real): string
  {
    var c := CentMagnitude(x);
    (if x < 0.0 then "-" else "") + Numeral(c / 100) + "." + TwoDigits(c % 100)
  }

  /** `value.toLocaleString('en-US', {minimumFractionDigits: 2, maximumFractionDigits: 2})`. */
  function ToLocale2(x: real): string
  {
    var c := CentMagnitude(x);
    (if x < 0.0 then "-" else "") + Grouped(Numeral(c / 100)) + "." + TwoDigits(c % 100)
  }

  // ----- reading numbers -----

  /** parseFloat on text that holds only digits, points and minus signs: an
      optional minus sign, then an unsigned number read as the longest valid
      prefix. None stands for NaN. */
  function ParseFloat(t: string): Option<real>
  {
    if |t| > 0 && t[0] == '-' then
      match ParseUnsigned(t[1..])
      case None => None
      case Some(m) => Some(-m)
    else ParseUnsigned(t)
  }

  /** Digits, then an optional point followed by digits (the exponent letter
      is already gone); at least one digit is needed on one side of the point. */
  function ParseUnsigned(u: string): Option<real>
  {
    ScanWhole(u, 0, false)
  }

  /** Reads the digits before the point, one character at a time: acc is the
      value of the digits read so far, seen whether there was one. A point
      counts only with a digit on one side of it. */
  function ScanWhole(u: string, acc: nat, seen: bool): Option<real>
    decreases |u|
  {
    if u != [] && IsDigit(u[0]) then ScanWhole(u[1..], acc * 10 + DigitValue(u[0]), true)
    else if u != [] && u[0] == '.' && (seen || (|u| > 1 && IsDigit(u[1]))) then
      Some(acc as real + LeadingFraction(u[1..]))
    else if seen then Some(acc as real)
    else None
  }

  /** The value of the run of digits at the start of u, read as digits after a point. */
  function LeadingFraction(u: string): real
    decreases |u|
  {
    if u != [] && IsDigit(u[0]) then (DigitValue(u[0]) as real + LeadingFraction(u[1..])) / 10.0
    else 0.0
  }

  /** getFieldValue on an element that exists: blank text and text that is
      not a number read as 0. */
  function ParseFieldText(s: string): real
  {
    if IsBlank(s) then 0.0
    else match ParseFloat(KeepNumeric(s))
      case None => 0.0
      case Some(v) => v
  }

  lemma {:induction false} KeepNumericNoDigits(s: string)
    requires forall i :: 0 <= i < |s| ==> !IsDigit(s[i])
    ensures forall i :: 0 <= i < |KeepNumeric(s)| ==> !IsDigit(KeepNumeric(s)[i])
  {
    if s != [] {
      KeepNumericNoDigits(s[1..]);
    }
  }

  /** Text without a single digit reads as 0, whatever else it holds. */
  lemma TextWithoutDigitsReadsZero(s: string)
    requires forall i :: 0 <= i < |s| ==> !IsDigit(s[i])
    ensures ParseFieldText(s) == 0.0
  {
    KeepNumericNoDigits(s);
  }

  /** Scanning a run of digits accumulates its value. */
  lemma {:induction false} ScanWholeDigits(d: string, rest: string, seen: bool)
    requires |d| > 0 && AllDigits(d)
    ensures ScanWhole(d + rest, 0, seen) == ScanWhole(rest, DigitsValue(d), true)
    decreases |d|
  {
    var init, last := d[..|d| - 1], d[|d| - 1];
    assert d + rest == init + ([last] + rest);
    if init == [] {
      assert ([last] + rest)[1..] == rest;
    } else {
      ScanWholeDigits(init, [last] + rest, seen);
      assert ([last] + rest)[1..] == rest;
    }
  }

  /** Fraction digits that run to the end of the text are read whole. */
  lemma {:induction false} LeadingFractionOfDigits(f: string)
    requires AllDigits(f)
    ensures LeadingFraction(f) == FractionValue(f)
    decreases |f|
  {
    if f != [] {
      LeadingFractionOfDigits(f[1..]);
    }
  }

  /** A point followed by fraction digits adds their value to the whole part read so far. */
  lemma ScanPointFraction(fraction: string, whole: nat)
    requires AllDigits(fraction)
    ensures ScanWhole("." + fraction, whole, true) == Some(whole as real + FractionValue(fraction))
  {
    var u := "." + fraction;
    assert u[0] == '.' && !IsDigit(u[0]) && u[1..] == fraction;
    LeadingFractionOfDigits(fraction);
  }

  /** What parseFloat makes of whole digits, a point and fraction digits. */
  lemma ParseUnsignedRendered(whole: string, fraction: string)
    requires |whole| > 0 && AllDigits(whole) && AllDigits(fraction)
    ensures ParseUnsigned(whole + "." + fraction)
         == Some(DigitsValue(whole) as real + FractionValue(fraction))
  {
    var u := "." + fraction;
    assert whole + "." + fraction == whole + u;
    ScanWholeDigits(whole, u, false);
    ScanPointFraction(fraction, DigitsValue(whole));
  }

  /** The digits, point and fraction that a rendering of x keeps once its
      commas are dropped. */
  function RenderedDigits(x: real): string
  {
    var c := CentMagnitude(x);
    Numeral(c / 100) + "." + TwoDigits(c % 100)
  }

  lemma RenderedDigitsValue(x: real)
    ensures ParseUnsigned(RenderedDigits(x)) == Some(CentMagnitude(x) as real / 100.0)
    ensures IsDigit(RenderedDigits(x)[0])
  {
    var c := CentMagnitude(x);
    ParseUnsignedRendered(Numeral(c / 100), TwoDigits(c % 100));
    assert (c / 100) * 100 + c % 100 == c;
  }

  /** Reading back text whose numeric characters are those of a rendering of
      x, signed as x is, gives x rounded to cents. */
  lemma RenderedReadsBack(x: real, text: string)
    requires !IsBlank(text)
    requires KeepNumeric(text) == (if x < 0.0 then "-" else "") + RenderedDigits(x)
    ensures ParseFieldText(text) == Cents(x)
  {
    RenderedDigitsValue(x);
    var d := RenderedDigits(x);
    var m := CentMagnitude(x) as real / 100.0;
    if x < 0.0 {
      assert ("-" + d)[0] == '-' && ("-" + d)[1..] == d;
      assert ParseFloat(KeepNumeric(text)) == Some(-m);
    } else {
      assert KeepNumeric(text) == d;
      assert ParseFloat(d) == Some(m);
    }
  }

  /** Two-decimal text built from an optional minus sign, a run of characters
      whose numeric ones are the digits n, a point and fraction digits f keeps
      exactly the sign, n, the point and f, and is not blank. */
  lemma RenderingKeeps(sign: string, text: string, n: string, f: string)
    requires sign == "" || sign == "-"
    requires KeepNumeric(text) == n && AllDigits(f)
    ensures KeepNumeric(sign + text + "." + f) == sign + (n + "." + f)
    ensures !IsBlank(sign + text + "." + f)
  {
    var t := sign + text + "." + f;
    assert t[|sign + text|] == '.';
    FilteredRendering(sign, text, n, f);
    Regrouped(sign, n, ".", f);
  }

  /** The filter keeps the sign, the digits of the whole part, the point and
      the fraction digits. */
  lemma FilteredRendering(sign: string, text: string, n: string, f: string)
    requires sign == "" || sign == "-"
    requires KeepNumeric(text) == n && AllDigits(f)
    ensures KeepNumeric(sign + text + "." + f) == sign + n + "." + f
  {
    KeepNumericConcat(sign + text + ".", f);
    KeepNumericConcat(sign + text, ".");
    KeepNumericConcat(sign, text);
    KeepNumericKeepsNumeric(sign);
    KeepNumericKeepsNumeric(".");
    KeepNumericKeepsNumeric(f);
  }

  lemma Regrouped(a: string, b: string, c: string, d: string)
    ensures a + b + c + d == a + (b + c + d)
  {
  }

  /** Reading back `toFixed(2)` text gives the value rounded to cents. */
  lemma ToFixed2ReadsBack(x: real)
    ensures ParseFieldText(ToFixed2(x)) == Cents(x)
  {
    var c := CentMagnitude(x);
    var sign: string := if x < 0.0 then "-" else "";
    var n, f := Numeral(c / 100), TwoDigits(c % 100);
    KeepNumericKeepsNumeric(n);
    RenderingKeeps(sign, n, n, f);
    RenderedReadsBack(x, ToFixed2(x));
  }

  /** Reading back comma-grouped two-decimal text gives the value rounded to cents. */
  lemma ToLocale2ReadsBack(x: real)
    ensures ParseFieldText(ToLocale2(x)) == Cents(x)
  {
    var c := CentMagnitude(x);
    var sign: string := if x < 0.0 then "-" else "";
    var n, f := Numeral(c / 100), TwoDigits(c % 100);
    GroupingDropsOut(n);
    RenderingKeeps(sign, Grouped(n), n, f);
    RenderedReadsBack(x, ToLocale2(x));
  }
}
