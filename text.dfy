/** The text conversions the health checker's f-strings perform: `str` of a non-negative
    integer, `repr` of a float that has been rounded to two decimals, and a search for the
    first occurrence of a character (used by the log-entry parser). */
module Text {
  import opened Wrappers

  predicate IsDigit(c: char) {
    '0' <= c <= '9'
  }

  predicate IsDigits(s: string) {
    forall i :: 0 <= i < |s| ==> IsDigit(s[i])
  }

  /** A numeral as `str(n)` prints it: non-empty, digits only, no leading zero unless it is "0". */
  predicate IsCanonical(s: string) {
    |s| > 0 && IsDigits(s) && (|s| > 1 ==> s[0] != '0')
  }

  function DigitChar(d: nat): (c: char)
    requires d < 10
    ensures IsDigit(c)
  {
    ('0' as int + d) as char
  }

  function DigitValue(c: char): (d: nat)
    requires IsDigit(c)
    ensures d < 10
  {
    c as int - '0' as int
  }

  /** `str(n)` for a non-negative integer. */
  function NatToDecimal(n: nat): (s: string)
    ensures IsCanonical(s)
    ensures s[0] == '0' <==> n == 0
    decreases n
  {
    if n < 10 then [DigitChar(n)] else NatToDecimal(n / 10) + [DigitChar(n % 10)]
  }

  /** The value of a string of decimal digits (`int(s)`). */
  function DecimalValue(s: string): nat
    requires IsDigits(s)
    decreases |s|
  {
    if s == [] then 0 else 10 * DecimalValue(s[..|s| - 1]) + DigitValue(s[|s| - 1])
  }

  /** Printing a number and reading it back gives the number. */
  lemma {:induction false} DecimalRoundTrip(n: nat)
    ensures DecimalValue(NatToDecimal(n)) == n
    decreases n
  {
    if n >= 10 {
      DecimalRoundTrip(n / 10);
      var s := NatToDecimal(n);
      assert s[..|s| - 1] == NatToDecimal(n / 10);
    }
  }

  lemma {:induction false} LeadingDigitPositive(s: string)
    requires |s| > 0 && IsDigits(s) && s[0] != '0'
    ensures DecimalValue(s) > 0
    decreases |s|
  {
    if |s| > 1 {
      var p := s[..|s| - 1];
      assert p[0] == s[0];
      LeadingDigitPositive(p);
    }
  }

  /** Every canonical numeral is the printed form of its value: printing is onto the
      canonical numerals, so the two conversions are inverse bijections. */
  lemma {:induction false} CanonicalRoundTrip(s: string)
    requires IsCanonical(s)
    ensures NatToDecimal(DecimalValue(s)) == s
    decreases |s|
  {
    var last := s[|s| - 1];
    if |s| == 1 {
      assert DecimalValue(s) == DigitValue(last);
      assert DigitChar(DigitValue(last)) == last;
    } else {
      var p := s[..|s| - 1];
      assert p[0] == s[0];
      LeadingDigitPositive(p);
      CanonicalRoundTrip(p);
      var n := DecimalValue(s);
      assert n / 10 == DecimalValue(p) && n % 10 == DigitValue(last);
      assert DigitChar(DigitValue(last)) == last;
      assert s == p + [last];
    }
  }

  /** `suffix` is the end of `s`. */
  predicate EndsWith(s: string, suffix: string) {
    |suffix| <= |s| && s[|s| - |suffix|..] == suffix
  }

  /** Both parts of a concatenation are found at its ends. */
  lemma ConcatEnds(a: string, b: string)
    ensures a <= a + b && EndsWith(a + b, b)
  {
    assert (a + b)[..|a|] == a;
    assert (a + b)[|a|..] == b;
  }

  /** Concatenation is associative. */
  lemma ConcatAssoc(a: string, b: string, c: string)
    ensures a + b + c == a + (b + c)
  {
  }

  /** Where the parts of a four-part concatenation sit. */
  lemma ConcatFour(a: string, b: string, c: string, d: string)
    ensures a <= a + b + c + d && a + b <= a + b + c + d
    ensures EndsWith(a + b + c + d, d) && EndsWith(a + b + c + d, c + d)
  {
    ConcatAssoc(a + b, c, d);
    ConcatEnds(a + b, c + d);
    ConcatEnds(a + b + c, d);
    ConcatAssoc(a, b, c + d);
    ConcatEnds(a, b + (c + d));
  }

  /** Where the parts of a right-nested concatenation sit. */
  lemma ConcatNested(a: string, b: string, c: string, d: string, e: string)
    ensures a + b + c + d <= a + (b + (c + (d + e)))
    ensures EndsWith(a + (b + (c + (d + e))), e)
  {
    ConcatAssoc(c, d, e);
    ConcatAssoc(b, c + d, e);
    ConcatAssoc(a, b + (c + d), e);
    ConcatAssoc(b, c, d);
    ConcatAssoc(a, b, c + d);
    ConcatAssoc(a + b, c, d);
    ConcatEnds(a + b + c + d, e);
  }

  /** Equal texts with a common prefix agree after it. */
  lemma DropPrefix(p: string, x: string, y: string)
    requires p + x == p + y
    ensures x == y
  {
    assert x == (p + x)[|p|..];
    assert y == (p + y)[|p|..];
  }

  /** The first position of `c` in `s`, if any. */
  function IndexOf(s: string, c: char): (k: Option<nat>)
    ensures k.Some? ==> k.value < |s| && s[k.value] == c && c !in s[..k.value]
    ensures k.None? <==> c !in s
  {
    if s == [] then None
    else if s[0] == c then Some(0)
    else
      match IndexOf(s[1..], c)
      case None => None
      case Some(j) =>
        assert s[..j + 1] == [s[0]] + s[1..][..j];
        Some(j + 1)
  }

  /** A character that does not occur in `a` is first found right after `a`. */
  lemma IndexOfAfter(a: string, c: char, b: string)
    requires c !in a
    ensures IndexOf(a + [c] + b, c) == Some(|a|)
  {
    var s := a + [c] + b;
    assert s[|a|] == c;
    var k := IndexOf(s, c).value;
    assert forall j :: 0 <= j < |a| ==> s[j] == a[j];
    assert forall j :: |a| < j <= |s| ==> s[..j][|a|] == c;
  }

  /** The digits after the decimal point in Python's `repr` of a float with at most two
      decimals, given as hundredths `f`: "0" for none, no trailing zero otherwise. */
  function FractionDigits(f: nat): (s: string)
    requires f < 100
    ensures 1 <= |s| <= 2 && IsDigits(s)
  {
    if f % 10 == 0 then [DigitChar(f / 10)] else [DigitChar(f / 10), DigitChar(f % 10)]
  }

  /** `repr` of the float `h / 100` (a value already rounded to two decimals), e.g.
      12345 -> "123.45", 12340 -> "123.4", 12300 -> "123.0". */
  function TimeText(h: nat): (s: string)
    ensures ParseTime(s) == Some(h)
  {
    var whole := NatToDecimal(h / 100);
    var fraction := FractionDigits(h % 100);
    var s := whole + "." + fraction;
    assert '.' !in whole;
    IndexOfAfter(whole, '.', fraction);
    assert s[..|whole|] == whole && s[|whole| + 1..] == fraction;
    DecimalRoundTrip(h / 100);
    s
  }

  function FractionValue(s: string): nat
    requires 1 <= |s| <= 2 && IsDigits(s)
  {
    if |s| == 1 then 10 * DigitValue(s[0]) else 10 * DigitValue(s[0]) + DigitValue(s[1])
  }

  lemma FractionRoundTrip(s: string)
    requires 1 <= |s| <= 2 && IsDigits(s) && (|s| == 2 ==> s[1] != '0')
    ensures FractionValue(s) < 100 && FractionDigits(FractionValue(s)) == s
  {
    assert DigitChar(DigitValue(s[0])) == s[0];
    if |s| == 2 {
      assert DigitChar(DigitValue(s[1])) == s[1];
    }
  }

  /** Reads back a time printed by TimeText, in hundredths; None for any other text. */
  function ParseTime(s: string): Option<nat> {
    match IndexOf(s, '.')
    case None => None
    case Some(k) =>
      var whole := s[..k];
      var fraction := s[k + 1..];
      if IsCanonical(whole) && 1 <= |fraction| <= 2 && IsDigits(fraction)
         && (|fraction| == 2 ==> fraction[1] != '0')
      then Some(100 * DecimalValue(whole) + FractionValue(fraction))
      else None
  }

  /** Only printed times are read: whatever ParseTime accepts is exactly TimeText of its result. */
  lemma ParseTimeOnlyPrinted(s: string, h: nat)
    requires ParseTime(s) == Some(h)
    ensures TimeText(h) == s
  {
    var k := IndexOf(s, '.').value;
    var whole := s[..k];
    var fraction := s[k + 1..];
    CanonicalRoundTrip(whole);
    var w := DecimalValue(whole);
    var f := FractionValue(fraction);
    assert h / 100 == w && h % 100 == f;
    FractionRoundTrip(fraction);
    assert s == whole + "." + fraction;
  }
}
