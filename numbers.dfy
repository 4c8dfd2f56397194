/**
 * Decimal text and numbers: the `${n}` rendering of a whole number and the
 * `Number(text)` conversion that the bid form applies to what was typed.
 * Numbers are exact reals here; `NaN` is `None`.
 */
module Numbers {
  import opened Options
  import opened Text

  predicate IsDigit(c: char) {
    '0' <= c <= '9'
  }

  predicate AllDigits(s: string) {
    forall i :: 0 <= i < |s| ==> IsDigit(s[i])
  }

  function DigitChar(d: nat): (c: char)
    requires d < 10
    ensures IsDigit(c)
  {
    ('0' as int + d) as char
  }

  function DigitValue(c: char): (d: nat)
    requires IsDigit(c)
    ensures d < 10
  {
    c as int - '0' as int
  }

  /** The value of a run of decimal digits, most significant first. */
  function DigitsValue(s: string): nat
    requires AllDigits(s)
  {
    if s == [] then 0 else DigitsValue(s[..|s| - 1]) * 10 + DigitValue(s[|s| - 1])
  }

  function Pow10(e: nat): (p: nat)
    ensures p >= 1
  {
    if e == 0 then 1 else 10 * Pow10(e - 1)
  }

  /** How JavaScript writes a whole number: its shortest decimal digits. */
  function NatToString(n: nat): (s: string)
    ensures s != [] && AllDigits(s)
    ensures s[0] == '0' ==> n == 0
  {
    if n < 10 then [DigitChar(n)] else NatToString(n / 10) + [DigitChar(n % 10)]
  }

  /** How JavaScript writes an integer, as in a request path: text that `Number` reads back as the integer. */
  function IntToString(i: int): (s: string)
    ensures s != []
    ensures ParseNumber(s) == Some(i as real)
  {
    if i < 0 then
      NegatedNatToStringParses(-i);
      "-" + NatToString(-i)
    else
      NatToStringParses(i);
      NatToString(i)
  }

  /** Reading back the digits of a whole number gives the number. */
  lemma {:induction false} NatToStringRoundTrip(n: nat)
    ensures DigitsValue(NatToString(n)) == n
  {
    if n >= 10 {
      var p := NatToString(n / 10);
      var s := NatToString(n);
      assert s == p + [DigitChar(n % 10)];
      assert s[..|s| - 1] == p;
      NatToStringRoundTrip(n / 10);
    }
  }

  /** Number of leading decimal digits of `s`. */
  function LeadingDigits(s: string): (n: nat)
    ensures n <= |s| && AllDigits(s[..n])
    ensures n < |s| ==> !IsDigit(s[n])
  {
    if s != [] && IsDigit(s[0]) then
      var m := LeadingDigits(s[1..]);
      assert s[..1 + m] == [s[0]] + s[1..][..m];
      1 + m
    else 0
  }

  /** An exponent part `e`/`E`, optional sign, digits, applied to `mantissa`; the empty tail leaves it alone. */
  function ApplyExponent(mantissa: real, tail: string): Option<real> {
    if tail == [] then Some(mantissa)
    else if tail[0] != 'e' && tail[0] != 'E' then None
    else
      var negative := |tail| > 1 && tail[1] == '-';
      var digits := if |tail| > 1 && (tail[1] == '+' || tail[1] == '-') then tail[2..] else tail[1..];
      if digits == [] || !AllDigits(digits) then None
      else
        var scale := Pow10(DigitsValue(digits)) as real;
        Some(if negative then mantissa / scale else mantissa * scale)
  }

  /** An unsigned decimal literal: `digits`, `digits.`, `digits.digits` or `.digits`, then an optional exponent. */
  function ParseUnsigned(t: string): Option<real> {
    var n := LeadingDigits(t);
    var whole := DigitsValue(t[..n]) as real;
    if n < |t| && t[n] == '.' then
      var rest := t[n + 1..];
      var m := LeadingDigits(rest);
      if n == 0 && m == 0 then None
      else ApplyExponent(whole + DigitsValue(rest[..m]) as real / Pow10(m) as real, rest[m..])
    else if n == 0 then None
    else ApplyExponent(whole, t[n..])
  }

  /**
   * `Number(s)`: surrounding white space is ignored, blank text is 0, an
   * optional sign precedes an unsigned decimal literal, anything else is NaN.
   */
  function ParseNumber(s: string): (r: Option<real>)
    ensures AllWhitespace(s) ==> r == Some(0.0)
  {
    var t := Trim(s);
    if t == [] then Some(0.0)
    else if t[0] == '-' then
      match ParseUnsigned(t[1..])
      case Some(v) => Some(-v)
      case None => None
    else if t[0] == '+' then ParseUnsigned(t[1..])
    else ParseUnsigned(t)
  }

  lemma AllDigitsIsTrimmed(s: string)
    requires AllDigits(s)
    ensures IsTrimmed(s)
  {
  }

  /** The digits of a whole number read as that number. */
  lemma NatToStringParses(n: nat)
    ensures ParseNumber(NatToString(n)) == Some(n as real)
  {
    var s := NatToString(n);
    AllDigitsIsTrimmed(s);
    TrimOfTrimmed(s);
    assert s[..|s|] == s;
    NatToStringRoundTrip(n);
  }

  /** A minus sign before the digits of a whole number negates it. */
  lemma NegatedNatToStringParses(n: nat)
    ensures ParseNumber("-" + NatToString(n)) == Some(-(n as real))
  {
    var d := NatToString(n);
    var s := "-" + d;
    assert IsTrimmed(s);
    TrimOfTrimmed(s);
    assert s[1..] == d;
    assert d[..|d|] == d;
    NatToStringRoundTrip(n);
  }
}
