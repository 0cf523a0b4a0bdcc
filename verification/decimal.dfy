/**
 * Decimal integer literals as the PUT handler reads and writes them: a literal is an
 * optional sign followed by one or more ASCII digits (the ASCII subset of what
 * `int(token)` accepts), and an integer is printed the way `str(int)` prints it.
 *
 * Besides the parser and the printer this module defines the CANONICAL form of a literal
 * on strings alone (sign dropped when it is `+` or the value is zero, leading zeros
 * dropped), so that "print what was parsed" can be stated without mentioning integers.
 */
module Decimal {

  datatype Option<T> = None | Some(value: T)

  predicate IsDigit(c: char) {
    '0' <= c <= '9'
  }

  predicate AllDigits(s: string) {
    forall i :: 0 <= i < |s| ==> IsDigit(s[i])
  }

  function DigitValue(c: char): (d: nat)
    requires IsDigit(c)
    ensures d < 10
  {
    (c as int) - ('0' as int)
  }

  function DigitChar(d: nat): (c: char)
    requires d < 10
    ensures IsDigit(c) && DigitValue(c) == d
  {
    (('0' as int) + d) as char
  }

  /** The value of a run of digits, most significant digit first (the empty run is 0). */
  function DigitsValue(s: string): nat
    requires AllDigits(s)
    decreases |s|
  {
    if s == [] then 0 else 10 * DigitsValue(s[..|s| - 1]) + DigitValue(s[|s| - 1])
  }

  /** A literal the PUT handler accepts: `[+-]?[0-9]+`. */
  predicate IsIntLiteral(s: string) {
    if |s| > 0 && (s[0] == '+' || s[0] == '-') then |s| > 1 && AllDigits(s[1..])
    else |s| > 0 && AllDigits(s)
  }

  /** A digit run without superfluous leading zeros. */
  predicate IsCanonicalDigits(s: string) {
    |s| > 0 && AllDigits(s) && (s[0] != '0' || |s| == 1)
  }

  /** A literal as `str(int)` prints it: no `+`, no leading zeros, no `-0`. */
  predicate IsCanonicalInt(s: string) {
    IsCanonicalDigits(s) || (|s| > 1 && s[0] == '-' && IsCanonicalDigits(s[1..]) && s[1] != '0')
  }

  /** `int(s)` restricted to ASCII literals; `None` stands for the `ValueError`. */
  function ParseInt(s: string): (r: Option<int>)
    ensures r.Some? <==> IsIntLiteral(s)
  {
    if !IsIntLiteral(s) then None
    else if s[0] == '-' then Some(-(DigitsValue(s[1..]) as int))
    else if s[0] == '+' then Some(DigitsValue(s[1..]))
    else Some(DigitsValue(s))
  }

  /** `str(n)` for a non-negative `n`; its contract is the round trip through `DigitsValue`. */
  function NatToString(n: nat): (s: string)
    ensures IsCanonicalDigits(s)
    ensures DigitsValue(s) == n
    decreases n
  {
    if n < 10 then [DigitChar(n)]
    else
      var s := NatToString(n / 10) + [DigitChar(n % 10)];
      assert s[..|s| - 1] == NatToString(n / 10);
      s
  }

  /** `str(n)` for any integer: the parser reads back `n`, and the text is canonical. */
  function IntToString(n: int): (s: string)
    ensures ParseInt(s) == Some(n)
    ensures IsCanonicalInt(s)
  {
    if n < 0 then
      var s := "-" + NatToString(-n);
      assert s[1..] == NatToString(-n);
      s
    else NatToString(n)
  }

  lemma {:induction false} LeadingZero(r: string)
    requires AllDigits(r)
    ensures AllDigits("0" + r) && DigitsValue("0" + r) == DigitsValue(r)
    decreases |r|
  {
    var s := "0" + r;
    if r != [] {
      var q := r[..|r| - 1];
      assert s[..|s| - 1] == "0" + q;
      LeadingZero(q);
    }
  }

  lemma {:induction false} FirstDigitPositive(s: string)
    requires |s| > 0 && AllDigits(s) && s[0] != '0'
    ensures DigitsValue(s) > 0
    decreases |s|
  {
    if |s| > 1 {
      FirstDigitPositive(s[..|s| - 1]);
    }
  }

  /** Leading zeros dropped, keeping at least one digit; the value is unchanged. */
  function StripZeros(d: string): (r: string)
    requires |d| > 0 && AllDigits(d)
    ensures IsCanonicalDigits(r)
    ensures DigitsValue(r) == DigitsValue(d)
    decreases |d|
  {
    if |d| > 1 && d[0] == '0' then
      assert d == "0" + d[1..];
      LeadingZero(d[1..]);
      StripZeros(d[1..])
    else d
  }

  /** The canonical spelling of an accepted literal, defined on the text alone. */
  function Canonical(t: string): (r: string)
    requires IsIntLiteral(t)
    ensures IsCanonicalInt(r)
  {
    if t[0] == '-' then
      var d := StripZeros(t[1..]);
      if d == "0" then d else "-" + d
    else if t[0] == '+' then StripZeros(t[1..])
    else StripZeros(t)
  }

  /** A canonical digit run is exactly what the printer produces for its value. */
  lemma {:induction false} CanonicalDigitsRoundTrip(d: string)
    requires IsCanonicalDigits(d)
    ensures NatToString(DigitsValue(d)) == d
    decreases |d|
  {
    if |d| > 1 {
      var p := d[..|d| - 1];
      var c := d[|d| - 1];
      assert d == p + [c];
      FirstDigitPositive(p);
      CanonicalDigitsRoundTrip(p);
      var n := DigitsValue(d);
      assert n == 10 * DigitsValue(p) + DigitValue(c);
      assert n / 10 == DigitsValue(p) && n % 10 == DigitValue(c);
    }
  }

  /** Printing what was parsed yields the canonical spelling of the literal. */
  lemma ParsePrintIsCanonical(t: string)
    requires IsIntLiteral(t)
    ensures IntToString(ParseInt(t).value) == Canonical(t)
  {
    var d := if t[0] == '-' || t[0] == '+' then t[1..] else t;
    var z := StripZeros(d);
    CanonicalDigitsRoundTrip(z);
    if t[0] == '-' && DigitsValue(d) > 0 {
      assert z != "0";
    }
  }

  lemma NegativeRoundTrip(s: string)
    requires |s| > 1 && s[0] == '-' && IsCanonicalDigits(s[1..]) && s[1] != '0'
    ensures ParseInt(s) == Some(-(DigitsValue(s[1..]) as int)) && IntToString(-(DigitsValue(s[1..]) as int)) == s
  {
    var d := s[1..];
    FirstDigitPositive(d);
    CanonicalDigitsRoundTrip(d);
    assert s == "-" + d;
  }

  /** Canonical literals are fixed by parse-then-print, so the two are inverse bijections. */
  lemma CanonicalRoundTrip(s: string)
    requires IsCanonicalInt(s)
    ensures ParseInt(s).Some? && IntToString(ParseInt(s).value) == s
  {
    if IsCanonicalDigits(s) {
      CanonicalDigitsRoundTrip(s);
    } else {
      NegativeRoundTrip(s);
    }
  }

  /** Two literals denote the same integer exactly when their canonical spellings agree. */
  lemma SameValueIffSameCanonical(s: string, t: string)
    requires IsIntLiteral(s) && IsIntLiteral(t)
    ensures ParseInt(s) == ParseInt(t) <==> Canonical(s) == Canonical(t)
  {
    ParsePrintIsCanonical(s);
    ParsePrintIsCanonical(t);
    var cs := Canonical(s);
    var ct := Canonical(t);
    CanonicalRoundTrip(cs);
    CanonicalRoundTrip(ct);
  }
}
