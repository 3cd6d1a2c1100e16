/** Decimal text for numbers, shared by the viewer's displays and the
    add-on's preference sanitisers: JavaScript's `String(n)` / Python's
    `str(n)` on integers, `padStart(2, '0')`, `toFixed(1)`, and the
    optionally signed decimal strings that Python's `int()` accepts,
    together with the parsers that invert them; and the case of ASCII
    letters. */
module Text {
  import opened Common

  predicate IsDigit(c: char) {
    '0' <= c <= '9'
  }

  predicate AllDigits(s: string) {
    forall i :: 0 <= i < |s| ==> IsDigit(s[i])
  }

  function DigitChar(d: nat): (c: char)
    requires d < 10
    ensures IsDigit(c) && c as int - '0' as int == d
  {
    (d + '0' as int) as char
  }

  function DigitValue(c: char): (d: nat)
    requires IsDigit(c)
    ensures d < 10
  {
    c as int - '0' as int
  }

  /** Decimal digits of `n`, most significant first, no leading zero. */
  function NatToString(n: nat): (s: string)
    ensures 1 <= |s| && AllDigits(s)
    ensures s[0] != '0' || n == 0
    decreases n
  {
    if n < 10 then [DigitChar(n)] else NatToString(n / 10) + [DigitChar(n % 10)]
  }

  /** The value of a string of decimal digits (0 for the empty string). */
  function DigitsValue(s: string): nat
    requires AllDigits(s)
  {
    if |s| == 0 then 0 else DigitsValue(s[..|s| - 1]) * 10 + DigitValue(s[|s| - 1])
  }

  lemma {:induction false} DigitsValueOfNatToString(n: nat)
    ensures DigitsValue(NatToString(n)) == n
    decreases n
  {
    if n >= 10 {
      var s := NatToString(n);
      assert s[..|s| - 1] == NatToString(n / 10);
      DigitsValueOfNatToString(n / 10);
    }
  }

  /** `String(n)` / `str(n)` for an integer. */
  function IntToString(n: int): string {
    if n < 0 then "-" + NatToString(-n) else NatToString(n)
  }

  /** Decimal digits, with one optional leading sign, read as an integer;
      `None` for anything else (the subset of Python's `int()` grammar
      modelled here: no surrounding spaces, no underscores). */
  function ParseInt(s: string): (r: Option<int>)
    ensures r.Some? ==> 1 <= |s|
  {
    if |s| > 0 && (s[0] == '+' || s[0] == '-') then
      var body := s[1..];
      if |body| > 0 && AllDigits(body) then
        var magnitude: int := DigitsValue(body);
        Some(if s[0] == '-' then -magnitude else magnitude)
      else None
    else if |s| > 0 && AllDigits(s) then Some(DigitsValue(s))
    else None
  }

  lemma ParseIntOfIntToString(n: int)
    ensures ParseInt(IntToString(n)) == Some(n)
  {
    if n < 0 {
      ParseNegative(n);
    } else {
      ParseNonNegative(n);
    }
  }

  lemma ParseNegative(n: int)
    requires n < 0
    ensures ParseInt(IntToString(n)) == Some(n)
  {
    var digits := NatToString(-n);
    DigitsValueOfNatToString(-n);
    var s := "-" + digits;
    assert s[0] == '-' && s[1..] == digits;
    assert IntToString(n) == s;
  }

  lemma ParseNonNegative(n: int)
    requires n >= 0
    ensures ParseInt(IntToString(n)) == Some(n)
  {
    DigitsValueOfNatToString(n);
    assert IntToString(n)[0] != '-' && IntToString(n)[0] != '+';
  }

  /** `s.padStart(2, '0')`. */
  function PadStart2(s: string): (r: string)
    ensures |s| >= 2 ==> r == s
    ensures |s| < 2 ==> |r| == 2 && r[2 - |s|..] == s && forall i :: 0 <= i < 2 - |s| ==> r[i] == '0'
  {
    if |s| >= 2 then s else if |s| == 1 then "0" + s else "00"
  }

  /** `value.toFixed(1)` on a number: round to the nearest tenth (a tie goes
      to the larger magnitude), and a minus sign for a negative value. */
  function Fixed1(v: real): string {
    if v < 0.0 then "-" + Fixed1Magnitude(-v) else Fixed1Magnitude(v)
  }

  /** The number of tenths `toFixed(1)` prints for a non-negative value. */
  function Tenths(a: real): nat
    requires a >= 0.0
  {
    (a * 10.0 + 0.5).Floor
  }

  function Fixed1Magnitude(a: real): string
    requires a >= 0.0
  {
    var n := Tenths(a);
    NatToString(n / 10) + "." + [DigitChar(n % 10)]
  }

  /** The value `toFixed(1)` stands for. */
  function Rounded1(v: real): real {
    if v < 0.0 then -(Tenths(-v) as real / 10.0) else Tenths(v) as real / 10.0
  }

  /** Reads back "d…d.d" with an optional leading '-'. */
  function ParseFixed1(s: string): Option<real> {
    if |s| > 0 && s[0] == '-' then
      match ParseFixed1Magnitude(s[1..])
      case Some(a) => Some(-a)
      case None => None
    else ParseFixed1Magnitude(s)
  }

  function ParseFixed1Magnitude(s: string): Option<real> {
    if |s| >= 3 && s[|s| - 2] == '.' && AllDigits(s[..|s| - 2]) && IsDigit(s[|s| - 1]) then
      Some((DigitsValue(s[..|s| - 2]) * 10 + DigitValue(s[|s| - 1])) as real / 10.0)
    else None
  }

  /** `toFixed(1)` prints its value rounded to a tenth, within half a tenth. */
  lemma Fixed1RoundTrip(v: real)
    ensures ParseFixed1(Fixed1(v)) == Some(Rounded1(v))
    ensures -0.05 <= v - Rounded1(v) <= 0.05
  {
    var a := if v < 0.0 then -v else v;
    var n := Tenths(a);
    var m := Fixed1Magnitude(a);
    var head := NatToString(n / 10);
    assert m == head + "." + [DigitChar(n % 10)];
    assert m[..|m| - 2] == head;
    DigitsValueOfNatToString(n / 10);
    assert ParseFixed1Magnitude(m) == Some(n as real / 10.0);
    if v < 0.0 {
      assert Fixed1(v)[1..] == m;
    } else {
      assert m[0] != '-';
    }
  }

  predicate IsUpper(c: char) {
    'A' <= c <= 'Z'
  }

  predicate IsLower(c: char) {
    'a' <= c <= 'z'
  }

  /** `isalpha()` on an ASCII character. */
  predicate IsAlpha(c: char) {
    IsUpper(c) || IsLower(c)
  }

  /** `lower()` on one character: an ASCII capital becomes small, anything else is kept. */
  function LowerChar(c: char): (r: char)
    ensures !IsUpper(r)
    ensures IsAlpha(c) <==> IsLower(r)
    ensures !IsUpper(c) ==> r == c
  {
    if IsUpper(c) then (c as int + 32) as char else c
  }

  /** `upper()` on one character: an ASCII small letter becomes capital, anything else is kept. */
  function UpperChar(c: char): (r: char)
    ensures !IsLower(r)
    ensures IsAlpha(c) <==> IsUpper(r)
    ensures !IsLower(c) ==> r == c
  {
    if IsLower(c) then (c as int - 32) as char else c
  }

  /** Changing the case of a letter and changing it back gives the letter. */
  lemma CaseRoundTrip(c: char)
    ensures IsLower(c) ==> LowerChar(UpperChar(c)) == c
    ensures IsUpper(c) ==> UpperChar(LowerChar(c)) == c
  {
  }
}
