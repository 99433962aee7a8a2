/**
 * Python's `int(s)` on a string, restricted to ASCII: surrounding whitespace is
 * stripped, one optional sign is accepted, and the digits may be grouped with
 * single underscores ("1_000"). Leading zeros are allowed. Anything else is a
 * ValueError, modelled as None.
 */
module IntParse {
  import opened Wrappers

  predicate IsDigit(c: char) { '0' <= c <= '9' }

  function DigitValue(c: char): nat
    requires IsDigit(c)
  {
    (c as int) - ('0' as int)
  }

  function DigitChar(d: nat): (c: char)
    requires d < 10
    ensures IsDigit(c) && DigitValue(c) == d
  {
    ('0' as int + d) as char
  }

  /** The ASCII characters Python treats as whitespace around an integer literal. */
  predicate IsSpace(c: char) {
    c == ' ' || ('\t' <= c <= '\r') || (28 <= c as int <= 31)
  }

  function StripLeft(s: string): (r: string)
    ensures |r| <= |s| && r == s[|s| - |r|..]
    ensures r == [] || !IsSpace(r[0])
  {
    if s != [] && IsSpace(s[0]) then StripLeft(s[1..]) else s
  }

  function StripRight(s: string): (r: string)
    ensures |r| <= |s| && r == s[..|r|]
    ensures r == [] || !IsSpace(r[|r| - 1])
  {
    if s != [] && IsSpace(s[|s| - 1]) then StripRight(s[..|s| - 1]) else s
  }

  function Strip(s: string): string {
    StripRight(StripLeft(s))
  }

  /** Digits in groups separated by single underscores, starting and ending with a digit. */
  predicate Grouped(b: string)
    decreases |b|
  {
    |b| > 0 && IsDigit(b[0]) &&
    (|b| == 1 || (if b[1] == '_' then Grouped(b[2..]) else Grouped(b[1..])))
  }

  /** The value of a digit string, underscores ignored. */
  function DigitsValue(b: string): nat
  {
    if b == [] then 0
    else if IsDigit(b[|b| - 1]) then 10 * DigitsValue(b[..|b| - 1]) + DigitValue(b[|b| - 1])
    else DigitsValue(b[..|b| - 1])
  }

  function ParseInt(s: string): Option<int>
  {
    var t := Strip(s);
    if t == [] then None
    else
      var negative := t[0] == '-';
      var body := if t[0] == '-' || t[0] == '+' then t[1..] else t;
      if !Grouped(body) then None
      else if negative then Some(-(DigitsValue(body) as int))
      else Some(DigitsValue(body))
  }

  /** Decimal digits of a natural number, most significant first. */
  function NatDigits(n: nat): (r: string)
    ensures |r| > 0 && forall i :: 0 <= i < |r| ==> IsDigit(r[i])
  {
    if n < 10 then [DigitChar(n)] else NatDigits(n / 10) + [DigitChar(n % 10)]
  }

  /** Python's `str(n)` for an integer. */
  function DecimalString(n: int): string {
    if n < 0 then "-" + NatDigits(-n) else NatDigits(n)
  }

  lemma {:induction false} NatDigitsValue(n: nat)
    ensures DigitsValue(NatDigits(n)) == n
  {
    if n >= 10 {
      var r := NatDigits(n);
      assert r[..|r| - 1] == NatDigits(n / 10);
      NatDigitsValue(n / 10);
    }
  }

  lemma {:induction false} AllDigitsGrouped(b: string)
    requires |b| > 0 && forall i :: 0 <= i < |b| ==> IsDigit(b[i])
    ensures Grouped(b)
  {
    if |b| > 1 {
      assert b[1] != '_' by { assert IsDigit(b[1]); }
      AllDigitsGrouped(b[1..]);
    }
  }

  /** `int(str(n)) == n`: every integer's decimal form parses back to it. */
  lemma ParseDecimalString(n: int)
    ensures ParseInt(DecimalString(n)) == Some(n)
  {
    var s := DecimalString(n);
    var digits := if n < 0 then NatDigits(-n) else NatDigits(n);
    assert !IsSpace(s[0]) && !IsSpace(s[|s| - 1]);
    assert Strip(s) == s;
    AllDigitsGrouped(digits);
    NatDigitsValue(if n < 0 then -n else n);
    if n < 0 {
      assert s[1..] == digits;
    }
  }
}
