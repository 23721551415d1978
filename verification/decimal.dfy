/** Decimal rendering of integers as Python's `str()` and `%+d` produce it,
    together with the parser that inverts it. */
module Decimal {
  import opened Wrappers

  predicate IsDigit(c: char) {
    '0' <= c <= '9'
  }

  predicate AllDigits(s: string) {
    forall i :: 0 <= i < |s| ==> IsDigit(s[i])
  }

  function DigitChar(d: int): (c: char)
    requires 0 <= d < 10
    ensures IsDigit(c) && c as int - '0' as int == d
  {
    ('0' as int + d) as char
  }

  function DigitValue(c: char): (d: nat)
    requires IsDigit(c)
    ensures d < 10 && DigitChar(d) == c
  {
    c as int - '0' as int
  }

  /** The shortest decimal numeral of `n`: no sign, no leading zero. */
  function NatText(n: nat): (s: string)
    ensures |s| >= 1 && AllDigits(s)
    ensures (s[0] == '0') <==> n == 0
    decreases n
  {
    if n < 10 then [DigitChar(n)] else NatText(n / 10) + [DigitChar(n % 10)]
  }

  /** The number a string of digits denotes. */
  function DecimalValue(s: string): nat
    requires AllDigits(s)
    decreases |s|
  {
    if |s| == 0 then 0 else DecimalValue(s[..|s| - 1]) * 10 + DigitValue(s[|s| - 1])
  }

  lemma {:induction false} NatTextRoundTrip(n: nat)
    ensures DecimalValue(NatText(n)) == n
    decreases n
  {
    if n >= 10 {
      var s := NatText(n);
      assert s[..|s| - 1] == NatText(n / 10);
      NatTextRoundTrip(n / 10);
    }
  }

  /** Distinct numbers have distinct numerals. */
  lemma NatTextInjective(m: nat, n: nat)
    ensures NatText(m) == NatText(n) ==> m == n
  {
    NatTextRoundTrip(m);
    NatTextRoundTrip(n);
  }

  /** `%+d`: an explicit sign (`+` for zero too) followed by the magnitude. */
  function SignedText(x: int): (s: string)
    ensures |s| >= 2 && AllDigits(s[1..])
    ensures s[0] == (if x < 0 then '-' else '+')
    ensures s[1] == '0' <==> x == 0
  {
    (if x < 0 then "-" else "+") + NatText(if x < 0 then -x else x)
  }

  /** Reads back a signed numeral; None for anything that is not one. */
  function ParseSigned(s: string): Option<int> {
    if |s| >= 2 && (s[0] == '+' || s[0] == '-') && AllDigits(s[1..]) then
      var v: int := DecimalValue(s[1..]);
      Some(if s[0] == '-' then -v else v)
    else
      None
  }

  lemma SignedTextRoundTrip(x: int)
    ensures ParseSigned(SignedText(x)) == Some(x)
  {
    var s := SignedText(x);
    var mag := if x < 0 then -x else x;
    assert s[1..] == NatText(mag);
    NatTextRoundTrip(mag);
  }
}
