/** Go's decimal integer text on a 64-bit platform: `strconv.Atoi`, which the
    environment loader uses to read the port, and the `%d` verb of
    `fmt.Sprintf`, which the connection-string builder uses to write it. */
module Decimal {
  import opened Wrappers

  /** The range of Go's `int` on a 64-bit platform. */
  const Int64Min: int := -0x8000_0000_0000_0000
  const Int64Max: int := 0x7fff_ffff_ffff_ffff

  predicate InInt64(n: int) {
    Int64Min <= n <= Int64Max
  }

  predicate IsDigit(c: char) {
    '0' <= c <= '9'
  }

  /** One or more ASCII decimal digits and nothing else. */
  predicate IsDigits(s: string) {
    |s| > 0 && forall i :: 0 <= i < |s| ==> IsDigit(s[i])
  }

  function DigitValue(c: char): (d: nat)
    requires IsDigit(c)
    ensures d < 10
  {
    c as int - '0' as int
  }

  function DigitChar(d: nat): (c: char)
    requires d < 10
    ensures IsDigit(c) && DigitValue(c) == d
  {
    ('0' as int + d) as char
  }

  /** The number a string of digits denotes, read most significant first
      (leading zeros are allowed). */
  function DigitsValue(s: string): nat
    requires forall i :: 0 <= i < |s| ==> IsDigit(s[i])
  {
    if s == [] then 0 else DigitsValue(s[..|s| - 1]) * 10 + DigitValue(s[|s| - 1])
  }

  /** `strconv.Atoi(s)` with its error folded into None: an optional `+` or
      `-`, then at least one ASCII digit, and a value that fits a 64-bit `int`
      (a larger value is a range error, so Atoi fails on it too). */
  function Atoi(s: string): (r: Option<int>)
    ensures r.Some? ==> InInt64(r.value)
    ensures r.Some? <==>
      || (IsDigits(s) && InInt64(DigitsValue(s)))
      || (&& |s| > 0 && (s[0] == '+' || s[0] == '-') && IsDigits(s[1..])
          && InInt64(if s[0] == '-' then -(DigitsValue(s[1..]) as int) else DigitsValue(s[1..])))
    ensures r.Some? && IsDigit(s[0]) ==> r.value == DigitsValue(s)
    ensures r.Some? && s[0] == '+' ==> r.value == DigitsValue(s[1..])
    ensures r.Some? && s[0] == '-' ==> r.value == -(DigitsValue(s[1..]) as int)
  {
    if |s| > 0 && (s[0] == '+' || s[0] == '-') then
      if !IsDigits(s[1..]) then None
      else
        var magnitude: int := DigitsValue(s[1..]);
        var n := if s[0] == '-' then -magnitude else magnitude;
        if InInt64(n) then Some(n) else None
    else if IsDigits(s) then
      if InInt64(DigitsValue(s)) then Some(DigitsValue(s)) else None
    else None
  }

  /** The digits of a natural number, without leading zeros. */
  function NatToDecimal(n: nat): (s: string)
    ensures IsDigits(s)
    ensures |s| > 1 ==> s[0] != '0'
  {
    if n < 10 then [DigitChar(n)] else NatToDecimal(n / 10) + [DigitChar(n % 10)]
  }

  /** `fmt.Sprintf("%d", n)`: a minus sign for negative numbers, then the
      digits of the magnitude. */
  function FormatInt(n: int): (s: string)
    ensures |s| > 0 && ' ' !in s
    ensures n >= 0 <==> IsDigit(s[0])
  {
    if n < 0 then "-" + NatToDecimal(-n) else NatToDecimal(n)
  }

  /** Reading back the digits of `n` gives `n`. */
  lemma {:induction false} DigitsOfNatToDecimal(n: nat)
    ensures DigitsValue(NatToDecimal(n)) == n
  {
    var s := NatToDecimal(n);
    if n >= 10 {
      DigitsOfNatToDecimal(n / 10);
      assert s[..|s| - 1] == NatToDecimal(n / 10);
    }
  }

  /** Atoi parses back every 64-bit integer that `%d` prints. */
  lemma AtoiFormatInt(n: int)
    requires InInt64(n)
    ensures Atoi(FormatInt(n)) == Some(n)
  {
    if n < 0 {
      DigitsOfNatToDecimal(-n);
      assert FormatInt(n)[1..] == NatToDecimal(-n);
    } else {
      DigitsOfNatToDecimal(n);
    }
  }

  /** Leading zeros and a plus sign are accepted: Atoi is not the inverse of
      `%d` in the other direction. */
  lemma AtoiAcceptsNonCanonicalText()
    ensures Atoi("+0080") == Some(80)
    ensures FormatInt(80) == "80"
  {
    assert "+0080"[1..] == "0080";
    assert "0080"[..3] == "008" && "008"[..2] == "00" && "00"[..1] == "0";
    assert DigitsValue("0080") == 80;
    assert NatToDecimal(8) == "8";
  }
}
