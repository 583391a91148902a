/** Decimal integers as strconv.ParseInt(s, 10, 64) and FormatInt read and write them. */
module Decimal {
  datatype Parsed = Parsed(value: int) | NotANumber

  const MAX_INT64: int := 0x7fff_ffff_ffff_ffff

  predicate IsDigit(c: char) { '0' <= c <= '9' }

  function DigitOf(n: int): (c: char)
    requires 0 <= n < 10
    ensures IsDigit(c) && DigitValue(c) == n
  {
    (n + '0' as int) as char
  }

  function DigitValue(c: char): (n: int)
    requires IsDigit(c)
    ensures 0 <= n < 10
  {
    c as int - '0' as int
  }

  function FormatNat(n: nat): (s: string)
    ensures s != "" && forall i :: 0 <= i < |s| ==> IsDigit(s[i])
  {
    if n < 10 then [DigitOf(n)] else FormatNat(n / 10) + [DigitOf(n % 10)]
  }

  function Format(n: int): string {
    if n < 0 then "-" + FormatNat(-n) else FormatNat(n)
  }

  /** The value of a digit string, most significant digit first. */
  function Digits(s: string): (n: nat)
    requires forall i :: 0 <= i < |s| ==> IsDigit(s[i])
  {
    if s == "" then 0 else 10 * Digits(s[..|s| - 1]) + DigitValue(s[|s| - 1])
  }

  function Parse(s: string): Parsed {
    var digits := if s != "" && (s[0] == '-' || s[0] == '+') then s[1..] else s;
    if digits == "" || exists i :: 0 <= i < |digits| && !IsDigit(digits[i]) then NotANumber
    else
      var d: int := Digits(digits);
      var n := if s[0] == '-' then -d else d;
      if -MAX_INT64 - 1 <= n <= MAX_INT64 then Parsed(n) else NotANumber
  }

  predicate Positive(s: string) { Parse(s).Parsed? && Parse(s).value > 0 }

  lemma {:induction false} DigitsOfFormat(n: nat)
    ensures Digits(FormatNat(n)) == n
  {
    if n >= 10 {
      DigitsOfFormat(n / 10);
      var s := FormatNat(n);
      assert s[..|s| - 1] == FormatNat(n / 10);
    }
  }

  lemma ParseOfNegative(n: int)
    requires -MAX_INT64 - 1 <= n < 0
    ensures Parse(Format(n)) == Parsed(n)
  {
    DigitsOfFormat(-n);
    assert Format(n)[1..] == FormatNat(-n);
  }

  /** Reading back what was written gives the number, over the whole 64-bit range. */
  lemma ParseOfFormat(n: int)
    requires -MAX_INT64 - 1 <= n <= MAX_INT64
    ensures Parse(Format(n)) == Parsed(n)
  {
    if n < 0 {
      ParseOfNegative(n);
    } else {
      DigitsOfFormat(n);
      assert IsDigit(FormatNat(n)[0]);
    }
  }
}
