/// ASCII character classes and the two string conversions the scorer and the
/// validators need: `str.upper` and the decimal rendering of an `int` that an
/// f-string produces. Python's `isdigit`/`isalpha`/`upper` are Unicode-aware;
/// this model restricts them to ASCII.
module Chars {
  import opened Seqs

  predicate IsDigit(c: char) { '0' <= c <= '9' }
  predicate IsUpper(c: char) { 'A' <= c <= 'Z' }
  predicate IsLower(c: char) { 'a' <= c <= 'z' }
  predicate IsLetter(c: char) { IsUpper(c) || IsLower(c) }

  /** `int(c)` for a digit character. */
  function DigitValue(c: char): (n: int)
    ensures IsDigit(c) ==> 0 <= n <= 9
  {
    c as int - '0' as int
  }

  /** The digit character of a value below ten. */
  function DigitChar(n: nat): (c: char)
    requires n < 10
    ensures IsDigit(c) && DigitValue(c) == n
  {
    ('0' as int + n) as char
  }

  /** `c.upper()` on one character. */
  function ToUpper(c: char): (u: char)
    ensures IsLetter(u) == IsLetter(c)
    ensures IsLower(c) ==> IsUpper(u) && u as int == c as int - 32
    ensures !IsLower(c) ==> u == c
  {
    if IsLower(c) then (c as int - 32) as char else c
  }

  /** `s.upper()`. */
  function Upper(s: string): string {
    Map(s, ToUpper)
  }

  /** `f"{n}"` for a natural number: most significant digit first. */
  function NatToDecimal(n: nat): (s: string)
    ensures |s| >= 1
    ensures forall i :: 0 <= i < |s| ==> IsDigit(s[i])
    decreases n
  {
    if n < 10 then [DigitChar(n)] else NatToDecimal(n / 10) + [DigitChar(n % 10)]
  }

  /** The value of a string of decimal digits, read most significant first (`int(s)`). */
  function DecimalValue(s: string): int {
    if s == [] then 0 else DecimalValue(s[..|s| - 1]) * 10 + DigitValue(s[|s| - 1])
  }

  /** Rendering a number in decimal and reading it back gives the number. */
  lemma {:induction false} DecimalRoundTrip(n: nat)
    ensures DecimalValue(NatToDecimal(n)) == n
    decreases n
  {
    var s := NatToDecimal(n);
    if n < 10 {
      assert s[..|s| - 1] == [];
    } else {
      DecimalRoundTrip(n / 10);
      assert s[..|s| - 1] == NatToDecimal(n / 10);
    }
  }

  /** The decimal rendering never starts with a superfluous zero. */
  lemma {:induction false} DecimalNoLeadingZero(n: nat)
    ensures NatToDecimal(n)[0] == '0' <==> n == 0
    decreases n
  {
    if n >= 10 {
      DecimalNoLeadingZero(n / 10);
    }
  }

  /** `f"{n}"` for any integer: a minus sign before the magnitude when negative. */
  function IntToDecimal(n: int): (s: string)
    ensures |s| >= 1
    ensures (s[0] == '-') <==> n < 0
  {
    if n < 0 then "-" + NatToDecimal(-n) else NatToDecimal(n)
  }

  /**
   * The text of `f"{n}"` names `n`: after an optional minus sign come the
   * digits of its magnitude, with no superfluous leading zero.
   */
  lemma IntToDecimalNames(n: int)
    ensures var s := IntToDecimal(n);
      var digits := if n < 0 then s[1..] else s;
      && digits == NatToDecimal(if n < 0 then -n else n)
      && DecimalValue(digits) == (if n < 0 then -n else n)
      && (digits[0] == '0' <==> n == 0)
  {
    var m := if n < 0 then -n else n;
    DecimalRoundTrip(m);
    DecimalNoLeadingZero(m);
    if n < 0 {
      assert IntToDecimal(n)[1..] == NatToDecimal(m);
    }
  }
}
