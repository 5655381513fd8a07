/** Decimal text of natural numbers: what `to_string` and `{}` print and what `str::parse` reads. */
module Decimal {

  datatype Option<+T> = None | Some(value: T)

  predicate IsDigit(c: char) { '0' <= c <= '9' }

  predicate AllDigits(s: string) { forall i :: 0 <= i < |s| ==> IsDigit(s[i]) }

  function DigitChar(d: nat): (c: char)
    requires d < 10
    ensures IsDigit(c)
  {
    ('0' as int + d) as char
  }

  function DigitValue(c: char): (d: nat)
    requires IsDigit(c)
    ensures d < 10
  {
    c as int - '0' as int
  }

  /** The decimal text of `n`, without leading zeros. */
  function Print(n: nat): (s: string)
    ensures |s| > 0 && AllDigits(s)
    ensures n > 0 ==> s[0] != '0'
  {
    if n < 10 then [DigitChar(n)] else Print(n / 10) + [DigitChar(n % 10)]
  }

  function Value(s: string): nat
    requires AllDigits(s)
  {
    if s == "" then 0 else 10 * Value(s[..|s| - 1]) + DigitValue(s[|s| - 1])
  }

  lemma {:induction false} ValueOfPrint(n: nat)
    ensures Value(Print(n)) == n
  {
    if n < 10 {
      assert Print(n)[..0] == "";
    } else {
      ValueOfPrint(n / 10);
      assert Print(n)[..|Print(n)| - 1] == Print(n / 10);
    }
  }

  const U64_LIMIT: nat := 0x1_0000_0000_0000_0000

  function StripSign(s: string): string { if s != "" && s[0] == '+' then s[1..] else s }

  /** `str::parse` for an unsigned type with `limit` values: an optional plus sign, then digits. */
  function ParseUnsigned(s: string, limit: nat): (r: Option<nat>)
  {
    var digits := StripSign(s);
    if digits != "" && AllDigits(digits) && Value(digits) < limit then Some(Value(digits)) else None
  }

  lemma ParseUnsignedOfPrint(n: nat, limit: nat)
    ensures ParseUnsigned(Print(n), limit) == if n < limit then Some(n) else None
  {
    ValueOfPrint(n);
  }

  predicate AllZeros(s: string) { forall i :: 0 <= i < |s| ==> s[i] == '0' }

  lemma {:induction false} ValuePadded(zeros: string, n: nat)
    requires AllZeros(zeros)
    ensures AllDigits(zeros + Print(n)) && Value(zeros + Print(n)) == n
    decreases n, |zeros|
  {
    var s := zeros + Print(n);
    if n >= 10 {
      ValuePadded(zeros, n / 10);
      assert s[..|s| - 1] == zeros + Print(n / 10);
    } else {
      assert s[..|s| - 1] == zeros;
      ValueOfZeros(zeros);
    }
  }

  lemma {:induction false} ValueOfZeros(zeros: string)
    requires AllZeros(zeros)
    ensures AllDigits(zeros) && Value(zeros) == 0
  {
    if zeros != "" { ValueOfZeros(zeros[..|zeros| - 1]); }
  }

  /** A number may be written with a plus sign and with zeros in front; it is refused if and only if it is too
      large. */
  lemma ParseUnsignedExactly(plus: bool, zeros: string, n: nat, limit: nat)
    requires AllZeros(zeros)
    ensures ParseUnsigned((if plus then "+" else "") + (zeros + Print(n)), limit) == if n < limit then Some(n) else None
  {
    ValuePadded(zeros, n);
    if plus { SignedReads(zeros + Print(n)); } else { NoSign(zeros + Print(n)); }
  }

  lemma SignedReads(digits: string)
    ensures StripSign("+" + digits) == digits
  {
  }

  lemma NoSign(digits: string)
    requires digits != "" && AllDigits(digits)
    ensures "" + digits == digits && StripSign(digits) == digits
  {
  }

  /** Nothing else is a number: neither the empty text, nor a sign alone, nor anything with another character. */
  lemma OthersAreNoNumbers(s: string, limit: nat)
    requires s == "" || s == "+" || exists i :: 0 <= i < |s| && !IsDigit(s[i]) && !(i == 0 && s[i] == '+')
    ensures ParseUnsigned(s, limit) == None
  {
    if s != "" && s != "+" {
      var i :| 0 <= i < |s| && !IsDigit(s[i]) && !(i == 0 && s[i] == '+');
      if s[0] == '+' { assert StripSign(s)[i - 1] == s[i]; }
    }
  }

  /** The number of leading digits of `s`. */
  function DigitRun(s: string): (n: nat)
    ensures n <= |s|
    ensures forall i :: 0 <= i < n ==> IsDigit(s[i])
    ensures n < |s| ==> !IsDigit(s[n])
  {
    if s == "" || !IsDigit(s[0]) then 0 else
    var n := DigitRun(s[1..]);
    assert forall i :: 0 <= i < |s| - 1 ==> s[1..][i] == s[i + 1];
    n + 1
  }

  lemma DigitRunIs(s: string, n: nat)
    requires n <= |s| && forall i :: 0 <= i < n ==> IsDigit(s[i])
    requires n < |s| ==> !IsDigit(s[n])
    ensures DigitRun(s) == n
  {
    var m := DigitRun(s);
  }
}
