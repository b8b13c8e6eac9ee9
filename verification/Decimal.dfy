/** Decimal text as `%llu` writes it and `strtoull` reads it. */
module Decimal {
  const ULLONG_MAX := 0xffff_ffff_ffff_ffff

  predicate IsDigit(c: char) {
    '0' <= c <= '9'
  }

  function DigitChar(d: nat): (c: char)
    requires d < 10
    ensures IsDigit(c) && DigitValue(c) == d
  {
    ['0', '1', '2', '3', '4', '5', '6', '7', '8', '9'][d]
  }

  function DigitValue(c: char): nat
    requires IsDigit(c)
  {
    c as int - '0' as int
  }

  function Digits(n: nat): (s: string)
    ensures |s| > 0 && AllDigits(s)
  {
    if n < 10 then [DigitChar(n)] else Digits(n / 10) + [DigitChar(n % 10)]
  }

  ghost predicate AllDigits(s: string) {
    forall i :: 0 <= i < |s| ==> IsDigit(s[i])
  }

  /** The length of the leading run of digits. */
  function DigitRun(s: string): (n: nat)
    ensures n <= |s| && AllDigits(s[..n])
    ensures n < |s| ==> !IsDigit(s[n])
  {
    if s == [] || !IsDigit(s[0]) then 0
    else
      assert forall i :: 1 <= i < 1 + DigitRun(s[1..]) ==> s[i] == s[1..][i - 1];
      1 + DigitRun(s[1..])
  }

  function Value(s: string): nat
    requires AllDigits(s)
  {
    if s == [] then 0 else 10 * Value(s[..|s| - 1]) + DigitValue(s[|s| - 1])
  }

  /** strtoull on text without sign or leading space: the leading digits, saturating. */
  function StrToULL(s: string): (r: nat)
    ensures r <= ULLONG_MAX
  {
    var v := Value(s[..DigitRun(s)]);
    if v <= ULLONG_MAX then v else ULLONG_MAX
  }

  lemma {:induction false} DigitsValue(n: nat)
    ensures Value(Digits(n)) == n
  {
    if n >= 10 {
      DigitsValue(n / 10);
      var s := Digits(n);
      assert s[..|s| - 1] == Digits(n / 10);
    }
  }

  lemma {:induction false} DigitRunOf(s: string, rest: string)
    requires AllDigits(s)
    requires rest == [] || !IsDigit(rest[0])
    ensures DigitRun(s + rest) == |s|
  {
    if s == [] {
      assert s + rest == rest;
    } else {
      assert (s + rest)[1..] == s[1..] + rest;
      DigitRunOf(s[1..], rest);
    }
  }

  /** Reading back a printed number, whatever non-digit follows it. */
  lemma StrToULLDigits(n: nat, rest: string)
    requires rest == [] || !IsDigit(rest[0])
    ensures StrToULL(Digits(n) + rest) == if n <= ULLONG_MAX then n else ULLONG_MAX
  {
    DigitRunOf(Digits(n), rest);
    DigitsValue(n);
    assert (Digits(n) + rest)[..|Digits(n)|] == Digits(n);
  }
}
