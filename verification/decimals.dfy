/** Decimal numerals: `str(n)` and `int(digits)`. */
module Decimals {

  predicate IsDigit(c: char) { '0' <= c <= '9' }

  predicate AllDigits(s: string) { forall i :: 0 <= i < |s| ==> IsDigit(s[i]) }

  function DigitChar(n: nat): (c: char)
    requires n < 10
    ensures IsDigit(c) && DigitValue(c) == n
  {
    '0' + n as char
  }

  function DigitValue(c: char): nat
    requires IsDigit(c)
  {
    c as int - '0' as int
  }

  function Print(n: nat): (s: string) {
    if n < 10 then [DigitChar(n)] else Print(n / 10) + [DigitChar(n % 10)]
  }

  function Value(s: string): nat
    requires AllDigits(s)
  {
    if s == "" then 0 else 10 * Value(s[..|s| - 1]) + DigitValue(s[|s| - 1])
  }

  /** Printing then reading a number gives it back, and no numeral has a leading zero. */
  lemma {:induction false} PrintValue(n: nat)
    ensures Print(n) != "" && AllDigits(Print(n)) && Value(Print(n)) == n
    ensures Print(n)[0] == '0' ==> Print(n) == "0"
  {
    if n >= 10 {
      PrintValue(n / 10);
      var s := Print(n);
      assert s[..|s| - 1] == Print(n / 10);
      assert Print(n / 10) != "0" by { assert Value("0") == 0; }
    }
  }

  /** Numerals in base ten, most significant digit first. */
  lemma PrintIsDecimal(n: nat)
    ensures n < 10 ==> Print(n) == ["0123456789"[n]]
    ensures n >= 10 ==> Print(n) == Print(n / 10) + ["0123456789"[n % 10]]
  {
  }
}
