/**
 * Decimal numerals: the string a template literal `${n}` produces for a
 * non-negative integer `n`, and the number such a string denotes.
 */
module Numerals {

  predicate IsDigit(c: char)
  {
    '0' <= c <= '9'
  }

  predicate AllDigits(s: string)
  {
    forall i :: 0 <= i < |s| ==> IsDigit(s[i])
  }

  /** The shape of `String(n)` for a non-negative integer: one or more digits,
      with no leading zero unless the numeral is "0" itself. */
  predicate IsCanonical(s: string)
  {
    |s| >= 1 && AllDigits(s) && (s[0] == '0' ==> |s| == 1)
  }

  function DigitValue(c: char): (d: nat)
    requires IsDigit(c)
    ensures d < 10
  {
    c as int - '0' as int
  }

  function DigitChar(d: nat): (c: char)
    requires d < 10
    ensures IsDigit(c) && DigitValue(c) == d
  {
    ('0' as int + d) as char
  }

  /** The number a string of digits denotes, most significant digit first. */
  function Value(s: string): nat
    requires AllDigits(s)
  {
    if s == [] then 0 else 10 * Value(s[..|s| - 1]) + DigitValue(s[|s| - 1])
  }

  /** The numeral `${n}`. */
  function Decimal(n: nat): (s: string)
    ensures IsCanonical(s)
    ensures Value(s) == n
    decreases n
  {
    if n < 10 then [DigitChar(n)]
    else
      var front := Decimal(n / 10);
      var s := front + [DigitChar(n % 10)];
      assert s[..|s| - 1] == front;
      s
  }

  /** A canonical numeral with a leading digit other than zero denotes a positive number. */
  lemma {:induction false} ValuePositive(s: string)
    requires |s| >= 1 && AllDigits(s) && s[0] != '0'
    ensures Value(s) >= 1
  {
    if |s| > 1 {
      var front := s[..|s| - 1];
      assert front[0] == s[0];
      ValuePositive(front);
    }
  }

  /** Every canonical numeral is the numeral of the number it denotes, so
      `Decimal` and `Value` are inverse bijections between naturals and
      canonical numerals. */
  lemma {:induction false} DecimalOfValue(s: string)
    requires IsCanonical(s)
    ensures Decimal(Value(s)) == s
  {
    if |s| > 1 {
      var front := s[..|s| - 1];
      var d := DigitValue(s[|s| - 1]);
      assert front[0] == s[0];
      ValuePositive(front);
      DecimalOfValue(front);
      var n := Value(s);
      assert n == 10 * Value(front) + d;
      assert n / 10 == Value(front) && n % 10 == d;
      assert DigitChar(d) == s[|s| - 1];
      assert s == front + [s[|s| - 1]];
    } else {
      assert DigitChar(DigitValue(s[0])) == s[0];
    }
  }

  /** Distinct numbers have distinct numerals. */
  lemma DecimalInjective(m: nat, n: nat)
    requires Decimal(m) == Decimal(n)
    ensures m == n
  {
  }
}
