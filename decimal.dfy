/**
 * Decimal numerals, the two directions in which the launcher turns numbers
 * into text and back: a template literal `${n}` prints a non-negative whole
 * number, and `Number(text)` reads a command-line option. Only numerals made
 * of the digits 0-9 are modelled.
 */
module Decimal {

  predicate IsDigit(c: char) {
    '0' <= c <= '9'
  }

  predicate IsDigits(s: string) {
    forall i :: 0 <= i < |s| ==> IsDigit(s[i])
  }

  /** A numeral as `${n}` prints it: at least one digit, no leading zero. */
  predicate IsCanonical(s: string) {
    |s| > 0 && IsDigits(s) && (|s| > 1 ==> s[0] != '0')
  }

  function DigitChar(d: nat): (c: char)
    requires d < 10
    ensures IsDigit(c)
  {
    ('0' as int + d) as char
  }

  function DigitValue(c: char): (d: nat)
    requires IsDigit(c)
    ensures d < 10 && DigitChar(d) == c
  {
    c as int - '0' as int
  }

  /** `${n}` for a non-negative whole number. */
  function Show(n: nat): string
    decreases n
  {
    if n < 10 then [DigitChar(n)] else Show(n / 10) + [DigitChar(n % 10)]
  }

  /** What `${n}` prints is a canonical numeral. */
  lemma {:induction false} ShowCanonical(n: nat)
    ensures IsCanonical(Show(n))
    decreases n
  {
    if n >= 10 {
      ShowCanonical(n / 10);
      assert Show(n)[0] == Show(n / 10)[0];
    }
  }

  /** `Number(s)` for a string of decimal digits (leading zeros allowed). */
  function Parse(s: string): nat
    requires IsDigits(s)
  {
    if s == [] then 0 else Parse(s[..|s| - 1]) * 10 + DigitValue(s[|s| - 1])
  }

  /** Reading back what `${n}` printed gives `n`. */
  lemma {:induction false} ParseShow(n: nat)
    ensures IsDigits(Show(n)) && Parse(Show(n)) == n
    decreases n
  {
    ShowCanonical(n);
    if n >= 10 {
      var s := Show(n);
      assert s[..|s| - 1] == Show(n / 10);
      ParseShow(n / 10);
    }
  }

  /** A canonical numeral is exactly what `${n}` prints for the number it denotes. */
  lemma {:induction false} ShowParse(s: string)
    requires IsCanonical(s)
    ensures Show(Parse(s)) == s
    decreases |s|
  {
    if |s| > 1 {
      var t, c := s[..|s| - 1], s[|s| - 1];
      assert IsCanonical(t);
      assert t[0] == s[0];
      ParsePositive(t);
      ShowParse(t);
      var n := Parse(s);
      assert n == Parse(t) * 10 + DigitValue(c);
      assert n / 10 == Parse(t) && n % 10 == DigitValue(c);
      assert Show(n) == Show(Parse(t)) + [DigitChar(DigitValue(c))];
    }
  }

  lemma {:induction false} ParsePositive(s: string)
    requires IsCanonical(s) && s[0] != '0'
    ensures Parse(s) > 0
    decreases |s|
  {
    if |s| > 1 {
      var t := s[..|s| - 1];
      assert t[0] == s[0];
      ParsePositive(t);
    }
  }

  /** Different numbers print differently. */
  lemma ShowInjective(a: nat, b: nat)
    ensures Show(a) == Show(b) <==> a == b
  {
    ParseShow(a);
    ParseShow(b);
  }

  /**
   * A run of digits followed by a non-digit is recovered uniquely: this is
   * what lets a reader split "<w> x <h>" or "<p>:<q>" back into its numbers.
   */
  lemma DigitsPrefix(a: string, r1: string, b: string, r2: string)
    requires IsDigits(a) && IsDigits(b)
    requires |r1| > 0 && !IsDigit(r1[0])
    requires |r2| > 0 && !IsDigit(r2[0])
    requires a + r1 == b + r2
    ensures a == b && r1 == r2
  {
    assert a == (a + r1)[..|a|];
    assert b == (b + r2)[..|b|];
    assert r1 == (a + r1)[|a|..];
    assert r2 == (b + r2)[|b|..];
  }

  lemma ConcatAssoc(a: string, b: string, c: string)
    ensures (a + b) + c == a + (b + c)
  {
  }
}
