/** Characters and decimal numerals, as the regular expressions of the
    `pb` program see them: `[0-9]` and `[a-z]` are ASCII classes, and the
    input is lower-cased with `str.lower()` before it is matched. */
module Text {

  predicate IsDigit(c: char) { '0' <= c <= '9' }

  predicate IsLowerLetter(c: char) { 'a' <= c <= 'z' }

  predicate AllDigits(s: string) { forall i :: 0 <= i < |s| ==> IsDigit(s[i]) }

  predicate AllLowerLetters(s: string) { forall i :: 0 <= i < |s| ==> IsLowerLetter(s[i]) }

  /** `str.lower()` on one character; only ASCII letters are folded. */
  function LowerChar(c: char): (d: char)
    ensures 'A' <= c <= 'Z' ==> IsLowerLetter(d) && d as int - 'a' as int == c as int - 'A' as int
    ensures !('A' <= c <= 'Z') ==> d == c
    ensures IsLowerLetter(d) <==> ('a' <= c <= 'z' || 'A' <= c <= 'Z')
    ensures IsDigit(d) <==> IsDigit(c)
  {
    if 'A' <= c <= 'Z' then (c as int - 'A' as int + 'a' as int) as char else c
  }

  /** `str.lower()` on a string, character by character. */
  function Lower(s: string): (t: string)
    ensures |t| == |s|
    ensures forall i :: 0 <= i < |s| ==> t[i] == LowerChar(s[i])
  {
    if s == [] then [] else [LowerChar(s[0])] + Lower(s[1..])
  }

  /** The text that `$` lets a pattern match in full: `$` also matches just
      before one final newline, so that newline is dropped. */
  function Chomp(s: string): (t: string)
    ensures (s != [] && s[|s| - 1] == '\n') ==> s == t + "\n"
    ensures (s == [] || s[|s| - 1] != '\n') ==> t == s
  {
    if s != [] && s[|s| - 1] == '\n' then s[..|s| - 1] else s
  }

  function DigitValue(c: char): (v: nat)
    requires IsDigit(c)
    ensures v < 10
  {
    c as int - '0' as int
  }

  function DigitChar(v: nat): (c: char)
    requires v < 10
    ensures IsDigit(c) && DigitValue(c) == v
  {
    ('0' as int + v) as char
  }

  /** 10 to the power `n`. */
  function Pow10(n: nat): (p: nat)
    ensures p >= 1
  {
    if n == 0 then 1 else 10 * Pow10(n - 1)
  }

  /** Python's `int(s)` for a string of ASCII digits (leading zeros allowed):
      a numeral of n digits denotes a number below 10^n. */
  function DecimalValue(s: string): (v: nat)
    requires AllDigits(s)
    ensures v < Pow10(|s|)
  {
    if s == [] then 0 else DecimalValue(s[..|s| - 1]) * 10 + DigitValue(s[|s| - 1])
  }

  /** The canonical numeral of `n`, Python's `str(n)`: the reference printer
      against which `DecimalValue` is checked. */
  function DecimalString(n: nat): (s: string)
    ensures |s| >= 1 && AllDigits(s)
  {
    if n < 10 then [DigitChar(n)] else DecimalString(n / 10) + [DigitChar(n % 10)]
  }

  /** Reading back a printed numeral gives the number. */
  lemma {:induction false} DecimalRoundTrip(n: nat)
    ensures DecimalValue(DecimalString(n)) == n
  {
    if n >= 10 {
      var s := DecimalString(n);
      assert s[..|s| - 1] == DecimalString(n / 10);
      DecimalRoundTrip(n / 10);
    }
  }

  /** Leading zeros do not change the value: `int('007') == 7`. */
  lemma {:induction false} LeadingZeroIgnored(s: string)
    requires AllDigits(s)
    ensures DecimalValue(['0'] + s) == DecimalValue(s)
  {
    if s != [] {
      var init := s[..|s| - 1];
      assert (['0'] + s)[..|['0'] + s| - 1] == ['0'] + init;
      LeadingZeroIgnored(init);
    }
  }
}
