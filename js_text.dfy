/**
 * The few pieces of JavaScript's number-to-text conversion that the timeline
 * relies on: `${n}` for an integer `n`, and the `%` operator, which truncates
 * toward zero (unlike Dafny's Euclidean `%`).
 */
module JsText {

  predicate IsDigit(c: char) {
    '0' <= c <= '9'
  }

  /** Every character of `s` is a decimal digit. */
  predicate AllDigits(s: string) {
    forall i :: 0 <= i < |s| ==> IsDigit(s[i])
  }

  function DigitChar(d: int): (c: char)
    requires 0 <= d < 10
    ensures IsDigit(c) && c as int - '0' as int == d
  {
    ('0' as int + d) as char
  }

  /** Decimal text of a natural number, most significant digit first. */
  function Decimal(n: nat): (s: string)
    ensures 1 <= |s| && AllDigits(s)
    ensures |s| > 1 ==> s[0] != '0'
    ensures n < 10 <==> |s| == 1
  {
    if n < 10 then [DigitChar(n)] else Decimal(n / 10) + [DigitChar(n % 10)]
  }

  /** The value that a string of decimal digits denotes (a reference reading). */
  function DigitsValue(s: string): nat
    requires AllDigits(s)
  {
    if s == [] then 0
    else DigitsValue(s[..|s| - 1]) * 10 + (s[|s| - 1] as int - '0' as int)
  }

  /** Reading back the decimal text of `n` gives `n`. */
  lemma {:induction false} DecimalRoundTrip(n: nat)
    ensures DigitsValue(Decimal(n)) == n
  {
    var s := Decimal(n);
    if n >= 10 {
      DecimalRoundTrip(n / 10);
      assert s[..|s| - 1] == Decimal(n / 10);
    }
  }

  /** Distinct numbers have distinct decimal texts. */
  lemma DecimalInjective(m: nat, n: nat)
    requires Decimal(m) == Decimal(n)
    ensures m == n
  {
    DecimalRoundTrip(m);
    DecimalRoundTrip(n);
  }

  /** JavaScript's `${i}` for an integer value `i`. */
  function IntText(i: int): (s: string)
    ensures 1 <= |s|
    ensures i >= 0 ==> s == Decimal(i)
    ensures i < 0 ==> s[0] == '-' && s[1..] == Decimal(-i)
  {
    if i < 0 then "-" + Decimal(-i) else Decimal(i)
  }

  /** Inverse of IntText: an optional minus sign, then decimal digits. */
  function ParseInt(s: string): (r: int)
    requires 1 <= |s|
    requires (s[0] == '-' && AllDigits(s[1..])) || AllDigits(s)
  {
    if s[0] == '-' then 0 - DigitsValue(s[1..]) else DigitsValue(s)
  }

  /** Reading back `${i}` gives `i`. */
  lemma IntTextRoundTrip(i: int)
    ensures var s := IntText(i); 1 <= |s| && ((s[0] == '-' && AllDigits(s[1..])) || AllDigits(s))
    ensures ParseInt(IntText(i)) == i
  {
    var s := IntText(i);
    if i < 0 {
      DecimalRoundTrip(-i);
    } else {
      DecimalRoundTrip(i);
    }
  }

  /** Distinct integers have distinct texts. */
  lemma IntTextInjective(i: int, j: int)
    requires IntText(i) == IntText(j)
    ensures i == j
  {
    IntTextRoundTrip(i);
    IntTextRoundTrip(j);
  }

  /**
   * JavaScript's `a % 12` on an integer: unlike Dafny's `%`, the remainder
   * takes the sign of `a` (it truncates toward zero).
   */
  function JsRem12(a: int): (r: int)
    ensures a >= 0 ==> 0 <= r < 12 && r == a % 12
    ensures a < 0 ==> -12 < r <= 0 && r == (if a % 12 == 0 then 0 else a % 12 - 12)
  {
    if a >= 0 then a % 12 else -((-a) % 12)
  }
}
