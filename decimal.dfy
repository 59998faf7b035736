/**
 * The decimal text that a JavaScript template literal such as `${n}` produces
 * for an integer-valued number of magnitude below 1e21, and the reading of that
 * text back as a number. (JavaScript writes larger magnitudes in exponent form,
 * and holds integers exactly only up to 2^53; integers here are unbounded.)
 *
 * The query builder pushes most of its filter values onto the parameter list
 * as such text, and writes each placeholder number into the query as `$` + text.
 */
module Decimal {

  predicate IsDigit(c: char) {
    '0' <= c <= '9'
  }

  /** The character of the decimal digit `d`. */
  function DigitChar(d: int): (c: char)
    requires 0 <= d < 10
    ensures IsDigit(c)
  {
    ('0' as int + d) as char
  }

  function DigitValue(c: char): int {
    c as int - '0' as int
  }

  /** The decimal digits of `n`, most significant first, without leading zeros. */
  function Digits(n: nat): (s: string)
    ensures |s| > 0
    ensures forall i :: 0 <= i < |s| ==> IsDigit(s[i])
    ensures s[0] == '0' ==> n == 0
    decreases n
  {
    if n < 10 then [DigitChar(n)] else Digits(n / 10) + [DigitChar(n % 10)]
  }

  /** `${n}` for an integer `n`: a minus sign for negatives, then the digits. */
  function FromInt(n: int): (s: string)
    ensures |s| > 0
    ensures s[0] == '-' <==> n < 0
    ensures s[0] == '-' || IsDigit(s[0])
    ensures forall i :: 0 < i < |s| ==> IsDigit(s[i])
  {
    if n < 0 then "-" + Digits(-n) else Digits(n)
  }

  /** The value of a string of digits, read most significant first. */
  function ParseDigits(s: string): int {
    if s == [] then 0 else ParseDigits(s[..|s| - 1]) * 10 + DigitValue(s[|s| - 1])
  }

  /** The number a decimal text (with an optional leading minus) stands for. */
  function ToInt(s: string): int {
    if |s| > 0 && s[0] == '-' then -ParseDigits(s[1..]) else ParseDigits(s)
  }

  lemma {:induction false} ParseDigitsOfDigits(n: nat)
    ensures ParseDigits(Digits(n)) == n
    decreases n
  {
    var s := Digits(n);
    if n >= 10 {
      ParseDigitsOfDigits(n / 10);
      assert s[..|s| - 1] == Digits(n / 10);
      assert s[|s| - 1] == DigitChar(n % 10);
    }
  }

  /** Reading back the text of any integer gives that integer. */
  lemma {:induction false} ToIntFromInt(n: int)
    ensures ToInt(FromInt(n)) == n
  {
    if n < 0 {
      ParseDigitsOfDigits(-n);
      assert FromInt(n)[1..] == Digits(-n);
    } else {
      ParseDigitsOfDigits(n);
    }
  }

  /** Two integers have the same text exactly when they are equal. */
  lemma FromIntInjective(a: int, b: int)
    ensures FromInt(a) == FromInt(b) <==> a == b
  {
    ToIntFromInt(a);
    ToIntFromInt(b);
  }
}
