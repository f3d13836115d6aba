/**
 * The two pieces of JavaScript number semantics the game relies on: the
 * remainder operator `%`, which truncates toward zero (the remainder takes the
 * sign of the dividend), and the decimal text of an integer as a template
 * literal `${n}` produces it.
 */
module JsNumbers {

  function Abs(a: int): nat {
    if a < 0 then -a else a
  }

  /**
   * JavaScript's `a % 10` (the only remainder the game takes): it truncates
   * toward zero, so the remainder takes the sign of a.
   */
  function JsRemainder10(a: int): (r: int)
    ensures -10 < r < 10
    ensures r == 0 || (r < 0 <==> a < 0)
    ensures (a - r) % 10 == 0
    ensures a >= 0 ==> r == a % 10
  {
    if a < 0 then -((-a) % 10) else a % 10
  }

  predicate IsDigit(c: char) {
    '0' <= c <= '9'
  }

  function DigitChar(d: int): (c: char)
    requires 0 <= d < 10
    ensures IsDigit(c) && c as int - '0' as int == d
  {
    ('0' as int + d) as char
  }

  function DigitValue(c: char): (d: nat)
    requires IsDigit(c)
    ensures d < 10 && DigitChar(d) == c
  {
    c as int - '0' as int
  }

  /** The decimal digits of a natural number, without leading zeros. */
  function Digits(n: nat): (s: string)
    ensures |s| >= 1
    ensures forall i :: 0 <= i < |s| ==> IsDigit(s[i])
    ensures s[|s| - 1] == DigitChar(n % 10)
    ensures n > 0 ==> s[0] != '0'
  {
    if n < 10 then [DigitChar(n)] else Digits(n / 10) + [DigitChar(n % 10)]
  }

  /** The number a string of decimal digits denotes. */
  function DigitsValue(s: string): nat
    requires forall i :: 0 <= i < |s| ==> IsDigit(s[i])
  {
    if s == [] then 0
    else DigitsValue(s[..|s| - 1]) * 10 + DigitValue(s[|s| - 1])
  }

  lemma {:induction false} DigitsRoundTrip(n: nat)
    ensures DigitsValue(Digits(n)) == n
  {
    var s := Digits(n);
    if n >= 10 {
      DigitsRoundTrip(n / 10);
      assert s[..|s| - 1] == Digits(n / 10);
    }
  }

  /** `${n}` for an integer n: an optional minus sign, then the digits of |n|. */
  function Decimal(n: int): (s: string)
    ensures |s| >= 1
    ensures s[0] == '-' <==> n < 0
    ensures forall i :: 0 < i < |s| ==> IsDigit(s[i])
    ensures n >= 0 ==> IsDigit(s[0])
    ensures s[|s| - 1] == DigitChar(Abs(n) % 10)
  {
    if n < 0 then "-" + Digits(-n) else Digits(n)
  }

  /** Different integers have different decimal texts. */
  lemma DecimalInjective(a: int, b: int)
    requires Decimal(a) == Decimal(b)
    ensures a == b
  {
    DigitsRoundTrip(Abs(a));
    DigitsRoundTrip(Abs(b));
    if a < 0 {
      assert Decimal(a)[1..] == Digits(-a);
      assert Decimal(b)[1..] == Digits(-b);
    }
  }

  /**
   * A decimal text followed by something that does not start with a digit can
   * be read back unambiguously: the number and the rest are determined.
   */
  lemma DecimalPrefix(a: int, b: int, s: string, t: string)
    requires s != [] && t != [] && !IsDigit(s[0]) && !IsDigit(t[0])
    requires Decimal(a) + s == Decimal(b) + t
    ensures a == b && s == t
  {
    var x, y := Decimal(a), Decimal(b);
    assert (x + s)[|x|] == s[0];
    assert !IsDigit((y + t)[|x|]);
    assert (y + t)[|y|] == t[0];
    assert !IsDigit((x + s)[|y|]);
    assert |x| == |y|;
    assert x == (x + s)[..|x|] == (y + t)[..|y|] == y;
    DecimalInjective(a, b);
    assert s == (x + s)[|x|..] == (y + t)[|y|..] == t;
  }
}
