/**
 * Swift's `Int.description` (and the `"\(n)"` interpolation), the decimal
 * rendering that page ids and catalog file names are built from.
 */
module Decimal {

  /** The character of a decimal digit. */
  function DigitChar(d: nat): (c: char)
    requires d < 10
    ensures c as int == '0' as int + d
  {
    ('0' as int + d) as char
  }

  /** Decimal digits of a natural number, most significant first, no leading zeros. */
  function NatDigits(n: nat): (s: string)
    ensures 1 <= |s|
    ensures (|s| == 1) == (n < 10)
    ensures forall k :: 0 <= k < |s| ==> '0' <= s[k] <= '9'
    decreases n
  {
    if n < 10 then [DigitChar(n)] else NatDigits(n / 10) + [DigitChar(n % 10)]
  }

  /** `n.description`: a minus sign for negative numbers, then the digits of |n|. */
  function Describe(n: int): (s: string)
    ensures 1 <= |s|
    ensures s[0] == '-' <==> n < 0
  {
    if n < 0 then "-" + NatDigits(-n) else NatDigits(n)
  }

  /** Different numbers have different digit strings. */
  lemma {:induction false} NatDigitsInjective(a: nat, b: nat)
    requires NatDigits(a) == NatDigits(b)
    ensures a == b
    decreases a
  {
    var s := NatDigits(a);
    if a < 10 {
      assert s == [DigitChar(a)] == [DigitChar(b)];
    } else {
      assert b >= 10;
      assert s == NatDigits(a / 10) + [DigitChar(a % 10)];
      assert s == NatDigits(b / 10) + [DigitChar(b % 10)];
      assert DigitChar(a % 10) == s[|s| - 1] == DigitChar(b % 10);
      assert NatDigits(a / 10) == s[..|s| - 1] == NatDigits(b / 10);
      NatDigitsInjective(a / 10, b / 10);
    }
  }

  /** `description` is injective on `Int`, so distinct page indices give distinct ids. */
  lemma DescribeInjective(a: int, b: int)
    requires Describe(a) == Describe(b)
    ensures a == b
  {
    if a < 0 {
      assert b < 0;
      assert NatDigits(-a) == Describe(a)[1..] == Describe(b)[1..] == NatDigits(-b);
      NatDigitsInjective(-a, -b);
    } else {
      assert b >= 0;
      NatDigitsInjective(a, b);
    }
  }
}
