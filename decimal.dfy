/** Decimal text of integers, as a JavaScript template literal `${n}` renders a
    safe integer: no leading zeros, "0" for zero, a leading '-' for negatives.
    `Value` is the inverse, so that what an embed shows can be read back. */
module Decimal {

  predicate IsDigit(c: char) {
    '0' <= c <= '9'
  }

  predicate IsDigits(s: string) {
    forall i :: 0 <= i < |s| ==> IsDigit(s[i])
  }

  /** The shape of every decimal a number renders to: at least one digit and no
      leading zero except for "0" itself. */
  predicate IsCanonical(s: string) {
    |s| >= 1 && IsDigits(s) && (s[0] == '0' ==> |s| == 1)
  }

  function DigitOf(c: char): (d: nat)
    requires IsDigit(c)
    ensures d < 10
  {
    c as int - '0' as int
  }

  function DigitChar(d: nat): (c: char)
    requires d < 10
    ensures IsDigit(c) && DigitOf(c) == d
  {
    ('0' as int + d) as char
  }

  /** The number a digit string denotes. */
  function Value(s: string): nat
    requires IsDigits(s)
    decreases |s|
  {
    if s == [] then 0 else Value(s[..|s| - 1]) * 10 + DigitOf(s[|s| - 1])
  }

  /** `${n}` for a non-negative integer. */
  function FromNat(n: nat): (s: string)
    ensures IsCanonical(s)
    ensures s[0] == '0' <==> n == 0
    decreases n
  {
    if n < 10 then [DigitChar(n)] else FromNat(n / 10) + [DigitChar(n % 10)]
  }

  /** `${i}` for any integer. */
  function FromInt(i: int): (s: string)
    ensures |s| >= 1
  {
    if i < 0 then "-" + FromNat(-i) else FromNat(i)
  }

  /** Reading the rendered decimal back gives the number. */
  lemma {:induction false} ValueOfFromNat(n: nat)
    ensures Value(FromNat(n)) == n
    decreases n
  {
    if n >= 10 {
      ValueOfFromNat(n / 10);
      var p := FromNat(n / 10);
      var s := p + [DigitChar(n % 10)];
      assert s[..|s| - 1] == p;
    }
  }

  lemma {:induction false} ValueOfLeadingNonZero(s: string)
    requires IsDigits(s) && |s| >= 1 && s[0] != '0'
    ensures Value(s) >= 1
    decreases |s|
  {
    if |s| > 1 {
      ValueOfLeadingNonZero(s[..|s| - 1]);
    }
  }

  /** Every canonical decimal is the rendering of the number it denotes, so
      `FromNat` and `Value` are inverse bijections between naturals and
      canonical digit strings. */
  lemma {:induction false} FromNatOfValue(s: string)
    requires IsCanonical(s)
    ensures FromNat(Value(s)) == s
    decreases |s|
  {
    var last := s[|s| - 1];
    var p := s[..|s| - 1];
    if |s| == 1 {
      assert p == [];
      assert [DigitChar(DigitOf(last))] == s;
    } else {
      assert p[0] == s[0] && s[0] != '0';
      assert IsCanonical(p);
      ValueOfLeadingNonZero(p);
      FromNatOfValue(p);
      assert Value(s) / 10 == Value(p) && Value(s) % 10 == DigitOf(last);
      assert DigitChar(DigitOf(last)) == last;
      assert s == p + [last];
    }
  }

  /** Distinct numbers render to distinct text. */
  lemma FromNatInjective(m: nat, n: nat)
    ensures FromNat(m) == FromNat(n) <==> m == n
  {
    ValueOfFromNat(m);
    ValueOfFromNat(n);
  }

  /** Distinct integers render to distinct text, negatives included. */
  lemma FromIntInjective(a: int, b: int)
    ensures FromInt(a) == FromInt(b) <==> a == b
  {
    if FromInt(a) == FromInt(b) {
      if a < 0 && b < 0 {
        assert FromNat(-a) == FromInt(a)[1..];
        assert FromNat(-b) == FromInt(b)[1..];
        FromNatInjective(-a, -b);
      } else if a >= 0 && b >= 0 {
        FromNatInjective(a, b);
      }
    }
  }
}
