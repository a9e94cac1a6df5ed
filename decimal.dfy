/**
 * PHP's conversion of an `int` to a `string`, as used when the server port is
 * concatenated into the SOAP location: plain decimal digits, a leading `-`
 * for negative values, no leading zeros and no `+` sign.
 *
 * `ParseInt` is the partner that reads such a string back; the two are
 * proved inverse to each other in both directions.
 */
module Decimal {
  import opened Wrappers

  /** PHP's `int` is a signed 64-bit integer on the platforms the client targets. */
  const PHP_INT_MIN: int := -0x8000_0000_0000_0000
  const PHP_INT_MAX: int := 0x7FFF_FFFF_FFFF_FFFF

  type PhpInt = i: int | PHP_INT_MIN <= i <= PHP_INT_MAX

  predicate IsDigit(c: char) {
    '0' <= c <= '9'
  }

  predicate AllDigits(s: string) {
    forall i :: 0 <= i < |s| ==> IsDigit(s[i])
  }

  /** A non-empty run of digits without a leading zero, or "0" itself. */
  predicate IsCanonical(s: string) {
    |s| >= 1 && AllDigits(s) && (s[0] == '0' ==> |s| == 1)
  }

  function DigitValue(c: char): (d: nat)
    requires IsDigit(c)
    ensures d < 10
  {
    c as int - '0' as int
  }

  function DigitChar(d: nat): (c: char)
    requires d < 10
    ensures IsDigit(c) && DigitValue(c) == d
  {
    ('0' as int + d) as char
  }

  /** The value of a run of digits, most significant first. */
  function DecimalValue(s: string): nat
    requires AllDigits(s)
  {
    if s == [] then 0 else DecimalValue(s[..|s| - 1]) * 10 + DigitValue(s[|s| - 1])
  }

  /** The decimal rendering of a natural number. */
  function NatToDecimal(n: nat): (s: string)
    ensures IsCanonical(s)
    ensures s == "0" <==> n == 0
    decreases n
  {
    if n < 10 then [DigitChar(n)] else NatToDecimal(n / 10) + [DigitChar(n % 10)]
  }

  /** The string PHP produces for an integer in a string context. */
  function IntToDecimal(i: int): (s: string)
    ensures |s| >= 1
    ensures s[0] == '-' <==> i < 0
    ensures AllDigits(if i < 0 then s[1..] else s)
  {
    if i < 0 then "-" + NatToDecimal(-i) else NatToDecimal(i)
  }

  /** Reads back exactly the strings `IntToDecimal` produces ("-0" and leading zeros are refused). */
  function ParseInt(s: string): Option<int> {
    if |s| >= 2 && s[0] == '-' && IsCanonical(s[1..]) && s[1..] != "0" then Some(-(DecimalValue(s[1..]) as int))
    else if IsCanonical(s) then Some(DecimalValue(s))
    else None
  }

  lemma {:induction false} ValueOfNatToDecimal(n: nat)
    ensures DecimalValue(NatToDecimal(n)) == n
    decreases n
  {
    var s := NatToDecimal(n);
    if n < 10 {
      assert s[..|s| - 1] == [];
    } else {
      assert s[..|s| - 1] == NatToDecimal(n / 10);
      ValueOfNatToDecimal(n / 10);
    }
  }

  lemma {:induction false} PositiveValue(s: string)
    requires |s| >= 1 && AllDigits(s) && s[0] != '0'
    ensures DecimalValue(s) >= 1
    decreases |s|
  {
    if |s| == 1 {
      assert s[..0] == [];
    } else {
      PositiveValue(s[..|s| - 1]);
    }
  }

  lemma {:induction false} NatToDecimalOfValue(s: string)
    requires IsCanonical(s)
    ensures NatToDecimal(DecimalValue(s)) == s
    decreases |s|
  {
    var last := s[|s| - 1];
    if |s| == 1 {
      assert s[..0] == [];
      assert DecimalValue(s) == DigitValue(last);
      assert DigitChar(DigitValue(last)) == last;
    } else {
      var t := s[..|s| - 1];
      assert t[0] == s[0];
      PositiveValue(t);
      NatToDecimalOfValue(t);
      var v := DecimalValue(s);
      assert v / 10 == DecimalValue(t) && v % 10 == DigitValue(last);
      assert DigitChar(DigitValue(last)) == last;
      assert s == t + [last];
    }
  }

  /** Rendering and then reading an integer gives it back. */
  lemma ParseIntOfDecimal(i: int)
    ensures ParseInt(IntToDecimal(i)) == Some(i)
  {
    var s := IntToDecimal(i);
    if i < 0 {
      assert s[1..] == NatToDecimal(-i);
      ValueOfNatToDecimal(-i);
    } else {
      ValueOfNatToDecimal(i);
    }
  }

  /** Every string `ParseInt` accepts is exactly the rendering of the value it reads. */
  lemma DecimalOfParseInt(s: string)
    requires ParseInt(s).Some?
    ensures IntToDecimal(ParseInt(s).value) == s
  {
    if |s| >= 2 && s[0] == '-' && IsCanonical(s[1..]) && s[1..] != "0" {
      NatToDecimalOfValue(s[1..]);
      assert DecimalValue(s[1..]) != 0;
      assert s == "-" + s[1..];
    } else {
      NatToDecimalOfValue(s);
    }
  }

  /** Distinct integers render to distinct strings. */
  lemma IntToDecimalInjective(i: int, j: int)
    requires IntToDecimal(i) == IntToDecimal(j)
    ensures i == j
  {
    ParseIntOfDecimal(i);
    ParseIntOfDecimal(j);
  }
}
