/**
 * Python's `str()` on an `int`, which names the density sub-folders, and a
 * parser that reads the name back.
 */
module Decimal {
  import opened Wrappers

  predicate IsDigit(c: char)
  {
    '0' <= c <= '9'
  }

  predicate AllDigits(s: string)
  {
    forall k :: 0 <= k < |s| ==> IsDigit(s[k])
  }

  function DigitChar(d: nat): (c: char)
    requires d < 10
    ensures IsDigit(c) && c as int - '0' as int == d
  {
    ('0' as int + d) as char
  }

  /** The decimal digits of `n`, most significant first, without leading zeros. */
  function NatToStr(n: nat): (r: string)
    ensures |r| >= 1 && AllDigits(r)
    ensures r[0] == '0' <==> n == 0
    ensures |r| > 1 ==> r[0] != '0'
  {
    if n < 10 then [DigitChar(n)] else NatToStr(n / 10) + [DigitChar(n % 10)]
  }

  /** `str(n)` for an `int`: a minus sign before the digits of a negative number. */
  function IntToStr(n: int): (r: string)
    ensures |r| >= 1 && r != "-"
    ensures r[0] == '-' <==> n < 0
  {
    if n < 0 then "-" + NatToStr(-n) else NatToStr(n)
  }

  /** The value of a non-empty run of decimal digits. */
  function DigitsValue(s: string): nat
    requires AllDigits(s)
  {
    if |s| == 0 then 0
    else DigitsValue(s[..|s| - 1]) * 10 + (s[|s| - 1] as int - '0' as int)
  }

  /** `int(s)` restricted to what `str` produces: optional minus sign, then digits. */
  function ParseInt(s: string): Option<int>
  {
    if |s| >= 2 && s[0] == '-' && AllDigits(s[1..]) then Some(0 - DigitsValue(s[1..]) as int)
    else if |s| >= 1 && AllDigits(s) then Some(DigitsValue(s))
    else None
  }

  lemma {:induction false} NatToStrValue(n: nat)
    ensures DigitsValue(NatToStr(n)) == n
  {
    if n >= 10 {
      var s := NatToStr(n);
      assert s[..|s| - 1] == NatToStr(n / 10);
      NatToStrValue(n / 10);
    }
  }

  /** Reading back `str(n)` gives `n`. */
  lemma {:induction false} IntToStrRoundTrip(n: int)
    ensures ParseInt(IntToStr(n)) == Some(n)
  {
    if n < 0 {
      NegativeRoundTrip(-n);
    } else {
      NaturalRoundTrip(n);
    }
  }

  lemma {:induction false} NaturalRoundTrip(m: nat)
    ensures ParseInt(NatToStr(m)) == Some(m)
  {
    var s := NatToStr(m);
    NatToStrValue(m);
    assert IsDigit(s[0]);
  }

  lemma {:induction false} NegativeRoundTrip(m: nat)
    ensures ParseInt("-" + NatToStr(m)) == Some(-(m as int))
  {
    var digits := NatToStr(m);
    var s := "-" + digits;
    NatToStrValue(m);
    assert s[1..] == digits;
  }

  /** Two densities share a folder name only when they are equal. */
  lemma {:induction false} IntToStrInjective(a: int, b: int)
    ensures IntToStr(a) == IntToStr(b) <==> a == b
  {
    IntToStrRoundTrip(a);
    IntToStrRoundTrip(b);
  }
}
