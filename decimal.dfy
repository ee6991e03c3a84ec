/**
 * Decimal rendering and reading of integers: what `snprintf("%d")`,
 * `Printf("%d")` and `strconv.Atoi` do, for values that fit.
 */
module Decimal {
  import opened Wrappers

  predicate IsDigit(c: char) { '0' <= c <= '9' }

  predicate AllDigits(s: string) { forall i :: 0 <= i < |s| ==> IsDigit(s[i]) }

  function DigitChar(d: nat): (c: char)
    requires d < 10
    ensures IsDigit(c) && c as int - '0' as int == d
  {
    (d + '0' as int) as char
  }

  function DigitValue(c: char): (d: nat)
    requires IsDigit(c)
    ensures d < 10
  {
    c as int - '0' as int
  }

  /** The value of a string of decimal digits, most significant first. */
  function DigitsValue(s: string): nat
    requires AllDigits(s)
  {
    if s == [] then 0 else 10 * DigitsValue(s[..|s| - 1]) + DigitValue(s[|s| - 1])
  }

  /** Decimal digits of n, without leading zeros. */
  function NatToString(n: nat): (r: string)
    ensures |r| >= 1 && AllDigits(r)
    ensures r[0] == '0' ==> n == 0
  {
    if n < 10 then [DigitChar(n)] else NatToString(n / 10) + [DigitChar(n % 10)]
  }

  /** `%d`: a leading '-' for negative values. */
  function IntToString(n: int): (r: string)
    ensures |r| >= 1
    ensures (r[0] == '-') <==> n < 0
  {
    if n < 0 then "-" + NatToString(-n) else NatToString(n)
  }

  function Pow10(k: nat): (p: nat)
    ensures p >= 1
  {
    if k == 0 then 1 else 10 * Pow10(k - 1)
  }

  lemma {:induction false} NatRoundTrip(n: nat)
    ensures DigitsValue(NatToString(n)) == n
  {
    if n >= 10 {
      var s := NatToString(n / 10) + [DigitChar(n % 10)];
      assert s[..|s| - 1] == NatToString(n / 10);
      NatRoundTrip(n / 10);
    }
  }

  /** A value below 10^k needs at most k digits. */
  lemma {:induction false} NatLength(n: nat, k: nat)
    requires k >= 1 && n < Pow10(k)
    ensures |NatToString(n)| <= k
  {
    if n >= 10 {
      assert k >= 2;
      NatLength(n / 10, k - 1);
    }
  }

  /**
   * `strconv.Atoi` on text that fits an int: an optional sign followed by at
   * least one digit; anything else is a syntax error.
   */
  function Atoi(s: string): (r: Result<int>)
    ensures r.Ok? <==> (|s| >= 1 && ((s[0] == '+' || s[0] == '-') ==> |s| >= 2) &&
                        AllDigits(if s[0] == '+' || s[0] == '-' then s[1..] else s))
  {
    var signed := |s| > 0 && (s[0] == '+' || s[0] == '-');
    var digits := if signed then s[1..] else s;
    if digits == [] || !AllDigits(digits) then Err("strconv.Atoi: parsing \"" + s + "\": invalid syntax")
    else
      var v: int := DigitsValue(digits);
      if signed && s[0] == '-' then Ok(-v) else Ok(v)
  }

  /** A digit string reads as its value. */
  lemma AtoiDigits(d: string)
    requires |d| >= 1 && AllDigits(d)
    ensures Atoi(d) == Ok(DigitsValue(d))
  {
    assert IsDigit(d[0]);
  }

  /** A minus sign before a digit string negates its value. */
  lemma AtoiNegative(d: string, m: string)
    requires |d| >= 1 && AllDigits(d) && m == "-" + d
    ensures Atoi(m) == Ok(-(DigitsValue(d) as int))
  {
    assert m[0] == '-' && m[1..] == d;
  }

  /** Reading back what `%d` wrote gives the value again. */
  lemma IntRoundTrip(n: int)
    ensures Atoi(IntToString(n)) == Ok(n)
  {
    var m: nat := if n < 0 then -n else n;
    NatRoundTrip(m);
    if n < 0 {
      AtoiNegative(NatToString(m), IntToString(n));
    } else {
      AtoiDigits(NatToString(m));
    }
  }
}
