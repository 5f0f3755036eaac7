/**
 * A simplified `parseInt`: an optional minus sign, then the longest prefix of
 * decimal digits; NaN when that prefix is empty. Its partner is the decimal
 * rendering `Show`, and the two round-trip.
 */
module Numbers {
  import opened Domain

  predicate IsDigit(c: char) {
    '0' <= c <= '9'
  }

  function DigitValue(c: char): (d: nat)
    requires IsDigit(c)
    ensures d < 10
  {
    (c as int) - ('0' as int)
  }

  function DigitChar(d: nat): (c: char)
    requires d < 10
    ensures IsDigit(c) && DigitValue(c) == d
  {
    (('0' as int) + d) as char
  }

  predicate AllDigits(s: string) {
    forall i :: 0 <= i < |s| ==> IsDigit(s[i])
  }

  /** Length of the longest prefix of `s` made of decimal digits. */
  function DigitPrefixLength(s: string): (k: nat)
    ensures k <= |s|
    ensures AllDigits(s[..k])
    ensures k < |s| ==> !IsDigit(s[k])
  {
    if |s| == 0 || !IsDigit(s[0]) then 0 else 1 + DigitPrefixLength(s[1..])
  }

  /** The value of a digit string read most-significant digit first. */
  function DigitsValue(d: string): nat
    requires AllDigits(d)
  {
    if |d| == 0 then 0 else DigitsValue(d[..|d| - 1]) * 10 + DigitValue(d[|d| - 1])
  }

  function ParseDigits(s: string): (r: Parsed)
    ensures r.NaN? <==> (|s| == 0 || !IsDigit(s[0]))
    ensures r.Num? ==> r.n >= 0
  {
    var k := DigitPrefixLength(s);
    if k == 0 then NaN else Num(DigitsValue(s[..k]))
  }

  /**
   * `parseInt(s)` restricted to an optional leading '-' and decimal digits;
   * whitespace, '+' and radix prefixes are not modelled.
   */
  function ParseInt(s: string): (r: Parsed)
    ensures r.NaN? <==> (var t := if |s| > 0 && s[0] == '-' then s[1..] else s;
                          |t| == 0 || !IsDigit(t[0]))
    ensures r.Num? && r.n < 0 ==> |s| > 0 && s[0] == '-'
  {
    if |s| > 0 && s[0] == '-' then
      match ParseDigits(s[1..])
      case NaN => NaN
      case Num(v) => Num(-v)
    else
      ParseDigits(s)
  }

  /** Decimal rendering of a natural number, most significant digit first. */
  function ShowNat(n: nat): (s: string)
    ensures |s| > 0 && AllDigits(s)
  {
    if n < 10 then [DigitChar(n)] else ShowNat(n / 10) + [DigitChar(n % 10)]
  }

  /** Decimal rendering of an integer, with a leading '-' when negative. */
  function Show(n: int): (s: string)
    ensures |s| > 0
    ensures n < 0 <==> s[0] == '-'
  {
    if n < 0 then "-" + ShowNat(-n) else ShowNat(n)
  }

  lemma {:induction false} DigitsValueOfShowNat(n: nat)
    ensures DigitsValue(ShowNat(n)) == n
  {
    var s := ShowNat(n);
    if n >= 10 {
      DigitsValueOfShowNat(n / 10);
      assert s[..|s| - 1] == ShowNat(n / 10);
    }
  }

  lemma {:induction false} DigitPrefixOfDigits(a: string, b: string)
    requires AllDigits(a)
    requires |b| == 0 || !IsDigit(b[0])
    ensures DigitPrefixLength(a + b) == |a|
  {
    if |a| > 0 {
      assert (a + b)[1..] == a[1..] + b;
      DigitPrefixOfDigits(a[1..], b);
    } else {
      assert a + b == b;
    }
  }

  /** Reading a digit string back through its longest digit prefix. */
  lemma ParseDigitsOfShowNat(n: nat, rest: string)
    requires |rest| == 0 || !IsDigit(rest[0])
    ensures ParseDigits(ShowNat(n) + rest) == Num(n)
  {
    var s := ShowNat(n);
    DigitPrefixOfDigits(s, rest);
    assert (s + rest)[..|s|] == s;
    DigitsValueOfShowNat(n);
  }

  lemma ParseNegativeShow(n: int, rest: string)
    requires n < 0
    requires |rest| == 0 || !IsDigit(rest[0])
    ensures ParseInt(Show(n) + rest) == Num(n)
  {
    var t := ShowNat(-n);
    var s := Show(n) + rest;
    assert s == "-" + (t + rest);
    assert s[0] == '-' && s[1..] == t + rest;
    ParseDigitsOfShowNat(-n, rest);
  }

  lemma ParseNonNegativeShow(n: nat, rest: string)
    requires |rest| == 0 || !IsDigit(rest[0])
    ensures ParseInt(Show(n) + rest) == Num(n)
  {
    var t := ShowNat(n);
    var s := t + rest;
    assert s[0] == t[0] && IsDigit(t[0]);
    ParseDigitsOfShowNat(n, rest);
  }

  /**
   * Round trip: parsing the rendering of `n`, followed by anything that does
   * not continue the digits, gives back `n`.
   */
  lemma ParseShowRoundTrip(n: int, rest: string)
    requires |rest| == 0 || !IsDigit(rest[0])
    ensures ParseInt(Show(n) + rest) == Num(n)
  {
    if n < 0 {
      ParseNegativeShow(n, rest);
    } else {
      ParseNonNegativeShow(n, rest);
    }
  }
}
