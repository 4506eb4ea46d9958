/** Decimal text as Python writes and reads it: `str(n)`, `format(n, '0Nd')`
    (zero padding to a minimum width, sign-aware) and `int(s)` on a string of
    ASCII digits with an optional sign. */
module Decimal {
  import opened Wrappers

  predicate IsDigit(c: char) { '0' <= c <= '9' }

  predicate AllDigits(s: string) { forall i :: 0 <= i < |s| ==> IsDigit(s[i]) }

  function DigitValue(c: char): nat
    requires IsDigit(c)
  {
    (c as int) - ('0' as int)
  }

  function DigitChar(d: nat): (c: char)
    requires d < 10
    ensures IsDigit(c) && DigitValue(c) == d
  {
    (('0' as int) + d) as char
  }

  function Pow10(k: nat): (p: nat)
    ensures p >= 1
  {
    if k == 0 then 1 else 10 * Pow10(k - 1)
  }

  /** `str(n)` for a non-negative integer: no leading zeros, "0" for zero. */
  function NatText(n: nat): (s: string)
    ensures |s| >= 1 && AllDigits(s)
    ensures s[0] == '0' ==> n == 0
  {
    if n < 10 then [DigitChar(n)] else NatText(n / 10) + [DigitChar(n % 10)]
  }

  function Zeros(k: nat): (s: string)
    ensures |s| == k && AllDigits(s)
    ensures forall i :: 0 <= i < k ==> s[i] == '0'
  {
    if k == 0 then [] else Zeros(k - 1) + ['0']
  }

  /** The value of a string of digits, read left to right. */
  function DigitsValue(s: string): nat
    requires AllDigits(s)
  {
    if s == [] then 0 else DigitsValue(s[..|s| - 1]) * 10 + DigitValue(s[|s| - 1])
  }

  /** `format(n, '0{width}d')` for n >= 0. */
  function ZeroPad(n: nat, width: nat): (s: string)
    ensures AllDigits(s) && |s| >= 1
  {
    var t := NatText(n);
    if |t| < width then Zeros(width - |t|) + t else t
  }

  /** `format(n, '0{width}d')`: the sign counts towards the width and the
      zeros go between the sign and the digits, so -4 at width 3 is "-04". */
  function IntPad(n: int, width: nat): string
  {
    if n < 0 then "-" + ZeroPad(-n, if width > 0 then width - 1 else 0) else ZeroPad(n, width)
  }

  /** `str(n)` for any integer. */
  function IntText(n: int): string
  {
    IntPad(n, 0)
  }

  /** `int(s)` over ASCII digits with an optional leading '+' or '-';
      anything else (the empty string included) raises, modelled as None. */
  function ParseInt(s: string): (r: Option<int>)
    ensures r.Some? ==> |s| >= 1
    ensures (exists i :: 0 < i < |s| && !IsDigit(s[i])) ==> r.None?
    ensures |s| >= 1 && !IsDigit(s[0]) && s[0] != '+' && s[0] != '-' ==> r.None?
  {
    if |s| == 0 then None
    else if s[0] == '-' || s[0] == '+' then
      var body := s[1..];
      if |body| >= 1 && AllDigits(body) then
        (assert forall i :: 0 < i < |s| ==> s[i] == body[i - 1];
         var v: int := if s[0] == '-' then 0 - (DigitsValue(body) as int) else DigitsValue(body);
         Some(v))
      else None
    else if AllDigits(s) then Some(DigitsValue(s))
    else None
  }

  lemma {:induction false} DigitsValueOfZeros(k: nat)
    ensures DigitsValue(Zeros(k)) == 0
  {
    if k > 0 {
      assert Zeros(k)[..k - 1] == Zeros(k - 1);
      DigitsValueOfZeros(k - 1);
    }
  }

  /** Leading zeros do not change the value `int()` reads. */
  lemma {:induction false} LeadingZeros(k: nat, s: string)
    requires AllDigits(s)
    ensures AllDigits(Zeros(k) + s)
    ensures DigitsValue(Zeros(k) + s) == DigitsValue(s)
    decreases |s|
  {
    var z := Zeros(k) + s;
    if s == [] {
      assert z == Zeros(k);
      DigitsValueOfZeros(k);
    } else {
      assert z[..|z| - 1] == Zeros(k) + s[..|s| - 1];
      LeadingZeros(k, s[..|s| - 1]);
    }
  }

  lemma {:induction false} DigitsValueOfNatText(n: nat)
    ensures DigitsValue(NatText(n)) == n
  {
    if n >= 10 {
      var t := NatText(n);
      assert t[..|t| - 1] == NatText(n / 10);
      DigitsValueOfNatText(n / 10);
    }
  }

  /** Reading back what `format(n, '0Nd')` wrote gives n, for every width. */
  lemma ZeroPadRoundTrip(n: nat, width: nat)
    ensures DigitsValue(ZeroPad(n, width)) == n
  {
    DigitsValueOfNatText(n);
    var t := NatText(n);
    if |t| < width {
      LeadingZeros(width - |t|, t);
    }
  }

  /** `int()` of a non-empty run of digits is its value. */
  lemma ParseDigits(body: string)
    requires |body| >= 1 && AllDigits(body)
    ensures ParseInt(body) == Some(DigitsValue(body) as int)
  {
    assert IsDigit(body[0]);
  }

  /** `int()` of a minus sign followed by a non-empty run of digits is the
      negated value. */
  lemma ParseNegated(body: string)
    requires |body| >= 1 && AllDigits(body)
    ensures ParseInt("-" + body) == Some(0 - (DigitsValue(body) as int))
  {
    var s := "-" + body;
    assert s[0] == '-' && s[1..] == body;
  }

  /** `int(format(n, '0Nd')) == n` for every integer and every width. */
  lemma IntPadRoundTrip(n: int, width: nat)
    ensures ParseInt(IntPad(n, width)) == Some(n)
  {
    if n < 0 {
      var w := if width > 0 then width - 1 else 0;
      ZeroPadRoundTrip(-n, w);
      ParseNegated(ZeroPad(-n, w));
    } else {
      ZeroPadRoundTrip(n, width);
      ParseDigits(ZeroPad(n, width));
    }
  }

  /** The decimal text of n has at most k digits exactly when n < 10^k. */
  lemma {:induction false} NatTextLength(n: nat, k: nat)
    requires k >= 1
    ensures |NatText(n)| <= k <==> n < Pow10(k)
  {
    if n >= 10 && k >= 2 {
      NatTextLength(n / 10, k - 1);
    } else if n >= 10 {
      assert |NatText(n)| == |NatText(n / 10)| + 1;
    }
  }

  /** The width is a minimum: below 10^width the padded text is exactly
      `width` characters, from 10^width on it is the plain decimal text. */
  lemma ZeroPadWidth(n: nat, width: nat)
    requires width >= 1
    ensures n < Pow10(width) ==> |ZeroPad(n, width)| == width
    ensures n >= Pow10(width) ==> ZeroPad(n, width) == NatText(n) && |ZeroPad(n, width)| > width
  {
    NatTextLength(n, width);
  }

  /** Two padded texts of the same width are equal only for equal values. */
  lemma ZeroPadInjective(a: nat, b: nat, width: nat)
    requires ZeroPad(a, width) == ZeroPad(b, width)
    ensures a == b
  {
    ZeroPadRoundTrip(a, width);
    ZeroPadRoundTrip(b, width);
  }
}
