/** Rendering of integers the way .NET's custom numeric format strings made of zeros do it
    (`{n:00}`, `{n:000000000000}`), and of plain `{n}` interpolation; with a parser that is
    its inverse, so that rendered numbers can be read back out of keys and addresses. */
module Formatting {
  import opened Outcomes

  predicate IsDigit(c: char) {
    '0' <= c <= '9'
  }

  predicate AllDigits(s: string) {
    forall i :: 0 <= i < |s| ==> IsDigit(s[i])
  }

  function DigitChar(d: nat): (c: char)
    requires d < 10
    ensures IsDigit(c)
  {
    (48 + d) as char
  }

  function DigitValue(c: char): (d: nat)
    requires IsDigit(c)
    ensures d < 10
  {
    (c as int) - 48
  }

  /** The decimal digits of `n`, most significant first, without leading zeros ("0" for zero). */
  function Digits(n: nat): (s: string)
    ensures 1 <= |s| && AllDigits(s)
    ensures |s| > 1 ==> s[0] != '0'
    decreases n
  {
    if n < 10 then [DigitChar(n)] else Digits(n / 10) + [DigitChar(n % 10)]
  }

  function Zeros(count: nat): (s: string)
    ensures |s| == count && forall i :: 0 <= i < count ==> s[i] == '0'
  {
    seq(count, i => '0')
  }

  /** `n` rendered with at least `minDigits` digits, padded on the left with zeros. */
  function ZeroPad(n: nat, minDigits: nat): (s: string)
    ensures AllDigits(s)
    ensures |s| == if minDigits > |Digits(n)| then minDigits else |Digits(n)|
  {
    var digits := Digits(n);
    if minDigits > |digits| then Zeros(minDigits - |digits|) + digits else digits
  }

  /** `n` formatted with a custom format of `minDigits` zeros: a negative number gets a
      leading '-' before its padded magnitude. `FormatInt(n, 1)` is the plain `{n}` rendering. */
  function FormatInt(n: int, minDigits: nat): (s: string)
    ensures n >= 0 ==> AllDigits(s) && |s| >= minDigits && |s| >= 1
    ensures n < 0 ==> |s| >= 2 && s[0] == '-' && AllDigits(s[1..]) && |s| >= minDigits + 1
  {
    if n < 0 then "-" + ZeroPad(-n, minDigits) else ZeroPad(n, minDigits)
  }

  /** The number a string of decimal digits denotes (most significant first). */
  function DigitsValue(s: string): nat
    requires AllDigits(s)
  {
    if s == [] then 0 else 10 * DigitsValue(s[..|s| - 1]) + DigitValue(s[|s| - 1])
  }

  /** Reads back an integer: an optional '-' followed by at least one decimal digit. */
  function ParseInt(s: string): (r: Option<int>)
    ensures r.Some? <==> (|s| >= 1 && AllDigits(s)) || (|s| >= 2 && s[0] == '-' && AllDigits(s[1..]))
  {
    if |s| >= 2 && s[0] == '-' && AllDigits(s[1..]) then Some(-(DigitsValue(s[1..]) as int))
    else if |s| >= 1 && AllDigits(s) then Some(DigitsValue(s))
    else None
  }

  lemma {:induction false} DigitsValueOfDigits(n: nat)
    ensures DigitsValue(Digits(n)) == n
    decreases n
  {
    if n >= 10 {
      var s := Digits(n);
      assert s[..|s| - 1] == Digits(n / 10);
      DigitsValueOfDigits(n / 10);
    }
  }

  /** Leading zeros do not change the value of a digit string. */
  lemma {:induction false} DigitsValueLeadingZeros(count: nat, s: string)
    requires AllDigits(s)
    ensures AllDigits(Zeros(count) + s)
    ensures DigitsValue(Zeros(count) + s) == DigitsValue(s)
    decreases |s|
  {
    var z := Zeros(count);
    if s == [] {
      assert z + s == z;
      ZerosValue(count);
    } else {
      var init := s[..|s| - 1];
      DigitsValueLeadingZeros(count, init);
      assert (z + s)[..|z + s| - 1] == z + init;
      assert (z + s)[|z + s| - 1] == s[|s| - 1];
    }
  }

  lemma {:induction false} ZerosValue(count: nat)
    ensures AllDigits(Zeros(count))
    ensures DigitsValue(Zeros(count)) == 0
  {
    if count > 0 {
      assert Zeros(count)[..count - 1] == Zeros(count - 1);
      ZerosValue(count - 1);
    }
  }

  /** Formatting then parsing gives back the number, whatever the padding width. */
  lemma FormatIntRoundTrip(n: int, minDigits: nat)
    ensures ParseInt(FormatInt(n, minDigits)) == Some(n)
  {
    var m: nat := if n < 0 then -n else n;
    var digits := Digits(m);
    DigitsValueOfDigits(m);
    if minDigits > |digits| {
      DigitsValueLeadingZeros(minDigits - |digits|, digits);
    }
    assert DigitsValue(ZeroPad(m, minDigits)) == m;
    if n < 0 {
      assert FormatInt(n, minDigits)[1..] == ZeroPad(m, minDigits);
    }
  }

  /** Distinct numbers are rendered differently under the same format. */
  lemma FormatIntInjective(a: int, b: int, minDigits: nat)
    ensures FormatInt(a, minDigits) == FormatInt(b, minDigits) <==> a == b
  {
    FormatIntRoundTrip(a, minDigits);
    FormatIntRoundTrip(b, minDigits);
  }
}
