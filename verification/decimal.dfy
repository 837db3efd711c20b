/** Python's `str(n)` for integers, and its inverse on canonical decimal text
    (no sign on zero, no leading zeros). */
module Decimal {

  import opened Wrappers

  predicate IsDigit(c: char) {
    '0' <= c <= '9'
  }

  function DigitChar(d: nat): (c: char)
    requires d < 10
    ensures IsDigit(c)
  {
    "0123456789"[d]
  }

  function DigitValue(c: char): (d: nat)
    requires IsDigit(c)
    ensures d < 10 && DigitChar(d) == c
  {
    (c as int - '0' as int)
  }

  /** `str(n)` for `n >= 0`. */
  function NatToString(n: nat): string
  {
    if n < 10 then [DigitChar(n)] else NatToString(n / 10) + [DigitChar(n % 10)]
  }

  /** `str(i)`: a minus sign for negative values, then the digits. */
  function IntToString(i: int): (s: string)
  {
    if i < 0 then "-" + NatToString(-i) else NatToString(i)
  }

  /** The value of a run of decimal digits. */
  function DigitsValue(s: string): nat
    requires forall k :: 0 <= k < |s| ==> IsDigit(s[k])
  {
    if |s| == 0 then 0 else DigitsValue(s[..|s| - 1]) * 10 + DigitValue(s[|s| - 1])
  }

  /** Non-empty digits without a redundant leading zero. */
  predicate CanonicalDigits(s: string) {
    && |s| >= 1
    && (forall k :: 0 <= k < |s| ==> IsDigit(s[k]))
    && (|s| == 1 || s[0] != '0')
  }

  /** Reads back text produced by `IntToString`; anything else is rejected. */
  function ParseInt(s: string): Option<int>
  {
    if |s| >= 2 && s[0] == '-' && CanonicalDigits(s[1..]) && s[1..] != "0" then Some(0 - DigitsValue(s[1..]) as int)
    else if CanonicalDigits(s) then Some(DigitsValue(s))
    else None
  }

  lemma {:induction false} NatToStringCanonical(n: nat)
    ensures CanonicalDigits(NatToString(n))
    ensures DigitsValue(NatToString(n)) == n
  {
    if n >= 10 {
      NatToStringCanonical(n / 10);
      var s := NatToString(n);
      assert s[..|s| - 1] == NatToString(n / 10);
    }
  }

  lemma {:induction false} CanonicalPositive(s: string)
    requires CanonicalDigits(s) && s[0] != '0'
    ensures DigitsValue(s) >= 1
  {
    if |s| > 1 {
      CanonicalPositive(s[..|s| - 1]);
    }
  }

  lemma {:induction false} DigitsToStringRoundTrip(s: string)
    requires CanonicalDigits(s)
    ensures NatToString(DigitsValue(s)) == s
  {
    if |s| > 1 {
      var p := s[..|s| - 1];
      var d := DigitValue(s[|s| - 1]);
      DigitsToStringRoundTrip(p);
      CanonicalPositive(p);
      var v := DigitsValue(s);
      assert v == DigitsValue(p) * 10 + d;
      assert v / 10 == DigitsValue(p) && v % 10 == d;
      assert s == p + [s[|s| - 1]];
    } else {
      assert s == [DigitChar(DigitValue(s[0]))];
    }
  }

  lemma SmallNumbers()
    ensures IntToString(0) == "0" && IntToString(1) == "1" && IntToString(2) == "2"
  {
  }

  /** `ParseInt` inverts `IntToString` on every integer. */
  lemma ParseIntToString(i: int)
    ensures ParseInt(IntToString(i)) == Some(i)
  {
    if i < 0 {
      ParseNegative(-i);
    } else {
      NatToStringCanonical(i);
      var s := NatToString(i);
      assert IsDigit(s[0]);
    }
  }

  lemma ParseNegative(n: nat)
    requires n >= 1
    ensures ParseInt("-" + NatToString(n)) == Some(0 - n)
  {
    NatToStringCanonical(n);
    var d := NatToString(n);
    var s := "-" + d;
    assert s[1..] == d;
    assert DigitsValue("0") == 0;
    assert d != "0";
  }

  /** Whatever `ParseInt` accepts is exactly the `IntToString` of its value. */
  lemma IntToStringParse(s: string, i: int)
    requires ParseInt(s) == Some(i)
    ensures IntToString(i) == s
  {
    if |s| >= 2 && s[0] == '-' && CanonicalDigits(s[1..]) && s[1..] != "0" {
      DigitsToStringRoundTrip(s[1..]);
      CanonicalPositive(s[1..]);
      assert s == "-" + s[1..];
    } else {
      DigitsToStringRoundTrip(s);
    }
  }
}
