/** Decimal text of integers, as `format("{}", n)` writes an `int`, and the
    reading of that text back into a number. */
module Decimal {
  import opened Monads

  /** The width of the C++ `int` the `limit` argument is declared with. */
  newtype Int32 = x: int | -0x8000_0000 <= x < 0x8000_0000

  predicate IsDigit(c: char)
  {
    '0' <= c <= '9'
  }

  predicate AllDigits(s: string)
  {
    forall i :: 0 <= i < |s| ==> IsDigit(s[i])
  }

  function DigitChar(d: nat): (c: char)
    requires d < 10
    ensures IsDigit(c) && DigitValue(c) == d
  {
    ('0' as int + d) as char
  }

  function DigitValue(c: char): (d: nat)
    requires IsDigit(c)
    ensures d < 10
  {
    c as int - '0' as int
  }

  /** Shortest decimal digits of `n`: never empty, no leading zero. */
  function NatToString(n: nat): (s: string)
    ensures |s| >= 1 && AllDigits(s)
    ensures s[0] == '0' ==> n == 0 && |s| == 1
    decreases n
  {
    if n < 10 then [DigitChar(n)] else NatToString(n / 10) + [DigitChar(n % 10)]
  }

  /** The number a string of digits denotes. */
  function DigitsValue(s: string): nat
    requires AllDigits(s)
  {
    if s == [] then 0 else DigitsValue(s[..|s| - 1]) * 10 + DigitValue(s[|s| - 1])
  }

  lemma {:induction false} NatToStringRoundTrip(n: nat)
    ensures DigitsValue(NatToString(n)) == n
    decreases n
  {
    if n >= 10 {
      var s := NatToString(n);
      NatToStringRoundTrip(n / 10);
      assert s[..|s| - 1] == NatToString(n / 10);
    }
  }

  /** Digits with no leading zero (a lone `0` aside). */
  predicate ShortestDigits(s: string)
  {
    |s| >= 1 && AllDigits(s) && (s[0] == '0' ==> |s| == 1)
  }

  /** The shortest text of an integer: its shortest digits, after a minus
      sign when it is negative (and never `-0`). */
  predicate Canonical(s: string)
  {
    ShortestDigits(s)
    || (|s| >= 2 && s[0] == '-' && ShortestDigits(s[1..]) && s[1] != '0')
  }

  lemma DigitCharValue(c: char)
    requires IsDigit(c)
    ensures DigitChar(DigitValue(c)) == c
  {
  }

  /** The shortest digits of a number are the only shortest digits that
      denote it. */
  lemma {:induction false} ShortestDigitsUnique(s: string)
    requires ShortestDigits(s)
    ensures s == NatToString(DigitsValue(s))
    decreases |s|
  {
    if |s| == 1 {
      DigitCharValue(s[0]);
    } else {
      var p := s[..|s| - 1];
      assert p[0] == s[0];
      assert AllDigits(p);
      ShortestDigitsUnique(p);
      var v := DigitsValue(s);
      assert NatToString(0) == "0" && p[0] != '0';
      assert DigitsValue(p) != 0;
      assert v / 10 == DigitsValue(p) && v % 10 == DigitValue(s[|s| - 1]);
      DigitCharValue(s[|s| - 1]);
      assert s == p + [s[|s| - 1]];
    }
  }

  /** Decimal text of an integer: a minus sign before the digits of a
      negative one, no leading zero. */
  function IntToString(x: int): (s: string)
    ensures |s| >= 1
    ensures s[0] == '-' <==> x < 0
    ensures x >= 0 ==> AllDigits(s)
    ensures Canonical(s)
    ensures x >= 0 && s[0] == '0' ==> s == "0"
    ensures x < 0 ==> |s| >= 2 && AllDigits(s[1..]) && s[1] != '0'
  {
    if x < 0 then "-" + NatToString(-x) else NatToString(x)
  }

  /** How a decimal integer text is read back (by the exchange, say). */
  function ParseInt(s: string): (r: Maybe<int>)
    ensures r.Just? ==> |s| >= 1
  {
    if |s| >= 2 && s[0] == '-' && AllDigits(s[1..]) then Just(-(DigitsValue(s[1..]) as int))
    else if |s| >= 1 && AllDigits(s) then Just(DigitsValue(s))
    else Nothing
  }

  /** Reading back the text of an integer gives that integer. */
  lemma IntToStringRoundTrip(x: int)
    ensures ParseInt(IntToString(x)) == Just(x)
  {
    var s := IntToString(x);
    if x < 0 {
      NatToStringRoundTrip(-x);
      assert s[1..] == NatToString(-x);
    } else {
      NatToStringRoundTrip(x);
    }
  }

  /** The text of an integer is its only canonical text: any canonical
      text reads back as some integer, and is that integer's text. */
  lemma CanonicalIsIntToString(s: string)
    requires Canonical(s)
    ensures ParseInt(s).Just? && s == IntToString(ParseInt(s).value)
  {
    if s[0] == '-' {
      ShortestDigitsUnique(s[1..]);
      assert s == "-" + s[1..];
    } else {
      ShortestDigitsUnique(s);
    }
  }

  /** Distinct integers have distinct texts. */
  lemma IntToStringInjective(x: int, y: int)
    requires IntToString(x) == IntToString(y)
    ensures x == y
  {
    IntToStringRoundTrip(x);
    IntToStringRoundTrip(y);
  }
}
