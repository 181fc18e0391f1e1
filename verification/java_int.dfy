/** Java's 32-bit `int` and the two conversions the cloud codec uses:
    `Integer.toString(int)` and `Integer.parseInt(String)` in radix 10. */
module JavaInt {
  import opened Wrappers

  const MIN_VALUE: int := -0x8000_0000
  const MAX_VALUE: int := 0x7FFF_FFFF

  /** A value of Java's primitive `int` type. */
  type Int32 = x: int | MIN_VALUE <= x <= MAX_VALUE

  /** The exception `Integer.parseInt` throws, carrying the rejected input. */
  datatype NumberFormatException = NumberFormatException(input: string)

  predicate IsDigit(c: char) {
    '0' <= c <= '9'
  }

  predicate AllDigits(s: string) {
    forall i :: 0 <= i < |s| ==> IsDigit(s[i])
  }

  function DigitChar(d: nat): (c: char)
    requires d < 10
    ensures IsDigit(c)
  {
    ('0' as int + d) as char
  }

  function DigitValue(c: char): (d: nat)
    requires IsDigit(c)
    ensures d < 10
    ensures DigitChar(d) == c
  {
    c as int - '0' as int
  }

  /** A digit string without superfluous leading zeros. */
  predicate IsCanonicalDigits(s: string) {
    |s| > 0 && AllDigits(s) && (s[0] == '0' ==> |s| == 1)
  }

  /** The decimal digits of `n`, most significant first. */
  function NatToDigits(n: nat): (s: string)
    ensures IsCanonicalDigits(s)
    ensures s[0] == '0' <==> n == 0
    decreases n
  {
    if n < 10 then [DigitChar(n)] else NatToDigits(n / 10) + [DigitChar(n % 10)]
  }

  /** The number a string of decimal digits denotes (leading zeros allowed). */
  function DigitsValue(s: string): nat
    requires AllDigits(s)
  {
    if |s| == 0 then 0 else DigitsValue(s[..|s| - 1]) * 10 + DigitValue(s[|s| - 1])
  }

  /** `Integer.toString(i)`: an optional minus sign followed by the canonical
      decimal digits of the magnitude. */
  function ToString(i: Int32): (s: string)
    ensures |s| > 0
    ensures s[0] == '-' <==> i < 0
    ensures i < 0 ==> IsCanonicalDigits(s[1..]) && s[1] != '0'
    ensures i >= 0 ==> IsCanonicalDigits(s)
  {
    if i < 0 then "-" + NatToDigits(-(i as int)) else NatToDigits(i)
  }

  /** `Integer.parseInt(s)`: an optional `-` or `+` sign followed by at least
      one decimal digit; the denoted value must fit in an `int`. Anything else
      throws `NumberFormatException`. */
  function ParseInt(s: string): (r: Result<Int32, NumberFormatException>)
    ensures r.Failure? ==> r.error == NumberFormatException(s)
    ensures |s| == 0 ==> r.Failure?
    ensures r.Success? ==> (r.value < 0 ==> s[0] == '-')
    ensures r.Success? ==> var d := if s[0] == '-' || s[0] == '+' then s[1..] else s;
                           |d| > 0 && AllDigits(d) && r.value == (if s[0] == '-' then -(DigitsValue(d) as int) else DigitsValue(d))
  {
    if |s| == 0 then Failure(NumberFormatException(s))
    else
      var negative := s[0] == '-';
      var digits := if s[0] == '-' || s[0] == '+' then s[1..] else s;
      if |digits| == 0 || !AllDigits(digits) then Failure(NumberFormatException(s))
      else
        var magnitude: int := DigitsValue(digits);
        var v: int := if negative then -magnitude else magnitude;
        if MIN_VALUE <= v <= MAX_VALUE then Success(v) else Failure(NumberFormatException(s))
  }

  /** Reading the digits of `n` back gives `n`. */
  lemma {:induction false} DigitsValueOfNatToDigits(n: nat)
    ensures DigitsValue(NatToDigits(n)) == n
    decreases n
  {
    var s := NatToDigits(n);
    if n < 10 {
      assert s[..|s| - 1] == [];
    } else {
      DigitsValueOfNatToDigits(n / 10);
      assert s[..|s| - 1] == NatToDigits(n / 10);
    }
  }

  /** Conversely, a canonical digit string is the digit string of its value. */
  lemma {:induction false} NatToDigitsOfDigitsValue(s: string)
    requires IsCanonicalDigits(s)
    ensures NatToDigits(DigitsValue(s)) == s
    decreases |s|
  {
    if |s| == 1 {
      assert s[..0] == [];
      assert s == [s[0]];
    } else {
      var t := s[..|s| - 1];
      assert t[0] == s[0];
      NatToDigitsOfDigitsValue(t);
      var v := DigitsValue(s);
      assert DigitsValue(t) != 0;
      assert v / 10 == DigitsValue(t) && v % 10 == DigitValue(s[|s| - 1]);
      assert s == t + [s[|s| - 1]];
    }
  }

  /** `Integer.parseInt(Integer.toString(i)) == i` for every `int`. */
  lemma ParseIntOfToString(i: Int32)
    ensures ParseInt(ToString(i)) == Success(i)
  {
    var s := ToString(i);
    if i < 0 {
      assert s[1..] == NatToDigits(-(i as int));
      DigitsValueOfNatToDigits(-(i as int));
    } else {
      DigitsValueOfNatToDigits(i);
    }
  }

  /** A successful parse of a canonically written number (no `+`, no leading
      zero, no `-0`) is undone by `Integer.toString`: every `int` has exactly
      one canonical spelling. */
  lemma ToStringOfParseInt(s: string)
    requires ParseInt(s).Success?
    requires s[0] == '-' ==> IsCanonicalDigits(s[1..]) && s[1] != '0'
    requires s[0] != '-' ==> IsCanonicalDigits(s)
    ensures ToString(ParseInt(s).value) == s
  {
    if s[0] == '-' {
      NatToDigitsOfDigitsValue(s[1..]);
      var n := NatToDigits(DigitsValue(s[1..]));
      assert s == "-" + n;
    } else {
      NatToDigitsOfDigitsValue(s);
    }
  }

  /** Two parses accept alike and, when they accept, yield the same `int`
      (their exceptions differ only in the input they quote). */
  predicate SameValue(a: Result<Int32, NumberFormatException>, b: Result<Int32, NumberFormatException>) {
    a.Success? == b.Success? && (a.Success? ==> a.value == b.value)
  }

  /** `parseInt` is indifferent to an explicit plus sign and to leading zeros. */
  lemma {:induction false} ParseIntIgnoresPlusAndLeadingZeros(d: string)
    requires |d| > 0 && AllDigits(d)
    ensures SameValue(ParseInt("+" + d), ParseInt(d))
    ensures SameValue(ParseInt("0" + d), ParseInt(d))
    ensures SameValue(ParseInt("-0" + d), ParseInt("-" + d))
  {
    LeadingZeroValue(d);
    assert IsDigit(d[0]) && d[0] != '-' && d[0] != '+';
    assert ("+" + d)[0] == '+' && ("+" + d)[1..] == d;
    assert ("0" + d)[0] == '0';
    assert ("-" + d)[1..] == d;
    assert ("-0" + d)[1..] == "0" + d;
  }

  lemma {:induction false} LeadingZeroValue(d: string)
    requires AllDigits(d)
    ensures AllDigits("0" + d) && DigitsValue("0" + d) == DigitsValue(d)
    decreases |d|
  {
    var z := "0" + d;
    if |d| == 0 {
      assert z[..0] == [];
    } else {
      var p := d[..|d| - 1];
      LeadingZeroValue(p);
      assert z[..|z| - 1] == "0" + p;
    }
  }
}
