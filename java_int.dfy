/**
 * The two JDK conversions between `int` and text that the core relies on:
 * `Integer.valueOf(String)` (through `Integer.parseInt`), which accepts an optional
 * sign followed by one or more decimal digits whose value fits in 32 bits, and
 * `Integer.toString(int)` (what `StringBuilder.append(int)` writes).
 * They are stated as specification functions; how the JDK computes them is not modelled.
 */
module JavaInt {
  import opened Wrappers

  /** `Integer.MIN_VALUE` and `Integer.MAX_VALUE`. */
  const MIN_VALUE: int := -0x8000_0000
  const MAX_VALUE: int := 0x7fff_ffff

  predicate InRange(n: int) {
    MIN_VALUE <= n <= MAX_VALUE
  }

  predicate IsDigit(c: char) {
    '0' <= c <= '9'
  }

  predicate AllDigits(s: string) {
    forall i :: 0 <= i < |s| ==> IsDigit(s[i])
  }

  /** One or more decimal digits. */
  predicate IsNumeral(s: string) {
    |s| > 0 && AllDigits(s)
  }

  function DigitValue(c: char): (d: nat)
    requires IsDigit(c)
    ensures d < 10
  {
    c as int - '0' as int
  }

  function DigitChar(d: nat): (c: char)
    requires d < 10
    ensures IsDigit(c) && DigitValue(c) == d
  {
    ('0' as int + d) as char
  }

  /** The value of a string of decimal digits, read most significant digit first. */
  function DigitsValue(s: string): nat
    requires AllDigits(s)
  {
    if s == [] then 0 else 10 * DigitsValue(s[..|s| - 1]) + DigitValue(s[|s| - 1])
  }

  /**
   * `Integer.valueOf(s)`: `Some(n)` when `s` is an optional `+` or `-` followed by one
   * or more digits whose value `n` is a 32-bit int; `None` where the JDK throws
   * `NumberFormatException` (empty text, a lone sign, any other character, overflow).
   */
  function ValueOf(s: string): (r: Option<int>)
    ensures r.Some? ==> InRange(r.value)
    ensures r.Some? ==> |s| > 0 && (IsDigit(s[0]) || s[0] == '-' || s[0] == '+')
  {
    if |s| > 0 && (s[0] == '-' || s[0] == '+') then
      if IsNumeral(s[1..]) then
        var magnitude: int := DigitsValue(s[1..]);
        var n: int := if s[0] == '-' then -magnitude else magnitude;
        if InRange(n) then Some(n) else None
      else None
    else if IsNumeral(s) && InRange(DigitsValue(s)) then Some(DigitsValue(s))
    else None
  }

  /** The shortest decimal digits of a natural number. */
  function Digits(n: nat): (s: string)
    ensures IsNumeral(s)
  {
    if n < 10 then [DigitChar(n)] else Digits(n / 10) + [DigitChar(n % 10)]
  }

  /**
   * `Integer.toString(n)`: a `-` for negative numbers, then the digits of the magnitude,
   * without leading zeros.
   */
  function DecimalString(n: int): (s: string)
    ensures |s| > 0 && (s[0] == '-' <==> n < 0)
    ensures var digits := if n < 0 then s[1..] else s;
            IsNumeral(digits)
  {
    if n < 0 then "-" + Digits(-n) else Digits(n)
  }

  lemma {:induction false} DigitsRoundTrip(n: nat)
    ensures IsNumeral(Digits(n)) && DigitsValue(Digits(n)) == n
  {
    if n >= 10 {
      DigitsRoundTrip(n / 10);
      var s := Digits(n);
      assert s[..|s| - 1] == Digits(n / 10);
      assert s[|s| - 1] == DigitChar(n % 10);
    }
  }

  /** The digits of a number are the shortest ones: a single digit, or no leading zero. */
  lemma {:induction false} DigitsCanonical(n: nat)
    ensures |Digits(n)| == 1 || Digits(n)[0] != '0'
  {
    if n >= 10 {
      DigitsCanonical(n / 10);
      assert Digits(n)[0] == Digits(n / 10)[0];
    }
  }

  /** Reading back what `Integer.toString` wrote gives the same int. */
  lemma DecimalRoundTrip(n: int)
    requires InRange(n)
    ensures ValueOf(DecimalString(n)) == Some(n)
  {
    var s := DecimalString(n);
    if n < 0 {
      DigitsRoundTrip(-n);
      assert s[0] == '-' && s[1..] == Digits(-n);
      assert IsNumeral(s[1..]) && DigitsValue(s[1..]) == -n;
    } else {
      DigitsRoundTrip(n);
      assert s == Digits(n) && IsDigit(s[0]);
      assert IsNumeral(s) && DigitsValue(s) == n;
    }
  }

  /** Ints outside the 32-bit range, written out in decimal, are rejected. */
  lemma OutOfRangeRejected(n: int)
    requires !InRange(n)
    ensures ValueOf(DecimalString(n)) == None
  {
    var s := DecimalString(n);
    if n < 0 {
      DigitsRoundTrip(-n);
      assert s[0] == '-' && s[1..] == Digits(-n);
    } else {
      DigitsRoundTrip(n);
      assert s == Digits(n) && IsDigit(s[0]);
    }
  }

  function Pow10(k: nat): (p: nat)
    ensures p >= 1
  {
    if k == 0 then 1 else 10 * Pow10(k - 1)
  }

  /** A numeral that does not start with `0` is at least ten to the power of its length less one. */
  lemma {:induction false} NumeralLowerBound(s: string)
    requires IsNumeral(s) && s[0] != '0'
    ensures DigitsValue(s) >= Pow10(|s| - 1)
  {
    if |s| > 1 {
      var prefix := s[..|s| - 1];
      assert prefix[0] == s[0];
      NumeralLowerBound(prefix);
    }
  }

  lemma {:induction false} Pow10Grows(i: nat, k: nat)
    requires i <= k
    ensures Pow10(i) <= Pow10(k)
  {
    if i < k {
      Pow10Grows(i, k - 1);
    }
  }

  /** Eleven or more digits without a leading zero overflow an int, whatever the sign. */
  lemma LongNumeralsOverflow(s: string)
    requires IsNumeral(s) && s[0] != '0' && |s| > 10
    ensures ValueOf(s) == None && ValueOf("-" + s) == None && ValueOf("+" + s) == None
  {
    NumeralLowerBound(s);
    var k := |s| - 1;
    assert Pow10(10) == 10000000000;
    Pow10Grows(10, k);
    assert ("-" + s)[1..] == s && ("+" + s)[1..] == s;
  }

  /** Leading zeros and a `+` are accepted; an empty text, a lone sign and a letter are rejected. */
  lemma ValueOfExamples()
    ensures ValueOf("007") == Some(7)
    ensures ValueOf("+42") == Some(42)
    ensures ValueOf("") == None && ValueOf("-") == None && ValueOf("x1") == None
  {
    assert DigitsValue("007") == 7 by {
      assert "007"[..2] == "00" && "00"[..1] == "0" && "0"[..0] == [];
    }
    assert DigitsValue("42") == 42 by {
      assert "+42"[1..] == "42" && "42"[..1] == "4" && "4"[..0] == [];
    }
    assert !IsDigit("x1"[0]);
  }
}
