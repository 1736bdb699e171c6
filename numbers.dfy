/**
 * The numeric conversions the source performs on strings and integers:
 * `parseFloat` (read as an exact rational), the `replace(/[^0-9.]/g, '')`
 * filter applied to fees, BigInt division (which truncates toward zero) and
 * `Math.ceil` of a quotient.
 */
module Numbers {
  import opened Wrappers
  import opened Strings

  function Pow10(k: nat): (r: nat)
    ensures r >= 1
  {
    if k == 0 then 1 else 10 * Pow10(k - 1)
  }

  function DigitValue(c: char): (d: nat)
    requires IsDigit(c)
    ensures d < 10
  {
    c as int - '0' as int
  }

  predicate AllDigits(s: string) {
    forall i :: 0 <= i < |s| ==> IsDigit(s[i])
  }

  /** The value of a run of decimal digits, most significant first. */
  function DigitsValue(s: string): nat
    requires AllDigits(s)
  {
    if |s| == 0 then 0 else DigitsValue(s[..|s| - 1]) * 10 + DigitValue(s[|s| - 1])
  }

  /** Length of the longest prefix of `s` made of decimal digits. */
  function DigitRun(s: string): (n: nat)
    ensures n <= |s|
    ensures AllDigits(s[..n])
    ensures n < |s| ==> !IsDigit(s[n])
  {
    if |s| > 0 && IsDigit(s[0]) then
      var m := DigitRun(s[1..]);
      assert s[..1 + m] == [s[0]] + s[1..][..m];
      1 + m
    else 0
  }

  /**
   * `parseFloat(s)`: skips leading white space, reads an optional sign, then the
   * longest prefix of the form digits [ '.' digits ] with at least one digit, and
   * ignores the rest. `None` stands for NaN. The value is the exact rational the
   * digits denote.
   */
  function ParseFloat(s: string): (r: Option<real>)
    ensures r.None? <==>
      var u := Unsigned(TrimStart(s));
      DigitRun(u) == 0 && |Fraction(u)| == 0
  {
    var t := TrimStart(s);
    var u := Unsigned(t);
    var n := DigitRun(u);
    var frac := Fraction(u);
    if n == 0 && |frac| == 0 then None
    else
      var v := DecimalValue(u[..n], frac);
      Some(if |t| > 0 && t[0] == '-' then -v else v)
  }

  /** The number written "<whole>.<frac>". */
  function DecimalValue(whole: string, frac: string): (v: real)
    requires AllDigits(whole) && AllDigits(frac)
    ensures v >= 0.0
  {
    DigitsValue(whole) as real + DigitsValue(frac) as real / Pow10(|frac|) as real
  }

  /** `t` without a leading sign character. */
  function Unsigned(t: string): (u: string)
    ensures |u| <= |t|
  {
    if |t| > 0 && (t[0] == '-' || t[0] == '+') then t[1..] else t
  }

  /** The fraction digits that follow the integer digits of `u`, if a '.' follows them. */
  function Fraction(u: string): (f: string)
    ensures AllDigits(f)
  {
    var n := DigitRun(u);
    if n < |u| && u[n] == '.' then u[n + 1..][..DigitRun(u[n + 1..])] else ""
  }

  predicate IsDigitOrDot(c: char) {
    IsDigit(c) || c == '.'
  }

  /** `s.replace(/[^0-9.]/g, '')`: keeps exactly the digits and dots of `s`, in order. */
  function DigitsAndDots(s: string): (r: string)
    ensures |r| <= |s|
    ensures forall i :: 0 <= i < |r| ==> IsDigitOrDot(r[i])
    ensures multiset(r) <= multiset(s)
  {
    if |s| == 0 then ""
    else
      assert s == [s[0]] + s[1..];
      if IsDigitOrDot(s[0]) then [s[0]] + DigitsAndDots(s[1..]) else DigitsAndDots(s[1..])
  }

  /** A string of digits and dots never parses to a negative number. */
  lemma DigitsAndDotsNonNegative(s: string)
    requires forall i :: 0 <= i < |s| ==> IsDigitOrDot(s[i])
    ensures ParseFloat(s).Some? ==> ParseFloat(s).value >= 0.0
  {
    assert |s| > 0 ==> !IsSpace(s[0]);
    assert TrimStart(s) == s;
  }

  /** Reading back the digits `NatToString` prints gives the number. */
  lemma {:induction false} NatToStringValue(n: nat)
    ensures AllDigits(NatToString(n))
    ensures DigitsValue(NatToString(n)) == n
  {
    var r := NatToString(n);
    if n >= 10 {
      NatToStringValue(n / 10);
      assert r[..|r| - 1] == NatToString(n / 10);
    }
  }

  /** `${n}` prints different integers differently. */
  lemma IntToStringInjective(a: int, b: int)
    requires IntToString(a) == IntToString(b)
    ensures a == b
  {
    IntToStringSign(a);
    IntToStringSign(b);
    if a < 0 {
      assert NatToString(-a) == NatToString(-b) by {
        assert NatToString(-a) == IntToString(a)[1..];
        assert NatToString(-b) == IntToString(b)[1..];
      }
      NatToStringInjective(-a, -b);
    } else {
      NatToStringInjective(a, b);
    }
  }

  /** The digits `NatToString` prints determine the number. */
  lemma NatToStringInjective(x: nat, y: nat)
    requires NatToString(x) == NatToString(y)
    ensures x == y
  {
    NatToStringValue(x);
    NatToStringValue(y);
  }

  /** `${n}` starts with a minus sign exactly for negative `n`. */
  lemma IntToStringSign(n: int)
    ensures IntToString(n)[0] == '-' <==> n < 0
  {
    if n >= 0 {
      assert IsDigit(NatToString(n)[0]);
    }
  }

  /** Parsing printed digits yields their value, whatever follows a non-digit, non-dot character. */
  lemma NatToStringDigitRun(n: nat, rest: string)
    requires rest == [] || !IsDigitOrDot(rest[0])
    ensures DigitRun(NatToString(n) + rest) == |NatToString(n)|
  {
    var d := NatToString(n);
    DigitRunOfDigits(d, rest);
  }

  lemma {:induction false} DigitRunOfDigits(d: string, rest: string)
    requires AllDigits(d)
    requires rest == [] || !IsDigit(rest[0])
    ensures DigitRun(d + rest) == |d|
  {
    if |d| > 0 {
      DigitRunOfDigits(d[1..], rest);
      assert (d + rest)[1..] == d[1..] + rest;
    } else {
      assert d + rest == rest;
    }
  }

  /** BigInt `a / b`: the quotient truncated toward zero. */
  function TruncDiv(a: int, b: int): (q: int)
    requires b != 0
    ensures a >= 0 && b > 0 ==> q == a / b
  {
    var m := (if a < 0 then -a else a) / (if b < 0 then -b else b);
    if (a < 0) != (b < 0) then -m else m
  }

  /** `Math.ceil(a / b)` for a non-negative `a` and positive `b`. */
  function CeilDiv(a: nat, b: nat): (q: nat)
    requires b > 0
    ensures q * b >= a
    ensures q == 0 || (q - 1) * b < a
  {
    (a + b - 1) / b
  }
}
