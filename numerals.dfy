/**
 * Decimal numerals as the pages write and read them: `n.toString()`,
 * `Number(s)`, `parseInt(s, 10)`, and the conversion to a 32-bit pattern
 * that JavaScript's bitwise operators apply to their operands.
 */
module Numerals {

  predicate IsDigit(c: char)
  {
    '0' <= c <= '9'
  }

  predicate AllDigits(s: string)
  {
    forall i :: 0 <= i < |s| ==> IsDigit(s[i])
  }

  /** A non-empty run of decimal digits. */
  predicate IsDigits(s: string)
  {
    |s| > 0 && AllDigits(s)
  }

  function DigitChar(d: nat): (c: char)
    requires d < 10
    ensures IsDigit(c)
  {
    ('0' as int + d) as char
  }

  function DigitValue(c: char): (d: nat)
    requires IsDigit(c)
    ensures d < 10 && DigitChar(d) == c
  {
    c as int - '0' as int
  }

  /** The value of a digit string read left to right in base ten. */
  function DigitsValue(s: string): nat
    requires AllDigits(s)
    decreases |s|
  {
    if |s| == 0 then 0 else DigitsValue(s[..|s| - 1]) * 10 + DigitValue(s[|s| - 1])
  }

  /** `n.toString()` for a natural number. */
  function NatToString(n: nat): (r: string)
    ensures IsDigits(r)
    decreases n
  {
    if n < 10 then [DigitChar(n)] else NatToString(n / 10) + [DigitChar(n % 10)]
  }

  /** Reading back the decimal numeral of n gives n. */
  lemma {:induction false} NatToStringRoundTrip(n: nat)
    ensures DigitsValue(NatToString(n)) == n
    decreases n
  {
    var s := NatToString(n);
    if n >= 10 {
      NatToStringRoundTrip(n / 10);
      assert s[..|s| - 1] == NatToString(n / 10);
    }
  }

  /** A JavaScript number as far as these pages produce them: an integer, or NaN. */
  datatype JsNum = Num(value: int) | NaN

  /** `x.toString()`. */
  function JsNumToString(x: JsNum): (r: string)
    ensures x.Num? && x.value >= 0 ==> IsDigits(r)
  {
    match x
    case NaN => "NaN"
    case Num(v) => if v >= 0 then NatToString(v) else "-" + NatToString(-v)
  }

  /**
   * `Number(s)` on the strings the pages handle: "" is 0, an optionally
   * negated digit string is its value, anything else is NaN.
   */
  function JsNumber(s: string): (r: JsNum)
    ensures IsDigits(s) ==> r == Num(DigitsValue(s))
    ensures r.NaN? <==> s != "" && !IsDigits(s) && !(|s| > 1 && s[0] == '-' && IsDigits(s[1..]))
  {
    if s == "" then Num(0)
    else if IsDigits(s) then Num(DigitsValue(s))
    else if |s| > 1 && s[0] == '-' && IsDigits(s[1..]) then Num(-(DigitsValue(s[1..]) as int))
    else NaN
  }

  /** `Number(x.toString())` is x, NaN included. */
  lemma NumberOfToString(x: JsNum)
    ensures JsNumber(JsNumToString(x)) == x
  {
    match x
    case NaN =>
      assert !IsDigit('N');
    case Num(v) =>
      if v >= 0 {
        NatToStringRoundTrip(v);
      } else {
        var d := NatToString(-v);
        NatToStringRoundTrip(-v);
        var s := "-" + d;
        assert s[1..] == d;
        assert s[0] == '-' && !IsDigit('-');
        assert !IsDigits(s);
        assert JsNumber(s) == Num(-(DigitsValue(d) as int));
      }
  }

  /**
   * `parseInt(s, 10)` on a digit string or a negated digit string; other
   * inputs are not produced by the select boxes that call it.
   */
  function ParseDecimal(s: string): (r: int)
    requires IsDigits(s) || (|s| > 1 && s[0] == '-' && IsDigits(s[1..]))
    ensures JsNumber(s) == Num(r)
  {
    if IsDigits(s) then DigitsValue(s) else -(DigitsValue(s[1..]) as int)
  }

  /** ToInt32 as the bitwise operators apply it: NaN is 0, integers wrap modulo 2^32. */
  function ToBits(x: JsNum): bv32
  {
    match x
    case NaN => 0
    case Num(v) => (v % 0x1_0000_0000) as bv32
  }
}
