/**
 * The small part of JavaScript value semantics the error normaliser relies on:
 * numbers (integers and NaN), the template-literal string conversion `${v}`
 * and the unary-plus number conversion `+s` of a string.
 */
module Js {

  /** A JavaScript number, restricted to integers and NaN. */
  datatype Number = Int(value: int) | NaN

  /** A JavaScript value as it can appear as a property of an error-like object. */
  datatype JsValue =
    | Undefined
    | Null
    | Bool(b: bool)
    | Num(n: Number)
    | Str(s: string)
    | Obj  // any plain object

  /** `a < k` for a number and an integer constant: every comparison with NaN is false. */
  predicate LessThan(a: Number, k: int) {
    a.Int? && a.value < k
  }

  /** `a > k` for a number and an integer constant: every comparison with NaN is false. */
  predicate GreaterThan(a: Number, k: int) {
    a.Int? && a.value > k
  }

  predicate IsDigit(c: char) {
    '0' <= c <= '9'
  }

  predicate AllDigits(s: string) {
    forall i :: 0 <= i < |s| ==> IsDigit(s[i])
  }

  function DigitValue(c: char): (d: nat)
    requires IsDigit(c)
    ensures d < 10
  {
    (c as int) - ('0' as int)
  }

  function DigitChar(d: nat): (c: char)
    requires d < 10
    ensures IsDigit(c) && DigitValue(c) == d
  {
    ('0' as int + d) as char
  }

  /** The decimal digits of a natural number, most significant first, without leading zeros. */
  function NatToDecimal(n: nat): (s: string)
    ensures |s| > 0 && AllDigits(s)
    ensures n > 0 ==> s[0] != '0'
    decreases n
  {
    if n < 10 then [DigitChar(n)] else NatToDecimal(n / 10) + [DigitChar(n % 10)]
  }

  /** The value of a string of decimal digits (the empty string reads as 0). */
  function DecimalValue(s: string): nat
    requires AllDigits(s)
  {
    if s == [] then 0 else DecimalValue(s[..|s| - 1]) * 10 + DigitValue(s[|s| - 1])
  }

  /** `String(n)` for a number: an optional minus sign then the decimal digits, or "NaN". */
  function NumberToString(n: Number): string {
    match n
    case NaN => "NaN"
    case Int(i) => if i < 0 then "-" + NatToDecimal(-i) else NatToDecimal(i)
  }

  /** The template-literal conversion `${v}`. */
  function ToString(v: JsValue): string {
    match v
    case Undefined => "undefined"
    case Null => "null"
    case Bool(b) => if b then "true" else "false"
    case Num(n) => NumberToString(n)
    case Str(s) => s
    case Obj => "[object Object]"
  }

  /** The white-space characters that `+s` strips from both ends of `s`. */
  predicate IsWhiteSpace(c: char) {
    c == ' ' || c == '\t' || c == '\n' || c == '\r' || c == '\U{000B}' || c == '\U{000C}'
    || c == '\U{00A0}' || c == '\U{FEFF}' || c == '\U{2028}' || c == '\U{2029}'
  }

  function TrimStart(s: string): (r: string)
    ensures |r| <= |s|
    ensures r == s[|s| - |r|..]
    ensures r != [] ==> !IsWhiteSpace(r[0])
  {
    if s != [] && IsWhiteSpace(s[0]) then TrimStart(s[1..]) else s
  }

  function TrimEnd(s: string): (r: string)
    ensures |r| <= |s|
    ensures r == s[..|r|]
    ensures r != [] ==> !IsWhiteSpace(r[|r| - 1])
  {
    if s != [] && IsWhiteSpace(s[|s| - 1]) then TrimEnd(s[..|s| - 1]) else s
  }

  /** The white space `+s` ignores, removed from both ends. */
  function Trim(s: string): string {
    TrimEnd(TrimStart(s))
  }

  /** An unsigned run of decimal digits is its value; anything else, the empty string included, is NaN. */
  function ReadDigits(d: string): Number {
    if d != [] && AllDigits(d) then Int(DecimalValue(d)) else NaN
  }

  /** A trimmed string: empty is 0, a sign must be followed by digits, otherwise the whole string must be digits. */
  function ReadTrimmed(t: string): Number {
    if t == [] then Int(0)
    else if t[0] == '-' then
      match ReadDigits(t[1..])
      case Int(v) => Int(-v)
      case NaN => NaN
    else if t[0] == '+' then ReadDigits(t[1..])
    else ReadDigits(t)
  }

  /**
   * The unary-plus conversion `+s`: surrounding white space is ignored, an
   * empty remainder is 0, an optionally signed run of decimal digits is that
   * integer, and anything else is NaN.
   */
  function StringToNumber(s: string): Number {
    ReadTrimmed(Trim(s))
  }

  /** Reading back the digits of a natural number gives the number. */
  lemma {:induction false} DecimalRoundTrip(n: nat)
    ensures DecimalValue(NatToDecimal(n)) == n
  {
    if n >= 10 {
      var s := NatToDecimal(n / 10);
      var t := s + [DigitChar(n % 10)];
      assert t[..|t| - 1] == s;
      DecimalRoundTrip(n / 10);
    }
  }

  /** A string with no white space at either end is left alone by the trimming of `+s`. */
  lemma TrimNothing(s: string)
    requires s != [] && !IsWhiteSpace(s[0]) && !IsWhiteSpace(s[|s| - 1])
    ensures Trim(s) == s
  {
    assert TrimStart(s) == s;
    assert TrimEnd(s) == s;
  }

  /** `+s` of a run of decimal digits is their value. */
  lemma DigitsToNumber(d: string)
    requires d != [] && AllDigits(d)
    ensures StringToNumber(d) == Int(DecimalValue(d))
  {
    assert IsDigit(d[0]) && IsDigit(d[|d| - 1]);
    TrimNothing(d);
  }

  /** `+s` of a minus sign followed by a run of decimal digits is the negated value. */
  lemma SignedDigitsToNumber(d: string)
    requires d != [] && AllDigits(d)
    ensures StringToNumber("-" + d) == Int(-(DecimalValue(d) as int))
  {
    var s := "-" + d;
    assert s[0] == '-' && s[|s| - 1] == d[|d| - 1] && IsDigit(d[|d| - 1]);
    TrimNothing(s);
    assert s[1..] == d;
    assert ReadDigits(s[1..]) == Int(DecimalValue(d));
    assert ReadTrimmed(s) == Int(-(DecimalValue(d) as int));
  }

  /** `+s` of a string that starts with neither a digit nor a sign, and has no white space at either end, is NaN. */
  lemma NonNumericText(s: string)
    requires s != [] && !IsWhiteSpace(s[0]) && !IsWhiteSpace(s[|s| - 1])
    requires !IsDigit(s[0]) && s[0] != '-' && s[0] != '+'
    ensures StringToNumber(s) == NaN
  {
    TrimNothing(s);
    assert !AllDigits(s) by { assert !IsDigit(s[0]); }
    assert ReadTrimmed(s) == NaN;
  }

  /** `String(NaN)` is "NaN", which `+s` reads as NaN. */
  lemma NaNRoundTrip(n: Number)
    requires n.NaN?
    ensures StringToNumber(NumberToString(n)) == n
  {
    var s := NumberToString(n);
    assert s[0] == 'N' && s[|s| - 1] == 'N';
    NonNumericText(s);
  }

  /** The decimal digits of a natural number read back as that number. */
  lemma NaturalRoundTrip(i: nat)
    ensures StringToNumber(NumberToString(Int(i))) == Int(i)
  {
    assert NumberToString(Int(i)) == NatToDecimal(i);
    DecimalRoundTrip(i);
    DigitsToNumber(NatToDecimal(i));
  }

  /** A minus sign before the digits of a positive number reads back as its negation. */
  lemma NegativeRoundTrip(i: int)
    requires i < 0
    ensures StringToNumber(NumberToString(Int(i))) == Int(i)
  {
    assert NumberToString(Int(i)) == "-" + NatToDecimal(-i);
    DecimalRoundTrip(-i);
    SignedDigitsToNumber(NatToDecimal(-i));
  }

  /** `+String(n)` is `n` for every modelled number: the round trip behind `+\`${status}\``. */
  lemma NumberStringRoundTrip(n: Number)
    ensures StringToNumber(NumberToString(n)) == n
  {
    if n.NaN? {
      NaNRoundTrip(n);
    } else if n.value < 0 {
      NegativeRoundTrip(n.value);
    } else {
      NaturalRoundTrip(n.value);
    }
  }

  /** `+\`${n}\`` is `n`: a number survives the template literal and the unary plus. */
  lemma NumberTemplateRoundTrip(v: JsValue)
    requires v.Num?
    ensures StringToNumber(ToString(v)) == v.n
  {
    NumberStringRoundTrip(v.n);
  }
}
