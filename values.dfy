/** The scalar values a query parameter may hold, and the two JavaScript coercions the
    library applies to values: conversion to a string inside a template literal, and
    truthiness in an `if`. */
module Values {

  /** `string | number | boolean | null | undefined`. Numbers are integers here, and the
      one floating-point value the library tests for, `NaN`, is its own case. */
  datatype Scalar = Str(s: string) | Int(n: int) | Bool(b: bool) | Null | Undefined | NaN

  predicate IsDigit(c: char)
  {
    '0' <= c <= '9'
  }

  function DigitChar(d: nat): (c: char)
    requires d < 10
    ensures IsDigit(c)
  {
    ('0' as int + d) as char
  }

  /** The number a string of decimal digits denotes, most significant digit first. */
  function DigitsValue(s: string): int
  {
    if s == [] then 0 else 10 * DigitsValue(s[..|s| - 1]) + (s[|s| - 1] as int - '0' as int)
  }

  /** The decimal digits of `n`, most significant first, with no leading zero. */
  function NatToString(n: nat): (r: string)
    ensures |r| > 0
    ensures forall c :: c in r ==> IsDigit(c)
    ensures |r| > 1 ==> r[0] != '0'
    ensures DigitsValue(r) == n
    decreases n
  {
    if n < 10 then [DigitChar(n)]
    else
      var r := NatToString(n / 10) + [DigitChar(n % 10)];
      assert r[..|r| - 1] == NatToString(n / 10);
      assert r[0] == NatToString(n / 10)[0];
      r
  }

  /** `String(n)` for an integer-valued number: a `-` for a negative number, then the
      digits of its magnitude. */
  function IntToString(n: int): (r: string)
    ensures |r| > 0
    ensures forall c :: c in r ==> c == '-' || IsDigit(c)
    ensures n < 0 ==> r[0] == '-' && DigitsValue(r[1..]) == -n && forall c :: c in r[1..] ==> IsDigit(c)
    ensures n >= 0 ==> '-' !in r && DigitsValue(r) == n
    ensures var d := if n < 0 then r[1..] else r; |d| > 1 ==> d[0] != '0'
  {
    if n < 0 then
      var r := "-" + NatToString(-n);
      assert r[1..] == NatToString(-n);
      r
    else NatToString(n)
  }

  /** `${v}`: the text a template literal produces for `v`. */
  function ToString(v: Scalar): string
  {
    match v
    case Str(s) => s
    case Int(n) => IntToString(n)
    case Bool(b) => if b then "true" else "false"
    case Null => "null"
    case Undefined => "undefined"
    case NaN => "NaN"
  }

  /** What `if (v)` decides: `''`, `0`, `false`, `null`, `undefined` and `NaN` are falsy. */
  predicate Truthy(v: Scalar)
  {
    match v
    case Str(s) => s != ""
    case Int(n) => n != 0
    case Bool(b) => b
    case _ => false
  }
}
