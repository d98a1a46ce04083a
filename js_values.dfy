/**
 * The JavaScript values that cross the store's boundaries: what the storage
 * service returns, what the worker puts in its replies and what a form field
 * holds. Only the conversions the stores rely on are modelled: truthiness,
 * the numeric conversion used by `>=` and `Number(...)`, and the string
 * conversion used by `RegExp.prototype.test`.
 */
module JsValues {

  datatype Option<T> = None | Some(value: T)

  /** A JavaScript value. Numbers are integral or NaN; `Obj` is any plain
      object, compared by identity. */
  datatype Value =
    | Null
    | Undefined
    | Bool(b: bool)
    | Num(n: int)
    | NaN
    | Str(s: string)
    | Obj(id: nat)

  /** JavaScript `ToBoolean`: the falsy values are null, undefined, false, 0, NaN and "". */
  predicate Truthy(v: Value)
  {
    match v
    case Null => false
    case Undefined => false
    case Bool(b) => b
    case Num(n) => n != 0
    case NaN => false
    case Str(s) => s != ""
    case Obj(_) => true
  }

  predicate IsDigit(c: char)
  {
    '0' <= c <= '9'
  }

  predicate AllDigits(s: string)
  {
    forall i :: 0 <= i < |s| ==> IsDigit(s[i])
  }

  predicate AllZeros(s: string)
  {
    forall i :: 0 <= i < |s| ==> s[i] == '0'
  }

  /** The text matched by the regular expression `^\d+$`. */
  predicate IsIntegerText(s: string)
  {
    s != "" && AllDigits(s)
  }

  /** Index of the first '.' in `s`, or `|s|` when there is none. */
  function DotIndex(s: string): (i: nat)
    ensures i <= |s|
    ensures i < |s| ==> s[i] == '.'
    ensures forall j :: 0 <= j < i ==> s[j] != '.'
  {
    if s == [] then 0
    else if s[0] == '.' then 0
    else 1 + DotIndex(s[1..])
  }

  /** The text matched by the regular expression `^\d+\.?\d*$`:
      one or more digits, then optionally one '.', then any digits. */
  predicate IsDecimalText(s: string)
  {
    var i := DotIndex(s);
    0 < i && AllDigits(s[..i]) && (i == |s| || AllDigits(s[i + 1..]))
  }

  function DigitValue(c: char): nat
    requires IsDigit(c)
  {
    (c as int) - ('0' as int)
  }

  /** The number written by a string of decimal digits. */
  function DigitsValue(s: string): nat
    requires AllDigits(s)
  {
    if s == [] then 0 else DigitsValue(s[..|s| - 1]) * 10 + DigitValue(s[|s| - 1])
  }

  function Pow10(k: nat): (r: nat)
    ensures r >= 1
  {
    if k == 0 then 1 else 10 * Pow10(k - 1)
  }

  /** The value of a decimal text such as "12", "12." or "0.50". */
  function DecimalValue(s: string): real
    requires IsDecimalText(s)
  {
    var i := DotIndex(s);
    var whole := DigitsValue(s[..i]) as real;
    if i == |s| then whole
    else whole + (DigitsValue(s[i + 1..]) as real) / (Pow10(|s| - i - 1) as real)
  }

  /** JavaScript `ToNumber`, `None` standing for NaN. Strings are converted
      when empty (0) or when they are plain decimal texts; every other string
      is treated as NaN. */
  function ToNumber(v: Value): Option<real>
  {
    match v
    case Null => Some(0.0)
    case Undefined => None
    case Bool(b) => Some(if b then 1.0 else 0.0)
    case Num(n) => Some(n as real)
    case NaN => None
    case Str(s) =>
      if s == "" then Some(0.0)
      else if IsDecimalText(s) then Some(DecimalValue(s))
      else None
    case Obj(_) => None
  }

  /** The truthiness of the number `Number(v)`: NaN and 0 are falsy. */
  predicate NumberTruthy(v: Value)
  {
    var x := ToNumber(v);
    x.Some? && x.value != 0.0
  }

  /** The relational comparison `v >= k` against a numeric constant:
      false whenever `v` converts to NaN. */
  predicate AtLeast(v: Value, k: int)
  {
    var x := ToNumber(v);
    x.Some? && x.value >= k as real
  }

  function DigitChar(d: nat): (c: char)
    requires d < 10
    ensures IsDigit(c) && DigitValue(c) == d
  {
    ('0' as int + d) as char
  }

  /** The decimal representation of a natural number, without leading zeros. */
  function DecimalString(n: nat): (s: string)
    ensures IsIntegerText(s)
    ensures DigitsValue(s) == n
    ensures s[0] == '0' ==> n == 0
  {
    if n < 10 then [DigitChar(n)]
    else
      var prefix := DecimalString(n / 10);
      var s := prefix + [DigitChar(n % 10)];
      assert s[..|s| - 1] == prefix;
      s
  }

  /** From 10^21 up, JavaScript writes a number in exponent form. */
  const ExponentThreshold: nat := 1_000_000_000_000_000_000_000

  /** The digits of `s` without its trailing zeros; the first digit stays. */
  function TrimTrailingZeros(s: string): (r: string)
    requires s != ""
    ensures 0 < |r| <= |s| && r == s[..|r|]
    ensures |r| < |s| ==> AllZeros(s[|r|..])
    ensures |r| > 1 ==> r[|r| - 1] != '0'
  {
    if |s| == 1 || s[|s| - 1] != '0' then s
    else
      var t := s[..|s| - 1];
      var r := TrimTrailingZeros(t);
      assert t[..|r|] == s[..|r|];
      forall j | |r| <= j < |s| ensures s[j] == '0' {
        if j < |s| - 1 {
          assert s[j] == t[j] == t[|r|..][j - |r|];
        }
      }
      r
  }

  /** `Number.prototype.toString` of an integer from 10^21 up: the significant
      digits, a '.' after the first when there are more, then "e+" and the
      exponent, as in "1e+21" or "1.5e+22". */
  function ExponentForm(n: nat): (r: string)
    requires n >= ExponentThreshold
    ensures exists i :: 0 < i < |r| && r[i] == 'e'
  {
    var digits := DecimalString(n);
    var m := TrimTrailingZeros(digits);
    var mantissa := if |m| == 1 then m else m[..1] + "." + m[1..];
    var r := mantissa + "e+" + DecimalString(|digits| - 1);
    assert r[|mantissa|] == 'e';
    r
  }

  /** The text of a non-negative integer: all its digits below 10^21, the
      exponent form from there on. */
  function NaturalText(n: nat): string
  {
    if n < ExponentThreshold then DecimalString(n) else ExponentForm(n)
  }

  /** JavaScript `ToString` of a value, as `RegExp.prototype.test` applies it. */
  function ToString(v: Value): string
  {
    match v
    case Null => "null"
    case Undefined => "undefined"
    case Bool(b) => if b then "true" else "false"
    case Num(n) => if n < 0 then "-" + NaturalText(-n) else NaturalText(n)
    case NaN => "NaN"
    case Str(s) => s
    case Obj(_) => "[object Object]"
  }

  /** `s` occurs in `text` at some position (`text.indexOf(s) !== -1`). */
  predicate HasSubstring(text: string, s: string)
  {
    s <= text || (text != [] && HasSubstring(text[1..], s))
  }
}
