/**
 * The slice of JavaScript's value semantics the webcam component relies on:
 * truthiness (`if (x)`), string conversion (`String(x)`), property lookup on
 * plain objects, `toLowerCase`, and the two ways a promise settles.
 *
 * Numbers are integers only; `NaN`, infinities and fractions do not occur in
 * the values this model feeds through these helpers.
 */
module JsValues {

  /** A JavaScript value as found in media-track constraint dictionaries. */
  datatype JsValue =
    | Undefined
    | Null
    | Bool(b: bool)
    | Num(n: int)
    | Str(s: string)            // a primitive string
    | StrObject(s: string)      // a wrapper object made by `new String(s)`
    | Arr(elems: seq<JsValue>)
    | Obj(props: map<string, JsValue>)

  /** How a promise settled: with a value, or with a rejection reason. */
  datatype Settled<+T> = Fulfilled(value: T) | Rejected(reason: JsValue)

  /** JavaScript truthiness: `false`, `0`, `""`, `null` and `undefined` are falsy; every object is truthy. */
  predicate Truthy(v: JsValue) {
    match v
    case Undefined => false
    case Null => false
    case Bool(b) => b
    case Num(n) => n != 0
    case Str(s) => s != ""
    case StrObject(_) => true
    case Arr(_) => true
    case Obj(_) => true
  }

  /** `null` or `undefined`: the two values whose property access throws. */
  predicate Nullish(v: JsValue) {
    v.Undefined? || v.Null?
  }

  /** Property access `v[key]` for the property names this model reads; absent properties are `undefined`. */
  function Field(v: JsValue, key: string): JsValue {
    if v.Obj? && key in v.props then v.props[key] else Undefined
  }

  /** The number a string of decimal digits stands for, most significant digit first. */
  function DecimalValue(digits: string): nat
    requires forall i :: 0 <= i < |digits| ==> '0' <= digits[i] <= '9'
  {
    if digits == [] then 0
    else 10 * DecimalValue(digits[..|digits| - 1]) + (digits[|digits| - 1] as int - '0' as int)
  }

  /** Decimal digits of a natural number, as `String(n)` prints them: no leading zero, and they stand for `n`. */
  function NatToDecimal(n: nat): (r: string)
    ensures |r| > 0
    ensures forall i :: 0 <= i < |r| ==> '0' <= r[i] <= '9'
    ensures r[0] == '0' ==> r == "0"
    ensures DecimalValue(r) == n
  {
    var d := ['0' + (n % 10) as char];
    if n < 10 then d
    else
      var prefix := NatToDecimal(n / 10);
      assert (prefix + d)[..|prefix|] == prefix;
      prefix + d
  }

  /** `Array.prototype.join(",")` over already converted elements. */
  function JoinWithComma(parts: seq<string>): string {
    if |parts| == 0 then ""
    else if |parts| == 1 then parts[0]
    else JoinWithComma(parts[..|parts| - 1]) + "," + parts[|parts| - 1]
  }

  /** `String(v)`; an array joins its elements with commas, printing `null` and `undefined` elements as empty. */
  function ToJsString(v: JsValue): string
    decreases v
  {
    match v
    case Undefined => "undefined"
    case Null => "null"
    case Bool(b) => if b then "true" else "false"
    case Num(n) => if n < 0 then "-" + NatToDecimal(-n) else NatToDecimal(n)
    case Str(s) => s
    case StrObject(s) => s
    case Arr(es) =>
      JoinWithComma(seq(|es|, i requires 0 <= i < |es| => if Nullish(es[i]) then "" else ToJsString(es[i])))
    case Obj(_) => "[object Object]"
  }

  /** `String.prototype.toLowerCase`, restricted to the ASCII letters. */
  function AsciiLower(s: string): (r: string)
    ensures |r| == |s|
    ensures forall i :: 0 <= i < |s| ==> !('A' <= r[i] <= 'Z')
    ensures forall i :: 0 <= i < |s| && !('A' <= s[i] <= 'Z') ==> r[i] == s[i]
    ensures forall i :: 0 <= i < |s| && 'A' <= s[i] <= 'Z' ==> r[i] == (s[i] as int + 32) as char
  {
    seq(|s|, i requires 0 <= i < |s| => if 'A' <= s[i] <= 'Z' then (s[i] as int + 32) as char else s[i])
  }
}
