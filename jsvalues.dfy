/**
 * JavaScript values as the OCR reply parser sees them after `JSON.parse`, JavaScript numbers with their
 * special values, and the coercions `Number(v)`, `String(v)`, truthiness, `??` and `||`.
 */
module JsValues {
  import opened Wrappers

  /** A JavaScript number: a finite value (an exact real; rounding and -0 are not modelled), +Infinity, -Infinity or NaN. */
  datatype Num = Fin(r: real) | PosInf | NegInf | NaN

  /** `a < b`; false whenever NaN is involved. */
  predicate Less(a: Num, b: Num) {
    match (a, b)
    case (NaN, _) => false
    case (_, NaN) => false
    case (Fin(x), Fin(y)) => x < y
    case (NegInf, _) => b != NegInf
    case (_, PosInf) => a != PosInf
    case _ => false
  }

  /** `Math.max(a, b)`: NaN if either argument is NaN. */
  function Max(a: Num, b: Num): Num {
    if a.NaN? || b.NaN? then NaN else if Less(a, b) then b else a
  }

  /** `Math.min(a, b)`: NaN if either argument is NaN. */
  function Min(a: Num, b: Num): Num {
    if a.NaN? || b.NaN? then NaN else if Less(b, a) then b else a
  }

  /** `clamp01 = (v) => Math.min(1, Math.max(0, v))`. */
  function Clamp01(v: Num): (r: Num)
    ensures r.NaN? <==> v.NaN?
    ensures !v.NaN? ==> r.Fin? && 0.0 <= r.r <= 1.0
    ensures v.Fin? && 0.0 <= v.r <= 1.0 ==> r == v
    ensures (v.Fin? && v.r < 0.0) || v.NegInf? ==> r == Fin(0.0)
    ensures (v.Fin? && v.r > 1.0) || v.PosInf? ==> r == Fin(1.0)
  {
    Min(Fin(1.0), Max(Fin(0.0), v))
  }

  /** Truthiness of a number: 0 and NaN are falsy. */
  predicate NumTruthy(x: Num) {
    x != Fin(0.0) && !x.NaN?
  }

  function SignOf(x: Num): int {
    match x
    case Fin(v) => if v > 0.0 then 1 else if v < 0.0 then -1 else 0
    case PosInf => 1
    case NegInf => -1
    case NaN => 0
  }

  /** `a * b` with the IEEE rules for the special values. */
  function Mul(a: Num, b: Num): (r: Num)
    ensures a.Fin? && b.Fin? ==> r == Fin(a.r * b.r)
    ensures a.NaN? || b.NaN? ==> r.NaN?
  {
    if a.Fin? && b.Fin? then Fin(a.r * b.r)
    else if a.NaN? || b.NaN? then NaN
    else
      var s := SignOf(a) * SignOf(b);
      if s == 0 then NaN else if s > 0 then PosInf else NegInf
  }

  /** `a + b` with the IEEE rules for the special values. */
  function Add(a: Num, b: Num): (r: Num)
    ensures a.Fin? && b.Fin? ==> r == Fin(a.r + b.r)
    ensures a.NaN? || b.NaN? ==> r.NaN?
  {
    match (a, b)
    case (Fin(x), Fin(y)) => Fin(x + y)
    case (NaN, _) => NaN
    case (_, NaN) => NaN
    case (PosInf, NegInf) => NaN
    case (NegInf, PosInf) => NaN
    case (PosInf, _) => PosInf
    case (_, PosInf) => PosInf
    case _ => NegInf
  }

  function Neg(a: Num): Num {
    match a
    case Fin(x) => Fin(-x)
    case PosInf => NegInf
    case NegInf => PosInf
    case NaN => NaN
  }

  /** `a - b`. */
  function Sub(a: Num, b: Num): (r: Num)
    ensures a.Fin? && b.Fin? ==> r == Fin(a.r - b.r)
    ensures a.NaN? || b.NaN? ==> r.NaN?
  {
    Add(a, Neg(b))
  }

  /** `a / 2`. */
  function Half(a: Num): (r: Num)
    ensures a.Fin? ==> r == Fin(a.r / 2.0)
    ensures a.NaN? ==> r.NaN?
  {
    Mul(a, Fin(0.5))
  }

  /**
   * A value produced by `JSON.parse`. Arrays are represented by their rendering as a string (what `String`
   * makes of them: the elements joined by commas); every other object is `JObject`.
   */
  datatype JsValue = JNull | JBool(b: bool) | JNum(n: Num) | JStr(s: string) | JArray(joined: string) | JObject

  /** A parsed JSON object; a key that is not present reads as `undefined`. */
  type JsObject = map<string, JsValue>

  /**
   * The engine's conversions between strings and numbers (ECMAScript section 7.1.4.1.1 StringToNumber, and
   * Number::toString), which the modelled code reaches through `Number(...)` and `String(...)`.
   */
  datatype JsRuntime = JsRuntime(stringToNumber: string -> Num, numberToString: Num -> string)

  /** `o.key`, `None` standing for `undefined`. */
  function Get(o: JsObject, key: string): Option<JsValue> {
    if key in o then Some(o[key]) else None
  }

  predicate Truthy(v: JsValue) {
    match v
    case JNull => false
    case JBool(b) => b
    case JNum(n) => NumTruthy(n)
    case JStr(s) => s != ""
    case JArray(_) => true
    case JObject => true
  }

  /** `v ?? d`: `d` when `v` is `undefined` or `null`. */
  function Coalesce(v: Option<JsValue>, d: JsValue): (r: JsValue)
    ensures v.None? || v == Some(JNull) ==> r == d
    ensures v.Some? && v.value != JNull ==> r == v.value
  {
    if v.None? || v.value == JNull then d else v.value
  }

  /** `v || d`: `d` when `v` is `undefined` or falsy. */
  function OrElse(v: Option<JsValue>, d: JsValue): (r: JsValue)
    ensures v.None? || !Truthy(v.value) ==> r == d
    ensures v.Some? && Truthy(v.value) ==> r == v.value
  {
    if v.Some? && Truthy(v.value) then v.value else d
  }

  /** `Number(v)`. */
  function ToNumber(v: JsValue, rt: JsRuntime): (n: Num)
    ensures v.JNum? ==> n == v.n
    ensures v.JNull? || v == JBool(false) ==> n == Fin(0.0)
    ensures v.JObject? ==> n.NaN?
  {
    match v
    case JNull => Fin(0.0)
    case JBool(b) => if b then Fin(1.0) else Fin(0.0)
    case JNum(n) => n
    case JStr(s) => rt.stringToNumber(s)
    case JArray(joined) => rt.stringToNumber(joined)
    case JObject => NaN
  }

  /** `String(v)`. */
  function ToJsString(v: JsValue, rt: JsRuntime): (s: string)
    ensures v.JStr? ==> s == v.s
    ensures v.JNull? ==> s == "null"
  {
    match v
    case JNull => "null"
    case JBool(b) => if b then "true" else "false"
    case JNum(n) => rt.numberToString(n)
    case JStr(s) => s
    case JArray(joined) => joined
    case JObject => "[object Object]"
  }
}
