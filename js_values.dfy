/** The part of JavaScript's value model that the validators and the rating
    form depend on: `typeof`, truthiness and `Math.max(0, x)`. */
module JsValues {

  /** An IEEE double as far as these programs can tell: NaN, the infinities,
      or a finite value (treated as an exact real). */
  datatype JsNumber = NaN | PosInfinity | NegInfinity | Finite(value: real)

  /** A value received from a request body or an event. Objects and arrays are
      not looked into. */
  datatype JsValue =
    | Undefined
    | Null
    | Boolean(b: bool)
    | Number(n: JsNumber)
    | Str(s: string)
    | Object

  function TypeOf(v: JsValue): string
  {
    match v
    case Undefined => "undefined"
    case Null => "object"
    case Boolean(_) => "boolean"
    case Number(_) => "number"
    case Str(_) => "string"
    case Object => "object"
  }

  /** `!!n` for a number: NaN and zero are falsy. */
  predicate NumberTruthy(n: JsNumber)
  {
    !n.NaN? && n != Finite(0.0)
  }

  predicate Truthy(v: JsValue)
  {
    match v
    case Undefined => false
    case Null => false
    case Boolean(b) => b
    case Number(n) => NumberTruthy(n)
    case Str(s) => s != ""
    case Object => true
  }

  /** `Math.max(0, n)`: NaN stays NaN, everything else is clamped at zero. */
  function MaxZero(n: JsNumber): (r: JsNumber)
    ensures r.NaN? <==> n.NaN?
    ensures !r.NegInfinity?
    ensures r.Finite? ==> r.value >= 0.0
    ensures n.Finite? && n.value >= 0.0 ==> r == n
    ensures n.PosInfinity? ==> r == n
    ensures (n.Finite? && n.value < 0.0) || n.NegInfinity? ==> r == Finite(0.0)
  {
    match n
    case NaN => NaN
    case PosInfinity => PosInfinity
    case NegInfinity => Finite(0.0)
    case Finite(x) => if x < 0.0 then Finite(0.0) else n
  }
}
