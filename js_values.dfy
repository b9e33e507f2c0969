/** JavaScript values as the frontend receives them in JSON and computes with
    them: numbers with their infinities and NaN, and the values that may stand
    where an identifier is expected. */
module JsValues {
  import opened Text

  /** A JavaScript number. Finite numbers are modelled as exact reals. */
  datatype JsNumber = Finite(r: real) | Infinity(positive: bool) | NaN

  /** A JSON value in an identifier position. Numbers there are integral. */
  datatype JsValue = JsString(s: string) | JsInteger(i: int) | JsBoolean(b: bool) | JsNull | JsUndefined

  /** `String(v)`. */
  function ToString(v: JsValue): string {
    match v
    case JsString(s) => s
    case JsInteger(i) => IntToDecimal(i)
    case JsBoolean(b) => if b then "true" else "false"
    case JsNull => "null"
    case JsUndefined => "undefined"
  }

  /** `a <= b` on numbers: false whenever either side is NaN. */
  predicate LessOrEqual(a: JsNumber, b: JsNumber) {
    match a
    case NaN => false
    case Infinity(p) => if p then b == Infinity(true) else !b.NaN?
    case Finite(x) =>
      match b
      case Finite(y) => x <= y
      case Infinity(q) => q
      case NaN => false
  }

  /** `<=` is an order on the numbers other than NaN. */
  lemma LessOrEqualOrders(a: JsNumber, b: JsNumber, c: JsNumber)
    ensures !a.NaN? ==> LessOrEqual(a, a)
    ensures LessOrEqual(a, b) && LessOrEqual(b, c) ==> LessOrEqual(a, c)
    ensures LessOrEqual(a, b) && LessOrEqual(b, a) ==> a == b
    ensures !a.NaN? && !b.NaN? ==> LessOrEqual(a, b) || LessOrEqual(b, a)
    ensures a.NaN? || b.NaN? ==> !LessOrEqual(a, b)
  {
  }

  /** A string converts to itself, and converting twice is converting once. */
  lemma ToStringOfString(v: JsValue)
    ensures ToString(JsString(ToString(v))) == ToString(v)
    ensures v.JsString? ==> ToString(v) == v.s
  {
  }
}
