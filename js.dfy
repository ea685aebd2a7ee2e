/** JavaScript values as the front end sees them. */
module Js {

  datatype Option<+T> = None | Some(value: T)

  /** A JavaScript number: `null` (a field the backend left empty), NaN (also
      what `undefined` turns into in arithmetic), or a finite value. IEEE-754
      rounding and the infinities are not modelled: numbers are reals. */
  datatype JsNum = Null | NaN | Num(v: real)

  /** JavaScript truthiness of a number: only a non-zero finite value is truthy. */
  predicate Truthy(x: JsNum) {
    x.Num? && x.v != 0.0
  }

  /** `x || d` with a numeric default. */
  function Or(x: JsNum, d: real): real {
    if Truthy(x) then x.v else d
  }

  /** `x * f`: `null` is coerced to 0, NaN stays NaN. */
  function Times(x: JsNum, f: real): JsNum {
    match x
    case Null => Num(0.0)
    case NaN => NaN
    case Num(v) => Num(v * f)
  }

  /** `x || d` never yields a falsy value when the default is truthy. */
  lemma OrIsTruthy(x: JsNum, d: real)
    requires d != 0.0
    ensures Or(x, d) != 0.0
  {
  }
}
