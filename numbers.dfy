/**
 * JavaScript numbers as the model sees them: a finite real value or NaN.
 * Rounding of binary floating point and the infinities are not modelled.
 */
module Numbers {

  datatype JsNumber = Finite(value: real) | NaN

  /** `a + b`: NaN is absorbing. */
  function Add(a: JsNumber, b: JsNumber): (r: JsNumber)
    ensures r.Finite? <==> a.Finite? && b.Finite?
    ensures r.Finite? ==> r.value == a.value + b.value
  {
    if a.Finite? && b.Finite? then Finite(a.value + b.value) else NaN
  }

  /** `a - b`: NaN is absorbing. */
  function Sub(a: JsNumber, b: JsNumber): (r: JsNumber)
    ensures r.Finite? <==> a.Finite? && b.Finite?
    ensures r.Finite? ==> r.value == a.value - b.value
  {
    if a.Finite? && b.Finite? then Finite(a.value - b.value) else NaN
  }

  /** `a * b`: NaN is absorbing. */
  function Mul(a: JsNumber, b: JsNumber): (r: JsNumber)
    ensures r.Finite? <==> a.Finite? && b.Finite?
    ensures r.Finite? ==> r.value == a.value * b.value
  {
    if a.Finite? && b.Finite? then Finite(a.value * b.value) else NaN
  }

  /** `x || d` for a number `x`: NaN and zero are falsy and give `d`. */
  function OrElse(x: JsNumber, d: real): (r: real)
    ensures x.Finite? && x.value != 0.0 ==> r == x.value
    ensures !(x.Finite? && x.value != 0.0) ==> r == d
  {
    if x.Finite? && x.value != 0.0 then x.value else d
  }

  /**
   * The two conversions the source leaves to the runtime: `parseFloat` and
   * `Number.prototype.toString`. Both are left uninterpreted.
   */
  datatype NumberFormat = NumberFormat(parse: string -> JsNumber, show: JsNumber -> string)
}
