/** Value shapes of the driver's module-level variables. */
module Values {

  /** A timestamp variable that may not have been assigned yet. */
  datatype Option<+T> = None | Some(value: T)

  /**
   * A numeric JavaScript variable as the driver sees it: never assigned
   * (`undefined`), the outcome of arithmetic on `undefined` (`NaN`), or a number.
   */
  datatype JsNum<+T> = Undefined | NaN | Num(n: T)

  /**
   * JavaScript subtraction of two possibly unassigned timestamps:
   * a number only when both operands are numbers, `NaN` otherwise.
   */
  function Minus(a: Option<int>, b: Option<int>): (r: JsNum<int>)
    ensures r != Undefined
    ensures r.Num? <==> a.Some? && b.Some?
    ensures r.Num? ==> b.value + r.n == a.value
  {
    if a.Some? && b.Some? then Num(a.value - b.value) else NaN
  }
}
