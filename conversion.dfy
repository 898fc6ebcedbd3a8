/**
 * Conversion of an echo width in microseconds to a distance, with the
 * datasheet divisors of the HC-SR04: 58 us per centimetre, 148 us per inch.
 * Arithmetic is exact over `real`; JavaScript's double division only
 * approximates it.
 */
module Conversion {
  import opened Values

  const UsPerCm: int := 58
  const UsPerInch: int := 148

  /** Centimetres for an echo width of `d` microseconds. */
  function Cm(d: int): (r: real)
    ensures r * UsPerCm as real == d as real
  {
    d as real / UsPerCm as real
  }

  /** Inches for an echo width of `d` microseconds. */
  function Inch(d: int): (r: real)
    ensures r * UsPerInch as real == d as real
  {
    d as real / UsPerInch as real
  }

  /** `diff / 58` on a JavaScript value: `NaN` and `undefined` both give `NaN`. */
  function ToCm(d: JsNum<int>): (r: JsNum<real>)
    ensures r != Undefined
    ensures r.Num? <==> d.Num?
    ensures r.Num? ==> r.n * UsPerCm as real == d.n as real
  {
    if d.Num? then Num(Cm(d.n)) else NaN
  }

  /** `diff / 148` on a JavaScript value: `NaN` and `undefined` both give `NaN`. */
  function ToInch(d: JsNum<int>): (r: JsNum<real>)
    ensures r != Undefined
    ensures r.Num? <==> d.Num?
    ensures r.Num? ==> r.n * UsPerInch as real == d.n as real
  {
    if d.Num? then Num(Inch(d.n)) else NaN
  }

  /** Both readings describe the same width: 58 times the centimetres is 148 times the inches. */
  lemma CmInchAgree(d: int)
    ensures Cm(d) * UsPerCm as real == Inch(d) * UsPerInch as real
  {
  }

  /** A wider echo is a larger distance in both units, and conversely. */
  lemma ConversionMonotone(d1: int, d2: int)
    ensures d1 < d2 <==> Cm(d1) < Cm(d2)
    ensures d1 < d2 <==> Inch(d1) < Inch(d2)
  {
  }

  /** The sign of the distance is the sign of the width; a zero width is zero distance. */
  lemma ConversionSign(d: int)
    ensures Cm(d) > 0.0 <==> d > 0
    ensures Inch(d) > 0.0 <==> d > 0
    ensures Cm(d) == 0.0 <==> d == 0
    ensures Inch(d) == 0.0 <==> d == 0
  {
  }

  /** Datasheet anchor points: 58 us is one centimetre, 148 us is one inch. */
  lemma UnitWidths()
    ensures Cm(UsPerCm) == 1.0 && Inch(UsPerInch) == 1.0
  {
  }

  /** Conversion is injective: the distance determines the width it came from. */
  lemma ConversionInjective(d1: int, d2: int)
    requires Cm(d1) == Cm(d2) || Inch(d1) == Inch(d2)
    ensures d1 == d2
  {
  }
}
