/**
 * The part of JavaScript's number semantics the stats arithmetic depends on.
 * Finite values are exact reals (rounding is not modelled); what matters is
 * that a division by zero does not throw but yields NaN or an infinity.
 */
module JsNumbers {

  /** A JavaScript number: a finite value, NaN, or an infinity of a given sign. */
  datatype Num = Finite(value: real) | NaN | Infinity(negative: bool)

  /**
   * `x / y` on two finite numbers. A zero denominator is taken to be +0, which
   * is what the only callers produce (a difference `t - t` scaled by positive
   * constants): IEEE 754 then gives NaN for 0/0 and an infinity carrying the
   * numerator's sign otherwise.
   */
  function Divide(x: real, y: real): (q: Num)
    ensures q.Finite? <==> y != 0.0
    ensures q.Finite? ==> q.value * y == x
    ensures q.NaN? <==> y == 0.0 && x == 0.0
    ensures q.Infinity? ==> q.negative == (x < 0.0)
  {
    if y != 0.0 then Finite(x / y)
    else if x == 0.0 then NaN
    else Infinity(x < 0.0)
  }
}
