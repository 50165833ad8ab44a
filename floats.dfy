/** The few float64 outcomes the navigator's numpy arithmetic can reach.
    Finite values are kept exactly as reals; the three special values stand
    for what numpy produces once warnings are switched off with
    np.seterr(divide='ignore', invalid='ignore'). */
module Floats {

  datatype Float = Finite(value: real) | PosInf | NegInf | NaN

  /** Division as numpy performs it with the division warnings ignored:
      a nonzero numerator over zero is an infinity of its sign, 0/0 is NaN. */
  function Div(a: real, b: real): (r: Float)
    ensures r.Finite? <==> b != 0.0
    ensures r.Finite? ==> r.value * b == a
  {
    if b != 0.0 then Finite(a / b)
    else if a > 0.0 then PosInf
    else if a < 0.0 then NegInf
    else NaN
  }

  /** `x > c` on a float: false for NaN, true for +inf, false for -inf. */
  predicate Gt(x: Float, c: real)
  {
    match x
    case Finite(v) => v > c
    case PosInf => true
    case NegInf => false
    case NaN => false
  }

  /** `x < c` on a float: false for NaN, false for +inf, true for -inf. */
  predicate Lt(x: Float, c: real)
  {
    match x
    case Finite(v) => v < c
    case PosInf => false
    case NegInf => true
    case NaN => false
  }

  /** Sign flip; the negation of NaN is NaN. */
  function Neg(x: Float): Float
  {
    match x
    case Finite(v) => Finite(-v)
    case PosInf => NegInf
    case NegInf => PosInf
    case NaN => NaN
  }

  /** Every comparison with NaN is false, so NaN is neither above nor below
      any threshold. */
  lemma NaNComparesFalse(c: real)
    ensures !Gt(NaN, c) && !Lt(NaN, c)
  {
  }

  /** Dividing a number by zero yields +inf exactly when the number is
      positive and NaN exactly when it is zero. */
  lemma DivByZero(a: real)
    ensures Div(a, 0.0) == PosInf <==> a > 0.0
    ensures Div(a, 0.0) == NaN <==> a == 0.0
    ensures Div(a, 0.0) == NegInf <==> a < 0.0
  {
  }
}
