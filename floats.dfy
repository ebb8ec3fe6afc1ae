/**
 * The double-precision values that the numpy code computes with, seen as exact
 * values: a real number, one of the two infinities, or NaN.  Rounding is not
 * modelled; only the special values and the IEEE-754 rules for them are.
 */
module Floats {

  datatype Float = NaN | Num(value: real) | PosInf | NegInf

  /** IEEE `a < b`: false whenever either side is NaN. */
  predicate Lt(a: Float, b: Float)
  {
    match a
    case NaN => false
    case Num(x) => (b.Num? && x < b.value) || b.PosInf?
    case NegInf => b.Num? || b.PosInf?
    case PosInf => false
  }

  /** IEEE `a <= b`: false whenever either side is NaN. */
  predicate Le(a: Float, b: Float)
  {
    Lt(a, b) || (!a.NaN? && a == b)
  }

  /** IEEE `a > b`. */
  predicate Gt(a: Float, b: Float)
  {
    Lt(b, a)
  }

  /** IEEE `a >= b`. */
  predicate Ge(a: Float, b: Float)
  {
    Le(b, a)
  }

  /** IEEE negation. */
  function Neg(a: Float): Float
  {
    match a
    case NaN => NaN
    case Num(x) => Num(-x)
    case PosInf => NegInf
    case NegInf => PosInf
  }

  /** IEEE addition: opposite infinities give NaN. */
  function Add(a: Float, b: Float): (r: Float)
    ensures (a.NaN? || b.NaN?) ==> r.NaN?
    ensures a.Num? && b.Num? ==> r == Num(a.value + b.value)
  {
    if a.NaN? || b.NaN? then NaN
    else if a.Num? && b.Num? then Num(a.value + b.value)
    else if a.Num? then b
    else if b.Num? || a == b then a
    else NaN
  }

  /** IEEE subtraction. */
  function Sub(a: Float, b: Float): Float
  {
    Add(a, Neg(b))
  }

  /** IEEE product of a finite scalar and a value: zero times an infinity is NaN. */
  function Scale(k: real, a: Float): (r: Float)
    ensures a.NaN? ==> r.NaN?
    ensures a.Num? ==> r == Num(k * a.value)
  {
    match a
    case NaN => NaN
    case Num(_) => Num(k * a.value)
    case _ => if k == 0.0 then NaN else if k > 0.0 then a else Neg(a)
  }

  /**
   * IEEE quotient of a value by a finite scalar.  Dividing by (positive) zero
   * gives NaN for a zero or NaN numerator and an infinity of the numerator's
   * sign otherwise; numpy does this without raising.
   */
  function DivBy(a: Float, k: real): (r: Float)
    ensures a.NaN? ==> r.NaN?
    ensures a.Num? && k != 0.0 ==> r == Num(a.value / k)
    ensures a == Num(0.0) && k == 0.0 ==> r.NaN?
  {
    match a
    case NaN => NaN
    case Num(x) =>
      if k != 0.0 then Num(x / k)
      else if x == 0.0 then NaN
      else if x > 0.0 then PosInf
      else NegInf
    case _ => if k >= 0.0 then a else Neg(a)
  }

  /** On values other than NaN, IEEE comparison is a total order. */
  lemma LtTotal(a: Float, b: Float)
    requires !a.NaN? && !b.NaN?
    ensures Lt(a, b) || Le(b, a)
  {
  }

  lemma LeTransitive(a: Float, b: Float, c: Float)
    requires Le(a, b) && Le(b, c)
    ensures Le(a, c)
  {
  }

  lemma LtLeTransitive(a: Float, b: Float, c: Float)
    requires Lt(a, b) && Le(b, c)
    ensures Lt(a, c)
  {
  }

  lemma LeLtTransitive(a: Float, b: Float, c: Float)
    requires Le(a, b) && Lt(b, c)
    ensures Lt(a, c)
  {
  }

  /** Comparisons with NaN are false. */
  lemma NaNIncomparable(a: Float, b: Float)
    requires a.NaN? || b.NaN?
    ensures !Lt(a, b) && !Le(a, b) && !Gt(a, b) && !Ge(a, b)
  {
  }
}
