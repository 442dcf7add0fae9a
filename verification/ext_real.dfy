/**
 * The doubles of the model: a finite value or +infinity. In the model,
 * inputs are exact finite reals, so absolute errors are finite, and the only
 * infinity is the relative error of two values that differ when one of them
 * is zero; that infinity then flows into the relative accumulators. Negative
 * infinity and NaN are not represented, and neither is floating-point
 * overflow.
 */
module ExtReal {

  datatype EReal = Fin(r: real) | PosInf

  /** `x <= y` on doubles, with +infinity above every finite value. */
  predicate Le(x: EReal, y: EReal)
  {
    match x
    case PosInf => y.PosInf?
    case Fin(p) => y.PosInf? || p <= y.r
  }

  /** `x < y` on doubles. */
  predicate Lt(x: EReal, y: EReal)
  {
    match x
    case PosInf => false
    case Fin(p) => y.PosInf? || p < y.r
  }

  predicate NonNeg(x: EReal)
  {
    x.PosInf? || x.r >= 0.0
  }

  /** `x > thr` for a double `x` and a finite threshold. */
  predicate Exceeds(x: EReal, thr: real): (e: bool)
    ensures e <==> Lt(Fin(thr), x)
  {
    x.PosInf? || x.r > thr
  }

  /** Addition of doubles, saturating at +infinity. */
  function Add(x: EReal, y: EReal): (s: EReal)
    ensures s.PosInf? <==> x.PosInf? || y.PosInf?
    ensures NonNeg(x) && NonNeg(y) ==> NonNeg(s) && Le(x, s) && Le(y, s)
  {
    if x.PosInf? || y.PosInf? then PosInf else Fin(x.r + y.r)
  }

  /** `x * x` on finite doubles. */
  function Sq(x: real): (q: real)
    ensures q >= 0.0
  {
    x * x
  }

  /** `x * x`: infinite exactly when `x` is, never negative. */
  function Square(x: EReal): (q: EReal)
    ensures NonNeg(q)
    ensures q.PosInf? <==> x.PosInf?
  {
    if x.PosInf? then PosInf else Fin(Sq(x.r))
  }

  /** `std::max(x, y)`: `y` when `x < y`, otherwise `x`. */
  function Max(x: EReal, y: EReal): (m: EReal)
    ensures Le(x, m) && Le(y, m)
    ensures m == x || m == y
  {
    if Lt(x, y) then y else x
  }

  /** `std::max(x, y)` on finite doubles: the same rule as `Max`. */
  function Larger(x: real, y: real): (m: real)
    ensures Fin(m) == Max(Fin(x), Fin(y))
    ensures m >= x && m >= y && (m == x || m == y)
  {
    if x < y then y else x
  }

  lemma LeTransitive(x: EReal, y: EReal, z: EReal)
    requires Le(x, y) && Le(y, z)
    ensures Le(x, z)
  {
  }
}
