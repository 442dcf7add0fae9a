/**
 * The error of one compared element: the absolute error `|a - b|` and the
 * relative error with its three-way rule for zero differences and zero
 * operands (vtkdiff.cpp, the body of the component loop in `main`).
 */
module ElementError {
  import opened ExtReal

  function Abs(x: real): (y: real)
    ensures y >= 0.0 && (y == x || y == -x)
  {
    if x < 0.0 then -x else x
  }

  /** `std::min(x, y)`: `y` when `y < x`, otherwise `x`. */
  function Min(x: real, y: real): (m: real)
    ensures m <= x && m <= y && (m == x || m == y)
  {
    if y < x then y else x
  }

  /** `std::abs(a - b)`: zero exactly when the values agree. */
  function AbsoluteError(a: real, b: real): (e: real)
    ensures e >= 0.0
    ensures e == 0.0 <==> a == b
    ensures e == a - b || e == b - a
  {
    Abs(a - b)
  }

  /**
   * The relative error of `a` against `b`: 0 when they agree (zeros
   * included), +infinity when they differ and one of them is zero, and
   * otherwise the absolute error measured in units of the smaller magnitude.
   */
  function RelativeError(a: real, b: real): (rel: EReal)
    ensures NonNeg(rel)
    ensures rel == Fin(0.0) <==> a == b
    ensures rel.PosInf? <==> a != b && (a == 0.0 || b == 0.0)
    ensures rel.Fin? && a != b ==>
              rel.r > 0.0 && rel.r * Min(Abs(a), Abs(b)) == AbsoluteError(a, b)
  {
    var absErr := AbsoluteError(a, b);
    if absErr == 0.0 then Fin(0.0)
    else if a == 0.0 || b == 0.0 then PosInf
    else Fin(absErr / Min(Abs(a), Abs(b)))
  }

  /** Neither error depends on which operand comes first. */
  lemma ErrorsSymmetric(a: real, b: real)
    ensures AbsoluteError(a, b) == AbsoluteError(b, a)
    ensures RelativeError(a, b) == RelativeError(b, a)
  {
    assert Min(Abs(a), Abs(b)) == Min(Abs(b), Abs(a));
  }

  /** The rule on the values 5 and 5, 0 and 1, 0 and 0, 2 and 4. */
  lemma RelativeErrorExamples()
    ensures RelativeError(5.0, 5.0) == Fin(0.0)
    ensures RelativeError(0.0, 1.0) == PosInf
    ensures RelativeError(0.0, 0.0) == Fin(0.0)
    ensures RelativeError(2.0, 4.0) == Fin(1.0)
  {
  }
}
