/**
 * The final decision of `main` in vtkdiff.cpp: the comparison fails only
 * when the largest absolute maximum AND the largest relative maximum both
 * exceed their thresholds.
 */
module Verdict {
  import opened ExtReal
  import opened ErrorNorms

  /** `*std::max_element(s.begin(), s.end())` of a non-empty vector. */
  function MaxElement(s: seq<real>): (m: real)
    requires |s| >= 1
    ensures m in s
    ensures forall i :: 0 <= i < |s| ==> s[i] <= m
  {
    if |s| == 1 then s[0]
    else
      var m' := MaxElement(s[..|s| - 1]);
      assert forall i :: 0 <= i < |s| - 1 ==> s[..|s| - 1][i] == s[i];
      Larger(m', s[|s| - 1])
  }

  function EMaxElement(s: seq<EReal>): (m: EReal)
    requires |s| >= 1
    ensures m in s
    ensures forall i :: 0 <= i < |s| ==> Le(s[i], m)
  {
    if |s| == 1 then s[0]
    else
      var m' := EMaxElement(s[..|s| - 1]);
      assert forall i :: 0 <= i < |s| - 1 ==> Le(s[i], m') by {
        assert forall i :: 0 <= i < |s| - 1 ==> s[..|s| - 1][i] == s[i];
      }
      var m := Max(m', s[|s| - 1]);
      assert forall i :: 0 <= i < |s| - 1 ==> Le(s[i], m) by {
        forall i | 0 <= i < |s| - 1 ensures Le(s[i], m) {
          LeTransitive(s[i], m', m);
        }
      }
      m
  }

  /**
   * The comparison fails exactly when some component's absolute maximum
   * exceeds the absolute threshold and some (possibly other) component's
   * relative maximum exceeds the relative threshold.
   */
  function ComparisonFails(absMax: seq<real>, relMax: seq<EReal>, thr: Thresholds): (fails: bool)
    requires |absMax| >= 1 && |relMax| >= 1
    ensures fails <==>
              (exists c :: 0 <= c < |absMax| && absMax[c] > thr.abs) &&
              (exists c :: 0 <= c < |relMax| && Exceeds(relMax[c], thr.rel))
  {
    var worstRel := EMaxElement(relMax);
    assert forall c :: 0 <= c < |relMax| && Exceeds(relMax[c], thr.rel) ==> Exceeds(worstRel, thr.rel);
    MaxElement(absMax) > thr.abs && Exceeds(worstRel, thr.rel)
  }

  /** Comparing a data array with an exact copy passes for any thresholds >= 0. */
  lemma IdenticalDataPasses(a: seq<seq<real>>, n: nat, thr: Thresholds)
    requires Shaped(a, a, n) && n >= 1
    requires thr.abs >= 0.0 && thr.rel >= 0.0
    ensures !ComparisonFails(NormsOf(a, a, n).absMax, NormsOf(a, a, n).relMax, thr)
  {
    IdenticalDataZeroNorms(a, n);
  }

  /** The decision on worst errors 1e-10 / 1e-20, 1e-5 / 1e-20 and 1e-5 / 1e-5, thresholds 1e-8. */
  lemma VerdictExamples()
    ensures !ComparisonFails([0.0000000001], [Fin(0.00000000000000000001)],
                             Thresholds(0.00000001, 0.00000001))
    ensures !ComparisonFails([0.00001], [Fin(0.00000000000000000001)],
                             Thresholds(0.00000001, 0.00000001))
    ensures ComparisonFails([0.00001], [Fin(0.00001)], Thresholds(0.00000001, 0.00000001))
    ensures ComparisonFails([0.0, 1.0], [PosInf, Fin(0.0)], Thresholds(0.5, 0.5))
  {
  }
}
