/**
 * What the scan of two data arrays computes, stated without a loop. A data
 * array is its sequence of tuples; `a[t][c]` is component `c` of tuple `t`
 * (`GetComponent(t, c)`). For every component the scan folds the column of
 * element errors, from the first tuple to the last, into six accumulators
 * that all start at zero: the sum, the sum of squares and the running
 * maximum of the absolute errors, and the same three of the relative errors.
 */
module ErrorNorms {
  import opened ExtReal
  import opened ElementError

  /** Two data arrays with equal tuple counts whose tuples all have `n` components. */
  predicate Shaped(a: seq<seq<real>>, b: seq<seq<real>>, n: nat)
  {
    |a| == |b| && forall t :: 0 <= t < |a| ==> |a[t]| == n && |b[t]| == n
  }

  /** The absolute errors of component `c`, tuple by tuple. */
  function AbsErrors(a: seq<seq<real>>, b: seq<seq<real>>, n: nat, c: nat): seq<real>
    requires Shaped(a, b, n) && c < n
  {
    seq(|a|, t requires 0 <= t < |a| => AbsoluteError(a[t][c], b[t][c]))
  }

  /** The relative errors of component `c`, tuple by tuple. */
  function RelErrors(a: seq<seq<real>>, b: seq<seq<real>>, n: nat, c: nat): seq<EReal>
    requires Shaped(a, b, n) && c < n
  {
    seq(|a|, t requires 0 <= t < |a| => RelativeError(a[t][c], b[t][c]))
  }

  // The six accumulators after the first `t` entries of a column.

  function SumTo(s: seq<real>, t: nat): real
    requires t <= |s|
  {
    if t == 0 then 0.0 else SumTo(s, t - 1) + s[t - 1]
  }

  function SumSqTo(s: seq<real>, t: nat): real
    requires t <= |s|
  {
    if t == 0 then 0.0 else SumSqTo(s, t - 1) + Sq(s[t - 1])
  }

  function MaxTo(s: seq<real>, t: nat): real
    requires t <= |s|
  {
    if t == 0 then 0.0 else Larger(MaxTo(s, t - 1), s[t - 1])
  }

  function ESumTo(s: seq<EReal>, t: nat): EReal
    requires t <= |s|
  {
    if t == 0 then Fin(0.0) else Add(ESumTo(s, t - 1), s[t - 1])
  }

  function ESumSqTo(s: seq<EReal>, t: nat): EReal
    requires t <= |s|
  {
    if t == 0 then Fin(0.0) else Add(ESumSqTo(s, t - 1), Square(s[t - 1]))
  }

  function EMaxTo(s: seq<EReal>, t: nat): EReal
    requires t <= |s|
  {
    if t == 0 then Fin(0.0) else Max(EMaxTo(s, t - 1), s[t - 1])
  }

  /** The six per-component accumulator vectors. */
  datatype Norms = Norms(
    absL1: seq<real>, absL2Sq: seq<real>, absMax: seq<real>,
    relL1: seq<EReal>, relL2Sq: seq<EReal>, relMax: seq<EReal>)

  /** The accumulators once every tuple of `a` and `b` has been compared. */
  function NormsOf(a: seq<seq<real>>, b: seq<seq<real>>, n: nat): Norms
    requires Shaped(a, b, n)
  {
    Norms(
      seq(n, c requires 0 <= c < n => SumTo(AbsErrors(a, b, n, c), |a|)),
      seq(n, c requires 0 <= c < n => SumSqTo(AbsErrors(a, b, n, c), |a|)),
      seq(n, c requires 0 <= c < n => MaxTo(AbsErrors(a, b, n, c), |a|)),
      seq(n, c requires 0 <= c < n => ESumTo(RelErrors(a, b, n, c), |a|)),
      seq(n, c requires 0 <= c < n => ESumSqTo(RelErrors(a, b, n, c), |a|)),
      seq(n, c requires 0 <= c < n => EMaxTo(RelErrors(a, b, n, c), |a|)))
  }

  // ---------------------------------------------------------------------
  // Maxima

  /** The running maximum is the largest of zero and the first `t` entries. */
  lemma {:induction false} MaxToIsMaximum(s: seq<real>, t: nat)
    requires t <= |s|
    ensures MaxTo(s, t) >= 0.0
    ensures forall i :: 0 <= i < t ==> s[i] <= MaxTo(s, t)
    ensures MaxTo(s, t) == 0.0 || exists i :: 0 <= i < t && s[i] == MaxTo(s, t)
  {
    if t > 0 {
      MaxToIsMaximum(s, t - 1);
    }
  }

  lemma {:induction false} EMaxToIsMaximum(s: seq<EReal>, t: nat)
    requires t <= |s|
    ensures NonNeg(EMaxTo(s, t))
    ensures forall i :: 0 <= i < t ==> Le(s[i], EMaxTo(s, t))
    ensures EMaxTo(s, t) == Fin(0.0) || exists i :: 0 <= i < t && s[i] == EMaxTo(s, t)
  {
    if t > 0 {
      EMaxToIsMaximum(s, t - 1);
      var m := EMaxTo(s, t);
      forall i | 0 <= i < t ensures Le(s[i], m) {
        if i < t - 1 {
          LeTransitive(s[i], EMaxTo(s, t - 1), m);
        }
      }
    }
  }

  /** A running maximum never decreases as more tuples are scanned. */
  lemma {:induction false} MaxNonDecreasing(s: seq<real>, t: nat, u: nat)
    requires t <= u <= |s|
    ensures MaxTo(s, t) <= MaxTo(s, u)
  {
    if t < u {
      MaxNonDecreasing(s, t, u - 1);
    }
  }

  lemma {:induction false} EMaxNonDecreasing(s: seq<EReal>, t: nat, u: nat)
    requires t <= u <= |s|
    ensures Le(EMaxTo(s, t), EMaxTo(s, u))
  {
    if t < u {
      EMaxNonDecreasing(s, t, u - 1);
      LeTransitive(EMaxTo(s, t), EMaxTo(s, u - 1), EMaxTo(s, u));
    }
  }

  /**
   * The absolute max accumulator of component `c` is the largest absolute
   * error of that component over all tuples, or 0 when there are no tuples.
   */
  lemma AbsMaxIsLargestError(a: seq<seq<real>>, b: seq<seq<real>>, n: nat, c: nat)
    requires Shaped(a, b, n) && c < n
    ensures |a| == 0 ==> NormsOf(a, b, n).absMax[c] == 0.0
    ensures forall t :: 0 <= t < |a| ==> AbsoluteError(a[t][c], b[t][c]) <= NormsOf(a, b, n).absMax[c]
    ensures |a| > 0 ==>
              exists t :: 0 <= t < |a| && AbsoluteError(a[t][c], b[t][c]) == NormsOf(a, b, n).absMax[c]
  {
    var s := AbsErrors(a, b, n, c);
    MaxToIsMaximum(s, |a|);
    forall t | 0 <= t < |a| ensures AbsoluteError(a[t][c], b[t][c]) <= MaxTo(s, |a|) {
      assert s[t] == AbsoluteError(a[t][c], b[t][c]);
    }
    if |a| > 0 && MaxTo(s, |a|) == 0.0 {
      assert s[0] == MaxTo(s, |a|);
    }
  }

  /**
   * The relative max accumulator of component `c` is the largest relative
   * error of that component over all tuples, or 0 when there are no tuples.
   */
  lemma RelMaxIsLargestError(a: seq<seq<real>>, b: seq<seq<real>>, n: nat, c: nat)
    requires Shaped(a, b, n) && c < n
    ensures |a| == 0 ==> NormsOf(a, b, n).relMax[c] == Fin(0.0)
    ensures forall t :: 0 <= t < |a| ==> Le(RelativeError(a[t][c], b[t][c]), NormsOf(a, b, n).relMax[c])
    ensures |a| > 0 ==>
              exists t :: 0 <= t < |a| && RelativeError(a[t][c], b[t][c]) == NormsOf(a, b, n).relMax[c]
  {
    var s := RelErrors(a, b, n, c);
    EMaxToIsMaximum(s, |a|);
    forall t | 0 <= t < |a| ensures Le(RelativeError(a[t][c], b[t][c]), EMaxTo(s, |a|)) {
      assert s[t] == RelativeError(a[t][c], b[t][c]);
    }
    if |a| > 0 && EMaxTo(s, |a|) == Fin(0.0) {
      assert s[0] == EMaxTo(s, |a|);
    }
  }

  // ---------------------------------------------------------------------
  // Signs

  lemma {:induction false} SumsNonNegative(s: seq<real>, t: nat)
    requires t <= |s|
    requires forall i :: 0 <= i < |s| ==> s[i] >= 0.0
    ensures SumTo(s, t) >= 0.0 && SumSqTo(s, t) >= 0.0
  {
    if t > 0 {
      SumsNonNegative(s, t - 1);
    }
  }

  lemma {:induction false} ESumsNonNegative(s: seq<EReal>, t: nat)
    requires t <= |s|
    requires forall i :: 0 <= i < |s| ==> NonNeg(s[i])
    ensures NonNeg(ESumTo(s, t)) && NonNeg(ESumSqTo(s, t))
  {
    if t > 0 {
      ESumsNonNegative(s, t - 1);
    }
  }

  /** No accumulator of any component ends below zero. */
  lemma NormsNonNegative(a: seq<seq<real>>, b: seq<seq<real>>, n: nat)
    requires Shaped(a, b, n)
    ensures forall c :: 0 <= c < n ==>
              NormsOf(a, b, n).absL1[c] >= 0.0 && NormsOf(a, b, n).absL2Sq[c] >= 0.0 &&
              NormsOf(a, b, n).absMax[c] >= 0.0
    ensures forall c :: 0 <= c < n ==>
              NonNeg(NormsOf(a, b, n).relL1[c]) && NonNeg(NormsOf(a, b, n).relL2Sq[c]) &&
              NonNeg(NormsOf(a, b, n).relMax[c])
  {
    forall c | 0 <= c < n
      ensures NormsOf(a, b, n).absL1[c] >= 0.0 && NormsOf(a, b, n).absL2Sq[c] >= 0.0
      ensures NormsOf(a, b, n).absMax[c] >= 0.0
      ensures NonNeg(NormsOf(a, b, n).relL1[c]) && NonNeg(NormsOf(a, b, n).relL2Sq[c])
      ensures NonNeg(NormsOf(a, b, n).relMax[c])
    {
      SumsNonNegative(AbsErrors(a, b, n, c), |a|);
      MaxToIsMaximum(AbsErrors(a, b, n, c), |a|);
      ESumsNonNegative(RelErrors(a, b, n, c), |a|);
      EMaxToIsMaximum(RelErrors(a, b, n, c), |a|);
    }
  }

  // ---------------------------------------------------------------------
  // Identical data and swapped operands

  lemma {:induction false} FoldsOfZeros(s: seq<real>, t: nat)
    requires t <= |s|
    requires forall i :: 0 <= i < |s| ==> s[i] == 0.0
    ensures SumTo(s, t) == 0.0 && SumSqTo(s, t) == 0.0 && MaxTo(s, t) == 0.0
  {
    if t > 0 {
      FoldsOfZeros(s, t - 1);
    }
  }

  lemma {:induction false} EFoldsOfZeros(s: seq<EReal>, t: nat)
    requires t <= |s|
    requires forall i :: 0 <= i < |s| ==> s[i] == Fin(0.0)
    ensures ESumTo(s, t) == Fin(0.0) && ESumSqTo(s, t) == Fin(0.0) && EMaxTo(s, t) == Fin(0.0)
  {
    if t > 0 {
      EFoldsOfZeros(s, t - 1);
      var x := s[t - 1];
      assert x == Fin(0.0);
      assert Add(Fin(0.0), x) == Fin(0.0);
      assert Add(Fin(0.0), Square(x)) == Fin(0.0);
      assert Max(Fin(0.0), x) == Fin(0.0);
    }
  }

  /** Comparing a data array with an exact copy leaves every accumulator at zero. */
  lemma IdenticalDataZeroNorms(a: seq<seq<real>>, n: nat)
    requires Shaped(a, a, n)
    ensures forall c :: 0 <= c < n ==>
              NormsOf(a, a, n).absL1[c] == 0.0 && NormsOf(a, a, n).absL2Sq[c] == 0.0 &&
              NormsOf(a, a, n).absMax[c] == 0.0
    ensures forall c :: 0 <= c < n ==>
              NormsOf(a, a, n).relL1[c] == Fin(0.0) && NormsOf(a, a, n).relL2Sq[c] == Fin(0.0) &&
              NormsOf(a, a, n).relMax[c] == Fin(0.0)
  {
    forall c | 0 <= c < n
      ensures NormsOf(a, a, n).absL1[c] == 0.0 && NormsOf(a, a, n).absL2Sq[c] == 0.0
      ensures NormsOf(a, a, n).absMax[c] == 0.0
      ensures NormsOf(a, a, n).relL1[c] == Fin(0.0) && NormsOf(a, a, n).relL2Sq[c] == Fin(0.0)
      ensures NormsOf(a, a, n).relMax[c] == Fin(0.0)
    {
      FoldsOfZeros(AbsErrors(a, a, n, c), |a|);
      EFoldsOfZeros(RelErrors(a, a, n, c), |a|);
    }
  }

  /** Swapping the two data arrays changes none of the six accumulators. */
  lemma SwapInvariant(a: seq<seq<real>>, b: seq<seq<real>>, n: nat)
    requires Shaped(a, b, n)
    ensures Shaped(b, a, n) && NormsOf(b, a, n) == NormsOf(a, b, n)
  {
    forall c | 0 <= c < n
      ensures AbsErrors(b, a, n, c) == AbsErrors(a, b, n, c)
      ensures RelErrors(b, a, n, c) == RelErrors(a, b, n, c)
    {
      forall t | 0 <= t < |a| {
        ErrorsSymmetric(a[t][c], b[t][c]);
      }
    }
  }

  /** One component with absolute errors 3 and 4: the squared L2 norm is 25. */
  lemma L2SquaredExample()
    ensures NormsOf([[3.0], [4.0]], [[0.0], [0.0]], 1).absL2Sq == [25.0]
  {
    var s := AbsErrors([[3.0], [4.0]], [[0.0], [0.0]], 1, 0);
    assert s[0] == 3.0 && s[1] == 4.0;
    assert SumSqTo(s, 1) == Sq(3.0) == 9.0;
    assert SumSqTo(s, 2) == 9.0 + Sq(4.0) == 25.0;
  }

  /** [1, 2, 3] against [1, 2.1, 3]: absolute error 0.1 at the middle tuple. */
  lemma AbsoluteScenario()
    ensures var norms := NormsOf([[1.0], [2.0], [3.0]], [[1.0], [2.1], [3.0]], 1);
            norms.absL1 == [0.1] && norms.absMax == [0.1] && norms.absL2Sq == [0.01]
  {
    var abs := AbsErrors([[1.0], [2.0], [3.0]], [[1.0], [2.1], [3.0]], 1, 0);
    assert abs[0] == 0.0 && abs[1] == 0.1 && abs[2] == 0.0;
    assert MaxTo(abs, 1) == 0.0 && MaxTo(abs, 2) == 0.1;
    assert SumTo(abs, 3) == 0.1 && MaxTo(abs, 3) == 0.1;
    assert SumSqTo(abs, 2) == Sq(0.0) + Sq(0.1) == 0.01;
    assert SumSqTo(abs, 3) == 0.01 + Sq(0.0) == 0.01;
  }

  /** [1, 2, 3] against [1, 2.1, 3]: relative error 0.1 / 2 = 0.05 at the middle tuple. */
  lemma RelativeScenario()
    ensures var norms := NormsOf([[1.0], [2.0], [3.0]], [[1.0], [2.1], [3.0]], 1);
            norms.relL1 == [Fin(0.05)] && norms.relMax == [Fin(0.05)]
  {
    var rel := RelErrors([[1.0], [2.0], [3.0]], [[1.0], [2.1], [3.0]], 1, 0);
    assert rel[0] == Fin(0.0) && rel[2] == Fin(0.0);
    assert rel[1] == Fin(0.05) by {
      assert RelativeError(2.0, 2.1) == Fin(0.1 / 2.0);
    }
    assert EMaxTo(rel, 1) == Fin(0.0) && EMaxTo(rel, 2) == Fin(0.05);
    assert ESumTo(rel, 3) == Fin(0.05) && EMaxTo(rel, 3) == Fin(0.05);
  }

  // ---------------------------------------------------------------------
  // Infinite relative errors

  /** A saturating sum is infinite exactly when one of its terms is. */
  lemma {:induction false} ESumInfIff(s: seq<EReal>, t: nat)
    requires t <= |s|
    ensures ESumTo(s, t).PosInf? <==> exists i :: 0 <= i < t && s[i].PosInf?
  {
    if t > 0 {
      ESumInfIff(s, t - 1);
    }
  }

  /** A saturating sum of squares is infinite exactly when one of its terms is. */
  lemma {:induction false} ESumSqInfIff(s: seq<EReal>, t: nat)
    requires t <= |s|
    ensures ESumSqTo(s, t).PosInf? <==> exists i :: 0 <= i < t && s[i].PosInf?
  {
    if t > 0 {
      ESumSqInfIff(s, t - 1);
    }
  }

  /**
   * Once an element of component `c` differs from its counterpart while one
   * of the two is zero, that component's relative L1 and squared L2 norms are
   * +infinity; otherwise they are finite.
   */
  lemma RelSumsInfiniteIff(a: seq<seq<real>>, b: seq<seq<real>>, n: nat, c: nat)
    requires Shaped(a, b, n) && c < n
    ensures NormsOf(a, b, n).relL1[c].PosInf? <==>
              exists t :: 0 <= t < |a| && a[t][c] != b[t][c] && (a[t][c] == 0.0 || b[t][c] == 0.0)
    ensures NormsOf(a, b, n).relL2Sq[c].PosInf? <==>
              exists t :: 0 <= t < |a| && a[t][c] != b[t][c] && (a[t][c] == 0.0 || b[t][c] == 0.0)
  {
    var rel := RelErrors(a, b, n, c);
    ESumInfIff(rel, |a|);
    ESumSqInfIff(rel, |a|);
    assert forall t :: 0 <= t < |a| ==> rel[t] == RelativeError(a[t][c], b[t][c]);
  }

  // ---------------------------------------------------------------------
  // Per-element diagnostics

  datatype Thresholds = Thresholds(abs: real, rel: real)

  /** One line of verbose output: where, and by how much, an element differs. */
  datatype Diagnostic = Diagnostic(tuple: nat, component: nat, absErr: real, relErr: EReal)

  function DiagnosticAt(a: seq<seq<real>>, b: seq<seq<real>>, n: nat, t: nat, c: nat): Diagnostic
    requires Shaped(a, b, n) && t < |a| && c < n
  {
    Diagnostic(t, c, AbsoluteError(a[t][c], b[t][c]), RelativeError(a[t][c], b[t][c]))
  }

  /** An element is reported only when it exceeds BOTH thresholds. */
  predicate OutOfTolerance(d: Diagnostic, thr: Thresholds): (out: bool)
    ensures out && thr.abs >= 0.0 && thr.rel >= 0.0 ==> d.absErr > 0.0 && d.relErr != Fin(0.0)
  {
    d.absErr > thr.abs && Exceeds(d.relErr, thr.rel)
  }

  /** The diagnostics of the first `c` components of tuple `t`. */
  function FlaggedInTuple(a: seq<seq<real>>, b: seq<seq<real>>, n: nat, thr: Thresholds, t: nat, c: nat)
    : seq<Diagnostic>
    requires Shaped(a, b, n) && t < |a| && c <= n
  {
    if c == 0 then []
    else
      var d := DiagnosticAt(a, b, n, t, c - 1);
      FlaggedInTuple(a, b, n, thr, t, c - 1) + (if OutOfTolerance(d, thr) then [d] else [])
  }

  /** The diagnostics of the first `t` tuples. */
  function FlaggedUpTo(a: seq<seq<real>>, b: seq<seq<real>>, n: nat, thr: Thresholds, t: nat)
    : seq<Diagnostic>
    requires Shaped(a, b, n) && t <= |a|
  {
    if t == 0 then [] else FlaggedUpTo(a, b, n, thr, t - 1) + FlaggedInTuple(a, b, n, thr, t - 1, n)
  }

  /** Everything the scan reports; nothing unless `verbose`. */
  function Diagnostics(a: seq<seq<real>>, b: seq<seq<real>>, n: nat, thr: Thresholds, verbose: bool)
    : seq<Diagnostic>
    requires Shaped(a, b, n)
  {
    if verbose then FlaggedUpTo(a, b, n, thr, |a|) else []
  }

  /** Diagnostic `d` comes strictly earlier than `e` in tuple-major, component-minor order. */
  predicate Before(d: Diagnostic, e: Diagnostic)
  {
    d.tuple < e.tuple || (d.tuple == e.tuple && d.component < e.component)
  }

  predicate InScanOrder(ds: seq<Diagnostic>)
  {
    forall i, j :: 0 <= i < j < |ds| ==> Before(ds[i], ds[j])
  }

  /** Membership in a finished scan of one tuple. */
  predicate FlaggedElement(a: seq<seq<real>>, b: seq<seq<real>>, n: nat, thr: Thresholds, d: Diagnostic)
    requires Shaped(a, b, n)
  {
    d.tuple < |a| && d.component < n &&
    d == DiagnosticAt(a, b, n, d.tuple, d.component) && OutOfTolerance(d, thr)
  }

  lemma {:induction false} FlaggedInTupleMembers(
    a: seq<seq<real>>, b: seq<seq<real>>, n: nat, thr: Thresholds, t: nat, c: nat, d: Diagnostic)
    requires Shaped(a, b, n) && t < |a| && c <= n
    ensures d in FlaggedInTuple(a, b, n, thr, t, c) <==>
              d.tuple == t && d.component < c && FlaggedElement(a, b, n, thr, d)
  {
    if c > 0 {
      FlaggedInTupleMembers(a, b, n, thr, t, c - 1, d);
    }
  }

  lemma {:induction false} FlaggedInTupleOrdered(
    a: seq<seq<real>>, b: seq<seq<real>>, n: nat, thr: Thresholds, t: nat, c: nat)
    requires Shaped(a, b, n) && t < |a| && c <= n
    ensures InScanOrder(FlaggedInTuple(a, b, n, thr, t, c))
  {
    if c > 0 {
      FlaggedInTupleOrdered(a, b, n, thr, t, c - 1);
      var prev := FlaggedInTuple(a, b, n, thr, t, c - 1);
      var d := DiagnosticAt(a, b, n, t, c - 1);
      forall e | e in prev ensures Before(e, d) {
        FlaggedInTupleMembers(a, b, n, thr, t, c - 1, e);
      }
      AppendInScanOrder(prev, if OutOfTolerance(d, thr) then [d] else []);
    }
  }

  lemma AppendInScanOrder(ds: seq<Diagnostic>, es: seq<Diagnostic>)
    requires InScanOrder(ds) && InScanOrder(es)
    requires forall d, e :: d in ds && e in es ==> Before(d, e)
    ensures InScanOrder(ds + es)
  {
  }

  lemma {:induction false} FlaggedUpToMembers(
    a: seq<seq<real>>, b: seq<seq<real>>, n: nat, thr: Thresholds, t: nat, d: Diagnostic)
    requires Shaped(a, b, n) && t <= |a|
    ensures d in FlaggedUpTo(a, b, n, thr, t) <==> d.tuple < t && FlaggedElement(a, b, n, thr, d)
  {
    if t > 0 {
      var earlier := FlaggedUpTo(a, b, n, thr, t - 1);
      var last := FlaggedInTuple(a, b, n, thr, t - 1, n);
      assert FlaggedUpTo(a, b, n, thr, t) == earlier + last;
      assert d in earlier + last <==> d in earlier || d in last;
      FlaggedUpToMembers(a, b, n, thr, t - 1, d);
      FlaggedInTupleMembers(a, b, n, thr, t - 1, n, d);
    }
  }

  /** Every report of the first `t` tuples precedes every report of tuple `t`. */
  lemma EarlierTuplesFirst(a: seq<seq<real>>, b: seq<seq<real>>, n: nat, thr: Thresholds, t: nat)
    requires Shaped(a, b, n) && t < |a|
    ensures forall d, e :: d in FlaggedUpTo(a, b, n, thr, t) && e in FlaggedInTuple(a, b, n, thr, t, n) ==>
              Before(d, e)
  {
    forall d, e | d in FlaggedUpTo(a, b, n, thr, t) && e in FlaggedInTuple(a, b, n, thr, t, n)
      ensures Before(d, e)
    {
      FlaggedUpToMembers(a, b, n, thr, t, d);
      FlaggedInTupleMembers(a, b, n, thr, t, n, e);
    }
  }

  lemma {:induction false} FlaggedUpToOrdered(
    a: seq<seq<real>>, b: seq<seq<real>>, n: nat, thr: Thresholds, t: nat)
    requires Shaped(a, b, n) && t <= |a|
    ensures InScanOrder(FlaggedUpTo(a, b, n, thr, t))
  {
    if t > 0 {
      var earlier := FlaggedUpTo(a, b, n, thr, t - 1);
      var last := FlaggedInTuple(a, b, n, thr, t - 1, n);
      FlaggedUpToOrdered(a, b, n, thr, t - 1);
      FlaggedInTupleOrdered(a, b, n, thr, t - 1, n);
      EarlierTuplesFirst(a, b, n, thr, t - 1);
      AppendInScanOrder(earlier, last);
      assert FlaggedUpTo(a, b, n, thr, t) == earlier + last;
    }
  }

  /**
   * With `verbose`, the scan reports exactly the elements whose absolute
   * AND relative errors exceed their thresholds, each once, in scan order;
   * without it, nothing.
   */
  lemma DiagnosticsAreOutOfTolerance(
    a: seq<seq<real>>, b: seq<seq<real>>, n: nat, thr: Thresholds, verbose: bool)
    requires Shaped(a, b, n)
    ensures forall d :: d in Diagnostics(a, b, n, thr, verbose) <==>
              verbose && FlaggedElement(a, b, n, thr, d)
    ensures InScanOrder(Diagnostics(a, b, n, thr, verbose))
  {
    forall d ensures d in Diagnostics(a, b, n, thr, verbose) <==> verbose && FlaggedElement(a, b, n, thr, d) {
      FlaggedUpToMembers(a, b, n, thr, |a|, d);
    }
    FlaggedUpToOrdered(a, b, n, thr, |a|);
  }
}
