/**
 * The accumulation loop of `main` in vtkdiff.cpp: six per-component
 * accumulator vectors, zero-initialised, updated in place while the two data
 * arrays are walked tuple by tuple and, within a tuple, component by
 * component.
 */
module ErrorScan {
  import opened ExtReal
  import opened ElementError
  import opened ErrorNorms

  /**
   * One step of the scan, at tuple `t` and component `c`: folds the errors of
   * that element into entry `c` of each accumulator and touches no other
   * entry. Returns the two errors of the element.
   */
  method FoldElement(
    absL1: array<real>, absL2Sq: array<real>, absMax: array<real>,
    relL1: array<EReal>, relL2Sq: array<EReal>, relMax: array<EReal>,
    a: seq<seq<real>>, b: seq<seq<real>>, n: nat, t: nat, c: nat)
    returns (absErr: real, relErr: EReal)
    requires Shaped(a, b, n) && t < |a| && c < n
    requires absL1 != absL2Sq && absL1 != absMax && absL2Sq != absMax
    requires relL1 != relL2Sq && relL1 != relMax && relL2Sq != relMax
    requires absL1.Length == absL2Sq.Length == absMax.Length == n
    requires relL1.Length == relL2Sq.Length == relMax.Length == n
    requires absL1[c] == SumTo(AbsErrors(a, b, n, c), t)
    requires absL2Sq[c] == SumSqTo(AbsErrors(a, b, n, c), t)
    requires absMax[c] == MaxTo(AbsErrors(a, b, n, c), t)
    requires relL1[c] == ESumTo(RelErrors(a, b, n, c), t)
    requires relL2Sq[c] == ESumSqTo(RelErrors(a, b, n, c), t)
    requires relMax[c] == EMaxTo(RelErrors(a, b, n, c), t)
    modifies absL1, absL2Sq, absMax, relL1, relL2Sq, relMax
    ensures absErr == AbsoluteError(a[t][c], b[t][c]) && relErr == RelativeError(a[t][c], b[t][c])
    ensures absL1[c] == SumTo(AbsErrors(a, b, n, c), t + 1)
    ensures absL2Sq[c] == SumSqTo(AbsErrors(a, b, n, c), t + 1)
    ensures absMax[c] == MaxTo(AbsErrors(a, b, n, c), t + 1)
    ensures relL1[c] == ESumTo(RelErrors(a, b, n, c), t + 1)
    ensures relL2Sq[c] == ESumSqTo(RelErrors(a, b, n, c), t + 1)
    ensures relMax[c] == EMaxTo(RelErrors(a, b, n, c), t + 1)
    ensures forall k :: 0 <= k < n && k != c ==>
              absL1[k] == old(absL1[k]) && absL2Sq[k] == old(absL2Sq[k]) && absMax[k] == old(absMax[k])
    ensures forall k :: 0 <= k < n && k != c ==>
              relL1[k] == old(relL1[k]) && relL2Sq[k] == old(relL2Sq[k]) && relMax[k] == old(relMax[k])
    ensures forall k: nat, u: nat | k < n && k != c && u <= |a| ::
              old(EntryAccumulatedTo(absL1, absL2Sq, absMax, relL1, relL2Sq, relMax, a, b, n, k, u)) ==>
                EntryAccumulatedTo(absL1, absL2Sq, absMax, relL1, relL2Sq, relMax, a, b, n, k, u)
  {
    var aComp := a[t][c];
    var bComp := b[t][c];
    absErr := AbsoluteError(aComp, bComp);
    assert AbsErrors(a, b, n, c)[t] == absErr;

    absL1[c] := absL1[c] + absErr;
    absL2Sq[c] := absL2Sq[c] + Sq(absErr);
    absMax[c] := Larger(absMax[c], absErr);

    relErr := RelativeError(aComp, bComp);
    assert RelErrors(a, b, n, c)[t] == relErr;

    relL1[c] := Add(relL1[c], relErr);
    relL2Sq[c] := Add(relL2Sq[c], Square(relErr));
    relMax[c] := Max(relMax[c], relErr);
  }

  /** Entry `k` of each of the six accumulators holds its fold of the first `t` tuples. */
  ghost predicate EntryAccumulatedTo(
    absL1: array<real>, absL2Sq: array<real>, absMax: array<real>,
    relL1: array<EReal>, relL2Sq: array<EReal>, relMax: array<EReal>,
    a: seq<seq<real>>, b: seq<seq<real>>, n: nat, k: nat, t: nat)
    reads absL1, absL2Sq, absMax, relL1, relL2Sq, relMax
    requires Shaped(a, b, n) && k < n && t <= |a|
    requires absL1.Length == absL2Sq.Length == absMax.Length == n
    requires relL1.Length == relL2Sq.Length == relMax.Length == n
  {
    && absL1[k] == SumTo(AbsErrors(a, b, n, k), t)
    && absL2Sq[k] == SumSqTo(AbsErrors(a, b, n, k), t)
    && absMax[k] == MaxTo(AbsErrors(a, b, n, k), t)
    && relL1[k] == ESumTo(RelErrors(a, b, n, k), t)
    && relL2Sq[k] == ESumSqTo(RelErrors(a, b, n, k), t)
    && relMax[k] == EMaxTo(RelErrors(a, b, n, k), t)
  }

  /** The six accumulators hold, entry by entry, the folds of the first `t` tuples. */
  ghost predicate AccumulatedTo(
    absL1: array<real>, absL2Sq: array<real>, absMax: array<real>,
    relL1: array<EReal>, relL2Sq: array<EReal>, relMax: array<EReal>,
    a: seq<seq<real>>, b: seq<seq<real>>, n: nat, t: nat)
    reads absL1, absL2Sq, absMax, relL1, relL2Sq, relMax
    requires Shaped(a, b, n) && t <= |a|
  {
    && absL1.Length == absL2Sq.Length == absMax.Length == n
    && relL1.Length == relL2Sq.Length == relMax.Length == n
    && forall k :: 0 <= k < n ==>
         EntryAccumulatedTo(absL1, absL2Sq, absMax, relL1, relL2Sq, relMax, a, b, n, k, t)
  }

  /**
   * The inner loop of the scan: compares tuple `t` component by component,
   * folding each element into the accumulators, and returns the diagnostics
   * of that tuple.
   */
  method ScanTuple(
    absL1: array<real>, absL2Sq: array<real>, absMax: array<real>,
    relL1: array<EReal>, relL2Sq: array<EReal>, relMax: array<EReal>,
    a: seq<seq<real>>, b: seq<seq<real>>, n: nat, thr: Thresholds, verbose: bool, t: nat)
    returns (flagged: seq<Diagnostic>)
    requires Shaped(a, b, n) && t < |a|
    requires absL1 != absL2Sq && absL1 != absMax && absL2Sq != absMax
    requires relL1 != relL2Sq && relL1 != relMax && relL2Sq != relMax
    requires AccumulatedTo(absL1, absL2Sq, absMax, relL1, relL2Sq, relMax, a, b, n, t)
    modifies absL1, absL2Sq, absMax, relL1, relL2Sq, relMax
    ensures AccumulatedTo(absL1, absL2Sq, absMax, relL1, relL2Sq, relMax, a, b, n, t + 1)
    ensures flagged == if verbose then FlaggedInTuple(a, b, n, thr, t, n) else []
  {
    flagged := [];
    ghost var next := t + 1;
    for c := 0 to n
      // components before c have taken in tuple t, the others not yet
      invariant forall k :: 0 <= k < c ==>
                  EntryAccumulatedTo(absL1, absL2Sq, absMax, relL1, relL2Sq, relMax, a, b, n, k, next)
      invariant forall k :: c <= k < n ==>
                  EntryAccumulatedTo(absL1, absL2Sq, absMax, relL1, relL2Sq, relMax, a, b, n, k, t)
      invariant flagged == if verbose then FlaggedInTuple(a, b, n, thr, t, c) else []
    {
      assert EntryAccumulatedTo(absL1, absL2Sq, absMax, relL1, relL2Sq, relMax, a, b, n, c, t);
      var absErr, relErr := FoldElement(absL1, absL2Sq, absMax, relL1, relL2Sq, relMax, a, b, n, t, c);
      assert EntryAccumulatedTo(absL1, absL2Sq, absMax, relL1, relL2Sq, relMax, a, b, n, c, next);

      if absErr > thr.abs && Exceeds(relErr, thr.rel) && verbose {
        flagged := flagged + [Diagnostic(t, c, absErr, relErr)];
      }
    }
  }

  /** A fresh accumulator vector of `n` zeros. */
  method Zeros(n: nat) returns (v: array<real>)
    ensures fresh(v) && v.Length == n
    ensures forall k :: 0 <= k < n ==> v[k] == 0.0
  {
    v := new real[n](_ => 0.0);
  }

  /** A fresh relative-error accumulator vector of `n` zeros. */
  method EZeros(n: nat) returns (v: array<EReal>)
    ensures fresh(v) && v.Length == n
    ensures forall k :: 0 <= k < n ==> v[k] == Fin(0.0)
  {
    v := new EReal[n](_ => Fin(0.0));
  }

  /** Zero-initialised accumulators hold the folds of no tuples. */
  lemma ZerosAccumulateNothing(
    absL1: array<real>, absL2Sq: array<real>, absMax: array<real>,
    relL1: array<EReal>, relL2Sq: array<EReal>, relMax: array<EReal>,
    a: seq<seq<real>>, b: seq<seq<real>>, n: nat)
    requires Shaped(a, b, n)
    requires absL1.Length == absL2Sq.Length == absMax.Length == n
    requires relL1.Length == relL2Sq.Length == relMax.Length == n
    requires forall k :: 0 <= k < n ==> absL1[k] == 0.0 && absL2Sq[k] == 0.0 && absMax[k] == 0.0
    requires forall k :: 0 <= k < n ==> relL1[k] == Fin(0.0) && relL2Sq[k] == Fin(0.0) && relMax[k] == Fin(0.0)
    ensures AccumulatedTo(absL1, absL2Sq, absMax, relL1, relL2Sq, relMax, a, b, n, 0)
  {
  }

  /** Accumulators that hold the folds of every tuple are `NormsOf`. */
  lemma AccumulatedNorms(
    absL1: array<real>, absL2Sq: array<real>, absMax: array<real>,
    relL1: array<EReal>, relL2Sq: array<EReal>, relMax: array<EReal>,
    a: seq<seq<real>>, b: seq<seq<real>>, n: nat)
    requires Shaped(a, b, n)
    requires AccumulatedTo(absL1, absL2Sq, absMax, relL1, relL2Sq, relMax, a, b, n, |a|)
    ensures Norms(absL1[..], absL2Sq[..], absMax[..], relL1[..], relL2Sq[..], relMax[..]) == NormsOf(a, b, n)
  {
    var expected := NormsOf(a, b, n);
    forall k | 0 <= k < n
      ensures absL1[k] == expected.absL1[k] && absL2Sq[k] == expected.absL2Sq[k]
      ensures absMax[k] == expected.absMax[k] && relL1[k] == expected.relL1[k]
      ensures relL2Sq[k] == expected.relL2Sq[k] && relMax[k] == expected.relMax[k]
    {
      assert EntryAccumulatedTo(absL1, absL2Sq, absMax, relL1, relL2Sq, relMax, a, b, n, k, |a|);
    }
    assert absL1[..] == expected.absL1;
    assert absL2Sq[..] == expected.absL2Sq;
    assert absMax[..] == expected.absMax;
    assert relL1[..] == expected.relL1;
    assert relL2Sq[..] == expected.relL2Sq;
    assert relMax[..] == expected.relMax;
  }

  /**
   * Compares `a` and `b` element by element, tuple-major and
   * component-minor. Returns the six accumulator vectors and, when
   * `verbose`, the diagnostics of the elements that exceed both thresholds.
   */
  method ComputeNorms(a: seq<seq<real>>, b: seq<seq<real>>, n: nat, thr: Thresholds, verbose: bool)
    returns (norms: Norms, diagnostics: seq<Diagnostic>)
    requires Shaped(a, b, n)
    ensures norms == NormsOf(a, b, n)
    ensures diagnostics == Diagnostics(a, b, n, thr, verbose)
  {
    var absL1 := Zeros(n);
    var absL2Sq := Zeros(n);
    var absMax := Zeros(n);
    var relL1 := EZeros(n);
    var relL2Sq := EZeros(n);
    var relMax := EZeros(n);
    ZerosAccumulateNothing(absL1, absL2Sq, absMax, relL1, relL2Sq, relMax, a, b, n);
    diagnostics := [];

    for t := 0 to |a|
      invariant AccumulatedTo(absL1, absL2Sq, absMax, relL1, relL2Sq, relMax, a, b, n, t)
      invariant diagnostics == if verbose then FlaggedUpTo(a, b, n, thr, t) else []
    {
      var flagged := ScanTuple(absL1, absL2Sq, absMax, relL1, relL2Sq, relMax, a, b, n, thr, verbose, t);
      diagnostics := diagnostics + flagged;
    }

    AccumulatedNorms(absL1, absL2Sq, absMax, relL1, relL2Sq, relMax, a, b, n);
    norms := Norms(absL1[..], absL2Sq[..], absMax[..], relL1[..], relL2Sq[..], relMax[..]);
  }
}
