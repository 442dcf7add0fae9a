/**
 * The control flow of `main` in vtkdiff.cpp around the scan: the file-type
 * check, the outcome of reading the two arrays (with the self-comparison
 * guard), the numeric and shape checks, the scan and the verdict, each
 * ending the run with its own exit status. Locating and reading the arrays
 * is done by the VTK library; the model receives what those lookups found.
 */
module VtkDiff {
  import opened ExtReal
  import opened Text
  import opened ErrorNorms
  import opened ErrorScan
  import opened Verdict

  datatype Option<T> = None | Some(value: T)

  /** The command line, as parsed. */
  datatype Args = Args(
    verbose: bool, thresholds: Thresholds,
    vtkInputA: string, vtkInputB: string,
    dataArrayA: string, dataArrayB: string)

  /** `std::numeric_limits<double>::epsilon()`, the default of both thresholds. */
  const DoubleEpsilon: real := 0.0000000000000002220446049250313080847263336181640625

  /** The thresholds when neither is given on the command line. */
  const DefaultThresholds: Thresholds := Thresholds(DoubleEpsilon, DoubleEpsilon)

  /** A data array as the reader hands it over: its type and its tuples. */
  datatype DataArray = DataArray(numeric: bool, dataType: string, tuples: seq<seq<real>>, components: nat)

  /** VTK keeps at least one component per tuple, and every tuple has that many. */
  predicate WellFormed(d: DataArray)
  {
    d.components >= 1 && forall t :: 0 <= t < |d.tuples| ==> |d.tuples[t]| == d.components
  }

  datatype Reason =
    | InvalidFileType
    | ArrayNotFound(name: string)
    | SelfComparison
    | NotNumericA(dataType: string)
    | NotNumericB(dataType: string)
    | TupleCountsDiffer(inA: nat, inB: nat)
    | ComponentCountsDiffer(inA: nat, inB: nat)
    | ThresholdsExceeded

  /** How the process ends: EXIT_SUCCESS, EXIT_FAILURE, or `std::abort()`. */
  datatype Exit = ExitSuccess | ExitFailure(reason: Reason) | Abort(reason: Reason)

  /** Either the two arrays to compare, or the way the run ends before the scan. */
  datatype Checked = Ready(a: DataArray, b: DataArray) | Stop(exit: Exit)

  /**
   * No second file and the same array name twice: an array compared with
   * itself. Naming a second file is never a self-comparison, even when it is
   * the first file again.
   */
  predicate IsSelfComparison(args: Args): (self: bool)
    ensures self ==> args.vtkInputB == ""
  {
    args.vtkInputB == "" && args.dataArrayA == args.dataArrayB
  }

  /**
   * `readDataArraysFromFile`. `arrayA` is what the lookup of the first array
   * in the first file found; `arrayB` what the lookup of the second array
   * found, in the second file or, without one, in the first, and in the same
   * point or cell data as the first array.
   */
  function ReadDataArrays(args: Args, arrayA: Option<DataArray>, arrayB: Option<DataArray>): (r: Checked)
    ensures r.Ready? <==> arrayA.Some? && arrayB.Some? && !IsSelfComparison(args)
    ensures r.Ready? ==> r.a == arrayA.value && r.b == arrayB.value
    ensures r == Stop(Abort(SelfComparison)) <==> arrayA.Some? && IsSelfComparison(args)
    ensures arrayA.None? ==> r == Stop(ExitFailure(ArrayNotFound(args.dataArrayA)))
    ensures arrayA.Some? && !IsSelfComparison(args) && arrayB.None? ==>
              r == Stop(ExitFailure(ArrayNotFound(args.dataArrayB)))
    ensures r.Stop? ==> !r.exit.ExitSuccess?
  {
    if arrayA.None? then Stop(ExitFailure(ArrayNotFound(args.dataArrayA)))
    else if IsSelfComparison(args) then Stop(Abort(SelfComparison))
    else if arrayB.None? then Stop(ExitFailure(ArrayNotFound(args.dataArrayB)))
    else Ready(arrayA.value, arrayB.value)
  }

  /** With a second file the same array name on both sides is compared, not refused. */
  lemma SecondFileNeverAborts(args: Args, a: DataArray, b: DataArray)
    requires args.vtkInputB != ""
    ensures ReadDataArrays(args, Some(a), Some(b)) == Ready(a, b)
  {
  }

  /** With the default thresholds, 1e-15 above both fails, 1e-16 absolute passes. */
  lemma DefaultThresholdsExample()
    ensures ComparisonFails([0.000000000000001], [Fin(0.000000000000001)], DefaultThresholds)
    ensures !ComparisonFails([0.0000000000000001], [PosInf], DefaultThresholds)
  {
  }

  /**
   * Everything `main` checks before it allocates the accumulators, in the
   * order it checks them; the first failing check decides the exit.
   */
  function PreScan(args: Args, arrayA: Option<DataArray>, arrayB: Option<DataArray>): (r: Checked)
    ensures !StringEndsWith(args.vtkInputA, ".vtu") ==> r == Stop(ExitFailure(InvalidFileType))
    ensures StringEndsWith(args.vtkInputA, ".vtu") && ReadDataArrays(args, arrayA, arrayB).Stop? ==>
              r == ReadDataArrays(args, arrayA, arrayB)
    ensures r.Ready? <==>
              && StringEndsWith(args.vtkInputA, ".vtu")
              && ReadDataArrays(args, arrayA, arrayB).Ready?
              && arrayA.value.numeric && arrayB.value.numeric
              && |arrayA.value.tuples| == |arrayB.value.tuples|
              && arrayA.value.components == arrayB.value.components
    ensures r.Ready? ==> r.a == arrayA.value && r.b == arrayB.value
    ensures StringEndsWith(args.vtkInputA, ".vtu") && ReadDataArrays(args, arrayA, arrayB).Ready? ==>
              var a, b := arrayA.value, arrayB.value;
              && (!a.numeric ==> r == Stop(ExitFailure(NotNumericA(a.dataType))))
              && (a.numeric && !b.numeric ==> r == Stop(ExitFailure(NotNumericB(b.dataType))))
              && (a.numeric && b.numeric && |a.tuples| != |b.tuples| ==>
                    r == Stop(ExitFailure(TupleCountsDiffer(|a.tuples|, |b.tuples|))))
              && (a.numeric && b.numeric && |a.tuples| == |b.tuples| && a.components != b.components ==>
                    r == Stop(ExitFailure(ComponentCountsDiffer(a.components, b.components))))
    ensures r.Ready? && WellFormed(r.a) && WellFormed(r.b) ==>
              Shaped(r.a.tuples, r.b.tuples, r.a.components) && r.a.components >= 1
    ensures r.Stop? ==> !r.exit.ExitSuccess?
  {
    if !StringEndsWith(args.vtkInputA, ".vtu") then Stop(ExitFailure(InvalidFileType))
    else
      match ReadDataArrays(args, arrayA, arrayB)
      case Stop(exit) => Stop(exit)
      case Ready(a, b) =>
        if !a.numeric then Stop(ExitFailure(NotNumericA(a.dataType)))
        else if !b.numeric then Stop(ExitFailure(NotNumericB(b.dataType)))
        else if |a.tuples| != |b.tuples| then Stop(ExitFailure(TupleCountsDiffer(|a.tuples|, |b.tuples|)))
        else if a.components != b.components then
          Stop(ExitFailure(ComponentCountsDiffer(a.components, b.components)))
        else Ready(a, b)
  }

  /** Arrays of 10 and 11 tuples are refused before the scan, with both counts. */
  lemma TupleCountMismatchExample(args: Args, a: DataArray, b: DataArray)
    requires StringEndsWith(args.vtkInputA, ".vtu") && !IsSelfComparison(args)
    requires a.numeric && b.numeric && |a.tuples| == 10 && |b.tuples| == 11
    ensures PreScan(args, Some(a), Some(b)) == Stop(ExitFailure(TupleCountsDiffer(10, 11)))
  {
  }

  /** A non-numeric first array is refused before its tuple count is compared. */
  lemma NumericCheckedBeforeTupleCount(args: Args, a: DataArray, b: DataArray)
    requires args.vtkInputA == "m.vtu" && args.vtkInputB == "" && args.dataArrayA != args.dataArrayB
    requires !a.numeric && |a.tuples| == 0 && b.numeric && |b.tuples| == 1
    ensures PreScan(args, Some(a), Some(b)) == Stop(ExitFailure(NotNumericA(a.dataType)))
  {
    assert StringEndsWith(args.vtkInputA, ".vtu") by {
      assert args.vtkInputA[|args.vtkInputA| - 4..] == ".vtu";
    }
  }

  /**
   * `main` from the file-type check on. A run that stops before the scan
   * computes no norms and reports no element; a run that scans reports the
   * accumulators of the two arrays and fails exactly when the worst absolute
   * and the worst relative error both exceed their thresholds.
   */
  method Run(args: Args, arrayA: Option<DataArray>, arrayB: Option<DataArray>)
    returns (exit: Exit, norms: Option<Norms>, diagnostics: seq<Diagnostic>)
    requires arrayA.Some? ==> WellFormed(arrayA.value)
    requires arrayB.Some? ==> WellFormed(arrayB.value)
    ensures PreScan(args, arrayA, arrayB).Stop? ==>
              exit == PreScan(args, arrayA, arrayB).exit && norms == None && diagnostics == []
    ensures PreScan(args, arrayA, arrayB).Ready? ==>
              var a, b, n := arrayA.value.tuples, arrayB.value.tuples, arrayA.value.components;
              && Shaped(a, b, n) && n >= 1
              && norms == Some(NormsOf(a, b, n))
              && diagnostics == Diagnostics(a, b, n, args.thresholds, args.verbose)
              && (exit == ExitSuccess <==>
                    !ComparisonFails(NormsOf(a, b, n).absMax, NormsOf(a, b, n).relMax, args.thresholds))
              && (exit != ExitSuccess ==> exit == ExitFailure(ThresholdsExceeded))
  {
    match PreScan(args, arrayA, arrayB)
    case Stop(e) =>
      return e, None, [];
    case Ready(a, b) =>
      var n := a.components;
      var computed;
      computed, diagnostics := ComputeNorms(a.tuples, b.tuples, n, args.thresholds, args.verbose);
      norms := Some(computed);
      if ComparisonFails(computed.absMax, computed.relMax, args.thresholds) {
        exit := ExitFailure(ThresholdsExceeded);
      } else {
        exit := ExitSuccess;
      }
  }
}
