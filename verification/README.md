# vtkdiff comparison core, modelled in Dafny

`vtkdiff` compares two data arrays of VTK unstructured-grid files. Each array
is an ordered set of tuples, and every tuple has the same number of
components. The tool walks both arrays in step, tuple by tuple and, inside a
tuple, component by component. For each component it keeps six accumulators:
the L1 norm, the squared L2 norm and the maximum norm of the absolute error
`|a - b|`, and the same three norms of the relative error. The relative error
has three cases:

- 0 when the two values agree;
- +infinity when they differ and one of them is zero;
- otherwise `|a - b| / min(|a|, |b|)`.

The run fails only when the largest absolute maximum AND the largest
relative maximum both exceed their thresholds. Before the scan, `main`
rejects these cases, in this order:

1. a first file name that does not end in `.vtu`;
2. a first array that cannot be found;
3. no second file and the same array name twice, which would compare an
   array with itself (this aborts the process; naming a second file, even the
   first one again, never aborts);
4. a second array that cannot be found;
5. non-numeric data in the first, then in the second array;
6. different tuple counts;
7. different component counts.

The thresholds are taken as given: the code does not check that they are
non-negative, so the model does not require it either; only the lemmas about
identical data assume it.

The model has these modules, one file each:

- `ExtReal` (`ext_real.dfy`): doubles as `Fin(r) | PosInf`. Addition and
  squaring saturate at +infinity; `Max` is `std::max`, and `Larger` is the
  same rule on finite values.
- `ElementError` (`element_error.dfy`): the absolute error and the relative
  error of one element.
- `ErrorNorms` (`error_norms.dfy`): what the scan computes, written without
  a loop. It defines a fold over each component's column of errors
  (`NormsOf`) and the per-element diagnostics that verbose mode prints
  (`Diagnostics`). The lemmas here state what the accumulators mean.
- `ErrorScan` (`error_scan.dfy`): the nested accumulation loop. It updates six
  zero-initialised arrays in place and is proved equal to `NormsOf` and
  `Diagnostics`.
- `Verdict` (`verdict.dfy`): `std::max_element` and the AND-fail rule.
- `Text` (`text.dfy`): `stringEndsWith` and the vector printer `operator<<`.
- `VtkDiff` (`vtkdiff.dfy`): the checks before the scan, the outcome of reading
  the arrays (with the self-comparison guard), and `Run`, which is `main` from
  the file-type check to the exit status.

Values are exact reals with one extra value for +infinity. A data array is a
sequence of tuples, and `a[t][c]` stands for `GetComponent(t, c)`.

## Model

| member | source | states |
|---|---|---|
| `ExtReal.Add` | vtkdiff.cpp:392-393 | a sum is +infinity exactly when one operand is; the sum of non-negative values is non-negative and at least each operand |
| `ExtReal.Square` | vtkdiff.cpp:393 | `x * x` is never negative, and is infinite exactly when `x` is |
| `ExtReal.Sq` | vtkdiff.cpp:371 | `abs_err * abs_err` is never negative |
| `ExtReal.Max` | vtkdiff.cpp:394-395 | `std::max` returns one of its operands, and that operand is at least as large as both |
| `ExtReal.Larger` | vtkdiff.cpp:372-373 | `std::max` on finite doubles agrees with `Max` on their embedding, and returns the larger operand |
| `ExtReal.Exceeds` | vtkdiff.cpp:397-398 | `rel_err > thr` holds exactly when the threshold is below `rel_err` in the order where +infinity is above every finite value |
| `ElementError.AbsoluteError` | vtkdiff.cpp:368 | `|a - b|` is non-negative, is zero exactly when `a == b`, and is `a - b` or `b - a` |
| `ElementError.Abs` | vtkdiff.cpp:368 | `std::abs(x)` is non-negative and is `x` or `-x` |
| `ElementError.Min` | vtkdiff.cpp:389 | `std::min` returns one of its operands, and that operand is at most both |
| `ElementError.RelativeError` | vtkdiff.cpp:376-390 | the relative error is never negative; it is 0 exactly when the values agree (both zero included); it is +infinity exactly when they differ and one is zero; otherwise it is positive and, times `min(|a|, |b|)`, gives the absolute error |
| `ElementError.ErrorsSymmetric` | vtkdiff.cpp:368-389 | neither error changes when `a` and `b` are swapped |
| `ElementError.RelativeErrorExamples` | vtkdiff.cpp:378-389 | (5,5) gives 0, (0,1) gives +infinity, (0,0) gives 0, (2,4) gives 1 |
| `Text.StringEndsWith` | vtkdiff.cpp:41-49 | a string shorter than the ending never ends with it |
| `Text.StringEndsWithIsSuffix` | vtkdiff.cpp:41-49 | `stringEndsWith(str, ending)` holds exactly when `str` is some prefix followed by `ending` (both directions) |
| `Text.SuffixExamples` | vtkdiff.cpp:289-301 | `mesh.vtu` passes the `.vtu` check; `vtu` (too short) and `mesh.vtk` fail it |
| `Text.LeadingThenLast` | vtkdiff.cpp:59-66 | the first n-1 elements, each followed by `", "`, and then the last element give the elements joined by `", "` |
| `Text.JoinedLength` | vtkdiff.cpp:59-66 | n joined elements take their own width plus n-1 two-character separators |
| `Text.RenderedShape` | vtkdiff.cpp:52-67 | an empty vector prints as `[]`; one element prints as `[x]`; longer vectors print as `[`, the first n-1 elements joined, `", "`, the last element, `]` |
| `Text.RenderedLength` | vtkdiff.cpp:52-67 | a non-empty vector of n elements prints in 2 plus the element widths plus 2(n-1) characters |
| `Text.WriteVector` | vtkdiff.cpp:52-67 | the printing loop appends exactly the rendering of the vector to the stream |
| `ErrorNorms.MaxToIsMaximum` | vtkdiff.cpp:372-373 | a running maximum that starts at 0 is non-negative, bounds every value folded in, and is 0 or one of those values |
| `ErrorNorms.EMaxToIsMaximum` | vtkdiff.cpp:394-395 | the same for the relative running maximum, in the order where +infinity is on top |
| `ErrorNorms.MaxNonDecreasing` | vtkdiff.cpp:372-373 | the absolute max accumulator never decreases as more tuples are scanned |
| `ErrorNorms.EMaxNonDecreasing` | vtkdiff.cpp:394-395 | the relative max accumulator never decreases as more tuples are scanned |
| `ErrorNorms.AbsMaxIsLargestError` | vtkdiff.cpp:354-373 | `abs_err_norm_max[c]` is the largest absolute error of component c over all tuples, or 0 when there are no tuples |
| `ErrorNorms.RelMaxIsLargestError` | vtkdiff.cpp:359-395 | `rel_err_norm_max[c]` is the largest relative error of component c over all tuples, or 0 when there are no tuples |
| `ErrorNorms.SumsNonNegative` | vtkdiff.cpp:370-371 | sums and sums of squares of non-negative errors are non-negative |
| `ErrorNorms.ESumsNonNegative` | vtkdiff.cpp:392-393 | the same for relative errors, with +infinity allowed |
| `ErrorNorms.NormsNonNegative` | vtkdiff.cpp:352-395 | all six accumulators of every component end at 0 or above |
| `ErrorNorms.FoldsOfZeros` | vtkdiff.cpp:368-373 | a column of zero absolute errors leaves all three absolute accumulators at 0 |
| `ErrorNorms.EFoldsOfZeros` | vtkdiff.cpp:378-395 | a column of zero relative errors leaves all three relative accumulators at 0 |
| `ErrorNorms.IdenticalDataZeroNorms` | vtkdiff.cpp:361-395 | comparing an array with an exact copy leaves all six accumulators of every component at 0 |
| `ErrorNorms.SwapInvariant` | vtkdiff.cpp:361-395 | swapping the two arrays leaves all six accumulator vectors unchanged |
| `ErrorNorms.L2SquaredExample` | vtkdiff.cpp:371 | absolute errors 3 and 4 give a squared L2 norm of 25 |
| `ErrorNorms.AbsoluteScenario` | vtkdiff.cpp:368-373 | [1, 2, 3] against [1, 2.1, 3] gives absolute L1 0.1, max 0.1 and squared L2 0.01 |
| `ErrorNorms.RelativeScenario` | vtkdiff.cpp:376-395 | the same arrays give relative L1 0.05 and relative max 0.05 |
| `ErrorNorms.ESumInfIff` | vtkdiff.cpp:392 | a relative L1 accumulator is +infinity exactly when some relative error folded into it is |
| `ErrorNorms.ESumSqInfIff` | vtkdiff.cpp:393 | a relative squared-L2 accumulator is +infinity exactly when some relative error folded into it is |
| `ErrorNorms.RelSumsInfiniteIff` | vtkdiff.cpp:376-393 | `rel_err_norm_l1[c]` and `rel_err_norm_2_2[c]` end at +infinity exactly when some tuple's component c differs between the arrays while one of the two values is zero |
| `ErrorNorms.OutOfTolerance` | vtkdiff.cpp:397-398 | with thresholds of 0 or more, only an element whose two values differ (non-zero absolute and relative error) can be out of tolerance |
| `ErrorNorms.FlaggedInTupleMembers` | vtkdiff.cpp:363-406 | within one tuple, an element is reported exactly when it is among the components scanned so far and exceeds both thresholds |
| `ErrorNorms.FlaggedInTupleOrdered` | vtkdiff.cpp:363-406 | the reports of one tuple come in increasing component order |
| `ErrorNorms.FlaggedUpToMembers` | vtkdiff.cpp:361-406 | after t tuples, an element is reported exactly when it lies in those tuples and exceeds both thresholds |
| `ErrorNorms.EarlierTuplesFirst` | vtkdiff.cpp:361-406 | every report from the first t tuples precedes every report from tuple t |
| `ErrorNorms.FlaggedUpToOrdered` | vtkdiff.cpp:361-406 | the reports of the first t tuples come in tuple-major, component-minor order |
| `ErrorNorms.DiagnosticsAreOutOfTolerance` | vtkdiff.cpp:397-406 | an element is reported iff `verbose` holds and its absolute AND relative errors both exceed their thresholds; each is reported once, in scan order |
| `ErrorScan.FoldElement` | vtkdiff.cpp:366-395 | one step folds the element's errors into entry `component_idx` of each of the six accumulators and leaves every other entry unchanged |
| `ErrorScan.Zeros` | vtkdiff.cpp:352-354 | each absolute accumulator vector starts as `num_components` fresh zeros |
| `ErrorScan.EZeros` | vtkdiff.cpp:357-359 | each relative accumulator vector starts as `num_components` fresh zeros |
| `ErrorScan.ZerosAccumulateNothing` | vtkdiff.cpp:352-359 | the six zero-initialised vectors hold the folds of no tuples |
| `ErrorScan.ScanTuple` | vtkdiff.cpp:363-407 | the inner loop takes every accumulator from the folds of t tuples to the folds of t+1 tuples and yields that tuple's reports |
| `ErrorScan.AccumulatedNorms` | vtkdiff.cpp:361-408 | accumulators that hold the folds of every tuple are exactly `NormsOf(a, b, n)` |
| `ErrorScan.ComputeNorms` | vtkdiff.cpp:352-408 | the nested loop over zero-initialised vectors ends with exactly `NormsOf(a, b, n)` and the reports `Diagnostics(a, b, n, thr, verbose)` |
| `Verdict.MaxElement` | vtkdiff.cpp:440 | `std::max_element` of a non-empty vector is an element of it and bounds every element |
| `Verdict.EMaxElement` | vtkdiff.cpp:442 | the same for the relative maxima, in the order where +infinity is on top |
| `Verdict.ComparisonFails` | vtkdiff.cpp:440-449 | the comparison fails iff some component's absolute maximum exceeds the absolute threshold and some component (possibly another) has a relative maximum above the relative threshold |
| `Verdict.IdenticalDataPasses` | vtkdiff.cpp:440-451 | an exact copy passes for any thresholds of 0 or more |
| `Verdict.VerdictExamples` | vtkdiff.cpp:440-449 | worst errors 1e-10/1e-20 and 1e-5/1e-20 pass with thresholds 1e-8, 1e-5/1e-5 fails; the worst absolute and the worst relative error may sit in different components |
| `VtkDiff.DefaultThresholdsExample` | vtkdiff.cpp:132-150 | with both thresholds at the default `epsilon()`, errors of 1e-15 fail, and an absolute error of 1e-16 passes even with an infinite relative error |
| `VtkDiff.ReadDataArrays` | vtkdiff.cpp:194-272 | both arrays are delivered iff both lookups succeed and it is not a self-comparison; a missing first array exits with EXIT_FAILURE naming it; a found first array with no second file and equal names aborts; otherwise a missing second array exits with EXIT_FAILURE naming it; no failure is a success |
| `VtkDiff.IsSelfComparison` | vtkdiff.cpp:230-237 | the self-comparison guard only applies when no second file is named |
| `VtkDiff.SecondFileNeverAborts` | vtkdiff.cpp:230-262 | with a second file, two found arrays are handed to the comparison even when their names are equal |
| `VtkDiff.PreScan` | vtkdiff.cpp:289-347 | a name not ending in `.vtu` fails first; a failed read decides the exit next; the scan is reached iff the suffix, the read, both numeric checks, equal tuple counts and equal component counts all pass; after a good read the checks come in the order numeric A, numeric B, tuple counts, component counts, and the first that fails exits with EXIT_FAILURE and its own reason; the arrays reaching the scan are equally shaped |
| `VtkDiff.TupleCountMismatchExample` | vtkdiff.cpp:329-337 | arrays of 10 and 11 tuples end the run with the tuple-count failure before the scan |
| `VtkDiff.NumericCheckedBeforeTupleCount` | vtkdiff.cpp:315-337 | a non-numeric empty first array against a numeric one-tuple second array stops with the not-numeric failure, not the tuple-count one |
| `VtkDiff.Run` | vtkdiff.cpp:289-451 | a run stopped before the scan computes no norms and reports nothing; a run that scans reports `NormsOf` and `Diagnostics` and exits with success iff `ComparisonFails` does not hold, and with the threshold failure otherwise |

## Left out

- Command-line parsing (`parseCommandLine`, TCLAP) is a foreign library. `Args` is its result, and `DefaultThresholds` (both at `DoubleEpsilon`) is what it yields when no threshold is given.
- File reading, and finding the array in point data or cell data, are done by VTK. `ReadDataArrays` receives what the two lookups found (`None` when an array is missing or unreadable). A second array looked up in the first file comes from the same point or cell data as the first array.
- The read-error observer (`ErrorCallback`), which aborts the process, depends on the foreign reader and is not modelled.
- The quiet flag and all text on standard output and standard error are left out: the summary, the norm printout and the wording of each error message. The verbose per-element lines are kept as `Diagnostic` records.
- `float_to_string` and the scientific, fixed-precision stream formatting are floating-point rendering. `WriteVector` takes the element renderer as a parameter.
- Taking the square root of the L2 norms is left out. It happens only when the norms are printed, and Dafny's `real` has no square root. The model keeps the squared sums. The "rel l2-norm" printout at vtkdiff.cpp:435 shows the unrooted vector; being output, it is outside the model.
- IEEE-754 rounding, NaN, the effects of summation order and every floating-point overflow are not modelled. Inputs and thresholds are exact finite reals, and only the relative error of two values that differ while one is zero may be +infinity. Among the places where the source can overflow to +infinity are `a_comp - b_comp` (vtkdiff.cpp:368, e.g. 1e308 against -1e308), the squares `abs_err * abs_err` (371) and `rel_err * rel_err` (393) for errors above about 1.3e154, and the quotient at 389 (e.g. 1e300 against 1e-10, with neither value zero), and the `+=` accumulations at 370-371 and 392-393 (e.g. many absolute errors near 1e308). So the contracts of `AbsoluteError` and `RelativeError` hold for the exact values, not for overflowing doubles.
- ComputeNorms: tuple counts above 2^31 - 1 are outside the model. The source's tuple index is an `int` (`auto tuple_idx = 0`, vtkdiff.cpp:361) compared with the 64-bit `vtkIdType` tuple count, so `++tuple_idx` would overflow, which is undefined behaviour. The component index (363) is an `int` compared with an `int` component count and cannot overflow.
- Every array has at least one component (`WellFormed`), as VTK arrays do. `std::max_element` on an empty vector is undefined, so `ComparisonFails` requires non-empty vectors.
- For a non-numeric array only the name of its data type is kept, for the error message; the values of every array are modelled as reals.
