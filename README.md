# RLS function approximator, modelled in Dafny

This project models the training and prediction core of DmpBbo's `FunctionApproximatorRLS`.
DmpBbo is a library for the black-box optimisation of dynamical movement primitives. The
approximator is a locally weighted linear regressor. Training fits one affine line (a slope
vector and an offset) per basis-function kernel, by weighted least squares, with each sample
weighted by the kernel's activation. Prediction blends the lines with the kernels' normalized
activations. All values are exact `real`s.

Modules, one per part of `src/functionapproximators/FunctionApproximatorRLS.cpp`:

- `Matrices` (`matrices.dfy`): row-major matrices, `Dot` and `Sum`.
- `Pruning` (`pruning.dfy`): the small-weight pruning of one kernel's data. It covers the 0/1
  mask, the count `n_samples_sub`, the reference filter `Select`, and the compaction loop
  `CompactRows` with its write cursor `jj`.
- `Regression` (`regression.dfy`): the design matrix and `n_betas`. It also holds the per-kernel
  fit (dense when epsilon is 0, pruned otherwise), the loop that fills `beta`, and the split of
  `beta` into slopes and offsets.
- `Prediction` (`prediction.dfy`): line values and the blend `(lines * activations).rowwise().sum()`.
  Its lemmas cover convexity, one-sample against batch, and a worked scenario.
- `Approximator` (`approximator.dfy`): the `FunctionApproximatorRLS` class. It holds the
  trained gate, the single-shot `Train`, `Predict` with its preallocated buffers, and
  `SaveGridData`.

The normal-equations solve `inv(X' W X) X' W y` is a parameter `solve` of type `Solver`. The only
thing assumed about it is that it returns `n_betas` coefficients (`ShapedSolver`). The kernel
activations, the number of kernels and the pruning threshold epsilon are parameters of `Train`.
`train` uses them (lines 124-134), but the source never obtains them. Kernel activations passed
to `Predict` and `SaveGridData` are parameters too. `getLines` lives outside this file;
`Prediction.Lines` assumes it evaluates slope . input + offset per kernel. Lines 120-122 of the
source are stray prose, not code, and are not modelled.

The definition of `preallocateMemory` (lines 66-75) is commented out in the source, and so are
the constructors' calls to it (lines 54-55 and 62). Only the call at the end of `train` (line 204)
is live. `PreallocateMemory` models that commented-out body, which line 204 calls, so the
1 x `n_kernels` buffer sizes stated for `Train` rest on it.

The C++ `assert`s on row counts and input width (lines 97-98) are preconditions of `Train`. They
apply only when the approximator is not yet trained, because they come after the trained check.

## Model

| member | source | states |
|---|---|---|
| `Pruning.LargeEnough` | src/functionapproximators/FunctionApproximatorRLS.cpp:167 | the mask has one entry per weight: 1 exactly where the weight is >= epsilon, 0 exactly where it is below |
| `Pruning.CountIsSelectLength` | src/functionapproximators/FunctionApproximatorRLS.cpp:167-170 | `n_samples_sub`, the sum of the mask, is the number of rows the pruning keeps, for any row sequence aligned with the weights |
| `Pruning.CountIsKeptSetSize` | src/functionapproximators/FunctionApproximatorRLS.cpp:167-170 | `n_samples_sub` is the number of indices i with `W_vec[i] >= epsilon` |
| `Pruning.SelectPrefixLength` | src/functionapproximators/FunctionApproximatorRLS.cpp:176-186 | pruning any prefix keeps at most `n_samples_sub` rows, which bounds the write cursor |
| `Pruning.SelectAt` | src/functionapproximators/FunctionApproximatorRLS.cpp:176-186 | row j of any pruned sequence is the original row at the j-th kept index, so all pruned buffers stay aligned |
| `Pruning.KeptIndicesExact` | src/functionapproximators/FunctionApproximatorRLS.cpp:166-186 | the kept indices are strictly ascending, each has weight >= epsilon, and every index with weight >= epsilon is kept |
| `Pruning.SelectAll` | src/functionapproximators/FunctionApproximatorRLS.cpp:166-186 | when no weight is below epsilon, pruning returns the data unchanged |
| `Pruning.CompactRows` | src/functionapproximators/FunctionApproximatorRLS.cpp:166-186 | the loop fills buffers of exactly `n_samples_sub` rows with the weights, design rows and targets of the kept samples, in order; its invariants keep `0 <= jj <= n_samples_sub` |
| `Regression.NBetas` | src/functionapproximators/FunctionApproximatorRLS.cpp:126 | `n_betas` is D_in + 1 exactly when an offset is used, and D_in otherwise |
| `Regression.DesignRow` | src/functionapproximators/FunctionApproximatorRLS.cpp:110-117 | a design row starts with the input and, with an offset, ends with 1 |
| `Regression.DesignMatrix` | src/functionapproximators/FunctionApproximatorRLS.cpp:109-118 | X has `n_betas` columns; its left columns are the inputs; with an offset its last column is all ones; without one X is the inputs |
| `Regression.FitKernel` | src/functionapproximators/FunctionApproximatorRLS.cpp:132-197 | one kernel's coefficient row: the dense solve when epsilon is 0 (line 143), otherwise the solve over the rows with weight >= epsilon (line 190); it has `n_betas` entries, and when no row is pruned it is the dense solve |
| `Regression.Beta` | src/functionapproximators/FunctionApproximatorRLS.cpp:128-198 | `beta` is `n_kernels` x `n_betas`, row bb the fit of activation column bb; a kernel with no activation below epsilon gets the dense fit |
| `Regression.PrunedKeepsAll` | src/functionapproximators/FunctionApproximatorRLS.cpp:166-186 | when no weight is below epsilon, the pruned weights, design rows and targets are the originals |
| `Regression.PrunedMatchesDense` | src/functionapproximators/FunctionApproximatorRLS.cpp:134-190 | when every weight of a kernel is >= epsilon, the pruned path solves exactly the dense path's system |
| `Regression.PrunedSystemAligned` | src/functionapproximators/FunctionApproximatorRLS.cpp:176-190 | the pruned system given to the solver has aligned rows: row j holds the weight, design row and target of the j-th kept sample, and that weight is >= epsilon |
| `Regression.ComputeBeta` | src/functionapproximators/FunctionApproximatorRLS.cpp:127-198 | the kernel loop leaves a `n_kernels` x `n_betas` `beta` whose row bb is kernel bb's fit, dense or pruned |
| `Regression.SplitAsWritten` | src/functionapproximators/FunctionApproximatorRLS.cpp:199-200 | as written: slopes are the first `n_betas`-1 columns and offsets the last column, so each row of beta is its slopes followed by its offset |
| `Regression.SplitBeta` | src/functionapproximators/FunctionApproximatorRLS.cpp:199-200 | as intended: with an offset, each beta row is slopes followed by offset; without one, slopes are beta and offsets are 0; slopes always have D_in columns |
| `Regression.SplitIsRegression` | src/functionapproximators/FunctionApproximatorRLS.cpp:199-200 | each fitted line, slope . x + offset, equals the coefficient row applied to the design row of x |
| `Regression.SplitAgreesWithOffset` | src/functionapproximators/FunctionApproximatorRLS.cpp:199-200 | with an offset column the written and the intended split coincide |
| `Regression.SplitAsWrittenWithoutOffset` | src/functionapproximators/FunctionApproximatorRLS.cpp:199-200 | without an offset the written split turns the fit [2] into slopes [[]] and offset 2, which is not a well-formed line for one input |
| `Regression.Fit` | src/functionapproximators/FunctionApproximatorRLS.cpp:106-202 | training produces one line per kernel, each slope of width D_in |
| `Prediction.Lines` | src/functionapproximators/FunctionApproximatorRLS.cpp:255 | line values form a T x K matrix |
| `Prediction.Blend` | src/functionapproximators/FunctionApproximatorRLS.cpp:260 | the row-wise sum gives one output per input row |
| `Prediction.PredictSpec` | src/functionapproximators/FunctionApproximatorRLS.cpp:249-283 | one output per input row: the sum over kernels of the kernel's line value at that input (slope . input + offset) times its activation |
| `Prediction.DotBounds` | src/functionapproximators/FunctionApproximatorRLS.cpp:260 | a sum of line values weighted by non-negative activations lies between the smallest and the largest value, times the total activation |
| `Prediction.PredictionWithinLines` | src/functionapproximators/FunctionApproximatorRLS.cpp:281 | with normalized activations every output lies between the smallest and the largest line value of its row |
| `Prediction.PredictionOfAgreeingLines` | src/functionapproximators/FunctionApproximatorRLS.cpp:281 | when all lines agree on a value at an input, so does the prediction |
| `Prediction.OneSampleMatchesBatch` | src/functionapproximators/FunctionApproximatorRLS.cpp:249-283 | predicting input row r alone gives row r of the batch prediction |
| `Prediction.LinesMatchDesign` | src/functionapproximators/FunctionApproximatorRLS.cpp:109-200 | at every training input, each installed line's value is that kernel's coefficient row applied to the input's design-matrix row |
| `Prediction.SlopeTwoPredictsTen` | src/functionapproximators/FunctionApproximatorRLS.cpp:199-200 | fitted row [2, 0] with an offset gives slope 2 and offset 0, and input 5 with activation 1 predicts 10 |
| `Approximator.FunctionApproximatorRLS.constructor` | src/functionapproximators/FunctionApproximatorRLS.cpp:50-56 | built from meta-parameters and optional model parameters; trained exactly when model parameters are given; empty buffers |
| `Approximator.FunctionApproximatorRLS.FromModel` | src/functionapproximators/FunctionApproximatorRLS.cpp:58-63 | built from model parameters alone: trained, no meta-parameters |
| `Approximator.FunctionApproximatorRLS.PreallocateMemory` | src/functionapproximators/FunctionApproximatorRLS.cpp:67-74 | all four scratch buffers become 1 x `n_kernels`; the model is untouched |
| `Approximator.FunctionApproximatorRLS.Train` | src/functionapproximators/FunctionApproximatorRLS.cpp:88-205 | on a trained approximator nothing changes; otherwise the model becomes `Fit` of the data, it is trained with `n_kernels` lines, and the buffers are 1 x `n_kernels` |
| `Approximator.FunctionApproximatorRLS.Predict` | src/functionapproximators/FunctionApproximatorRLS.cpp:207-285 | untrained: `outputs` returned as given, nothing changes; trained: one output row per input row, the blend of lines and activations; one input fills only the one-sample buffers, other counts resize the batch buffers to T x K; the model is untouched |
| `Approximator.FunctionApproximatorRLS.SaveGridData` | src/functionapproximators/FunctionApproximatorRLS.cpp:287-321 | always reports success; an empty directory writes nothing; otherwise six files in fixed order, the predictions file holding `PredictSpec` over the grid |

## Findings

| source | as written | input that shows it | evidently intended | confidence | as-written member | corrected member |
|---|---|---|---|---|---|---|
| src/functionapproximators/FunctionApproximatorRLS.cpp:199-200 | offsets are the last column of `beta` and slopes the first `n_betas`-1 columns, even when `use_offset` is false | `use_offset` false, one input, fitted row [2]: slopes [[]] (width 0 for a 1-D input) and offset 2 instead of slope 2 and offset 0 | without an offset the whole row is the slope and the offset is 0 | medium, not executed | `Regression.SplitAsWrittenWithoutOffset` | `Regression.SplitBeta` |

`Regression.SplitAsWritten` models lines 199-200 as written. `Regression.SplitBeta` is the
corrected split, and `Train` uses it. Its slopes always have D_in columns. `Regression.SplitIsRegression`
and `Prediction.LinesMatchDesign` prove that its lines reproduce the fitted regression with or
without an offset. `Regression.SplitAgreesWithOffset` proves the two splits coincide whenever
`use_offset` is true, so the model follows the code on that path.

## Left out

- The normal-equations solve and matrix inversion (lines 143 and 190) are a parameter. Singular
  systems and floating-point error are therefore not modelled.
- An empty pruned subset (no weight >= epsilon) is handed to the solver as an empty system, as
  the source does. The source defines no behaviour for it.
- Kernel activations (normalized and unnormalized) and the number of kernels come from the
  kernels, which are not part of this model. They are parameters. Kernel centers, widths and
  asymmetry (line 202) are not stored in the model parameters.
- `generateInputsGrid` and the `min`/`max` arguments of `saveGridData`: the grid is a parameter.
- `saveMatrix` file output (lines 311-316) is recorded as a list of calls, not performed. Its
  results are ignored by the source, so `SaveGridData` always reports success.
- Warnings printed to `cerr` (lines 92-93, 212) are not modelled. Only the no-op they accompany is.
- The real-time promise that the one-sample path does not allocate is not modelled. Only which
  buffers each path writes is.
- `getExpectedOutputDim` (line 274): the resized output is overwritten by the one-column blend,
  so outputs are always one column.
- `clone`, the casts, Boost serialization (lines 24-32, 78-84, 216-247, 323-328), and the
  `ENTERING/EXITING_REAL_TIME_CRITICAL_CODE` markers.
- The `regularization` meta-parameter is read (line 103) but never used. It is stored and
  otherwise ignored.
- `python/dmp_bbo/task_solver.py` is an abstract interface with no logic.
