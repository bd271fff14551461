/** The FunctionApproximatorRLS object: the trained gate, training, prediction with its
    preallocated scratch buffers, and the grid export (FunctionApproximatorRLS.cpp). */
module Approximator {
  import opened Matrices
  import opened Regression
  import opened Prediction

  datatype Option<T> = None | Some(value: T)

  /** The meta-parameters that training reads: the expected input dimension, the (unused)
      regularization, and whether an offset column is fitted. */
  datatype MetaParametersRLS = MetaParametersRLS(expectedInputDim: nat, regularization: real, useOffset: bool)

  /** One array that saveGridData hands to saveMatrix. */
  datatype GridData = IntVector(ints: seq<int>) | RealMatrix(values: Matrix)

  /** A saveMatrix(directory, filename, data, overwrite) call. */
  datatype SavedMatrix = SavedMatrix(directory: string, filename: string, data: GridData, overwrite: bool)

  /** What saveGridData returns, with the saveMatrix calls it makes, in order. */
  datatype GridExport = GridExport(success: bool, saved: seq<SavedMatrix>)

  class FunctionApproximatorRLS {
    /** Absent when the approximator was built from model parameters alone. */
    const meta: Option<MetaParametersRLS>
    const inputDim: nat
    /** The fitted lines; present exactly when the approximator is trained. */
    var modelParameters: Option<ModelParametersRLS>
    /** Scratch buffers of the one-sample prediction path. */
    var linesOnePrealloc: Matrix
    var activationsOnePrealloc: Matrix
    /** Scratch buffers of the batch prediction path. */
    var linesPrealloc: Matrix
    var activationsPrealloc: Matrix

    ghost predicate Valid()
      reads this
    {
      (meta.Some? ==> meta.value.expectedInputDim == inputDim) &&
      (modelParameters.Some? ==> WellFormed(modelParameters.value, inputDim))
    }

    /** `isTrained()`: the approximator holds model parameters. */
    predicate IsTrained()
      reads this
    {
      modelParameters.Some?
    }

    /** The number of kernels of the trained model. */
    function NKernels(): nat
      reads this
      requires IsTrained()
    {
      |modelParameters.value.offsets|
    }

    /** Built from meta-parameters, and possibly already-fitted model parameters (lines 50-56). */
    constructor (meta: MetaParametersRLS, model: Option<ModelParametersRLS>)
      requires model.Some? ==> WellFormed(model.value, meta.expectedInputDim)
      ensures Valid()
      ensures this.meta == Some(meta) && inputDim == meta.expectedInputDim && modelParameters == model
      ensures linesOnePrealloc == activationsOnePrealloc == linesPrealloc == activationsPrealloc == []
    {
      this.meta := Some(meta);
      inputDim := meta.expectedInputDim;
      modelParameters := model;
      linesOnePrealloc, activationsOnePrealloc := [], [];
      linesPrealloc, activationsPrealloc := [], [];
    }

    /** Built from fitted model parameters alone, so already trained (lines 58-63). */
    constructor FromModel(model: ModelParametersRLS, inputDim: nat)
      requires WellFormed(model, inputDim)
      ensures Valid() && IsTrained()
      ensures meta == None && this.inputDim == inputDim && modelParameters == Some(model)
      ensures linesOnePrealloc == activationsOnePrealloc == linesPrealloc == activationsPrealloc == []
    {
      meta := None;
      this.inputDim := inputDim;
      modelParameters := Some(model);
      linesOnePrealloc, activationsOnePrealloc := [], [];
      linesPrealloc, activationsPrealloc := [], [];
    }

    /** Sizes all four scratch buffers to one row of nKernels columns. */
    method PreallocateMemory(nKernels: nat)
      modifies this
      ensures IsMatrix(linesOnePrealloc, 1, nKernels) && IsMatrix(activationsOnePrealloc, 1, nKernels)
      ensures IsMatrix(linesPrealloc, 1, nKernels) && IsMatrix(activationsPrealloc, 1, nKernels)
      ensures modelParameters == old(modelParameters)
    {
      var row := Zeros(nKernels);
      linesOnePrealloc, activationsOnePrealloc := [row], [row];
      linesPrealloc, activationsPrealloc := [row], [row];
    }

    /** `train` (lines 88-205): single-shot. On a trained approximator it changes nothing; otherwise
        it installs the fit of every kernel, weighted by its column of `activations`. */
    method Train(inputs: Matrix, targets: Matrix, activations: Matrix, nKernels: nat, epsilon: real,
                 solve: Solver)
      requires Valid()
      requires !IsTrained() ==>
                 meta.Some? && |targets| == |inputs| && IsMatrix(inputs, |inputs|, inputDim) &&
                 IsMatrix(activations, |inputs|, nKernels) && ShapedSolver(solve)
      modifies this
      ensures Valid()
      ensures old(IsTrained()) ==> unchanged(this)
      ensures !old(IsTrained()) ==>
                modelParameters == Some(Fit(solve, inputs, inputDim, meta.value.useOffset, targets,
                                            activations, nKernels, epsilon))
      ensures !old(IsTrained()) ==>
                IsTrained() && NKernels() == nKernels &&
                IsMatrix(linesOnePrealloc, 1, nKernels) && IsMatrix(activationsOnePrealloc, 1, nKernels) &&
                IsMatrix(linesPrealloc, 1, nKernels) && IsMatrix(activationsPrealloc, 1, nKernels)
    {
      if IsTrained() {
        return;
      }
      var useOffset := meta.value.useOffset;
      var x := DesignMatrix(inputs, inputDim, useOffset);
      var nBetas := NBetas(inputDim, useOffset);
      var beta := ComputeBeta(solve, nBetas, x, activations, nKernels, targets, epsilon);
      modelParameters := Some(SplitBeta(beta, inputDim, useOffset));
      PreallocateMemory(nKernels);
    }

    /** `predict` (lines 207-285). Untrained, it returns `outputs` as it was and changes nothing.
        Trained, it blends the kernels' lines with `activations`, the kernel activations of
        `inputs`: a single input goes through the one-sample buffers, any other number of
        inputs through the batch buffers, which are resized to one row per input. */
    method Predict(inputs: Matrix, activations: Matrix, outputs: Matrix) returns (result: Matrix)
      requires Valid()
      requires IsTrained() ==>
                 IsMatrix(inputs, |inputs|, inputDim) && IsMatrix(activations, |inputs|, NKernels())
      modifies this
      ensures Valid() && modelParameters == old(modelParameters)
      ensures !old(IsTrained()) ==> result == outputs && unchanged(this)
      ensures old(IsTrained()) ==>
                result == PredictSpec(modelParameters.value, inputDim, inputs, activations) &&
                IsMatrix(result, |inputs|, 1)
      ensures old(IsTrained()) && |inputs| == 1 ==>
                linesOnePrealloc == Lines(modelParameters.value, inputDim, inputs) &&
                activationsOnePrealloc == activations &&
                linesPrealloc == old(linesPrealloc) && activationsPrealloc == old(activationsPrealloc)
      ensures old(IsTrained()) && |inputs| != 1 ==>
                IsMatrix(linesPrealloc, |inputs|, NKernels()) &&
                IsMatrix(activationsPrealloc, |inputs|, NKernels()) &&
                linesPrealloc == Lines(modelParameters.value, inputDim, inputs) &&
                activationsPrealloc == activations &&
                linesOnePrealloc == old(linesOnePrealloc) && activationsOnePrealloc == old(activationsOnePrealloc)
    {
      if !IsTrained() {
        return outputs;
      }
      var model := modelParameters.value;
      var nBasisFunctions := |model.offsets|;
      if |inputs| == 1 {
        linesOnePrealloc := Lines(model, inputDim, inputs);
        activationsOnePrealloc := activations;
        result := Blend(linesOnePrealloc, activationsOnePrealloc, nBasisFunctions);
      } else {
        linesPrealloc := Lines(model, inputDim, inputs);
        activationsPrealloc := activations;
        result := Blend(linesPrealloc, activationsPrealloc, nBasisFunctions);
      }
    }

    /** `saveGridData` (lines 287-321): with an empty directory, success and nothing written;
        otherwise the six grid arrays, among them the blended predictions over the grid, are
        handed to saveMatrix, and the call reports success whatever saveMatrix returns.
        `gridInputs`, `unnormalizedActivations` and `activations` are what generateInputsGrid
        and the kernels give for the grid. */
    function SaveGridData(nSamplesPerDim: seq<int>, saveDirectory: string, overwrite: bool,
                          gridInputs: Matrix, unnormalizedActivations: Matrix, activations: Matrix): (r: GridExport)
      reads this
      requires Valid()
      requires saveDirectory != [] ==>
                 IsTrained() && IsMatrix(gridInputs, |gridInputs|, inputDim) &&
                 IsMatrix(activations, |gridInputs|, NKernels())
      ensures r.success
      ensures saveDirectory == [] ==> r.saved == []
      ensures saveDirectory != [] ==>
                |r.saved| == 6 &&
                (forall i :: 0 <= i < 6 ==> r.saved[i].directory == saveDirectory && r.saved[i].overwrite == overwrite) &&
                r.saved[0] == SavedMatrix(saveDirectory, "n_samples_per_dim.txt", IntVector(nSamplesPerDim), overwrite) &&
                r.saved[1] == SavedMatrix(saveDirectory, "inputs_grid.txt", RealMatrix(gridInputs), overwrite) &&
                r.saved[3] == SavedMatrix(saveDirectory, "activations_unnormalized_grid.txt",
                                          RealMatrix(unnormalizedActivations), overwrite) &&
                r.saved[4] == SavedMatrix(saveDirectory, "activations_grid.txt", RealMatrix(activations), overwrite) &&
                r.saved[5] == SavedMatrix(saveDirectory, "predictions_grid.txt",
                                          RealMatrix(PredictSpec(modelParameters.value, inputDim, gridInputs, activations)),
                                          overwrite)
      ensures saveDirectory != [] ==>
                r.saved[2].filename == "lines_grid.txt" &&
                r.saved[2].data == RealMatrix(Lines(modelParameters.value, inputDim, gridInputs))
    {
      if saveDirectory == [] then GridExport(true, [])
      else
        var model := modelParameters.value;
        var lines := Lines(model, inputDim, gridInputs);
        var predictions := Blend(lines, activations, |model.offsets|);
        GridExport(true, [
          SavedMatrix(saveDirectory, "n_samples_per_dim.txt", IntVector(nSamplesPerDim), overwrite),
          SavedMatrix(saveDirectory, "inputs_grid.txt", RealMatrix(gridInputs), overwrite),
          SavedMatrix(saveDirectory, "lines_grid.txt", RealMatrix(lines), overwrite),
          SavedMatrix(saveDirectory, "activations_unnormalized_grid.txt", RealMatrix(unnormalizedActivations), overwrite),
          SavedMatrix(saveDirectory, "activations_grid.txt", RealMatrix(activations), overwrite),
          SavedMatrix(saveDirectory, "predictions_grid.txt", RealMatrix(predictions), overwrite)])
    }
  }
}
