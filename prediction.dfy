/** Prediction of the RLS approximator: each output is the sum over kernels of the kernel's
    line value times its normalized activation (FunctionApproximatorRLS.cpp, lines 249-283
    and 309). */
module Prediction {
  import opened Matrices
  import opened Regression

  /** The value of every kernel's line at every input (ModelParametersRLS::getLines):
      row r, column k is slope_k . inputs[r] + offset_k. */
  function Lines(m: ModelParametersRLS, inputDim: nat, inputs: Matrix): (lines: Matrix)
    requires WellFormed(m, inputDim) && IsMatrix(inputs, |inputs|, inputDim)
    ensures IsMatrix(lines, |inputs|, |m.offsets|)
  {
    seq(|inputs|, r requires 0 <= r < |inputs| =>
      seq(|m.offsets|, k requires 0 <= k < |m.offsets| => Affine(m.slopes[k], m.offsets[k], inputs[r])))
  }

  /** `(lines.array() * activations.array()).rowwise().sum()`: one output column whose row r is
      the row-sum of the elementwise product of row r of lines and of activations. */
  function Blend(lines: Matrix, activations: Matrix, nKernels: nat): (outputs: Matrix)
    requires IsMatrix(lines, |lines|, nKernels) && IsMatrix(activations, |lines|, nKernels)
    ensures IsMatrix(outputs, |lines|, 1)
  {
    seq(|lines|, r requires 0 <= r < |lines| => [Dot(lines[r], activations[r])])
  }

  /** The outputs `predict` computes for inputs whose kernel activations are `activations`:
      one value per input row, the sum over kernels of the kernel's line value at that input
      times its activation. */
  function PredictSpec(m: ModelParametersRLS, inputDim: nat, inputs: Matrix, activations: Matrix): (outputs: Matrix)
    requires WellFormed(m, inputDim) && IsMatrix(inputs, |inputs|, inputDim)
    requires IsMatrix(activations, |inputs|, |m.offsets|)
    ensures IsMatrix(outputs, |inputs|, 1)
    ensures forall r :: 0 <= r < |inputs| ==>
              outputs[r][0] == Dot(seq(|m.offsets|, k requires 0 <= k < |m.offsets| =>
                                       Affine(m.slopes[k], m.offsets[k], inputs[r])),
                                   activations[r])
  {
    Blend(Lines(m, inputDim, inputs), activations, |m.offsets|)
  }

  lemma MulMonotone(x: real, y: real, a: real)
    requires x <= y && a >= 0.0
    ensures Mul(x, a) <= Mul(y, a)
  {
    assert (y - x) * a >= 0.0;
  }

  lemma MulDistributes(x: real, s: real, t: real)
    ensures Mul(x, s + t) == Mul(x, s) + Mul(x, t)
  {
  }

  /** A sum of line values weighted by non-negative activations lies between the smallest and
      the largest line value, scaled by the total activation. */
  lemma {:induction false} DotBounds(l: seq<real>, a: seq<real>, lo: real, hi: real)
    requires |l| == |a|
    requires forall k :: 0 <= k < |a| ==> a[k] >= 0.0 && lo <= l[k] <= hi
    ensures Mul(lo, Sum(a)) <= Dot(l, a) <= Mul(hi, Sum(a))
  {
    if |a| > 0 {
      var p := |a| - 1;
      DotBounds(l[..p], a[..p], lo, hi);
      MulMonotone(lo, l[p], a[p]);
      MulMonotone(l[p], hi, a[p]);
      MulDistributes(lo, Sum(a[..p]), a[p]);
      MulDistributes(hi, Sum(a[..p]), a[p]);
    }
  }

  /** With normalized activations (non-negative, summing to one) every output is a convex
      combination of the kernels' line values: it lies between the smallest and the largest. */
  lemma PredictionWithinLines(lines: Matrix, activations: Matrix, nKernels: nat, r: nat, lo: real, hi: real)
    requires IsMatrix(lines, |lines|, nKernels) && IsMatrix(activations, |lines|, nKernels)
    requires r < |lines|
    requires forall k :: 0 <= k < nKernels ==> activations[r][k] >= 0.0 && lo <= lines[r][k] <= hi
    requires Sum(activations[r]) == 1.0
    ensures lo <= Blend(lines, activations, nKernels)[r][0] <= hi
  {
    DotBounds(lines[r], activations[r], lo, hi);
  }

  /** When all kernels' lines agree on a value at an input, the prediction is that value. */
  lemma PredictionOfAgreeingLines(lines: Matrix, activations: Matrix, nKernels: nat, r: nat, c: real)
    requires IsMatrix(lines, |lines|, nKernels) && IsMatrix(activations, |lines|, nKernels)
    requires r < |lines|
    requires forall k :: 0 <= k < nKernels ==> activations[r][k] >= 0.0 && lines[r][k] == c
    requires Sum(activations[r]) == 1.0
    ensures Blend(lines, activations, nKernels)[r][0] == c
  {
    PredictionWithinLines(lines, activations, nKernels, r, c, c);
  }

  /** The one-sample path and the batch path agree: predicting the single row r gives row r of
      the batch prediction. */
  lemma OneSampleMatchesBatch(m: ModelParametersRLS, inputDim: nat, inputs: Matrix, activations: Matrix, r: nat)
    requires WellFormed(m, inputDim) && IsMatrix(inputs, |inputs|, inputDim)
    requires IsMatrix(activations, |inputs|, |m.offsets|)
    requires r < |inputs|
    ensures PredictSpec(m, inputDim, [inputs[r]], [activations[r]]) == [PredictSpec(m, inputDim, inputs, activations)[r]]
  {
    assert Lines(m, inputDim, [inputs[r]]) == [Lines(m, inputDim, inputs)[r]];
  }

  /** The installed lines reproduce the regression: at every training input, kernel k's line
      value is kernel k's coefficient row applied to that input's row of the design matrix. */
  lemma LinesMatchDesign(beta: Matrix, inputDim: nat, useOffset: bool, inputs: Matrix)
    requires IsMatrix(beta, |beta|, NBetas(inputDim, useOffset))
    requires IsMatrix(inputs, |inputs|, inputDim)
    ensures forall r, k :: 0 <= r < |inputs| && 0 <= k < |beta| ==>
              Lines(SplitBeta(beta, inputDim, useOffset), inputDim, inputs)[r][k]
              == Dot(beta[k], DesignMatrix(inputs, inputDim, useOffset)[r])
  {
    forall r, k | 0 <= r < |inputs| && 0 <= k < |beta|
      ensures Lines(SplitBeta(beta, inputDim, useOffset), inputDim, inputs)[r][k]
              == Dot(beta[k], DesignMatrix(inputs, inputDim, useOffset)[r])
    {
      SplitIsRegression(beta, inputDim, useOffset, k, inputs[r]);
    }
  }

  /** The worked scenario: one input, one kernel of activation 1, a fitted row [2, 0] with an
      offset column gives slope 2 and offset 0, and input 5 predicts 10. */
  lemma SlopeTwoPredictsTen()
    ensures SplitBeta([[2.0, 0.0]], 1, true) == ModelParametersRLS([[2.0]], [0.0])
    ensures PredictSpec(ModelParametersRLS([[2.0]], [0.0]), 1, [[5.0]], [[1.0]]) == [[10.0]]
  {
    assert [2.0, 0.0][..1] == [2.0];
    var m := ModelParametersRLS([[2.0]], [0.0]);
    assert Affine([2.0], 0.0, [5.0]) == 10.0 by {
      assert [2.0][..0] == [] && [5.0][..0] == [];
    }
    var lines := Lines(m, 1, [[5.0]]);
    assert lines[0][0] == Affine([2.0], 0.0, [5.0]);
    assert lines[0] == [10.0];
    assert lines == [[10.0]];
    assert Dot([10.0], [1.0]) == 10.0 by {
      assert [10.0][..0] == [] && [1.0][..0] == [];
    }
  }
}
