/** Training of the RLS approximator: the design matrix, one weighted least-squares fit per
    kernel (dense, or on the pruned rows), and the split of each fitted coefficient row into a
    slope vector and an offset (FunctionApproximatorRLS.cpp, lines 108-200). */
module Regression {
  import opened Matrices
  import opened Pruning

  /** The fitted local lines: one slope vector and one offset per kernel. */
  datatype ModelParametersRLS = ModelParametersRLS(slopes: Matrix, offsets: seq<real>)

  /** K lines whose slopes all have inputDim entries. */
  predicate WellFormed(m: ModelParametersRLS, inputDim: nat)
  {
    IsMatrix(m.slopes, |m.offsets|, inputDim)
  }

  /** The value of an affine line at input x. */
  function Affine(slope: seq<real>, offset: real, x: seq<real>): real
    requires |slope| == |x|
  {
    Dot(slope, x) + offset
  }

  /** One row of the design matrix: the input, followed by a constant 1 when an offset is fitted. */
  function DesignRow(x: seq<real>, useOffset: bool): (row: seq<real>)
    ensures |row| == if useOffset then |x| + 1 else |x|
    ensures row[..|x|] == x
    ensures useOffset ==> row[|x|] == 1.0
  {
    if useOffset then x + [1.0] else x
  }

  /** The design matrix X (lines 108-118): with an offset, the inputs with a column of ones
      appended; without, the inputs themselves. */
  function DesignMatrix(inputs: Matrix, inputDim: nat, useOffset: bool): (x: Matrix)
    requires IsMatrix(inputs, |inputs|, inputDim)
    ensures IsMatrix(x, |inputs|, NBetas(inputDim, useOffset))
    ensures forall i, j :: 0 <= i < |inputs| && 0 <= j < inputDim ==> x[i][j] == inputs[i][j]
    ensures useOffset ==> forall i :: 0 <= i < |inputs| ==> x[i][inputDim] == 1.0
    ensures !useOffset ==> x == inputs
  {
    if useOffset then seq(|inputs|, i requires 0 <= i < |inputs| => DesignRow(inputs[i], true))
    else inputs
  }

  /** `n_betas`, the number of columns of the design matrix (line 126). */
  function NBetas(inputDim: nat, useOffset: bool): (n: nat)
    ensures n == inputDim || n == inputDim + 1
    ensures useOffset <==> n == inputDim + 1
  {
    if useOffset then inputDim + 1 else inputDim
  }

  /** The normal-equations solve `inv(X' W X) X' W y` (lines 143 and 190), taken as given:
      from n_betas, a design matrix X, the diagonal w of W and the targets y, a row of
      coefficients. */
  type Solver = (nat, Matrix, seq<real>, Matrix) -> seq<real>

  /** The solver returns n_betas coefficients, as `beta.row(bb) = cur_beta` needs. */
  ghost predicate ShapedSolver(solve: Solver)
  {
    forall n, x, w, y :: |solve(n, x, w, y)| == n
  }

  /** The coefficient row of one kernel (lines 132-197): with epsilon == 0 the solve over all
      rows; otherwise the solve over the rows whose weight is at least epsilon. Either way the
      row has n_betas coefficients, and when no row is pruned it is the dense solve. */
  function FitKernel(solve: Solver, nBetas: nat, x: Matrix, wVec: seq<real>, targets: Matrix,
                     epsilon: real): (r: seq<real>)
    requires ShapedSolver(solve)
    requires |x| == |wVec| && |targets| == |wVec|
    ensures |r| == nBetas
    ensures (forall i :: 0 <= i < |wVec| ==> wVec[i] >= epsilon) ==> r == solve(nBetas, x, wVec, targets)
  {
    if epsilon == 0.0 then solve(nBetas, x, wVec, targets)
    else
      PrunedKeepsAll(x, wVec, targets, epsilon);
      solve(nBetas, Select(x, wVec, epsilon), Select(wVec, wVec, epsilon), Select(targets, wVec, epsilon))
  }

  /** When no weight is below epsilon, pruning keeps the weights, the design rows and the targets
      unchanged. */
  lemma PrunedKeepsAll(x: Matrix, wVec: seq<real>, targets: Matrix, epsilon: real)
    requires |x| == |wVec| && |targets| == |wVec|
    ensures (forall i :: 0 <= i < |wVec| ==> wVec[i] >= epsilon) ==>
              Select(x, wVec, epsilon) == x && Select(wVec, wVec, epsilon) == wVec &&
              Select(targets, wVec, epsilon) == targets
  {
    if forall i :: 0 <= i < |wVec| ==> wVec[i] >= epsilon {
      SelectAll(x, wVec, epsilon);
      SelectAll(wVec, wVec, epsilon);
      SelectAll(targets, wVec, epsilon);
    }
  }

  /** `beta` (lines 128, 144, 196): an n_kernels x n_betas matrix whose row bb is the fit of
      kernel bb, weighted by column bb of the activations; a kernel none of whose activations is
      below epsilon gets the dense fit. */
  function Beta(solve: Solver, nBetas: nat, x: Matrix, activations: Matrix, nKernels: nat,
                targets: Matrix, epsilon: real): (beta: seq<seq<real>>)
    requires ShapedSolver(solve)
    requires IsMatrix(activations, |x|, nKernels) && |targets| == |x|
    ensures IsMatrix(beta, nKernels, nBetas)
    ensures forall bb :: 0 <= bb < nKernels && (forall i :: 0 <= i < |x| ==> activations[i][bb] >= epsilon) ==>
              beta[bb] == solve(nBetas, x, Column(activations, bb), targets)
  {
    seq(nKernels, bb requires 0 <= bb < nKernels =>
      FitKernel(solve, nBetas, x, Column(activations, bb), targets, epsilon))
  }

  /** When no weight of a kernel is below epsilon, the pruned path solves exactly the system
      the dense path solves. */
  lemma PrunedMatchesDense(solve: Solver, nBetas: nat, x: Matrix, wVec: seq<real>, targets: Matrix,
                           epsilon: real)
    requires ShapedSolver(solve)
    requires |x| == |wVec| && |targets| == |wVec|
    requires forall i :: 0 <= i < |wVec| ==> wVec[i] >= epsilon
    ensures FitKernel(solve, nBetas, x, wVec, targets, epsilon) == solve(nBetas, x, wVec, targets)
  {
    PrunedKeepsAll(x, wVec, targets, epsilon);
  }

  /** The pruned system handed to the solver is made of aligned rows: its row j is the weight,
      design row and target of the j-th kept sample, and all its weights are at least epsilon. */
  lemma PrunedSystemAligned(x: Matrix, wVec: seq<real>, targets: Matrix, epsilon: real)
    requires |x| == |wVec| && |targets| == |wVec|
    ensures |KeptIndices(wVec, epsilon)| == |Select(wVec, wVec, epsilon)|
            == |Select(x, wVec, epsilon)| == |Select(targets, wVec, epsilon)|
    ensures forall j :: 0 <= j < |KeptIndices(wVec, epsilon)| ==>
              var i := KeptIndices(wVec, epsilon)[j];
              i < |wVec| && wVec[i] >= epsilon &&
              Select(wVec, wVec, epsilon)[j] == wVec[i] &&
              Select(x, wVec, epsilon)[j] == x[i] &&
              Select(targets, wVec, epsilon)[j] == targets[i]
  {
    SelectAt(x, wVec, epsilon);
    SelectAt(wVec, wVec, epsilon);
    SelectAt(targets, wVec, epsilon);
    KeptIndicesExact(wVec, epsilon);
  }

  /** The per-kernel loop of `train` (lines 127-198): fills `beta` row by row, pruning with
      CompactRows when epsilon is not zero. */
  method ComputeBeta(solve: Solver, nBetas: nat, x: Matrix, activations: Matrix, nKernels: nat,
                     targets: Matrix, epsilon: real) returns (beta: seq<seq<real>>)
    requires ShapedSolver(solve)
    requires IsMatrix(activations, |x|, nKernels) && |targets| == |x|
    ensures beta == Beta(solve, nBetas, x, activations, nKernels, targets, epsilon)
    ensures IsMatrix(beta, nKernels, nBetas)
  {
    var rows := new seq<real>[nKernels];
    var bb := 0;
    while bb < nKernels
      invariant 0 <= bb <= nKernels
      invariant forall k :: 0 <= k < bb ==>
                  rows[k] == FitKernel(solve, nBetas, x, Column(activations, k), targets, epsilon)
    {
      var wVec := Column(activations, bb);
      if epsilon == 0.0 {
        rows[bb] := solve(nBetas, x, wVec, targets);
      } else {
        var wVecSub, xSub, targetsSub := CompactRows(wVec, x, targets, epsilon);
        rows[bb] := solve(nBetas, xSub, wVecSub, targetsSub);
      }
      bb := bb + 1;
    }
    beta := rows[..];
  }

  /** The split as written (lines 199-200): offsets are the last column of beta and slopes its
      first n_betas-1 columns, whether or not an offset column was fitted. */
  function SplitAsWritten(beta: Matrix, nBetas: nat): (m: ModelParametersRLS)
    requires nBetas >= 1 && IsMatrix(beta, |beta|, nBetas)
    ensures IsMatrix(m.slopes, |beta|, nBetas - 1) && |m.offsets| == |beta|
    ensures forall k :: 0 <= k < |beta| ==> m.slopes[k] + [m.offsets[k]] == beta[k]
  {
    ModelParametersRLS(
      seq(|beta|, k requires 0 <= k < |beta| => beta[k][..nBetas - 1]),
      seq(|beta|, k requires 0 <= k < |beta| => beta[k][nBetas - 1]))
  }

  /** The split as intended: with an offset column, slopes then offset as above; without one,
      the whole row is the slope and the offset is zero. */
  function SplitBeta(beta: Matrix, inputDim: nat, useOffset: bool): (m: ModelParametersRLS)
    requires IsMatrix(beta, |beta|, NBetas(inputDim, useOffset))
    ensures WellFormed(m, inputDim) && |m.offsets| == |beta|
    ensures useOffset ==> forall k :: 0 <= k < |beta| ==> m.slopes[k] + [m.offsets[k]] == beta[k]
    ensures !useOffset ==> m.slopes == beta && forall k :: 0 <= k < |beta| ==> m.offsets[k] == 0.0
  {
    if useOffset then SplitAsWritten(beta, inputDim + 1)
    else ModelParametersRLS(beta, Zeros(|beta|))
  }

  lemma DotAppend(a: seq<real>, b: seq<real>, c: real, d: real)
    requires |a| == |b|
    ensures Dot(a + [c], b + [d]) == Dot(a, b) + Mul(c, d)
  {
    assert (a + [c])[..|a|] == a && (b + [d])[..|b|] == b;
  }

  /** Each fitted line is the regression it came from: at every input x, slope . x + offset is
      the coefficient row applied to the design row of x. */
  lemma SplitIsRegression(beta: Matrix, inputDim: nat, useOffset: bool, k: nat, x: seq<real>)
    requires IsMatrix(beta, |beta|, NBetas(inputDim, useOffset))
    requires k < |beta| && |x| == inputDim
    ensures var m := SplitBeta(beta, inputDim, useOffset);
            Affine(m.slopes[k], m.offsets[k], x) == Dot(beta[k], DesignRow(x, useOffset))
  {
    var m := SplitBeta(beta, inputDim, useOffset);
    if useOffset {
      DotAppend(m.slopes[k], x, m.offsets[k], 1.0);
    }
  }

  /** With an offset column, the split as written and the split as intended agree. */
  lemma SplitAgreesWithOffset(beta: Matrix, inputDim: nat)
    requires IsMatrix(beta, |beta|, inputDim + 1)
    ensures SplitBeta(beta, inputDim, true) == SplitAsWritten(beta, inputDim + 1)
  {
  }

  /** Without an offset column the split as written loses the coefficient of the last input:
      a fit of slope 2 on a single input becomes a line with no slope and offset 2. */
  lemma SplitAsWrittenWithoutOffset()
    ensures SplitAsWritten([[2.0]], 1) == ModelParametersRLS([[]], [2.0])
    ensures SplitBeta([[2.0]], 1, false) == ModelParametersRLS([[2.0]], [0.0])
    ensures !WellFormed(SplitAsWritten([[2.0]], 1), 1)
  {
    assert [2.0][..0] == [];
    assert SplitAsWritten([[2.0]], 1).slopes[0] == [];
  }

  /** The fitted model of `train` (lines 108-202). */
  function Fit(solve: Solver, inputs: Matrix, inputDim: nat, useOffset: bool, targets: Matrix,
               activations: Matrix, nKernels: nat, epsilon: real): (m: ModelParametersRLS)
    requires ShapedSolver(solve)
    requires IsMatrix(inputs, |inputs|, inputDim) && |targets| == |inputs|
    requires IsMatrix(activations, |inputs|, nKernels)
    ensures WellFormed(m, inputDim) && |m.offsets| == nKernels
  {
    var nBetas := NBetas(inputDim, useOffset);
    var x := DesignMatrix(inputs, inputDim, useOffset);
    var beta := Beta(solve, nBetas, x, activations, nKernels, targets, epsilon);
    SplitBeta(beta, inputDim, useOffset)
  }
}
