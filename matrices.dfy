/** Dense matrices and vectors over exact reals, stored row by row, as Eigen's MatrixXd and
    VectorXd are used by the RLS function approximator. */
module Matrices {

  /** A matrix as a sequence of rows. */
  type Matrix = seq<seq<real>>

  /** m has exactly `rows` rows of `cols` entries each. */
  predicate IsMatrix(m: Matrix, rows: nat, cols: nat)
  {
    |m| == rows && forall i :: 0 <= i < |m| ==> |m[i]| == cols
  }

  /** Column j of m, as a vector (Eigen's `m.col(j)`). */
  function Column(m: Matrix, j: nat): (c: seq<real>)
    requires forall i :: 0 <= i < |m| ==> j < |m[i]|
    ensures |c| == |m| && forall i :: 0 <= i < |m| ==> c[i] == m[i][j]
  {
    seq(|m|, i requires 0 <= i < |m| => m[i][j])
  }

  /** Sum of the entries of a vector. */
  function Sum(a: seq<real>): real
  {
    if |a| == 0 then 0.0 else Sum(a[..|a| - 1]) + a[|a| - 1]
  }

  /** The product of two reals, kept behind a function symbol so that the solver does not
      reason about nonlinear real arithmetic unless a proof asks it to. */
  function Mul(x: real, y: real): real
  {
    x * y
  }

  /** Dot product: the sum of the elementwise product of two vectors of equal length. */
  function Dot(a: seq<real>, b: seq<real>): real
    requires |a| == |b|
  {
    if |a| == 0 then 0.0 else Dot(a[..|a| - 1], b[..|b| - 1]) + Mul(a[|a| - 1], b[|b| - 1])
  }

  /** A vector of n zeros. */
  function Zeros(n: nat): (z: seq<real>)
    ensures |z| == n && forall i :: 0 <= i < n ==> z[i] == 0.0
  {
    seq(n, _ => 0.0)
  }
}
