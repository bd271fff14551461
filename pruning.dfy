/** Small-weight pruning of the training data of one kernel: the rows whose weight is below
    epsilon are dropped before the weighted least-squares solve, keeping the order of the rest
    (FunctionApproximatorRLS.cpp, lines 166-186). */
module Pruning {
  import opened Matrices

  /** The 0/1 mask of the weights that are at least epsilon (`large_enough`). */
  function LargeEnough(w: seq<real>, epsilon: real): (mask: seq<int>)
    ensures |mask| == |w|
    ensures forall i :: 0 <= i < |w| ==> (mask[i] == 1 <==> w[i] >= epsilon)
    ensures forall i :: 0 <= i < |w| ==> (mask[i] == 0 <==> w[i] < epsilon)
  {
    seq(|w|, i requires 0 <= i < |w| => if w[i] >= epsilon then 1 else 0)
  }

  /** Sum of an integer vector (Eigen's `.sum()` on a VectorXi). */
  function SumInts(s: seq<int>): int
  {
    if |s| == 0 then 0 else SumInts(s[..|s| - 1]) + s[|s| - 1]
  }

  /** The elements of xs whose weight is at least epsilon, in their original order:
      the reference definition of what the compaction loop produces. */
  function Select<T>(xs: seq<T>, w: seq<real>, epsilon: real): seq<T>
    requires |xs| == |w|
  {
    if |w| == 0 then []
    else Select(xs[..|w| - 1], w[..|w| - 1], epsilon)
         + (if w[|w| - 1] >= epsilon then [xs[|w| - 1]] else [])
  }

  /** 0, 1, ..., n-1. */
  function Indices(n: nat): (ix: seq<nat>)
    ensures |ix| == n && forall i :: 0 <= i < n ==> ix[i] == i
  {
    seq(n, i => i)
  }

  /** The ascending indices of the rows that survive pruning. */
  function KeptIndices(w: seq<real>, epsilon: real): seq<nat>
  {
    Select(Indices(|w|), w, epsilon)
  }

  /** The set of the indices whose weight is at least epsilon. */
  ghost function KeptSet(w: seq<real>, epsilon: real): set<nat>
  {
    set i: nat | i < |w| && w[i] >= epsilon
  }

  /** `n_samples_sub`, the sum of the mask, is the number of rows Select keeps, for any
      sequence of rows aligned with the weights. */
  lemma {:induction false} CountIsSelectLength<T>(xs: seq<T>, w: seq<real>, epsilon: real)
    requires |xs| == |w|
    ensures SumInts(LargeEnough(w, epsilon)) == |Select(xs, w, epsilon)|
  {
    if |w| > 0 {
      var p := |w| - 1;
      MaskPrefix(w, epsilon);
      CountIsSelectLength(xs[..p], w[..p], epsilon);
    }
  }

  /** Dropping the last weight drops the last mask entry. */
  lemma MaskPrefix(w: seq<real>, epsilon: real)
    requires |w| > 0
    ensures LargeEnough(w, epsilon)[..|w| - 1] == LargeEnough(w[..|w| - 1], epsilon)
  {
  }

  /** The last index joins the kept set exactly when its weight is large enough. */
  lemma KeptSetStep(w: seq<real>, epsilon: real)
    requires |w| > 0
    ensures |w| - 1 !in KeptSet(w[..|w| - 1], epsilon)
    ensures KeptSet(w, epsilon)
            == KeptSet(w[..|w| - 1], epsilon) + (if w[|w| - 1] >= epsilon then {|w| - 1} else {})
  {
    var p := |w| - 1;
    forall i: nat
      ensures i in KeptSet(w, epsilon) <==> i in KeptSet(w[..p], epsilon) || (i == p && w[p] >= epsilon)
    {
      if i < p { assert w[..p][i] == w[i]; }
    }
  }

  /** `n_samples_sub` is the number of indices i with `W_vec[i] >= epsilon`. */
  lemma {:induction false} CountIsKeptSetSize(w: seq<real>, epsilon: real)
    ensures SumInts(LargeEnough(w, epsilon)) == |KeptSet(w, epsilon)|
  {
    if |w| > 0 {
      var p := |w| - 1;
      MaskPrefix(w, epsilon);
      KeptSetStep(w, epsilon);
      CountIsKeptSetSize(w[..p], epsilon);
    }
  }

  /** Pruning a prefix never keeps more rows than pruning the whole: the bound that keeps
      the write cursor inside the sub-buffers. */
  lemma {:induction false} SelectPrefixLength<T>(xs: seq<T>, w: seq<real>, epsilon: real, n: nat)
    requires |xs| == |w| && n <= |w|
    ensures |Select(xs[..n], w[..n], epsilon)| <= |Select(xs, w, epsilon)|
  {
    if n < |w| {
      var p := |w| - 1;
      assert xs[..p][..n] == xs[..n] && w[..p][..n] == w[..n];
      SelectPrefixLength(xs[..p], w[..p], epsilon, n);
    } else {
      assert xs[..n] == xs && w[..n] == w;
    }
  }

  /** Extending the prefix by one row appends that row exactly when its weight is large enough. */
  lemma SelectStep<T>(xs: seq<T>, w: seq<real>, epsilon: real, n: nat)
    requires |xs| == |w| && n < |w|
    ensures Select(xs[..n + 1], w[..n + 1], epsilon)
            == Select(xs[..n], w[..n], epsilon) + (if w[n] >= epsilon then [xs[n]] else [])
  {
    assert xs[..n + 1][..n] == xs[..n] && w[..n + 1][..n] == w[..n];
  }

  /** Row j of a pruned sequence is the row of the j-th kept index: all sequences aligned with
      the weights are pruned at the same positions. */
  lemma {:induction false} SelectAt<T>(xs: seq<T>, w: seq<real>, epsilon: real)
    requires |xs| == |w|
    ensures |Select(xs, w, epsilon)| == |KeptIndices(w, epsilon)|
    ensures forall j :: 0 <= j < |Select(xs, w, epsilon)| ==>
              KeptIndices(w, epsilon)[j] < |xs| && Select(xs, w, epsilon)[j] == xs[KeptIndices(w, epsilon)[j]]
  {
    CountIsSelectLength(xs, w, epsilon);
    CountIsSelectLength(Indices(|w|), w, epsilon);
    if |w| > 0 {
      var p := |w| - 1;
      assert Indices(|w|)[..p] == Indices(p);
      SelectAt(xs[..p], w[..p], epsilon);
      var pre := Select(xs[..p], w[..p], epsilon);
      var preIx := Select(Indices(p), w[..p], epsilon);
      assert KeptIndices(w, epsilon) == preIx + (if w[p] >= epsilon then [p] else []);
      forall j | 0 <= j < |Select(xs, w, epsilon)|
        ensures KeptIndices(w, epsilon)[j] < |xs| && Select(xs, w, epsilon)[j] == xs[KeptIndices(w, epsilon)[j]]
      {
        if j < |pre| {
          assert Select(xs, w, epsilon)[j] == pre[j];
          assert KeptIndices(w, epsilon)[j] == preIx[j];
        }
      }
    }
  }

  /** The kept indices are exactly the indices with a large enough weight, in strictly
      ascending order. */
  lemma {:induction false} KeptIndicesExact(w: seq<real>, epsilon: real)
    ensures forall j :: 0 <= j < |KeptIndices(w, epsilon)| ==>
              KeptIndices(w, epsilon)[j] < |w| && w[KeptIndices(w, epsilon)[j]] >= epsilon
    ensures forall j, k :: 0 <= j < k < |KeptIndices(w, epsilon)| ==>
              KeptIndices(w, epsilon)[j] < KeptIndices(w, epsilon)[k]
    ensures forall i :: 0 <= i < |w| && w[i] >= epsilon ==> i in KeptIndices(w, epsilon)
  {
    if |w| > 0 {
      var p := |w| - 1;
      assert Indices(|w|)[..p] == Indices(p);
      KeptIndicesExact(w[..p], epsilon);
      var preIx := KeptIndices(w[..p], epsilon);
      assert KeptIndices(w, epsilon) == preIx + (if w[p] >= epsilon then [p] else []);
    }
  }

  /** When no weight is below epsilon nothing is pruned. */
  lemma {:induction false} SelectAll<T>(xs: seq<T>, w: seq<real>, epsilon: real)
    requires |xs| == |w|
    requires forall i :: 0 <= i < |w| ==> w[i] >= epsilon
    ensures Select(xs, w, epsilon) == xs
  {
    if |w| > 0 {
      var p := |w| - 1;
      SelectAll(xs[..p], w[..p], epsilon);
      assert xs[..p] + [xs[p]] == xs;
    }
  }

  /** Copies the rows whose weight is at least epsilon into buffers of exactly
      `n_samples_sub` rows, advancing a write cursor `jj` (lines 166-186). */
  method CompactRows(wVec: seq<real>, x: Matrix, targets: Matrix, epsilon: real)
    returns (wVecSub: seq<real>, xSub: Matrix, targetsSub: Matrix)
    requires |x| == |wVec| && |targets| == |wVec|
    ensures |wVecSub| == SumInts(LargeEnough(wVec, epsilon))
    ensures wVecSub == Select(wVec, wVec, epsilon)
    ensures xSub == Select(x, wVec, epsilon)
    ensures targetsSub == Select(targets, wVec, epsilon)
  {
    var nSamples := |wVec|;
    var largeEnough := LargeEnough(wVec, epsilon);
    var nSamplesSub := SumInts(largeEnough);
    CountIsSelectLength(wVec, wVec, epsilon);
    CountIsSelectLength(x, wVec, epsilon);
    CountIsSelectLength(targets, wVec, epsilon);
    var wBuf := new real[nSamplesSub];
    var xBuf := new seq<real>[nSamplesSub];
    var tBuf := new seq<real>[nSamplesSub];
    var jj := 0;
    var ii := 0;
    while ii < nSamples
      invariant 0 <= ii <= nSamples
      invariant 0 <= jj <= nSamplesSub
      invariant jj == |Select(wVec[..ii], wVec[..ii], epsilon)|
      invariant wBuf[..jj] == Select(wVec[..ii], wVec[..ii], epsilon)
      invariant xBuf[..jj] == Select(x[..ii], wVec[..ii], epsilon)
      invariant tBuf[..jj] == Select(targets[..ii], wVec[..ii], epsilon)
    {
      SelectStep(wVec, wVec, epsilon, ii);
      SelectStep(x, wVec, epsilon, ii);
      SelectStep(targets, wVec, epsilon, ii);
      if largeEnough[ii] == 1 {
        SelectPrefixLength(wVec, wVec, epsilon, ii + 1);
        wBuf[jj] := wVec[ii];
        xBuf[jj] := x[ii];
        tBuf[jj] := targets[ii];
        assert wBuf[..jj + 1] == wBuf[..jj] + [wVec[ii]];
        assert xBuf[..jj + 1] == xBuf[..jj] + [x[ii]];
        assert tBuf[..jj + 1] == tBuf[..jj] + [targets[ii]];
        jj := jj + 1;
      }
      ii := ii + 1;
    }
    assert wVec[..nSamples] == wVec && x[..nSamples] == x && targets[..nSamples] == targets;
    wVecSub, xSub, targetsSub := wBuf[..], xBuf[..], tBuf[..];
  }
}
