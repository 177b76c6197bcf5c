/**
 * The running root-mean-square error of the estimates against the ground
 * truth (px, py, vx, vy). Each call sees the whole history but reads only its
 * last element: the sum of squared residuals is carried from call to call,
 * with a Kahan compensation term, instead of being recomputed.
 */
module Rmse {

  import opened LinAlg

  /** Estimates and ground truth are (px, py, vx, vy). */
  const Dim: nat := 4

  /** Coefficient-wise square. */
  function Squares(v: Vec): (s: Vec)
    ensures |s| == |v| && forall i :: 0 <= i < |v| ==> s[i] == v[i] * v[i]
  {
    seq(|v|, i requires 0 <= i < |v| => v[i] * v[i])
  }

  /** Coefficient-wise division by a count. */
  function Over(v: Vec, d: real): (q: Vec)
    requires d != 0.0
    ensures |q| == |v| && forall i :: 0 <= i < |v| ==> q[i] == v[i] / d
  {
    seq(|v|, i requires 0 <= i < |v| => v[i] / d)
  }

  /** Coefficient-wise square root. */
  function Root(v: Vec, sqrt: real -> real): (r: Vec)
    ensures |r| == |v| && forall i :: 0 <= i < |v| ==> r[i] == sqrt(v[i])
  {
    seq(|v|, i requires 0 <= i < |v| => sqrt(v[i]))
  }

  /** The squared residual of one estimate. */
  function SquaredResidual(e: Vec, g: Vec): (s: Vec)
    requires |e| == |g|
    ensures |s| == |e|
  {
    Squares(Sub(e, g))
  }

  /** Both histories hold (px, py, vx, vy) vectors. */
  ghost predicate Histories(est: seq<Vec>, gt: seq<Vec>) {
    AllOfLength(est, Dim) && AllOfLength(gt, Dim)
  }

  /** Sum of the squared residuals of the first k estimates. */
  function BatchSum(est: seq<Vec>, gt: seq<Vec>, k: nat): (s: Vec)
    requires Histories(est, gt) && k <= |est| && k <= |gt|
    ensures |s| == Dim
  {
    if k == 0 then Zeros(Dim)
    else Add(BatchSum(est, gt, k - 1), SquaredResidual(est[k - 1], gt[k - 1]))
  }

  /**
   * The batch computation: zero when the histories differ in length or are
   * empty, otherwise the root of the mean squared residual.
   */
  function BatchRmse(est: seq<Vec>, gt: seq<Vec>, sqrt: real -> real): (r: Vec)
    requires Histories(est, gt)
    ensures |r| == Dim
  {
    if |est| != |gt| || |est| == 0 then Zeros(Dim)
    else Root(Over(BatchSum(est, gt, |est|), |est| as real), sqrt)
  }

  /**
   * The warning condition on the returned RMSE: some component above its
   * tolerance (.09, .10, .40, .30 for px, py, vx, vy).
   */
  function ExceedsTolerance(r: Vec): (warn: bool)
    requires |r| == Dim
    ensures !warn ==> forall i :: 0 <= i < Dim ==> r[i] <= 0.40
    ensures (forall i :: 0 <= i < Dim ==> r[i] <= 0.09) ==> !warn
  {
    r[0] > 0.09 || r[1] > 0.10 || r[2] > 0.40 || r[3] > 0.30
  }

  /** The accumulators carried between calls. */
  datatype Running = Running(mse: Vec, kahanerror: Vec, lastmse: Vec)

  predicate Shaped(a: Running) {
    |a.mse| == Dim && |a.kahanerror| == Dim && |a.lastmse| == Dim
  }

  /** Zero accumulators. */
  function Start(): (a: Running)
    ensures Shaped(a)
  {
    Running(Zeros(Dim), Zeros(Dim), Zeros(Dim))
  }

  /** The Kahan-compensated residual added at this call. */
  function Compensated(a: Running, e: Vec, g: Vec): (res: Vec)
    requires Shaped(a) && |e| == Dim && |g| == Dim
    ensures |res| == Dim
  {
    Add(SquaredResidual(e, g), a.kahanerror)
  }

  /** The new running sum: the old mean scaled back by t - 1, plus the compensated residual. */
  function RunningSum(a: Running, e: Vec, g: Vec, t: nat): (sum: Vec)
    requires Shaped(a) && |e| == Dim && |g| == Dim
    ensures |sum| == Dim
  {
    Add(Scale((t - 1) as real, a.mse), Compensated(a, e, g))
  }

  /** One call with history length t >= 1 whose last pair is (e, g). */
  function Step(a: Running, e: Vec, g: Vec, t: nat): (b: Running)
    requires Shaped(a) && |e| == Dim && |g| == Dim && t >= 1
    ensures Shaped(b)
  {
    var res := Compensated(a, e, g);
    var sum := RunningSum(a, e, g, t);
    Running(Over(sum, t as real), Sub(res, Sub(sum, a.lastmse)), sum)
  }

  /** The accumulators after one call per prefix of the histories, from zero. */
  function Run(est: seq<Vec>, gt: seq<Vec>, k: nat): (a: Running)
    requires Histories(est, gt) && k <= |est| && k <= |gt|
    ensures Shaped(a)
  {
    if k == 0 then Start() else Step(Run(est, gt, k - 1), est[k - 1], gt[k - 1], k)
  }

  /**
   * The accumulators agree with the batch computation over the first k
   * pairs: lastmse is the running sum, kahanerror is zero, and mse is the mean.
   */
  ghost predicate Reflects(a: Running, est: seq<Vec>, gt: seq<Vec>, k: nat)
    requires Histories(est, gt) && k <= |est| && k <= |gt|
  {
    Shaped(a) && a.lastmse == BatchSum(est, gt, k) && a.kahanerror == Zeros(Dim) &&
    (k > 0 ==> a.mse == Over(a.lastmse, k as real))
  }

  /** mse times (t - 1) recovers the previous running sum. */
  lemma RecoverSum(m: real, s: real, t: nat)
    requires t >= 2 && m == s / (t - 1) as real
    ensures (t - 1) as real * m == s
  {
  }

  /**
   * One call keeps the accumulators in step with the batch sum: in exact
   * arithmetic the compensation term is zero before and after.
   */
  lemma StepReflects(a: Running, est: seq<Vec>, gt: seq<Vec>, t: nat)
    requires Histories(est, gt) && 1 <= t <= |est| && t <= |gt|
    requires Reflects(a, est, gt, t - 1)
    ensures Reflects(Step(a, est[t - 1], gt[t - 1], t), est, gt, t)
  {
    var e, g := est[t - 1], gt[t - 1];
    var sq := SquaredResidual(e, g);
    var res := Compensated(a, e, g);
    var sum := RunningSum(a, e, g, t);
    var before := BatchSum(est, gt, t - 1);
    forall i | 0 <= i < Dim
      ensures sum[i] == before[i] + sq[i]
    {
      if t >= 2 {
        RecoverSum(a.mse[i], before[i], t);
      }
    }
    assert sum == BatchSum(est, gt, t);
    assert Sub(res, Sub(sum, a.lastmse)) == Zeros(Dim);
  }

  /** After one call per prefix, starting from zero, the accumulators reflect the batch. */
  lemma {:induction false} RunReflects(est: seq<Vec>, gt: seq<Vec>, k: nat)
    requires Histories(est, gt) && k <= |est| && k <= |gt|
    ensures Reflects(Run(est, gt, k), est, gt, k)
  {
    if k > 0 {
      RunReflects(est, gt, k - 1);
      StepReflects(Run(est, gt, k - 1), est, gt, k);
    }
  }

  /**
   * The incremental RMSE after a call on histories of equal, non-zero
   * length is the batch RMSE of the commented-out version.
   */
  lemma IncrementalIsBatch(est: seq<Vec>, gt: seq<Vec>, sqrt: real -> real)
    requires Histories(est, gt) && |est| == |gt| && |est| >= 1
    ensures Root(Run(est, gt, |est|).mse, sqrt) == BatchRmse(est, gt, sqrt)
  {
    RunReflects(est, gt, |est|);
  }

  /** Every component of the running sum of squares is non-negative. */
  lemma {:induction false} BatchSumNonNegative(est: seq<Vec>, gt: seq<Vec>, k: nat)
    requires Histories(est, gt) && k <= |est| && k <= |gt|
    ensures forall i :: 0 <= i < Dim ==> BatchSum(est, gt, k)[i] >= 0.0
  {
    if k > 0 {
      BatchSumNonNegative(est, gt, k - 1);
    }
  }

  /** With every estimate exact, the running sum is zero. */
  lemma {:induction false} ExactBatchSum(est: seq<Vec>, gt: seq<Vec>, k: nat)
    requires Histories(est, gt) && k <= |est| && k <= |gt|
    requires forall j :: 0 <= j < k ==> est[j] == gt[j]
    ensures BatchSum(est, gt, k) == Zeros(Dim)
  {
    if k > 0 {
      ExactBatchSum(est, gt, k - 1);
      assert SquaredResidual(est[k - 1], gt[k - 1]) == Zeros(Dim);
    }
  }

  /**
   * Exact estimates give an RMSE of zero in every component, given a square
   * root that maps zero to zero.
   */
  lemma ExactEstimatesGiveZero(est: seq<Vec>, gt: seq<Vec>, k: nat, sqrt: real -> real)
    requires Histories(est, gt) && 1 <= k <= |est| && k <= |gt|
    requires forall j :: 0 <= j < k ==> est[j] == gt[j]
    requires sqrt(0.0) == 0.0
    ensures Root(Run(est, gt, k).mse, sqrt) == Zeros(Dim)
  {
    RunReflects(est, gt, k);
    ExactBatchSum(est, gt, k);
    var m := Run(est, gt, k).mse;
    assert forall i :: 0 <= i < Dim ==> m[i] == 0.0;
  }

  /** The tool object: its Eigen vector members hold the accumulators between calls. */
  class Tools {
    var mse: Vec
    var kahanerror: Vec
    var lastmse: Vec
    var residual: Vec
    var rmse: Vec

    ghost predicate Valid()
      reads this
    {
      |mse| == Dim && |kahanerror| == Dim && |lastmse| == Dim && |residual| == Dim && |rmse| == Dim
    }

    /** The carried accumulators. */
    ghost function State(): Running
      reads this
    {
      Running(mse, kahanerror, lastmse)
    }

    /** The accumulators start at zero. */
    constructor()
      ensures Valid() && State() == Start()
    {
      mse, kahanerror, lastmse := Zeros(Dim), Zeros(Dim), Zeros(Dim);
      residual, rmse := Zeros(Dim), Zeros(Dim);
    }

    /**
     * One call on histories of length t >= 1 (the ground truth may be
     * longer). Two results stand for the console messages: a size mismatch,
     * and the tolerance warning; neither changes the returned value.
     */
    method CalculateRMSE(estimations: seq<Vec>, groundTruth: seq<Vec>, sqrt: real -> real)
      returns (r: Vec, sizeMismatch: bool, exceedsTolerance: bool)
      requires Valid() && Histories(estimations, groundTruth)
      requires 1 <= |estimations| <= |groundTruth|
      modifies this
      ensures Valid()
      ensures var t := |estimations|;
              State() == Step(old(State()), estimations[t - 1], groundTruth[t - 1], t) &&
              residual == Compensated(old(State()), estimations[t - 1], groundTruth[t - 1])
      ensures rmse == Root(mse, sqrt) && r == rmse
      ensures sizeMismatch <==> |estimations| != |groundTruth|
      ensures exceedsTolerance <==> ExceedsTolerance(r)
      ensures var t := |estimations|;
              old(Reflects(State(), estimations, groundTruth, t - 1)) ==>
                Reflects(State(), estimations, groundTruth, t)
    {
      ghost var before := State();
      var t := |estimations|;
      var e, g := estimations[t - 1], groundTruth[t - 1];
      sizeMismatch := t != |groundTruth|;
      mse := Scale((t - 1) as real, mse);
      residual := Sub(e, g);
      residual := Squares(residual);
      residual := Add(residual, kahanerror);
      assert residual == Compensated(before, e, g);
      mse := Add(mse, residual);
      assert mse == RunningSum(before, e, g, t);
      kahanerror := Sub(residual, Sub(mse, lastmse));
      lastmse := mse;
      mse := Over(mse, t as real);
      rmse := Root(mse, sqrt);
      r := rmse;
      exceedsTolerance := rmse[0] > 0.09 || rmse[1] > 0.10 || rmse[2] > 0.40 || rmse[3] > 0.30;
      if Reflects(before, estimations, groundTruth, t - 1) {
        StepReflects(before, estimations, groundTruth, t);
      }
    }
  }
}
