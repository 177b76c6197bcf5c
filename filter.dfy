/**
 * The UKF object: its state x_ and P_, the two sigma-point buffers and the
 * weights, and the methods that update them in place. The sigma-point and
 * update methods are proved to leave the fields equal to a pure function of
 * the old state (from Sigma, or Prior and PredictedColumns here); Seed and
 * ProcessMeasurement are proved against SeedState and Posterior; MeanOf,
 * CovarianceOf, Deviate and the measurement and term methods change no field
 * and return values proved equal to Sigma functions.
 */
module Filter {

  import opened LinAlg
  import opened Angles
  import opened Numerics
  import opened Sigma

  datatype SensorType = Laser | Radar

  /** A measurement package: sensor kind, timestamp in microseconds, raw values. */
  datatype Measurement = Measurement(sensor: SensorType, timestamp: int, raw: Vec)

  /** Lidar packages carry (px, py), radar packages (rho, phi, rho_dot). */
  predicate WellFormed(m: Measurement) {
    if m.sensor == Laser then |m.raw| == 2 else |m.raw| == 3
  }

  /** The state the first measurement seeds: its position (and radar speed), zero heading. */
  function SeedState(m: Measurement, lib: MathLib): (x: Vec)
    requires WellFormed(m)
    ensures |x| == NX && x[3] == 0.0 && x[4] == 0.0
    ensures m.sensor == Laser ==> x == m.raw + [0.0, 0.0, 0.0]
  {
    match m.sensor
    case Radar =>
      var rho, phi, rhoDot := m.raw[0], m.raw[1], m.raw[2];
      var vx, vy := rhoDot * lib.cos(phi), rhoDot * lib.sin(phi);
      [rho * lib.cos(phi), rho * lib.sin(phi), lib.sqrt(vx * vx + vy * vy), 0.0, 0.0]
    case Laser =>
      [m.raw[0], m.raw[1], 0.0, 0.0, 0.0]
  }

  /** Seconds between two microsecond timestamps. */
  function ElapsedSeconds(from: int, to: int): (s: real)
    ensures s * 1000000.0 == (to - from) as real
    ensures 0.0 <= s <==> from <= to
  {
    (to - from) as real / 1000000.0
  }

  /** The belief after the prediction step from the predicted sigma columns. */
  function Prior(Xp: seq<Vec>): (b: Belief)
    requires |Xp| == NSigma && AllOfLength(Xp, NX)
    ensures WellShaped(b)
  {
    var mean := PredictedMean(Xp);
    Belief(mean, PredictedCovariance(Xp, mean))
  }

  /** The predicted sigma columns for a belief and a step of dt seconds. */
  function PredictedColumns(b: Belief, dt: real, eps: real, lib: MathLib): (Xp: seq<Vec>)
    requires WellShaped(b) && eps > 0.0
    ensures |Xp| == NSigma && AllOfLength(Xp, NX)
  {
    PredictSigma(AugmentedSigma(b.x, b.P, lib), dt, eps, lib)
  }

  /** The belief after a non-seeding measurement: predict, then update only for an enabled sensor. */
  function Posterior(b: Belief, m: Measurement, dt: real, eps: real, useLaser: bool, useRadar: bool,
                     lib: MathLib): (b': Belief)
    requires WellShaped(b) && WellFormed(m) && eps > 0.0
    ensures WellShaped(b')
  {
    var Xp := PredictedColumns(b, dt, eps, lib);
    if m.sensor == Radar && useRadar then RadarUpdate(Prior(Xp), Xp, m.raw, lib)
    else if m.sensor == Laser && useLaser then LidarUpdate(Prior(Xp), Xp, m.raw, lib)
    else Prior(Xp)
  }

  // ------------------------------------------------------- array helpers

  /** The columns of a matrix buffer. */
  function Columns(M: array2<real>): (X: seq<Vec>)
    reads M
    ensures |X| == M.Length1 && AllOfLength(X, M.Length0)
  {
    seq(M.Length1, j requires 0 <= j < M.Length1 reads M =>
      seq(M.Length0, r requires 0 <= r < M.Length0 reads M => M[r, j]))
  }

  /** Column j of a matrix buffer, read top to bottom. */
  function ColumnOf(M: array2<real>, j: nat): (v: Vec)
    reads M
    requires j < M.Length1
    ensures |v| == M.Length0 && forall r :: 0 <= r < M.Length0 ==> v[r] == M[r, j]
  {
    seq(M.Length0, r requires 0 <= r < M.Length0 reads M => M[r, j])
  }

  /** Overwrites column j of a matrix buffer with v. */
  method StoreColumn(M: array2<real>, j: nat, v: Vec)
    requires j < M.Length1 && |v| == M.Length0
    modifies M
    ensures forall r, c :: 0 <= r < M.Length0 && 0 <= c < M.Length1 ==>
              M[r, c] == if c == j then v[r] else old(M[r, c])
  {
    forall r | 0 <= r < M.Length0 {
      M[r, j] := v[r];
    }
  }

  /**
   * Writes the sigma layout around xa into a buffer: the centre first, then
   * column i + 1 and its mirror i + 1 + n in one pass over the factor's columns.
   */
  method StoreSigmaLayout(M: array2<real>, xa: Vec, A: Mat, c: real)
    requires IsMatrix(A, |xa|, |xa|) && M.Length0 == |xa| && M.Length1 == 2 * |xa| + 1
    modifies M
    ensures Columns(M) == SigmaLayout(xa, A, c)
  {
    ghost var X := SigmaLayout(xa, A, c);
    var n := |xa|;
    StoreColumn(M, 0, xa);
    for i := 0 to n
      invariant forall r, j :: 0 <= r < n && 0 <= j < 2 * n + 1 && (j <= i || n < j <= n + i) ==>
                  M[r, j] == X[j][r]
    {
      var plus := Add(xa, Scale(c, Column(A, i)));
      var minus := Sub(xa, Scale(c, Column(A, i)));
      SigmaColumnPair(xa, A, c, i);
      StoreColumn(M, i + 1, plus);
      StoreColumn(M, i + 1 + n, minus);
    }
    ColumnsAre(M, X);
  }

  /** A buffer whose every entry matches X holds the columns X. */
  lemma ColumnsAre(M: array2<real>, X: seq<Vec>)
    requires |X| == M.Length1 && AllOfLength(X, M.Length0)
    requires forall r, c :: 0 <= r < M.Length0 && 0 <= c < M.Length1 ==> M[r, c] == X[c][r]
    ensures Columns(M) == X
  {
    var C := Columns(M);
    forall c | 0 <= c < M.Length1 ensures C[c] == X[c] {
    }
  }

  /**
   * The residual of col from center, followed by the two normalisation loops on the
   * angle component, as the filter writes it at every deviation it forms.
   */
  method Deviate(col: Vec, center: Vec, w: Wrap) returns (d: Vec)
    requires |col| == |center| && Fits(w, |center|)
    ensures d == Deviation(col, center, w)
  {
    d := Sub(col, center);
    if w.WrapAt? {
      var angle := NormalizeAngle(d[w.k]);
      d := d[w.k := angle];
    }
  }

  // ----------------------------------------------------------------- UKF

  class UKF {
    var isInitialized: bool
    /** When false, laser measurements are ignored (except to initialise). */
    var useLaser: bool
    /** When false, radar measurements are ignored (except to initialise). */
    var useRadar: bool
    var timeUs: int
    var x: Vec
    var P: Mat
    const XsigAug: array2<real>
    const XsigPred: array2<real>
    const weights: array<real>
    /** The yaw-rate threshold below which the straight-line model is used. */
    const eps: real

    ghost predicate Valid()
      reads this, weights
    {
      |x| == NX && IsMatrix(P, NX, NX) && IsSymmetric(P) &&
      XsigAug.Length0 == NAug && XsigAug.Length1 == NSigma &&
      XsigPred.Length0 == NX && XsigPred.Length1 == NSigma &&
      weights.Length == NSigma && (forall k :: 0 <= k < NSigma ==> weights[k] == Weight(NAug, k)) &&
      eps > 0.0
    }

    ghost function Belief(): Sigma.Belief
      reads this
    {
      Sigma.Belief(x, P)
    }

    ghost function AugSigma(): seq<Vec>
      reads XsigAug
    {
      Columns(XsigAug)
    }

    ghost function PredSigma(): seq<Vec>
      reads XsigPred
    {
      Columns(XsigPred)
    }

    /** Both sensors enabled, not yet initialised, the weights set. */
    constructor(eps: real)
      requires eps > 0.0
      ensures Valid() && fresh(XsigAug) && fresh(XsigPred) && fresh(weights)
      ensures !isInitialized && useLaser && useRadar && this.eps == eps
    {
      isInitialized := false;
      useLaser := true;
      useRadar := true;
      timeUs := 0;
      x := Zeros(NX);
      P := ZeroMatrix(NX, NX);
      this.eps := eps;
      XsigAug := new real[NAug, NSigma];
      XsigPred := new real[NX, NSigma];
      var w := new real[NSigma];
      w[0] := Lambda as real / (Lambda as real + NAug as real);
      for i := 1 to NSigma
        invariant forall k :: 0 <= k < i ==> w[k] == Weight(NAug, k)
      {
        w[i] := 0.5 / (NAug as real + Lambda as real);
      }
      weights := w;
    }

    /** Fills Xsig_aug_ with the sigma columns around x_aug built from x_ and P_. */
    method AugmentSigmaPoints(lib: MathLib)
      requires Valid()
      modifies XsigAug
      ensures Valid()
      ensures AugSigma() == AugmentedSigma(x, P, lib)
    {
      var xAug := AugmentState(x);
      var A := Tabulate(lib.cholesky(AugmentedCovariance(P)), NAug, NAug);
      var spread := lib.sqrt((Lambda + NAug) as real);
      StoreSigmaLayout(XsigAug, xAug, A, spread);
    }

    /** Propagates every augmented sigma column through the CTRV model into Xsig_pred_. */
    method PredictSigmaPoint(dt: real, lib: MathLib)
      requires Valid()
      modifies XsigPred
      ensures Valid() && AugSigma() == old(AugSigma())
      ensures PredSigma() == PredictSigma(AugSigma(), dt, eps, lib)
    {
      ghost var Xp := PredictSigma(AugSigma(), dt, eps, lib);
      for i := 0 to NSigma
        invariant AugSigma() == old(AugSigma())
        invariant forall r, j :: 0 <= r < NX && 0 <= j < i ==> XsigPred[r, j] == Xp[j][r]
      {
        var column := ColumnOf(XsigAug, i);
        assert column == AugSigma()[i];
        StoreColumn(XsigPred, i, Ctrv(column, dt, eps, lib));
      }
      ColumnsAre(XsigPred, Xp);
    }

    /** The weighted mean of the sigma columns, accumulated one weighted column at a time. */
    method MeanOf(cols: seq<Vec>, n: nat) returns (m: Vec)
      requires Valid() && |cols| == NSigma && AllOfLength(cols, n)
      ensures m == SigmaMean(cols, n)
    {
      ghost var W := Weights(NAug);
      m := Zeros(n);
      for i := 0 to NSigma
        invariant m == WeightedSum(W, cols, n, i)
      {
        assert weights[i] == W[i];
        m := Add(m, Scale(weights[i], cols[i]));
      }
    }

    /**
     * The weighted sum of outer products of deviations, accumulated over the sigma
     * columns; each deviation is formed (and normalised) in the loop.
     */
    method CovarianceOf(X: seq<Vec>, xc: Vec, xw: Wrap, Z: seq<Vec>, zc: Vec, zw: Wrap) returns (T: Mat)
      requires Valid() && |X| == NSigma && |Z| == NSigma && AllOfLength(X, |xc|) && AllOfLength(Z, |zc|)
      requires Fits(xw, |xc|) && Fits(zw, |zc|)
      ensures T == Covariance(X, xc, xw, Z, zc, zw)
    {
      ghost var W := Weights(NAug);
      ghost var DX, DZ := Deviations(X, xc, xw), Deviations(Z, zc, zw);
      T := ZeroMatrix(|xc|, |zc|);
      for i := 0 to NSigma
        invariant T == WeightedCross(W, DX, DZ, |xc|, |zc|, i)
      {
        var dz := Deviate(Z[i], zc, zw);
        var dx := Deviate(X[i], xc, xw);
        assert weights[i] == W[i] && dx == DX[i] && dz == DZ[i];
        T := MatAdd(T, Outer(Scale(weights[i], dx), dz), |xc|, |zc|);
      }
    }

    /** Sets x_ and P_ to the weighted mean and covariance of the predicted sigma columns. */
    method PredictMeanAndCovariance()
      requires Valid()
      modifies this
      ensures Valid() && Belief() == Prior(PredSigma())
      ensures isInitialized == old(isInitialized) && timeUs == old(timeUs)
      ensures useLaser == old(useLaser) && useRadar == old(useRadar)
    {
      var Xp := Columns(XsigPred);
      var mean := MeanOf(Xp, NX);
      var cov := CovarianceOf(Xp, mean, WrapAt(3), Xp, mean, WrapAt(3));
      PredictedCovarianceSymmetric(Xp, mean);
      x := mean;
      P := cov;
    }

    /** AugmentSigmaPoints, PredictSigmaPoint, PredictMeanAndCovariance in turn. */
    method Prediction(dt: real, lib: MathLib)
      requires Valid()
      modifies this, XsigAug, XsigPred
      ensures Valid()
      ensures AugSigma() == AugmentedSigma(old(x), old(P), lib)
      ensures PredSigma() == PredictedColumns(old(Belief()), dt, eps, lib)
      ensures Belief() == Prior(PredSigma())
      ensures isInitialized == old(isInitialized) && timeUs == old(timeUs)
      ensures useLaser == old(useLaser) && useRadar == old(useRadar)
    {
      AugmentSigmaPoints(lib);
      PredictSigmaPoint(dt, lib);
      PredictMeanAndCovariance();
    }

    /**
     * The tail shared by both updates: the gain K is Tc times the inverse of S; the
     * state moves by K times the innovation, the covariance loses K S K^T, and the
     * yaw is normalised.
     */
    method ApplyCorrection(Tc: Mat, S: Mat, innovation: Vec, nz: nat, lib: MathLib)
      requires Valid() && IsMatrix(Tc, NX, nz) && IsSymmetric(S) && |S| == nz && |innovation| == nz
      modifies this
      ensures Valid() && Belief() == Correct(old(Belief()), Tc, S, innovation, nz, lib)
      ensures isInitialized == old(isInitialized) && timeUs == old(timeUs)
      ensures useLaser == old(useLaser) && useRadar == old(useRadar)
    {
      var K := Gain(Tc, S, nz, lib);
      CorrectionSymmetric(P, K, S, NX, nz);
      x := Add(x, MatVec(K, innovation, NX));
      P := MatSub(P, MatMul(MatMul(K, S, NX, nz, nz), Transpose(K, NX, nz), NX, nz, NX), NX, NX);
      assert IsSymmetric(P);
      var yaw := NormalizeAngle(x[3]);
      x := x[3 := yaw];
    }

    /** The lidar measurement model applied to every predicted sigma column. */
    method LidarMeasurements() returns (zSig: seq<Vec>)
      requires Valid()
      ensures zSig == LidarSigma(PredSigma())
    {
      ghost var Xp := PredSigma();
      zSig := [];
      for i := 0 to NSigma
        invariant zSig == LidarSigma(Xp)[..i]
      {
        var px, py := XsigPred[0, i], XsigPred[1, i];
        zSig := zSig + [[px, py]];
      }
    }

    /** The radar measurement model applied to every predicted sigma column. */
    method RadarMeasurements(lib: MathLib) returns (zSig: seq<Vec>)
      requires Valid()
      ensures zSig == RadarSigma(PredSigma(), lib)
    {
      ghost var Xp := PredSigma();
      zSig := [];
      for i := 0 to NSigma
        invariant zSig == RadarSigma(Xp, lib)[..i]
      {
        var column := RadarColumn(ColumnOf(XsigPred, i), lib);
        assert ColumnOf(XsigPred, i) == Xp[i];
        zSig := zSig + [column];
      }
    }

    /**
     * The lidar cross correlation Tc, innovation covariance S and innovation
     * z - z_pred, computed from the predicted sigma columns.
     */
    method LidarTerms(z: Vec) returns (Tc: Mat, S: Mat, zDiff: Vec)
      requires Valid() && |z| == 2
      ensures var Xp := PredSigma();
              Tc == Covariance(Xp, x, WrapAt(3), LidarSigma(Xp), LidarPrediction(Xp), NoWrap) &&
              S == LidarInnovationCov(Xp) && zDiff == Deviation(z, LidarPrediction(Xp), NoWrap)
    {
      var Xp := Columns(XsigPred);
      var zSig := LidarMeasurements();
      var zPred := MeanOf(zSig, 2);
      S := CovarianceOf(zSig, zPred, NoWrap, zSig, zPred, NoWrap);
      S := MatAdd(S, RLaser, 2, 2);
      Tc := CovarianceOf(Xp, x, WrapAt(3), zSig, zPred, NoWrap);
      zDiff := Deviate(z, zPred, NoWrap);
    }

    /** The lidar update: x_ and P_ become the Kalman correction for the position z. */
    method UpdateLidar(z: Vec, lib: MathLib)
      requires Valid() && |z| == 2
      modifies this
      ensures Valid() && Belief() == LidarUpdate(old(Belief()), PredSigma(), z, lib)
      ensures isInitialized == old(isInitialized) && timeUs == old(timeUs)
      ensures useLaser == old(useLaser) && useRadar == old(useRadar)
    {
      var Tc, S, zDiff := LidarTerms(z);
      ghost var Xp := PredSigma();
      LidarInnovationCovSymmetric(Xp);
      ApplyCorrection(Tc, S, zDiff, 2, lib);
    }

    /**
     * The radar cross correlation Tc, innovation covariance S and innovation
     * z - z_pred with its bearing normalised, computed from the predicted
     * sigma columns.
     */
    method RadarTerms(z: Vec, lib: MathLib) returns (Tc: Mat, S: Mat, zDiff: Vec)
      requires Valid() && |z| == 3
      ensures var Xp := PredSigma();
              Tc == Covariance(Xp, x, WrapAt(3), RadarSigma(Xp, lib), RadarPrediction(Xp, lib), WrapAt(1)) &&
              S == RadarInnovationCov(Xp, lib) && zDiff == Deviation(z, RadarPrediction(Xp, lib), WrapAt(1))
    {
      var Xp := Columns(XsigPred);
      var zSig := RadarMeasurements(lib);
      var zPred := MeanOf(zSig, 3);
      var bearing := NormalizeAngle(zPred[1]);
      zPred := zPred[1 := bearing];
      S := CovarianceOf(zSig, zPred, WrapAt(1), zSig, zPred, WrapAt(1));
      S := MatAdd(S, RRadar, 3, 3);
      Tc := CovarianceOf(Xp, x, WrapAt(3), zSig, zPred, WrapAt(1));
      zDiff := Deviate(z, zPred, WrapAt(1));
    }

    /** The radar update: x_ and P_ become the Kalman correction for (rho, phi, rho_dot). */
    method UpdateRadar(z: Vec, lib: MathLib)
      requires Valid() && |z| == 3
      modifies this
      ensures Valid() && Belief() == RadarUpdate(old(Belief()), PredSigma(), z, lib)
      ensures isInitialized == old(isInitialized) && timeUs == old(timeUs)
      ensures useLaser == old(useLaser) && useRadar == old(useRadar)
    {
      var Tc, S, zDiff := RadarTerms(z, lib);
      ghost var Xp := PredSigma();
      RadarInnovationCovSymmetric(Xp, lib);
      ApplyCorrection(Tc, S, zDiff, 3, lib);
    }

    /** The first measurement: x_ from the measurement, P_ the identity, the clock started. */
    method Seed(m: Measurement, lib: MathLib)
      requires Valid() && WellFormed(m)
      modifies this
      ensures Valid() && isInitialized && timeUs == m.timestamp
      ensures useLaser == old(useLaser) && useRadar == old(useRadar)
      ensures x == SeedState(m, lib) && P == Identity(NX)
    {
      x := SeedState(m, lib);
      P := Identity(NX);
      timeUs := m.timestamp;
      isInitialized := true;
    }

    /** The update for the measurement's sensor when that sensor is enabled; otherwise nothing. */
    method UpdateFor(m: Measurement, lib: MathLib)
      requires Valid() && WellFormed(m)
      modifies this
      ensures Valid() && isInitialized == old(isInitialized) && timeUs == old(timeUs)
      ensures useLaser == old(useLaser) && useRadar == old(useRadar)
      ensures Belief() == if m.sensor == Radar && useRadar then RadarUpdate(old(Belief()), PredSigma(), m.raw, lib)
                          else if m.sensor == Laser && useLaser then LidarUpdate(old(Belief()), PredSigma(), m.raw, lib)
                          else old(Belief())
    {
      if m.sensor == Radar && useRadar {
        UpdateRadar(m.raw, lib);
      } else if m.sensor == Laser && useLaser {
        UpdateLidar(m.raw, lib);
      }
    }

    /**
     * The first measurement seeds the state and the clock and returns; every
     * later one advances the clock, predicts, and updates only if its sensor
     * is enabled.
     */
    method ProcessMeasurement(m: Measurement, lib: MathLib)
      requires Valid() && WellFormed(m)
      modifies this, XsigAug, XsigPred
      ensures Valid() && isInitialized && timeUs == m.timestamp
      ensures useLaser == old(useLaser) && useRadar == old(useRadar)
      ensures !old(isInitialized) ==>
                x == SeedState(m, lib) && P == Identity(NX) && unchanged(XsigAug, XsigPred)
      ensures old(isInitialized) ==>
                var dt := ElapsedSeconds(old(timeUs), m.timestamp);
                PredSigma() == PredictedColumns(old(Belief()), dt, eps, lib) &&
                Belief() == Posterior(old(Belief()), m, dt, eps, useLaser, useRadar, lib)
    {
      if !isInitialized {
        Seed(m, lib);
        return;
      }
      ghost var before := Belief();
      var dt := (m.timestamp - timeUs) as real / 1000000.0;
      assert dt == ElapsedSeconds(timeUs, m.timestamp);
      timeUs := m.timestamp;
      Prediction(dt, lib);
      ghost var Xp := PredSigma();
      assert Xp == PredictedColumns(before, dt, eps, lib);
      assert Belief() == Prior(Xp);
      UpdateFor(m, lib);
    }
  }
}
