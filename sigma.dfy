/**
 * The unscented-transform algebra of the CTRV filter, as pure functions:
 * weights, augmentation, the sigma-point layout, CTRV propagation, the
 * predicted mean and covariance, the two measurement models and the
 * Kalman correction. The UKF class computes exactly these with loops.
 */
module Sigma {

  import opened LinAlg
  import opened Angles
  import opened Numerics

  /** State dimension: (px, py, v, yaw, yaw rate). */
  const NX: nat := 5
  /** Augmented dimension: the state and the two acceleration noises. */
  const NAug: nat := NX + 2
  /** Spreading parameter. */
  const Lambda: int := 3 - NAug
  /** Number of sigma points. */
  const NSigma: nat := 2 * NAug + 1

  /** Process noise standard deviations (longitudinal, yaw acceleration). */
  const StdA: real := 3.0
  const StdYawdd: real := 0.5
  /** Laser and radar measurement noise standard deviations. */
  const StdLasPx: real := 0.15
  const StdLasPy: real := 0.15
  const StdRadR: real := 0.3
  const StdRadPhi: real := 0.03
  const StdRadRd: real := 0.3

  const RLaser: Mat := [[StdLasPx * StdLasPx, 0.0], [0.0, StdLasPy * StdLasPy]]
  const RRadar: Mat := [[StdRadR * StdRadR, 0.0, 0.0],
                        [0.0, StdRadPhi * StdRadPhi, 0.0],
                        [0.0, 0.0, StdRadRd * StdRadRd]]

  // ---------------------------------------------------------------- weights

  /**
   * Weight i for an augmented dimension n with lambda = 3 - n:
   * lambda / (lambda + n) for the centre, 0.5 / (n + lambda) otherwise.
   * Since lambda + n is always 3 these are (3 - n) / 3 and 1 / 6.
   */
  function Weight(n: nat, i: nat): (w: real)
    ensures i == 0 ==> w == (3.0 - n as real) / 3.0
    ensures i > 0 ==> w == 1.0 / 6.0
  {
    var lambda := (3 - n) as real;
    if i == 0 then lambda / (lambda + n as real) else 0.5 / (n as real + lambda)
  }

  function Weights(n: nat): (w: seq<real>)
    ensures |w| == 2 * n + 1
    ensures forall i :: 0 <= i < |w| ==> w[i] == Weight(n, i)
  {
    seq(2 * n + 1, i requires 0 <= i => Weight(n, i))
  }

  /** The sum of the first k weights. */
  function WeightTotal(n: nat, k: nat): real {
    if k == 0 then 0.0 else WeightTotal(n, k - 1) + Weight(n, k - 1)
  }

  lemma {:induction false} WeightTotalPrefix(n: nat, k: nat)
    requires 1 <= k
    ensures WeightTotal(n, k) == (3.0 - n as real) / 3.0 + (k - 1) as real / 6.0
  {
    if k > 1 {
      WeightTotalPrefix(n, k - 1);
    }
  }

  /** The 2n+1 weights sum to exactly one, for every augmented dimension n. */
  lemma WeightsSumToOne(n: nat)
    ensures WeightTotal(n, 2 * n + 1) == 1.0
  {
    WeightTotalPrefix(n, 2 * n + 1);
  }

  // ----------------------------------------------------------- augmentation

  /** x_aug: the state followed by the two zero-mean noises. */
  function AugmentState(x: Vec): (xa: Vec)
    ensures |xa| == |x| + 2
  {
    x + [0.0, 0.0]
  }

  /** P_aug: P in the top-left block, the two noise variances below, zero elsewhere. */
  function AugmentedCovariance(P: Mat): (Pa: Mat)
    requires IsMatrix(P, NX, NX)
    ensures IsMatrix(Pa, NAug, NAug)
  {
    seq(NAug, r requires 0 <= r < NAug =>
      seq(NAug, c requires 0 <= c < NAug =>
        if r < NX && c < NX then P[r][c]
        else if r == 5 && c == 5 then StdA * StdA
        else if r == 6 && c == 6 then StdYawdd * StdYawdd
        else 0.0))
  }

  /** P_aug is symmetric exactly when P is. */
  lemma AugmentedCovarianceSymmetric(P: Mat)
    requires IsMatrix(P, NX, NX)
    ensures IsSymmetric(AugmentedCovariance(P)) <==> IsSymmetric(P)
  {
    var Pa := AugmentedCovariance(P);
    if IsSymmetric(Pa) {
      forall r, c | 0 <= r < NX && 0 <= c < NX ensures P[r][c] == P[c][r] {
        assert Pa[r][c] == P[r][c] && Pa[c][r] == P[c][r];
      }
    }
  }

  /**
   * x_aug extends x with two zero noise means; P_aug is block diagonal: P in
   * the top-left 5x5 block, the two noise variances on the diagonal below it,
   * and zero off the blocks.
   */
  lemma AugmentedBlocks(x: Vec, P: Mat)
    requires |x| == NX && IsMatrix(P, NX, NX)
    ensures AugmentState(x)[..NX] == x && AugmentState(x)[5] == 0.0 && AugmentState(x)[6] == 0.0
    ensures forall r, c :: 0 <= r < NX && 0 <= c < NX ==> AugmentedCovariance(P)[r][c] == P[r][c]
    ensures AugmentedCovariance(P)[5][5] == 9.0 && AugmentedCovariance(P)[6][6] == 0.25
    ensures forall r, c :: 0 <= r < NAug && 0 <= c < NAug && (r >= NX || c >= NX) && r != c ==>
              AugmentedCovariance(P)[r][c] == 0.0
  {
  }

  /**
   * Sigma column j around xa: column 0 is xa, columns i+1 and i+1+n are xa
   * plus and minus c times column i of the factor A.
   */
  function SigmaColumn(xa: Vec, A: Mat, c: real, j: nat): (s: Vec)
    requires IsMatrix(A, |xa|, |xa|) && j < 2 * |xa| + 1
    ensures |s| == |xa|
  {
    var n := |xa|;
    if j == 0 then xa
    else if j <= n then Add(xa, Scale(c, Column(A, j - 1)))
    else Sub(xa, Scale(c, Column(A, j - 1 - n)))
  }

  /** The 2n+1 sigma columns around xa. */
  function SigmaLayout(xa: Vec, A: Mat, c: real): (X: seq<Vec>)
    requires IsMatrix(A, |xa|, |xa|)
    ensures |X| == 2 * |xa| + 1 && AllOfLength(X, |xa|)
    ensures forall j :: 0 <= j < |X| ==> X[j] == SigmaColumn(xa, A, c, j)
  {
    seq(2 * |xa| + 1, j requires 0 <= j < 2 * |xa| + 1 => SigmaColumn(xa, A, c, j))
  }

  /**
   * Columns X centred on xa in pairs: X[0] is xa, and X[i] and X[i+n] sum to
   * twice xa for 1 <= i <= n.
   */
  ghost predicate PairedAround(X: seq<Vec>, xa: Vec) {
    var n := |xa|;
    |X| == 2 * n + 1 && AllOfLength(X, n) && X[0] == xa &&
    forall i, r :: 1 <= i <= n && 0 <= r < n ==> PairSum(X, n, i, r) == 2.0 * xa[r]
  }

  /** Entry r of columns i and i+n added. */
  ghost function PairSum(X: seq<Vec>, n: nat, i: nat, r: nat): real
    requires i + n < |X| && r < |X[i]| && r < |X[i + n]|
  {
    X[i][r] + X[i + n][r]
  }

  /** Columns i+1 and i+1+n: the centre plus and minus the spread factor column i. */
  lemma SigmaColumnPair(xa: Vec, A: Mat, c: real, i: nat)
    requires IsMatrix(A, |xa|, |xa|) && i < |xa|
    ensures SigmaLayout(xa, A, c)[i + 1] == Add(xa, Scale(c, Column(A, i)))
    ensures SigmaLayout(xa, A, c)[i + 1 + |xa|] == Sub(xa, Scale(c, Column(A, i)))
  {
  }

  /** Each symmetric pair of sigma columns sums to twice the centre. */
  lemma SigmaPairsCancel(xa: Vec, A: Mat, c: real)
    requires IsMatrix(A, |xa|, |xa|)
    ensures PairedAround(SigmaLayout(xa, A, c), xa)
  {
    var n := |xa|;
    var X := SigmaLayout(xa, A, c);
    forall i, r | 1 <= i <= n && 0 <= r < n ensures PairSum(X, n, i, r) == 2.0 * xa[r] {
      var spread := Scale(c, Column(A, i - 1));
      assert X[i] == Add(xa, spread);
      assert X[i + n] == Sub(xa, spread);
      PlusMinus(xa, spread, r);
    }
  }

  lemma PlusMinus(a: Vec, s: Vec, r: nat)
    requires |a| == |s| && r < |a|
    ensures Add(a, s)[r] + Sub(a, s)[r] == 2.0 * a[r]
  {
  }

  /** sum_{i<k} X[1+i][r]: row r of the first k "plus" columns. */
  ghost function PlusColumns(X: seq<Vec>, r: nat, k: nat): real
    requires 1 + k <= |X| && forall j :: 0 <= j < |X| ==> r < |X[j]|
  {
    if k == 0 then 0.0 else PlusColumns(X, r, k - 1) + X[k][r]
  }

  /** sum_{i<k} X[n+1+i][r]: row r of the first k "minus" columns. */
  ghost function MinusColumns(X: seq<Vec>, n: nat, r: nat, k: nat): real
    requires n + 1 + k <= |X| && forall j :: 0 <= j < |X| ==> r < |X[j]|
  {
    if k == 0 then 0.0 else MinusColumns(X, n, r, k - 1) + X[n + k][r]
  }

  /** Row r of the weighted sum over the centre and the first k "plus" columns. */
  lemma {:induction false} PairedMeanUpper(X: seq<Vec>, xa: Vec, r: nat, k: nat)
    requires PairedAround(X, xa) && r < |xa| && k <= |xa|
    ensures RowSum(Weights(|xa|), X, |xa|, r, 1 + k)
         == Weight(|xa|, 0) * xa[r] + PlusColumns(X, r, k) / 6.0
  {
    if k > 0 {
      PairedMeanUpper(X, xa, r, k - 1);
      SideStep(X, xa, r, k);
    }
  }

  /** Adding a non-centre column adds a sixth of it. */
  lemma SideStep(X: seq<Vec>, xa: Vec, r: nat, j: nat)
    requires PairedAround(X, xa) && r < |xa| && 1 <= j < |X|
    ensures RowSum(Weights(|xa|), X, |xa|, r, j + 1)
         == RowSum(Weights(|xa|), X, |xa|, r, j) + 1.0 / 6.0 * X[j][r]
  {
  }

  /** Row r of the weighted sum once the first k "minus" columns are added as well. */
  lemma {:induction false} PairedMeanLower(X: seq<Vec>, xa: Vec, r: nat, k: nat)
    requires PairedAround(X, xa) && r < |xa| && k <= |xa|
    ensures RowSum(Weights(|xa|), X, |xa|, r, 1 + |xa| + k)
         == Weight(|xa|, 0) * xa[r] + PlusColumns(X, r, |xa|) / 6.0 + MinusColumns(X, |xa|, r, k) / 6.0
  {
    var n := |xa|;
    if k == 0 {
      PairedMeanUpper(X, xa, r, n);
    } else {
      assert 1 + n + (k - 1) == n + k;
      PairedMeanLower(X, xa, r, k - 1);
      SideStep(X, xa, r, n + k);
    }
  }

  /** k copies of 2a added up. */
  ghost function Doubled(a: real, k: nat): real {
    if k == 0 then 0.0 else Doubled(a, k - 1) + 2.0 * a
  }

  /** The first k plus columns and their minus partners add up to k times twice the centre. */
  lemma {:induction false} PairsAddUp(X: seq<Vec>, xa: Vec, r: nat, k: nat)
    requires PairedAround(X, xa) && r < |xa| && k <= |xa|
    ensures PlusColumns(X, r, k) + MinusColumns(X, |xa|, r, k) == Doubled(xa[r], k)
  {
    if k > 0 {
      PairsAddUp(X, xa, r, k - 1);
      PairCancels(X, xa, r, k);
    }
  }

  /** Row r of the k-th plus column and its minus partner add up to twice the centre. */
  lemma PairCancels(X: seq<Vec>, xa: Vec, r: nat, k: nat)
    requires PairedAround(X, xa) && r < |xa| && 1 <= k <= |xa|
    ensures X[k][r] + X[|xa| + k][r] == 2.0 * xa[r]
  {
    assert PairSum(X, |xa|, k, r) == 2.0 * xa[r];
  }

  lemma {:induction false} DoubledIsProduct(a: real, k: nat)
    ensures Doubled(a, k) == (k as real) * (2.0 * a)
  {
    if k > 0 {
      DoubledIsProduct(a, k - 1);
      assert ((k - 1) as real) * (2.0 * a) + 2.0 * a == (k as real) * (2.0 * a);
    }
  }

  lemma CenterWeight(n: nat, a: real)
    ensures Weight(n, 0) * a + Doubled(a, n) / 6.0 == a
  {
    DoubledIsProduct(a, n);
    var nr := n as real;
    assert (3.0 - nr) / 3.0 * a + nr * (2.0 * a) / 6.0 == a;
  }

  lemma PairedMeanRow(X: seq<Vec>, xa: Vec, r: nat)
    requires PairedAround(X, xa) && r < |xa|
    ensures RowSum(Weights(|xa|), X, |xa|, r, 2 * |xa| + 1) == xa[r]
  {
    var n := |xa|;
    PairedMeanLower(X, xa, r, n);
    PairsAddUp(X, xa, r, n);
    assert 1 + n + n == 2 * n + 1;
    CenterWeight(n, xa[r]);
  }

  /** Columns paired around xa have weighted mean xa. */
  lemma PairedMeanIsCenter(X: seq<Vec>, xa: Vec)
    requires PairedAround(X, xa)
    ensures WeightedSum(Weights(|xa|), X, |xa|, 2 * |xa| + 1) == xa
  {
    var n := |xa|;
    var W := Weights(n);
    forall r | 0 <= r < n ensures WeightedSum(W, X, n, 2 * n + 1)[r] == xa[r] {
      WeightedSumRow(W, X, n, r, 2 * n + 1);
      PairedMeanRow(X, xa, r);
    }
  }

  /** The symmetric pairs cancel: the weighted mean of the sigma columns is the centre. */
  lemma SigmaMeanIsCenter(xa: Vec, A: Mat, c: real)
    requires IsMatrix(A, |xa|, |xa|)
    ensures WeightedSum(Weights(|xa|), SigmaLayout(xa, A, c), |xa|, 2 * |xa| + 1) == xa
  {
    SigmaPairsCancel(xa, A, c);
    PairedMeanIsCenter(SigmaLayout(xa, A, c), xa);
  }

  /** The augmented sigma set the filter builds from x_ and P_. */
  function AugmentedSigma(x: Vec, P: Mat, lib: MathLib): (X: seq<Vec>)
    requires |x| == NX && IsMatrix(P, NX, NX)
    ensures |X| == NSigma && AllOfLength(X, NAug)
  {
    var A := Tabulate(lib.cholesky(AugmentedCovariance(P)), NAug, NAug);
    SigmaLayout(AugmentState(x), A, lib.sqrt((Lambda + NAug) as real))
  }

  /** The augmented sigma points are centred on x_aug, whatever the factor. */
  lemma AugmentedSigmaMean(x: Vec, P: Mat, lib: MathLib)
    requires |x| == NX && IsMatrix(P, NX, NX)
    ensures WeightedSum(Weights(NAug), AugmentedSigma(x, P, lib), NAug, NSigma) == AugmentState(x)
    ensures AugmentedSigma(x, P, lib)[0] == AugmentState(x)
  {
    var A := Tabulate(lib.cholesky(AugmentedCovariance(P)), NAug, NAug);
    SigmaMeanIsCenter(AugmentState(x), A, lib.sqrt((Lambda + NAug) as real));
  }

  // ------------------------------------------------------------------- CTRV

  function Abs(a: real): real {
    if a < 0.0 then -a else a
  }

  /**
   * One CTRV step of an augmented column (px, py, v, yaw, yawd, nu_a, nu_yawdd)
   * over dt seconds: the turning form when |yawd| > eps, the straight-line
   * form otherwise, then the noise terms.
   */
  function Ctrv(col: Vec, dt: real, eps: real, lib: MathLib): (p: Vec)
    requires |col| == NAug && eps > 0.0
    ensures |p| == NX
  {
    var px := col[0];
    var py := col[1];
    var v := col[2];
    var yaw := col[3];
    var yawd := col[4];
    var nuA := col[5];
    var nuYawdd := col[6];
    var pxP := if Abs(yawd) > eps then px + v / yawd * (lib.sin(yaw + yawd * dt) - lib.sin(yaw))
               else px + v * dt * lib.cos(yaw);
    var pyP := if Abs(yawd) > eps then py + v / yawd * (lib.cos(yaw) - lib.cos(yaw + yawd * dt))
               else py + v * dt * lib.sin(yaw);
    var yawP := yaw + yawd * dt;
    [pxP + 0.5 * nuA * dt * dt * lib.cos(yaw),
     pyP + 0.5 * nuA * dt * dt * lib.sin(yaw),
     v + nuA * dt,
     yawP + 0.5 * nuYawdd * dt * dt,
     yawd + nuYawdd * dt]
  }

  /**
   * Speed, yaw and yaw rate are polynomial in the column and dt and do not
   * depend on the trigonometric functions at all.
   */
  lemma CtrvKinematics(col: Vec, dt: real, eps: real, lib: MathLib, other: MathLib)
    requires |col| == NAug && eps > 0.0
    ensures Ctrv(col, dt, eps, lib)[2] == col[2] + col[5] * dt
    ensures Ctrv(col, dt, eps, lib)[3] == col[3] + col[4] * dt + 0.5 * col[6] * dt * dt
    ensures Ctrv(col, dt, eps, lib)[4] == col[4] + col[6] * dt
    ensures Ctrv(col, dt, eps, lib)[2..] == Ctrv(col, dt, eps, other)[2..]
  {
  }

  /**
   * The position rows: turning form exactly when |yawd| > eps, straight-line
   * form otherwise; both plus the acceleration term along the old heading.
   */
  lemma CtrvPosition(col: Vec, dt: real, eps: real, lib: MathLib)
    requires |col| == NAug && eps > 0.0
    ensures Abs(col[4]) > eps ==>
              Ctrv(col, dt, eps, lib)[0] == col[0] + col[2] / col[4] * (lib.sin(col[3] + col[4] * dt) - lib.sin(col[3]))
                                             + 0.5 * col[5] * dt * dt * lib.cos(col[3]) &&
              Ctrv(col, dt, eps, lib)[1] == col[1] + col[2] / col[4] * (lib.cos(col[3]) - lib.cos(col[3] + col[4] * dt))
                                             + 0.5 * col[5] * dt * dt * lib.sin(col[3])
    ensures Abs(col[4]) <= eps ==>
              Ctrv(col, dt, eps, lib)[0] == col[0] + (col[2] * dt + 0.5 * col[5] * dt * dt) * lib.cos(col[3]) &&
              Ctrv(col, dt, eps, lib)[1] == col[1] + (col[2] * dt + 0.5 * col[5] * dt * dt) * lib.sin(col[3])
  {
    var p := Ctrv(col, dt, eps, lib);
    var c, s := lib.cos(col[3]), lib.sin(col[3]);
    var travel, acc := col[2] * dt, 0.5 * col[5] * dt * dt;
    if Abs(col[4]) <= eps {
      assert p[0] == col[0] + travel * c + acc * c;
      assert p[1] == col[1] + travel * s + acc * s;
      Distribute(travel, acc, c);
      Distribute(travel, acc, s);
    }
  }

  /** A step of zero length leaves the state part of the column unchanged. */
  lemma CtrvZeroStep(col: Vec, eps: real, lib: MathLib)
    requires |col| == NAug && eps > 0.0
    ensures Ctrv(col, 0.0, eps, lib) == col[..NX]
  {
    var p := Ctrv(col, 0.0, eps, lib);
    var yaw, yawd := col[3], col[4];
    assert yaw + yawd * 0.0 == yaw;
    assert p[0] == col[0];
    assert p[1] == col[1];
    assert p[2] == col[2];
    assert p[3] == col[3];
    assert p[4] == col[4];
  }

  /** Xsig_pred: every column propagated on its own. */
  function PredictSigma(Xa: seq<Vec>, dt: real, eps: real, lib: MathLib): (Xp: seq<Vec>)
    requires AllOfLength(Xa, NAug) && eps > 0.0
    ensures |Xp| == |Xa| && AllOfLength(Xp, NX)
    ensures forall i :: 0 <= i < |Xa| ==> Xp[i] == Ctrv(Xa[i], dt, eps, lib)
  {
    seq(|Xa|, i requires 0 <= i < |Xa| => Ctrv(Xa[i], dt, eps, lib))
  }

  // --------------------------------------------------- mean and covariance

  /** Which component of a deviation, if any, is an angle to normalise. */
  datatype Wrap = NoWrap | WrapAt(k: nat)

  predicate Fits(w: Wrap, n: nat) {
    w.WrapAt? ==> w.k < n
  }

  /** v with component k normalised to [-Pi, Pi]. */
  function WrapComponent(v: Vec, k: nat): (u: Vec)
    requires k < |v|
    ensures |u| == |v| && -Pi <= u[k] <= Pi && SameDirection(v[k], u[k])
    ensures forall i :: 0 <= i < |v| && i != k ==> u[i] == v[i]
  {
    v[k := WrapAngle(v[k])]
  }

  /** col - center, with the angle component (if any) normalised. */
  function Deviation(col: Vec, center: Vec, w: Wrap): (d: Vec)
    requires |col| == |center| && Fits(w, |center|)
    ensures |d| == |center|
    ensures w.WrapAt? ==> -Pi <= d[w.k] <= Pi && SameDirection(col[w.k] - center[w.k], d[w.k])
    ensures forall i :: 0 <= i < |d| && (w.NoWrap? || i != w.k) ==> d[i] == col[i] - center[i]
  {
    match w
    case NoWrap => Sub(col, center)
    case WrapAt(k) => WrapComponent(Sub(col, center), k)
  }

  /** The deviation of every column. */
  function Deviations(cols: seq<Vec>, center: Vec, w: Wrap): (D: seq<Vec>)
    requires AllOfLength(cols, |center|) && Fits(w, |center|)
    ensures |D| == |cols| && AllOfLength(D, |center|)
    ensures forall i :: 0 <= i < |cols| ==> D[i] == Deviation(cols[i], center, w)
  {
    seq(|cols|, i requires 0 <= i < |cols| => Deviation(cols[i], center, w))
  }

  /** The weighted mean of the sigma columns. */
  function SigmaMean(cols: seq<Vec>, n: nat): (m: Vec)
    requires |cols| == NSigma && AllOfLength(cols, n)
    ensures |m| == n
  {
    WeightedSum(Weights(NAug), cols, n, NSigma)
  }

  /**
   * sum_i w_i * (X_i - xc) * (Z_i - zc)^T with the named angle components
   * normalised: the shape of P, S and Tc.
   */
  function Covariance(X: seq<Vec>, xc: Vec, xw: Wrap, Z: seq<Vec>, zc: Vec, zw: Wrap): (T: Mat)
    requires |X| == NSigma && |Z| == NSigma && AllOfLength(X, |xc|) && AllOfLength(Z, |zc|)
    requires Fits(xw, |xc|) && Fits(zw, |zc|)
    ensures IsMatrix(T, |xc|, |zc|)
  {
    WeightedCross(Weights(NAug), Deviations(X, xc, xw), Deviations(Z, zc, zw), |xc|, |zc|, NSigma)
  }

  /** A covariance of a set with itself is symmetric, whatever the columns and the centre. */
  lemma CovarianceSymmetric(X: seq<Vec>, c: Vec, w: Wrap)
    requires |X| == NSigma && AllOfLength(X, |c|) && Fits(w, |c|)
    ensures IsSymmetric(Covariance(X, c, w, X, c, w))
  {
    WeightedOuterSymmetric(Weights(NAug), Deviations(X, c, w), |c|, NSigma);
  }

  /** The predicted state: the weighted mean of the predicted sigma columns. */
  function PredictedMean(Xp: seq<Vec>): (x: Vec)
    requires |Xp| == NSigma && AllOfLength(Xp, NX)
    ensures |x| == NX
  {
    SigmaMean(Xp, NX)
  }

  /** The predicted covariance: weighted outer products of the yaw-normalised deviations. */
  function PredictedCovariance(Xp: seq<Vec>, x: Vec): (P: Mat)
    requires |Xp| == NSigma && AllOfLength(Xp, NX) && |x| == NX
    ensures IsMatrix(P, NX, NX)
  {
    Covariance(Xp, x, WrapAt(3), Xp, x, WrapAt(3))
  }

  lemma PredictedCovarianceSymmetric(Xp: seq<Vec>, x: Vec)
    requires |Xp| == NSigma && AllOfLength(Xp, NX) && |x| == NX
    ensures IsSymmetric(PredictedCovariance(Xp, x))
  {
    CovarianceSymmetric(Xp, x, WrapAt(3));
  }

  /** Row r of the weighted sum of k copies of p is the total weight times p[r]. */
  lemma {:induction false} EqualColumnsRow(n: nat, X: seq<Vec>, p: Vec, r: nat, k: nat)
    requires k <= |X| == 2 * n + 1 && AllOfLength(X, |p|) && r < |p|
    requires forall i :: 0 <= i < |X| ==> X[i] == p
    ensures RowSum(Weights(n), X, |p|, r, k) == WeightTotal(n, k) * p[r]
  {
    if k > 0 {
      EqualColumnsRow(n, X, p, r, k - 1);
      Distribute(WeightTotal(n, k - 1), Weight(n, k - 1), p[r]);
    }
  }

  /**
   * If every sigma column is the same point, the weighted mean is that point:
   * the weights sum to one.
   */
  lemma WeightedMeanOfEqualColumns(n: nat, X: seq<Vec>, p: Vec)
    requires |X| == 2 * n + 1 && AllOfLength(X, |p|)
    requires forall i :: 0 <= i < |X| ==> X[i] == p
    ensures WeightedSum(Weights(n), X, |p|, 2 * n + 1) == p
  {
    var m := WeightedSum(Weights(n), X, |p|, 2 * n + 1);
    forall r | 0 <= r < |p| ensures m[r] == p[r] {
      EqualColumnsMeanRow(n, X, p, r);
    }
  }

  lemma EqualColumnsMeanRow(n: nat, X: seq<Vec>, p: Vec, r: nat)
    requires |X| == 2 * n + 1 && AllOfLength(X, |p|) && r < |p|
    requires forall i :: 0 <= i < |X| ==> X[i] == p
    ensures WeightedSum(Weights(n), X, |p|, 2 * n + 1)[r] == p[r]
  {
    WeightsSumToOne(n);
    WeightedSumRow(Weights(n), X, |p|, r, 2 * n + 1);
    EqualColumnsRow(n, X, p, r, 2 * n + 1);
  }

  /**
   * The predicted mean is not normalised: when every predicted column has
   * yaw 4 (beyond Pi) the predicted mean has yaw 4 too.
   */
  lemma PredictedMeanYawUnwrapped(Xp: seq<Vec>)
    requires |Xp| == NSigma && AllOfLength(Xp, NX)
    requires forall i :: 0 <= i < NSigma ==> Xp[i] == [0.0, 0.0, 0.0, 4.0, 0.0]
    ensures PredictedMean(Xp)[3] == 4.0 > Pi
  {
    WeightedMeanOfEqualColumns(NAug, Xp, [0.0, 0.0, 0.0, 4.0, 0.0]);
  }

  // ---------------------------------------------------- measurement models

  /** Lidar sigma columns: rows 0 and 1 of the predicted sigma columns. */
  function LidarSigma(Xp: seq<Vec>): (Z: seq<Vec>)
    requires AllOfLength(Xp, NX)
    ensures |Z| == |Xp| && AllOfLength(Z, 2)
    ensures forall i :: 0 <= i < |Xp| ==> Z[i] == Xp[i][..2]
  {
    seq(|Xp|, i requires 0 <= i < |Xp| => [Xp[i][0], Xp[i][1]])
  }

  /** a / b, with the division by a zero range read as 0 (see README). */
  function Divide(a: real, b: real): real {
    if b == 0.0 then 0.0 else a / b
  }

  /** Radar measurement of one predicted column: range, bearing, range rate. */
  function RadarColumn(col: Vec, lib: MathLib): (z: Vec)
    requires |col| == NX
    ensures |z| == 3
  {
    var px := col[0];
    var py := col[1];
    var v := col[2];
    var yaw := col[3];
    var v1 := lib.cos(yaw) * v;
    var v2 := lib.sin(yaw) * v;
    [lib.sqrt(px * px + py * py),
     lib.atan2(py, px),
     Divide(px * v1 + py * v2, lib.sqrt(px * px + py * py))]
  }

  function RadarSigma(Xp: seq<Vec>, lib: MathLib): (Z: seq<Vec>)
    requires AllOfLength(Xp, NX)
    ensures |Z| == |Xp| && AllOfLength(Z, 3)
    ensures forall i :: 0 <= i < |Xp| ==> Z[i] == RadarColumn(Xp[i], lib)
  {
    seq(|Xp|, i requires 0 <= i < |Xp| => RadarColumn(Xp[i], lib))
  }

  // ------------------------------------------------------------ correction

  datatype Belief = Belief(x: Vec, P: Mat)

  ghost predicate WellShaped(b: Belief) {
    |b.x| == NX && IsMatrix(b.P, NX, NX)
  }

  /** The Kalman gain K = Tc * S^-1, with S^-1 supplied by the library. */
  function Gain(Tc: Mat, S: Mat, nz: nat, lib: MathLib): (K: Mat)
    requires IsMatrix(Tc, NX, nz) && IsMatrix(S, nz, nz)
    ensures IsMatrix(K, NX, nz)
  {
    MatMul(Tc, Tabulate(lib.inverse(S), nz, nz), NX, nz, nz)
  }

  /**
   * The correction step shared by both sensors, given the cross correlation
   * Tc, the innovation covariance S and the innovation: x + K * innovation
   * with yaw normalised, and P - K * S * K^T.
   */
  function Correct(b: Belief, Tc: Mat, S: Mat, innovation: Vec, nz: nat, lib: MathLib): (b': Belief)
    requires WellShaped(b) && IsMatrix(Tc, NX, nz) && IsMatrix(S, nz, nz) && |innovation| == nz
    ensures WellShaped(b') && -Pi <= b'.x[3] <= Pi
    ensures IsSymmetric(b.P) && IsSymmetric(S) ==> IsSymmetric(b'.P)
  {
    var K := Gain(Tc, S, nz, lib);
    CorrectionSymmetric(b.P, K, S, NX, nz);
    Belief(WrapComponent(Add(b.x, MatVec(K, innovation, NX)), 3),
           MatSub(b.P, MatMul(MatMul(K, S, NX, nz, nz), Transpose(K, NX, nz), NX, nz, NX), NX, NX))
  }

  /** Mean predicted lidar measurement. */
  function LidarPrediction(Xp: seq<Vec>): (z: Vec)
    requires |Xp| == NSigma && AllOfLength(Xp, NX)
    ensures |z| == 2
  {
    SigmaMean(LidarSigma(Xp), 2)
  }

  /** Lidar innovation covariance: weighted outer products of residuals plus R_laser. */
  function LidarInnovationCov(Xp: seq<Vec>): (S: Mat)
    requires |Xp| == NSigma && AllOfLength(Xp, NX)
    ensures IsMatrix(S, 2, 2)
  {
    var Z, zPred := LidarSigma(Xp), LidarPrediction(Xp);
    MatAdd(Covariance(Z, zPred, NoWrap, Z, zPred, NoWrap), RLaser, 2, 2)
  }

  /** The lidar update of a belief from the predicted sigma columns and a position z. */
  function LidarUpdate(b: Belief, Xp: seq<Vec>, z: Vec, lib: MathLib): (b': Belief)
    requires WellShaped(b) && |Xp| == NSigma && AllOfLength(Xp, NX) && |z| == 2
    ensures WellShaped(b') && -Pi <= b'.x[3] <= Pi
    ensures IsSymmetric(b.P) ==> IsSymmetric(b'.P)
  {
    LidarInnovationCovSymmetric(Xp);
    var Z, zPred := LidarSigma(Xp), LidarPrediction(Xp);
    Correct(b, Covariance(Xp, b.x, WrapAt(3), Z, zPred, NoWrap), LidarInnovationCov(Xp),
            Deviation(z, zPred, NoWrap), 2, lib)
  }

  /** Mean predicted radar measurement, bearing normalised. */
  function RadarPrediction(Xp: seq<Vec>, lib: MathLib): (z: Vec)
    requires |Xp| == NSigma && AllOfLength(Xp, NX)
    ensures |z| == 3 && -Pi <= z[1] <= Pi
  {
    WrapComponent(SigmaMean(RadarSigma(Xp, lib), 3), 1)
  }

  /** Radar innovation covariance: bearing-normalised residual outer products plus R_radar. */
  function RadarInnovationCov(Xp: seq<Vec>, lib: MathLib): (S: Mat)
    requires |Xp| == NSigma && AllOfLength(Xp, NX)
    ensures IsMatrix(S, 3, 3)
  {
    var Z, zPred := RadarSigma(Xp, lib), RadarPrediction(Xp, lib);
    MatAdd(Covariance(Z, zPred, WrapAt(1), Z, zPred, WrapAt(1)), RRadar, 3, 3)
  }

  /** The radar update of a belief from the predicted sigma columns and a measurement z. */
  function RadarUpdate(b: Belief, Xp: seq<Vec>, z: Vec, lib: MathLib): (b': Belief)
    requires WellShaped(b) && |Xp| == NSigma && AllOfLength(Xp, NX) && |z| == 3
    ensures WellShaped(b') && -Pi <= b'.x[3] <= Pi
    ensures IsSymmetric(b.P) ==> IsSymmetric(b'.P)
  {
    RadarInnovationCovSymmetric(Xp, lib);
    var Z, zPred := RadarSigma(Xp, lib), RadarPrediction(Xp, lib);
    Correct(b, Covariance(Xp, b.x, WrapAt(3), Z, zPred, WrapAt(1)), RadarInnovationCov(Xp, lib),
            Deviation(z, zPred, WrapAt(1)), 3, lib)
  }

  /** The lidar innovation covariance is symmetric. */
  lemma LidarInnovationCovSymmetric(Xp: seq<Vec>)
    requires |Xp| == NSigma && AllOfLength(Xp, NX)
    ensures IsSymmetric(LidarInnovationCov(Xp))
  {
    var Z, zPred := LidarSigma(Xp), LidarPrediction(Xp);
    CovarianceSymmetric(Z, zPred, NoWrap);
    SymmetricAdd(Covariance(Z, zPred, NoWrap, Z, zPred, NoWrap), RLaser, 2);
  }

  /** The radar innovation covariance is symmetric. */
  lemma RadarInnovationCovSymmetric(Xp: seq<Vec>, lib: MathLib)
    requires |Xp| == NSigma && AllOfLength(Xp, NX)
    ensures IsSymmetric(RadarInnovationCov(Xp, lib))
  {
    var Z, zPred := RadarSigma(Xp, lib), RadarPrediction(Xp, lib);
    CovarianceSymmetric(Z, zPred, WrapAt(1));
    SymmetricAdd(Covariance(Z, zPred, WrapAt(1), Z, zPred, WrapAt(1)), RRadar, 3);
  }
}
