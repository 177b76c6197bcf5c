# Unscented Kalman filter (CTRV) and running RMSE, modelled in Dafny

The modelled system tracks an object from lidar and radar measurements. It uses an
unscented Kalman filter over a constant-turn-rate-and-velocity (CTRV) state
`(px, py, v, yaw, yaw rate)`. It also scores the estimates with a running
root-mean-square error against the ground truth. The model covers the
discrete, exact part of that system, over Dafny's `real`:

- the filter object's life cycle. The first measurement seeds the state. Every later one
  advances the clock, predicts, and corrects only for an enabled sensor;
- the sigma-point machinery:
  - the weights;
  - the augmented state and covariance;
  - the symmetric layout of the 15 sigma columns;
  - CTRV propagation;
  - the weighted mean and covariance;
- the angle normalisation loops;
- the bookkeeping of the lidar and radar updates;
- the O(1) running RMSE and its batch reference.

The C math functions (`sin`, `cos`, `sqrt`, `atan2`) and the two Eigen
decompositions (Cholesky factor, matrix inverse) are passed in as a value of
type `Numerics.MathLib`. Every property below holds whatever those return, with one
exception: `Rmse.ExactEstimatesGiveZero` assumes the square root of 0 is 0.

Layout:

- `angles.dfy` (module `Angles`): the two `while` loops that bring an angle
  into `[-Pi, Pi]`, as one method proved against a closed form.
- `linalg.dfy` (module `LinAlg`): vectors and matrices as values. It has weighted sums
  of columns and of outer products, and symmetry of the latter.
- `numerics.dfy` (module `Numerics`): the library functions as a datatype.
- `sigma.dfy` (module `Sigma`): the unscented-transform algebra as pure
  functions, with the lemmas about it.
- `filter.dfy` (module `Filter`): the `UKF` class. `x` and `P` are fields, the
  two sigma buffers are `array2<real>`, and the weights are an `array<real>`.
  `AugmentSigmaPoints`, `PredictSigmaPoint`, `PredictMeanAndCovariance`, `Prediction`,
  `UpdateLidar` and `UpdateRadar` are proved to leave the fields equal to a `Sigma` or
  `Filter` function of the old state (`Filter.Prior` and `Filter.PredictedColumns` for the
  prediction). `Seed` is proved against `Filter.SeedState`, and `ProcessMeasurement`
  against `Filter.SeedState` and `Filter.Posterior`, which are built from those functions. `MeanOf`, `CovarianceOf`,
  `Deviate` and the measurement and term methods change nothing; they return values
  proved equal to `Sigma` functions.
- `rmse.dfy` (module `Rmse`): the `Tools` class with its accumulator fields.
  The batch computation is its specification.

## Model

| member | source | states |
|---|---|---|
| Angles.WrapAngle | src/ukf.cpp:233-234 | The normalised angle lies in [-Pi, Pi] and differs from the input by a whole number of turns. It is the input itself when that is already in range. |
| Angles.NormalizeAngle | src/ukf.cpp:233-234 | The two loops (subtract 2 Pi while above Pi, add 2 Pi while below -Pi) terminate and return exactly WrapAngle of the input. |
| LinAlg.WeightedOuterSymmetric | src/ukf.cpp:229-236 | A weighted sum of outer products d d^T is symmetric for any weights and deviations. |
| Sigma.Weight | src/ukf.cpp:59-72 | With lambda = 3 - n, the centre weight lambda/(lambda+n) is (3-n)/3 and every other weight 0.5/(n+lambda) is 1/6. |
| Sigma.Weights | src/ukf.cpp:67-72 | The weights vector has 2n+1 entries, and entry i is Weight(n, i). Their sum is stated by Sigma.WeightsSumToOne. |
| Sigma.WeightsSumToOne | src/ukf.cpp:67-72 | The 2n+1 weights sum to exactly 1 for every augmented dimension n, so for n = 7 as well. |
| Sigma.AugmentedBlocks | src/ukf.cpp:150-159 | x_aug is x followed by two zeros. P_aug has P in its top-left 5x5 block, 3^2 at (5,5), 0.5^2 at (6,6) and 0 elsewhere off the blocks. |
| Sigma.AugmentState | src/ukf.cpp:150-155 | Gives only the length, two more than x. Its contents are stated by Sigma.AugmentedBlocks. |
| Sigma.AugmentedCovariance | src/ukf.cpp:151-159 | Gives only the shape, 7x7. Its blocks are stated by Sigma.AugmentedBlocks, its symmetry by Sigma.AugmentedCovarianceSymmetric. |
| Sigma.AugmentedCovarianceSymmetric | src/ukf.cpp:156-159 | P_aug is symmetric if and only if P is. |
| Sigma.SigmaColumn | src/ukf.cpp:162-167 | Gives only the length of a column. The values of the columns are stated by Sigma.SigmaColumnPair. |
| Sigma.SigmaLayout | src/ukf.cpp:161-167 | There are 2n+1 columns of length n, and column j is SigmaColumn j. The pairing and the mean are stated by Sigma.SigmaPairsCancel and Sigma.SigmaMeanIsCenter. |
| Sigma.SigmaColumnPair | src/ukf.cpp:163-167 | Columns i+1 and i+1+n are x_aug plus and minus the spread times column i of the factor. |
| Sigma.SigmaPairsCancel | src/ukf.cpp:162-167 | Column 0 is x_aug, and each pair of columns i and i+n sums to twice x_aug, whatever the factor and the spread. |
| Sigma.SigmaMeanIsCenter | src/ukf.cpp:162-167 | The weighted mean of the sigma columns is x_aug, whatever the factor and the spread. |
| Sigma.AugmentedSigma | src/ukf.cpp:149-167 | Gives only the shape, 15 columns of length 7. Its mean and first column are stated by Sigma.AugmentedSigmaMean. |
| Sigma.AugmentedSigmaMean | src/ukf.cpp:149-167 | For the filter's own x and P, the augmented sigma points have weighted mean x_aug and first column x_aug, whatever the Cholesky factor. |
| Sigma.Ctrv | src/ukf.cpp:176-214 | Gives only the length, 5. The rows are stated by Sigma.CtrvKinematics, Sigma.CtrvPosition and Sigma.CtrvZeroStep. |
| Sigma.CtrvKinematics | src/ukf.cpp:197-207 | v' = v + nu_a dt, yaw' = yaw + yawd dt + nu_yawdd dt^2/2 and yawd' = yawd + nu_yawdd dt. These rows do not depend on the trigonometric functions. |
| Sigma.CtrvPosition | src/ukf.cpp:187-203 | px' and py' use the turning form exactly when abs(yawd) > EPS, and the straight-line form otherwise. Both add the acceleration term along the old heading. |
| Sigma.CtrvZeroStep | src/ukf.cpp:184-214 | A step with dt = 0 returns the state part of the column unchanged. |
| Sigma.PredictSigma | src/ukf.cpp:173-215 | Predicted column i is the CTRV image of augmented column i alone. |
| Sigma.WrapComponent | src/ukf.cpp:311-312 | Only the chosen component changes. It ends up in [-Pi, Pi], pointing the same way. |
| Sigma.Deviation | src/ukf.cpp:231-234 | The residual col - center, with the angle component (if any) in [-Pi, Pi] and a whole number of turns from the raw difference. The other components are untouched. |
| Sigma.Deviations | src/ukf.cpp:229-234 | One deviation per column: entry i is Deviation of column i from the centre, so only the named angle component is normalised. |
| Sigma.SigmaMean | src/ukf.cpp:223-226 | Gives only the length of the mean. The same weighted sum gives z_pred at lines 270-272 and 345-347. Sigma.SigmaMeanIsCenter and Sigma.WeightedMeanOfEqualColumns state what this weighted sum computes, and Filter.UKF.MeanOf that the loop computes it. |
| Sigma.Covariance | src/ukf.cpp:227-236 | Gives only the shape. The same form gives S and Tc at lines 277-281, 291-302, 354-363 and 372-387. Sigma.CovarianceSymmetric states its symmetry, and Filter.UKF.CovarianceOf that the loop computes it. |
| Sigma.PredictedMean | src/ukf.cpp:223-226 | Gives only the length, 5. Sigma.WeightedMeanOfEqualColumns and Sigma.PredictedMeanYawUnwrapped state what it computes. |
| Sigma.PredictedCovariance | src/ukf.cpp:227-236 | Gives only the shape, 5x5. Its symmetry is stated by Sigma.PredictedCovarianceSymmetric. |
| Sigma.CovarianceSymmetric | src/ukf.cpp:229-236 | The covariance of a sigma set with itself is symmetric, with or without angle normalisation. |
| Sigma.PredictedCovarianceSymmetric | src/ukf.cpp:227-238 | The predicted P is symmetric for any predicted sigma columns. |
| Sigma.WeightedMeanOfEqualColumns | src/ukf.cpp:223-226 | If all 2n+1 columns are the same point, their weighted mean is that point. |
| Sigma.PredictedMeanYawUnwrapped | src/ukf.cpp:223-237 | The predicted mean is not normalised. Columns all with yaw 4 give a predicted x with yaw 4 > Pi. |
| Sigma.LidarSigma | src/ukf.cpp:258-266 | Lidar measurement column i is rows 0 and 1 of predicted column i. |
| Sigma.RadarColumn | src/ukf.cpp:329-340 | Gives only the length, 3. Sigma.RadarSigma states that it is applied to each predicted column alone. |
| Sigma.RadarSigma | src/ukf.cpp:326-341 | Radar measurement column i is the range, bearing and range rate of predicted column i alone. |
| Sigma.LidarPrediction | src/ukf.cpp:267-272 | Gives only the length, 2. Filter.UKF.LidarTerms states that the filter's loop computes it. |
| Sigma.LidarInnovationCov | src/ukf.cpp:274-284 | Gives only the shape, 2x2. Its symmetry is stated by Sigma.LidarInnovationCovSymmetric. |
| Sigma.RadarInnovationCov | src/ukf.cpp:351-365 | Gives only the shape, 3x3. Its symmetry is stated by Sigma.RadarInnovationCovSymmetric. |
| Sigma.Gain | src/ukf.cpp:304 | Gives only the shape, 5 by the measurement size. Its part in keeping P symmetric is stated by LinAlg.CorrectionSymmetric. |
| Sigma.RadarPrediction | src/ukf.cpp:343-349 | The mean predicted radar measurement has its bearing in [-Pi, Pi]. |
| Sigma.Correct | src/ukf.cpp:303-312 | The corrected belief keeps its dimensions and ends with yaw in [-Pi, Pi]. P - K S K^T is symmetric when P and S are. |
| Sigma.LidarUpdate | src/ukf.cpp:251-313 | The lidar update keeps the dimensions and ends with yaw in [-Pi, Pi]. A symmetric P stays symmetric. |
| Sigma.RadarUpdate | src/ukf.cpp:319-403 | The radar update keeps the dimensions and ends with yaw in [-Pi, Pi]. A symmetric P stays symmetric. |
| Sigma.LidarInnovationCovSymmetric | src/ukf.cpp:274-284 | The lidar innovation covariance S, including the noise R_laser_, is symmetric. |
| Sigma.RadarInnovationCovSymmetric | src/ukf.cpp:351-365 | The radar innovation covariance S is symmetric, with the bearing normalised in each deviation and R_radar_ added. |
| LinAlg.BilinearSymmetric | src/ukf.cpp:310 | For a symmetric S, a^T S b equals b^T S a. |
| LinAlg.SandwichSymmetric | src/ukf.cpp:310 | K S K^T is symmetric for any K whenever S is. |
| LinAlg.CorrectionSymmetric | src/ukf.cpp:310 | P - K S K^T is symmetric whenever P and S are. |
| Filter.SeedState | src/ukf.cpp:95-111 | The seeded state has zero yaw and yaw rate. A lidar seed is (z0, z1, 0, 0, 0). |
| Filter.ElapsedSeconds | src/ukf.cpp:126 | The step in seconds, times 10^6, is the timestamp difference in microseconds. It is non-negative exactly when the later timestamp is not earlier. |
| Filter.Prior | src/ukf.cpp:237-238 | Gives only the shape of the belief, the predicted mean and covariance. Filter.UKF.PredictMeanAndCovariance states that x_ and P_ become it. |
| Filter.PredictedColumns | src/ukf.cpp:241-244 | Gives only the shape, 15 columns of length 5. Filter.UKF.Prediction states that Xsig_pred_ becomes it. |
| Filter.Posterior | src/ukf.cpp:126-136 | Gives only the shape of the belief. Filter.UKF.ProcessMeasurement states that the object follows it after every non-seeding measurement. |
| Filter.StoreSigmaLayout | src/ukf.cpp:162-167 | The buffer afterwards holds exactly SigmaLayout: the centre, then each column of the factor added and subtracted. |
| Filter.Deviate | src/ukf.cpp:231-234 | A residual followed by the normalisation loops on its angle component equals Deviation. |
| Filter.UKF.constructor | src/ukf.cpp:18-83 | Both sensors are enabled, the filter is not yet initialised, and the weights array holds Weight(7, i). |
| Filter.UKF.AugmentSigmaPoints | src/ukf.cpp:149-168 | Xsig_aug_ afterwards holds exactly the augmented sigma columns of x_ and P_. |
| Filter.UKF.PredictSigmaPoint | src/ukf.cpp:170-216 | Xsig_pred_ afterwards holds the CTRV image of each column of Xsig_aug_, which is left as it was. |
| Filter.UKF.MeanOf | src/ukf.cpp:223-226 | The accumulation loop returns the weighted mean of the columns. |
| Filter.UKF.CovarianceOf | src/ukf.cpp:227-236 | The accumulation loop returns the weighted sum of outer products of the normalised deviations. |
| Filter.UKF.PredictMeanAndCovariance | src/ukf.cpp:217-240 | x_ and P_ become the weighted mean and covariance of Xsig_pred_. Nothing else changes. |
| Filter.UKF.Prediction | src/ukf.cpp:241-245 | The three prediction steps in turn. The new belief is the prior of the sigma columns predicted from the old belief. |
| Filter.UKF.LidarMeasurements | src/ukf.cpp:258-266 | The loop returns exactly LidarSigma of Xsig_pred_. |
| Filter.UKF.RadarMeasurements | src/ukf.cpp:326-341 | The loop returns exactly RadarSigma of Xsig_pred_. |
| Filter.UKF.LidarTerms | src/ukf.cpp:267-307 | Returns Tc, S and z - z_pred as the lidar covariance functions give them. Yaw is normalised in the state deviations, and nothing in the measurement deviations. |
| Filter.UKF.RadarTerms | src/ukf.cpp:342-395 | Returns Tc, S and z - z_pred as the radar covariance functions give them. z_pred is normalised, yaw is normalised in the state deviations, and the bearing in the measurement deviations. |
| Filter.UKF.ApplyCorrection | src/ukf.cpp:303-312 | x_ and P_ become the Kalman correction for the given Tc, S and innovation, with yaw normalised. |
| Filter.UKF.UpdateLidar | src/ukf.cpp:251-313 | x_ and P_ become LidarUpdate of the old belief, the predicted sigma columns and z. |
| Filter.UKF.UpdateRadar | src/ukf.cpp:319-403 | x_ and P_ become RadarUpdate of the old belief, the predicted sigma columns and z. |
| Filter.UKF.Seed | src/ukf.cpp:92-124 | x_ becomes SeedState, P_ the identity, the time is recorded and the filter is initialised. The sensor switches stay as they were. |
| Filter.UKF.UpdateFor | src/ukf.cpp:129-136 | The belief becomes the radar update for an enabled radar measurement, the lidar update for an enabled lidar measurement, and stays as it was otherwise. |
| Filter.UKF.ProcessMeasurement | src/ukf.cpp:91-141 | The first call seeds x_ and sets P_ to the identity, records the time and predicts nothing. Every later call advances the clock by (ts - old)/1e6 s and always predicts. It applies the radar or lidar update only when that sensor is enabled. The invariant, which includes a symmetric P_, holds after every call. |
| Rmse.BatchSum | src/tools.cpp:27-35 | Gives only the length, 4. Its components are non-negative (Rmse.BatchSumNonNegative), and the running sum matches it (Rmse.RunReflects). |
| Rmse.BatchRmse | src/tools.cpp:15-44 | Gives only the length, 4. It is the reference that Rmse.IncrementalIsBatch equates the running result with. |
| Rmse.Compensated | src/tools.cpp:68-70 | Gives only the length, 4. Rmse.StepReflects keeps the compensation term at 0 from call to call, so this is the plain squared residual. |
| Rmse.RunningSum | src/tools.cpp:64-71 | Gives only the length, 4. It becomes lastmse, which Rmse.StepReflects states is the batch sum over t pairs. |
| Rmse.Run | src/tools.cpp:64-78 | Gives only the shape of the accumulators after one call per appended pair. Rmse.RunReflects states that they match the batch. |
| Rmse.ExceedsTolerance | src/tools.cpp:84-87 | With no warning, every component is at most .40, the loosest tolerance. With every component at most .09, the tightest, there is no warning. |
| Rmse.Step | src/tools.cpp:64-78 | Gives only the shape of the accumulators. What one call does to them is stated by Rmse.StepReflects. |
| Rmse.StepReflects | src/tools.cpp:64-78 | One call turns accumulators that match the batch over t-1 pairs into ones that match it over t pairs. lastmse is the running sum, kahanerror stays 0 and mse is the mean. |
| Rmse.RunReflects | src/tools.cpp:64-78 | Starting from zero with one call per pair, after k calls lastmse is the sum of squared residuals, kahanerror is 0 and mse is their mean. |
| Rmse.IncrementalIsBatch | src/tools.cpp:14-81 | The running RMSE equals the batch RMSE of the commented-out loop when the histories have equal, non-zero length. |
| Rmse.BatchSumNonNegative | src/tools.cpp:28-35 | Every component of the sum of squared residuals is at least 0. |
| Rmse.ExactEstimatesGiveZero | src/tools.cpp:68-81 | When every estimate equals its ground truth, every component of the RMSE is 0, given sqrt(0) = 0. |
| Rmse.Tools.constructor | src/tools.cpp:8 | The accumulators start at zero. |
| Rmse.Tools.CalculateRMSE | src/tools.cpp:46-95 | The fields follow the fixed update sequence and the result is the root of mse. The size-mismatch flag holds iff the lengths differ, and the tolerance flag iff a component exceeds .09, .10, .40 or .30. Matching the batch over t-1 pairs beforehand implies matching it over t pairs afterwards. |

## Left out

- IEEE-754 rounding is not modelled. All arithmetic is exact over `real`. This includes
  `float t` in the RMSE. The Kahan compensation is therefore provably zero, and its
  purpose (reducing rounding error) is not captured.
- `sin`, `cos`, `sqrt`, `atan2`, the Cholesky factor and the matrix inverse are
  arbitrary functions supplied by the caller. No property of theirs (accuracy,
  `L L^T = P`, `S S^-1 = I`) is assumed.
- Sigma.Correct: the model proves that P stays symmetric after `P - K S K^T`. It does
  not prove that P stays positive semi-definite, because that needs the inverse and
  the factor to be exact.
- Sigma.RadarColumn: a range of zero would make the range-rate division produce an
  IEEE infinity or NaN. The model reads that quotient as 0.
- EPS is defined in a header that is not part of this model. It is a
  constructor parameter `eps > 0`.
- `lambda_` is declared in a header that is not part of this model. It is taken
  to be a floating-point member, so the weights are -4/3 and 1/6.
- Angles.NormalizeAngle: over `real` the loops always end. In doubles they never end
  for an infinite angle, nor for one so large (about 2^56 in magnitude) that subtracting
  2 Pi rounds back to the same value. The model does not capture this.
- The range reached by the normalisation loops is the closed `[-Pi, Pi]`, as the code's
  strict comparisons give. It is not the half-open range a reader might expect.
- Console output is not modelled: the state dump after every measurement and the three RMSE
  messages. The size-mismatch message and the tolerance warning are returned as booleans.
  The message for an empty history cannot arise, because `Rmse.Tools.CalculateRMSE`
  requires at least one estimate (see its line below).
- Rmse.Tools.constructor: the source constructor leaves the Eigen accumulators
  uninitialised. The model starts them at zero, which the batch equivalence needs.
- Filter.UKF.constructor: `x_` and `P_` are uninitialised 5-vectors and 5x5 matrices in
  the source. The model starts them at zero; the first measurement overwrites both.
- Filter.UKF.CovarianceOf: in the two symmetric covariances (P and S) the loop forms
  the deviation once per factor. The source forms it once and uses it for both
  factors. The values are the same.
- Rmse.Tools.CalculateRMSE: histories shorter than one element, and a ground truth
  shorter than the estimates, are excluded by `requires`. In the source they index out
  of bounds.
- Measurement transport, `main` and the simulator are not modelled. A measurement package is
  a sensor kind, an integer timestamp in microseconds and its raw values.
