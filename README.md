# Motion filters of `nbdev_minmotion_filters`, modelled in Dafny

This project models two parts of `nbdev_minmotion_filters`:

1. The attitude filters in `ahrs_madwick_mahony.py`:
   - the `Quaternion` class: construction, conjugate, Hamilton and scalar products, addition, indexing and the rotation matrix;
   - the gradient-descent update of `MadgwickAHRS` (`update` and `update_imu`): the objective `f`, its Jacobian `j`, the normalised step `jᵀ f` and the integration of `qdot`;
   - the proportional-integral update of `MahonyAHRS.update_imu`.
2. The sliding-window `MeanAndSpreadFilter` in `mean_and_spread_filter.py`. It keeps a running mean and spread over the last `N` samples in a circular buffer. While the buffer fills up it applies Welford's formulas. Once the buffer is full, each new sample replaces the oldest one.

All arithmetic is over Dafny's exact `real`. `numpy.linalg.norm` is the square root of the sum of squares. It is taken as a parameter `sqrt` that satisfies `Numerics.IsSqrt` (non-negative, and its square is its argument). numpy gives `0/0 = NaN` when a zero vector is normalised. This is modelled by the datatype `Num<T> = Finite(value) | NaN`, and NaN stays NaN through every later operation.

Files:
- `wrappers.dfy`: `Option` (Python's `None` defaults) and `Result` (Python exceptions).
- `numerics.dfy`: the square-root contract and a few facts about squares.
- `vectors.dfy`: three-vectors, `numpy.cross`, normalisation and 3×3 matrices.
- `quaternion.dfy`: the `Quaternion` class and its algebra.
- `madgwick.dfy`: `MadgwickAHRS`, as a class whose `quaternion` field each update rebinds.
- `mahony.dfy`: `MahonyAHRS`, as a class whose estimate and integral error each update replaces.
- `mean_and_spread_filter.dfy`: `MeanAndSpreadFilter`, in two forms:
  - a value-level specification (`Push`, `Run`, `Means`, `Variances`) and the properties proved about it;
  - a class that owns the circular buffer as an `array` and updates it in place, with each method proved against that specification.

## Model

| member | source | states |
|---|---|---|
| Quaternions.New | nbdev_minmotion_filters/ahrs_madwick_mahony.py:16-37 | One-argument construction: a quaternion is copied. An array succeeds exactly when it has four elements, and then the quaternion wraps that array. Any other length raises `ValueError`. A bare number (no length) raises `TypeError`. |
| Quaternions.NewToSeq | nbdev_minmotion_filters/ahrs_madwick_mahony.py:33-37 | Building from the wrapped array `[w, x, y, z]` gives back the same quaternion (round trip with `ToSeq`). |
| Quaternions.Conj | nbdev_minmotion_filters/ahrs_madwick_mahony.py:41-47 | `conj`: the quaternion `(w, -x, -y, -z)`. Its properties are stated by `ConjProperties`, `MulConj` and `ConjMul`. |
| Quaternions.ConjProperties | nbdev_minmotion_filters/ahrs_madwick_mahony.py:41-47 | `conj` keeps `w`, negates `x, y, z`, and applying it twice gives back the original. It keeps the norm, and `q + conj(q)` is the real quaternion `(2w, 0, 0, 0)`. |
| Quaternions.Add | nbdev_minmotion_filters/ahrs_madwick_mahony.py:138-151 | `+` with a quaternion is element-wise. With an array it succeeds exactly when the array has four elements, and each component is then the sum. Any other operand raises `TypeError`. |
| Quaternions.At | nbdev_minmotion_filters/ahrs_madwick_mahony.py:163-164 | `q[i]` succeeds exactly for `-4 <= i < 4`. A negative index counts from the end. Other indices raise `IndexError`. |
| Quaternions.NormSqZero | nbdev_minmotion_filters/ahrs_madwick_mahony.py:244 | The squared norm is non-negative and is zero exactly at the zero quaternion, which is the only input the final normalisation turns into NaN. |
| Quaternions.Normalised | nbdev_minmotion_filters/ahrs_madwick_mahony.py:244 | `q / norm(q)` is finite exactly when `q` is nonzero. It then has unit norm, and scaling it back by the norm gives `q`. |
| Quaternions.NormalisedUnit | nbdev_minmotion_filters/ahrs_madwick_mahony.py:244 | Normalising a unit quaternion leaves it unchanged. |
| Quaternions.Mul | nbdev_minmotion_filters/ahrs_madwick_mahony.py:127-133 | `__mul__` with a quaternion: the Hamilton product, component by component. Its algebra is stated by `MulScalarVector`, `MulIdentity`, `MulAssociative`, `MulCommutator`, `MulCommutes` and `NormSqMul`. |
| Quaternions.MulScalarVector | nbdev_minmotion_filters/ahrs_madwick_mahony.py:127-131 | In scalar-vector form, the product has real part `a.w b.w - a·b` and vector part `a.w b + b.w a + a × b`. |
| Quaternions.NormSqMul | nbdev_minmotion_filters/ahrs_madwick_mahony.py:127-131 | The squared norm of a product is the product of the squared norms. |
| Quaternions.ScalarMul | nbdev_minmotion_filters/ahrs_madwick_mahony.py:134-136 | `__mul__` with a number scales every component. Its properties are stated by `ScalarMulIsProduct` and `NormSqScale`. |
| Quaternions.NormSqScale | nbdev_minmotion_filters/ahrs_madwick_mahony.py:134-136 | Scaling by `s` multiplies the squared norm by `s²`. |
| Quaternions.Plus | nbdev_minmotion_filters/ahrs_madwick_mahony.py:147-149 | The element-wise sum of the two four-element arrays. `Add` states the whole of `__add__` through it. |
| Quaternions.ScalarMulIsProduct | nbdev_minmotion_filters/ahrs_madwick_mahony.py:134-136 | Multiplying by a number scales every component. This is the Hamilton product with the real quaternion `(s, 0, 0, 0)`, on either side. |
| Quaternions.MulIdentity | nbdev_minmotion_filters/ahrs_madwick_mahony.py:127-133 | `(1, 0, 0, 0)` is a two-sided unit of the Hamilton product. |
| Quaternions.MulAssociative | nbdev_minmotion_filters/ahrs_madwick_mahony.py:127-133 | The Hamilton product is associative. |
| Quaternions.MulCommutator | nbdev_minmotion_filters/ahrs_madwick_mahony.py:127-133 | `a b` and `b a` have the same real part, and their vector parts differ by twice the cross product of the vector parts. |
| Quaternions.MulCommutes | nbdev_minmotion_filters/ahrs_madwick_mahony.py:127-133 | Two quaternions commute if and only if the cross product of their vector parts is zero. |
| Quaternions.MulNotCommutative | nbdev_minmotion_filters/ahrs_madwick_mahony.py:127-133 | `i j = k` but `j i = -k`: the product is not commutative. |
| Quaternions.MulConj | nbdev_minmotion_filters/ahrs_madwick_mahony.py:41-47 | `q * conj(q)` and `conj(q) * q` are both `(w²+x²+y²+z², 0, 0, 0)`. |
| Quaternions.ConjMul | nbdev_minmotion_filters/ahrs_madwick_mahony.py:41-47 | The conjugate of a product is the product of the conjugates in reverse order. |
| Quaternions.RotMat | nbdev_minmotion_filters/ahrs_madwick_mahony.py:66-95 | `quatern2rotMat`: the nine entries of the matrix. Its properties are stated by `RotMatIdentity`, `RotMatConj`, `RotMatOrthogonal`, `RotMatTrace` and the row lemmas. |
| Quaternions.RotMatTrace | nbdev_minmotion_filters/ahrs_madwick_mahony.py:66-95 | For a unit quaternion the trace is `4 w² - 1`, that is `1 + 2 cos θ` for the rotation angle θ. |
| Quaternions.RotMatIdentity | nbdev_minmotion_filters/ahrs_madwick_mahony.py:66-95 | `quatern2rotMat` of `(1, 0, 0, 0)` is the identity matrix. |
| Quaternions.RotMatConj | nbdev_minmotion_filters/ahrs_madwick_mahony.py:66-95 | The rotation matrix of `conj(q)` is the transpose of that of `q`. |
| Quaternions.RotMatOrthogonal | nbdev_minmotion_filters/ahrs_madwick_mahony.py:66-95 | For a unit quaternion, `R Rᵀ = I`. |
| Quaternions.RotRow0Unit | nbdev_minmotion_filters/ahrs_madwick_mahony.py:75-77 | For a unit quaternion, row 0 of the rotation matrix has unit length. |
| Quaternions.RotRow1Unit | nbdev_minmotion_filters/ahrs_madwick_mahony.py:83-85 | For a unit quaternion, row 1 has unit length. |
| Quaternions.RotRow2Unit | nbdev_minmotion_filters/ahrs_madwick_mahony.py:91-93 | For a unit quaternion, row 2 has unit length. |
| Quaternions.RotRows01Orthogonal | nbdev_minmotion_filters/ahrs_madwick_mahony.py:75-85 | For a unit quaternion, rows 0 and 1 are orthogonal. |
| Quaternions.RotRows02Orthogonal | nbdev_minmotion_filters/ahrs_madwick_mahony.py:75-93 | For a unit quaternion, rows 0 and 2 are orthogonal. |
| Quaternions.RotRows12Orthogonal | nbdev_minmotion_filters/ahrs_madwick_mahony.py:83-93 | For a unit quaternion, rows 1 and 2 are orthogonal. |
| Quaternions.Integrate | nbdev_minmotion_filters/ahrs_madwick_mahony.py:243-244 | `q + qdot * samplePeriod`, then normalised: the stored estimate is finite exactly when that sum is nonzero, and it then has unit norm. |
| Quaternions.GyroRate | nbdev_minmotion_filters/ahrs_madwick_mahony.py:240 | `½ q ⊗ (0, g)`, the rate of change of the estimate for the angular rate `g`, which both filters use. `GyroRateHalf` shows it is also the Mahony form of line 344. |
| Quaternions.GyroRateHalf | nbdev_minmotion_filters/ahrs_madwick_mahony.py:344 | `½ q ⊗ (0, g)` equals `q ⊗ (0, g/2)`, which is how `MahonyAHRS.update_imu` writes it. |
| Quaternions.GyroRateOfZero | nbdev_minmotion_filters/ahrs_madwick_mahony.py:344 | A zero angular rate gives a zero rate of change. |
| Quaternions.AdvanceIsProduct | nbdev_minmotion_filters/ahrs_madwick_mahony.py:243 | Following the gyroscope for `dt` is a product: `q + dt ½ q ⊗ (0, g) = q ⊗ (1, dt g/2)`. |
| Quaternions.AdvanceGrows | nbdev_minmotion_filters/ahrs_madwick_mahony.py:243 | Following the gyroscope for `dt` never shrinks the norm of the estimate, so a nonzero estimate stays nonzero. |
| Quaternions.UnitRealPartGrows | nbdev_minmotion_filters/ahrs_madwick_mahony.py:127-131 | Multiplying by a quaternion of real part 1 never shrinks the squared norm, and a nonzero factor gives a nonzero product. |
| Vectors.Normalised3 | nbdev_minmotion_filters/ahrs_madwick_mahony.py:208-214 | `v / norm(v)` for a measurement is finite exactly when `v` is nonzero. It then has unit length and points along `v`. |
| Vectors.Cross | nbdev_minmotion_filters/ahrs_madwick_mahony.py:330 | `numpy.cross(a, b)` is orthogonal to both `a` and `b`. |
| Madgwick.ImuObjective | nbdev_minmotion_filters/ahrs_madwick_mahony.py:264-268 | `f` of `update_imu` has three rows, one per axis of gravity. |
| Madgwick.ImuJacobian | nbdev_minmotion_filters/ahrs_madwick_mahony.py:269-273 | `j` of `update_imu` has three rows of four entries. |
| Madgwick.MargObjective | nbdev_minmotion_filters/ahrs_madwick_mahony.py:220-227 | `f` of `update` has six rows. |
| Madgwick.MargJacobian | nbdev_minmotion_filters/ahrs_madwick_mahony.py:228-235 | `j` of `update` has six rows of four entries. |
| Madgwick.TransposeTimes | nbdev_minmotion_filters/ahrs_madwick_mahony.py:236 | `j.T.dot(f)`: the sum of the rows of `j`, each scaled by the matching entry of `f`. Its properties are stated by `TransposeTimesZero` and `MargStepSplits`. |
| Madgwick.ImuTaylor | nbdev_minmotion_filters/ahrs_madwick_mahony.py:264-273 | Each row of `j` is the gradient of the matching row of `f`: `f(q + d) = f(q) + j(q)·d + ½ j(d)·d` exactly, for every displacement `d`. |
| Madgwick.MargTaylor | nbdev_minmotion_filters/ahrs_madwick_mahony.py:220-235 | The same gradient identity for the six rows of `update`, with the field reference `b` held fixed. |
| Madgwick.MargExtendsImu | nbdev_minmotion_filters/ahrs_madwick_mahony.py:220-235 | The first three rows of the nine-axis `f` and `j` are the six-axis ones. |
| Madgwick.MargStepSplits | nbdev_minmotion_filters/ahrs_madwick_mahony.py:236 | The nine-axis step `jᵀ f` is the six-axis step plus the contribution of the three magnetic rows. |
| Madgwick.TransposeTimesZero | nbdev_minmotion_filters/ahrs_madwick_mahony.py:236 | When every entry of `f` is zero, the step `jᵀ f` is zero. |
| Madgwick.EarthField | nbdev_minmotion_filters/ahrs_madwick_mahony.py:216 | `h = q ⊗ (0, m) ⊗ q*`, the measured field in the Earth frame. `EarthFieldIdentity` states it at the reference attitude. |
| Madgwick.EarthFieldIdentity | nbdev_minmotion_filters/ahrs_madwick_mahony.py:216 | In the reference attitude, `h = q ⊗ (0, m) ⊗ q*` is the measured field itself. |
| Madgwick.ReferenceField | nbdev_minmotion_filters/ahrs_madwick_mahony.py:217 | `b = (0, norm(h[1:3]), 0, h[3])`. `ReferenceFieldKeepsLength` states its geometry. |
| Madgwick.ReferenceFieldKeepsLength | nbdev_minmotion_filters/ahrs_madwick_mahony.py:217 | `b = (0, norm(h[1:3]), 0, h[3])` lies in the x–z plane, points along +x, keeps the vertical part of `h`, and has the same length as the vector part of `h`. |
| Madgwick.Rate | nbdev_minmotion_filters/ahrs_madwick_mahony.py:240 | `qdot = ½ q ⊗ (0, g) - beta step`. `RateAdvanceNonzero` states when following it keeps the estimate nonzero. |
| Madgwick.RateAdvanceNonzero | nbdev_minmotion_filters/ahrs_madwick_mahony.py:240-244 | From a unit estimate, with a unit step and `-1 < beta dt < 1`, the sum `q + qdot dt` is never zero, so its normalisation is finite. |
| Madgwick.ImuDirection | nbdev_minmotion_filters/ahrs_madwick_mahony.py:264-274 | `jᵀ f` of `update_imu` for the normalised accelerometer. `ImuUpdate` and `ImuUpdateUnit` state when it is zero and what that does. |
| Madgwick.MargDirection | nbdev_minmotion_filters/ahrs_madwick_mahony.py:216-236 | `jᵀ f` of `update`, with the field reference computed from the normalised magnetometer. `MargUpdate` and `MargUpdateUnit` state when it is zero and what that does. |
| Madgwick.ImuUpdate | nbdev_minmotion_filters/ahrs_madwick_mahony.py:252-282 | The new estimate of `update_imu` is NaN or of unit norm. A NaN estimate or a zero accelerometer gives NaN, because the `is 0` guard never fires. A zero step direction `jᵀ f` gives NaN too. |
| Madgwick.ImuUpdateUnit | nbdev_minmotion_filters/ahrs_madwick_mahony.py:252-282 | The converse: a unit estimate, a nonzero accelerometer, a nonzero step direction and `-1 < beta samplePeriod < 1` give a finite, unit estimate. |
| Madgwick.MargUpdate | nbdev_minmotion_filters/ahrs_madwick_mahony.py:198-244 | The new estimate of `update` is NaN or of unit norm. A NaN estimate, a zero accelerometer, a zero magnetometer or a zero step direction `jᵀ f` gives NaN. |
| Madgwick.MargUpdateUnit | nbdev_minmotion_filters/ahrs_madwick_mahony.py:198-244 | The converse: a unit estimate, nonzero measurements, a nonzero step direction and `-1 < beta samplePeriod < 1` give a finite, unit estimate. |
| Madgwick.ImuAligned | nbdev_minmotion_filters/ahrs_madwick_mahony.py:264-275 | At `(1, 0, 0, 0)` with the accelerometer along z, every row of `f` is zero. The step then has norm zero and the new estimate is NaN. |
| Madgwick.MargStalls | nbdev_minmotion_filters/ahrs_madwick_mahony.py:216-244 | Suppose the unit measurements put the field along x in the Earth frame (`b = (0, 1, 0, 0)`) and all six rows of `f` vanish. Then `update` gives NaN. |
| Madgwick.ReferenceAligned | nbdev_minmotion_filters/ahrs_madwick_mahony.py:216-217 | A magnetometer along x in the reference attitude gives `b = (0, 1, 0, 0)`. |
| Madgwick.MargObjectiveAligned | nbdev_minmotion_filters/ahrs_madwick_mahony.py:220-227 | At `(1, 0, 0, 0)`, with gravity along z and `b = (0, 1, 0, 0)`, every row of the nine-axis `f` is zero, so `MargStalls` applies. |
| Madgwick.MadgwickAHRS.constructor | nbdev_minmotion_filters/ahrs_madwick_mahony.py:171-188 | Each argument left out takes its default: `1/256`, `(1, 0, 0, 0)` and `beta = 1`. |
| Madgwick.MadgwickAHRS.Update | nbdev_minmotion_filters/ahrs_madwick_mahony.py:190-244 | The estimate becomes `MargUpdate` of the old one, so it is NaN or of unit norm. |
| Madgwick.MadgwickAHRS.UpdateImu | nbdev_minmotion_filters/ahrs_madwick_mahony.py:246-282 | The estimate becomes `ImuUpdate` of the old one. A nonzero accelerometer array of the caller is normalised in place. |
| Mahony.GravityEstimate | nbdev_minmotion_filters/ahrs_madwick_mahony.py:326 | `v`, the direction of gravity predicted by the estimate. `GravityIsThirdColumn`, `GravityEstimateUnit` and `IdentityGravity` state its properties. |
| Mahony.GravityIsThirdColumn | nbdev_minmotion_filters/ahrs_madwick_mahony.py:326 | For a unit quaternion, the gravity estimate `v` is the third column of `quatern2rotMat`. |
| Mahony.GravityEstimateUnit | nbdev_minmotion_filters/ahrs_madwick_mahony.py:326 | For a unit quaternion, `v` is a unit vector. |
| Mahony.NormaliseIfPositive | nbdev_minmotion_filters/ahrs_madwick_mahony.py:321-323 | A zero accelerometer reading is passed on as it is. A nonzero one becomes the unit vector in the same direction. |
| Mahony.Error | nbdev_minmotion_filters/ahrs_madwick_mahony.py:330 | `e = numpy.cross(acc, v)` for the guarded-normalised reading. `ErrorOrthogonal`, `ErrorOfZeroReading` and `ErrorOfAgreement` state its properties. |
| Mahony.ErrorOrthogonal | nbdev_minmotion_filters/ahrs_madwick_mahony.py:330 | The error `e = acc × v` is orthogonal to the normalised measurement and to the estimate `v`. |
| Mahony.ErrorOfZeroReading | nbdev_minmotion_filters/ahrs_madwick_mahony.py:321-330 | A zero accelerometer reading gives `e = 0`. |
| Mahony.ErrorOfAgreement | nbdev_minmotion_filters/ahrs_madwick_mahony.py:321-330 | A measurement equal to the estimated gravity of a unit quaternion gives `e = 0`. |
| Mahony.IntegralError | nbdev_minmotion_filters/ahrs_madwick_mahony.py:331-334 | `eInt` after the integral rule. `IntegralResetWithoutKi` and `IntegralGrowsWithKi` state both branches. |
| Mahony.Feedback | nbdev_minmotion_filters/ahrs_madwick_mahony.py:341 | The gyroscope reading plus `Kp e + Ki eInt`. `FeedbackOfZero` shows it is the reading itself when there is no error. |
| Mahony.Step | nbdev_minmotion_filters/ahrs_madwick_mahony.py:305-352 | After a call of `update_imu`, the estimate is NaN or of unit norm. `StepHealthy` states when it is not NaN. |
| Mahony.Correct | nbdev_minmotion_filters/ahrs_madwick_mahony.py:331-350 | The integral rule, feedback and integration, for a known error: the estimate is NaN or of unit norm. |
| Mahony.StepHealthy | nbdev_minmotion_filters/ahrs_madwick_mahony.py:305-352 | A finite, nonzero estimate with a finite `eInt` stays so after a step, whatever the readings and gains, and the new estimate is a unit quaternion. The reason: following the corrected rate multiplies the estimate by a quaternion of real part 1. |
| Mahony.IntegralResetWithoutKi | nbdev_minmotion_filters/ahrs_madwick_mahony.py:331-334 | With `Ki <= 0`, `eInt` is exactly the zero vector after every step. |
| Mahony.IntegralGrowsWithKi | nbdev_minmotion_filters/ahrs_madwick_mahony.py:331-332 | With `Ki > 0`, `eInt` grows by `e * samplePeriod`. |
| Mahony.StepConsistent | nbdev_minmotion_filters/ahrs_madwick_mahony.py:305-352 | Each step preserves the invariant "the estimate is NaN or unit, and a NaN `eInt` comes only with a NaN estimate". |
| Mahony.AtRest | nbdev_minmotion_filters/ahrs_madwick_mahony.py:321-352 | Take a unit estimate with zero `eInt`, no rotation measured, and an accelerometer equal to the estimated gravity. Then the state does not change. |
| Mahony.IntegrateStill | nbdev_minmotion_filters/ahrs_madwick_mahony.py:344-350 | A unit estimate with zero rate is left where it is. |
| Mahony.AtRestIdentity | nbdev_minmotion_filters/ahrs_madwick_mahony.py:321-352 | The reference attitude with gravity along z and no rotation is such a resting state. |
| Mahony.IdentityGravity | nbdev_minmotion_filters/ahrs_madwick_mahony.py:326 | In the reference attitude, gravity is estimated along z. |
| Mahony.MahonyAHRS.constructor | nbdev_minmotion_filters/ahrs_madwick_mahony.py:287-301 | Defaults `1/256`, `(1, 0, 0, 0)`, `Kp = 1`, `Ki = 0`, each replaced by the argument when it is given. `eInt` starts at zero. A nonzero initial estimate starts a healthy state. |
| Mahony.MahonyAHRS.UpdateImu | nbdev_minmotion_filters/ahrs_madwick_mahony.py:305-352 | The estimate and `eInt` become `Step` of the old ones. The consistency invariant is kept, and a healthy state stays healthy with a unit estimate. |
| MeanAndSpread.SumUpdate | nbdev_minmotion_filters/mean_and_spread_filter.py:56-61 | Overwriting one slot changes the sum and the sum of squares by exactly the difference between the new and the old sample. |
| MeanAndSpread.SqDevExpand | nbdev_minmotion_filters/mean_and_spread_filter.py:47 | The sum of squared deviations from `m` equals the sum of squares minus `2 m` times the sum plus `n m²`. |
| MeanAndSpread.Init | nbdev_minmotion_filters/mean_and_spread_filter.py:13-24 | A new filter satisfies the index bookkeeping. |
| MeanAndSpread.ResetState | nbdev_minmotion_filters/mean_and_spread_filter.py:26-31 | `reset` keeps the index bookkeeping. |
| MeanAndSpread.Push | nbdev_minmotion_filters/mean_and_spread_filter.py:38-62 | Each sample keeps the index bookkeeping (`inds_used <= N`, and `ind_next == inds_used` while filling) and the buffer length. |
| MeanAndSpread.Run | nbdev_minmotion_filters/mean_and_spread_filter.py:37-62 | Any sequence of samples keeps the bookkeeping and the buffer length. |
| MeanAndSpread.Means | nbdev_minmotion_filters/mean_and_spread_filter.py:64 | `res_mean` has one entry per sample. |
| MeanAndSpread.Variances | nbdev_minmotion_filters/mean_and_spread_filter.py:65 | `res_var` has one entry per sample. |
| MeanAndSpread.RunPrefix | nbdev_minmotion_filters/mean_and_spread_filter.py:37-65 | One more sample is one more loop pass: the state is pushed, and the mean and variance after it are appended to the outputs. |
| MeanAndSpread.RunEmpty | nbdev_minmotion_filters/mean_and_spread_filter.py:34-36 | No samples: no change and empty outputs. |
| MeanAndSpread.PushWrites | nbdev_minmotion_filters/mean_and_spread_filter.py:39-62 | Every write goes to a slot in `[0, N)` and leaves the other slots alone. `inds_used` grows by one up to `N` and then stays at `N`. |
| MeanAndSpread.FullStaysFull | nbdev_minmotion_filters/mean_and_spread_filter.py:45-62 | Once `inds_used == N`, it stays `N` whatever samples follow. |
| MeanAndSpread.RunCount | nbdev_minmotion_filters/mean_and_spread_filter.py:39-62 | After `k` samples, `inds_used` is `min(inds_used + k, N)`. |
| MeanAndSpread.PushVariance | nbdev_minmotion_filters/mean_and_spread_filter.py:39-60 | The first sample leaves the variance as it was. While filling, the variance is `var_sum` divided by the count before the sample. When full, it is `var_sum / N`. `is_valid_output` is set by the first sample taken while full and is never cleared. |
| MeanAndSpread.ResetKeeps | nbdev_minmotion_filters/mean_and_spread_filter.py:26-31 | `reset` zeroes `ind_next`, `inds_used`, the mean, `var_sum` and the variance, and keeps the buffer and `is_valid_output`. |
| MeanAndSpread.MeanIsAverage | nbdev_minmotion_filters/mean_and_spread_filter.py:39-62 | Under Welford's invariant, `estimated_mean` is the arithmetic mean of the samples held (the first `inds_used` slots, or all `N` once full). |
| MeanAndSpread.VarSumIsSqDev | nbdev_minmotion_filters/mean_and_spread_filter.py:45-62 | Under Welford's invariant, `var_sum` is the sum of the squared deviations of the samples held from `estimated_mean`. |
| MeanAndSpread.InitWelford | nbdev_minmotion_filters/mean_and_spread_filter.py:17-22 | A new filter satisfies Welford's invariant. |
| MeanAndSpread.ResetWelford | nbdev_minmotion_filters/mean_and_spread_filter.py:26-31 | A reset filter satisfies Welford's invariant. |
| MeanAndSpread.PushWelford | nbdev_minmotion_filters/mean_and_spread_filter.py:39-62 | Every sample keeps Welford's invariant: the filling and the sliding updates are both exact. |
| MeanAndSpread.PushWelfordFirst | nbdev_minmotion_filters/mean_and_spread_filter.py:39-43 | The first sample keeps the invariant. |
| MeanAndSpread.PushWelfordFill | nbdev_minmotion_filters/mean_and_spread_filter.py:45-52 | The filling update keeps the invariant. |
| MeanAndSpread.PushWelfordSlide | nbdev_minmotion_filters/mean_and_spread_filter.py:53-62 | The sliding update keeps the invariant. |
| MeanAndSpread.JoinMean | nbdev_minmotion_filters/mean_and_spread_filter.py:46 | Welford's `mean_new` while filling. `FillStats` shows it is the mean of the samples with `x` added. |
| MeanAndSpread.JoinVarSum | nbdev_minmotion_filters/mean_and_spread_filter.py:47 | Welford's `var_sum` update while filling. `FillStats` shows it is the sum of squared deviations of the samples with `x` added. |
| MeanAndSpread.SlideMean | nbdev_minmotion_filters/mean_and_spread_filter.py:57 | The sliding `mean_new`. `SlideWindowStats` shows it is the mean of the window with the oldest sample replaced by `x`. |
| MeanAndSpread.SlideVarSum | nbdev_minmotion_filters/mean_and_spread_filter.py:58 | The sliding `var_sum` update. `SlideWindowStats` shows it is the sum of squared deviations of the new window. |
| MeanAndSpread.FillStats | nbdev_minmotion_filters/mean_and_spread_filter.py:46-48 | When `x` joins `n` samples with mean `m` and `var_sum` `v`, Welford's `mean_new` and `var_sum` are the mean and `var_sum` of the `n + 1` samples. |
| MeanAndSpread.SlideWindowStats | nbdev_minmotion_filters/mean_and_spread_filter.py:55-61 | When `x` overwrites slot `k` of a full window, the sliding formulas give the mean and `var_sum` of the new window. |
| MeanAndSpread.RunWelford | nbdev_minmotion_filters/mean_and_spread_filter.py:37-62 | Any sequence of samples keeps Welford's invariant. |
| MeanAndSpread.SlidingStatistics | nbdev_minmotion_filters/mean_and_spread_filter.py:37-62 | From a new or reset filter, after samples `xs`, the mean is the average of the last `min(|xs|, N)` samples, and `var_sum` is the sum of their squared deviations from that mean. |
| MeanAndSpread.LastSamples | nbdev_minmotion_filters/mean_and_spread_filter.py:39-62 | From a new or reset filter, the samples held after `xs` are the last `min(|xs|, N)` of them. While filling, the buffer holds them in arrival order. Once full, reading it circularly from `ind_next` gives them oldest first. The sum and squared deviations are the same either way. |
| MeanAndSpread.RotationSums | nbdev_minmotion_filters/mean_and_spread_filter.py:55-61 | Reading the full buffer from another slot leaves its sum and squared deviations unchanged. |
| MeanAndSpread.InitRing | nbdev_minmotion_filters/mean_and_spread_filter.py:17-19 | A new filter holds no samples. |
| MeanAndSpread.ResetRing | nbdev_minmotion_filters/mean_and_spread_filter.py:26-28 | A reset filter holds no samples. |
| MeanAndSpread.OldestOverwritten | nbdev_minmotion_filters/mean_and_spread_filter.py:55-61 | When full, the next sample overwrites slot `ind_next mod N`, which holds the oldest sample of the window. |
| MeanAndSpread.PushRing | nbdev_minmotion_filters/mean_and_spread_filter.py:39-62 | Every sample keeps the ring invariant. While filling, the buffer starts with the samples since the last reset. Once full, reading it circularly from `ind_next` gives the last `N` samples, oldest first. |
| MeanAndSpread.RunRing | nbdev_minmotion_filters/mean_and_spread_filter.py:37-62 | Any sequence of samples keeps the ring invariant, with the samples appended to the history. |
| MeanAndSpread.ResetAsWritten | nbdev_minmotion_filters/mean_and_spread_filter.py:26-31 | `reset` as written: the values are those of `ResetState`, and the three statistics become Python floats. |
| MeanAndSpread.PushTyped | nbdev_minmotion_filters/mean_and_spread_filter.py:39-62 | A loop pass with the Python types: the values are those of `Push`, and the mean is an array afterwards. |
| MeanAndSpread.EmitTyped | nbdev_minmotion_filters/mean_and_spread_filter.py:64-65 | Copying the statistics out succeeds exactly when the variance is a numpy array after the pass. Otherwise it raises `AttributeError`. Either way the object holds the state after the pass. |
| MeanAndSpread.ResetThenSampleFails | nbdev_minmotion_filters/mean_and_spread_filter.py:29-65 | As written, the first sample after `reset` raises `AttributeError`, whatever the sample, once it has been taken into the buffer and the mean. The next sample succeeds, so the failure happens once. |
| MeanAndSpread.ResetTyped | nbdev_minmotion_filters/mean_and_spread_filter.py:26-31 | The corrected `reset`: the values return to zero, and the types of the statistics stay what they were. |
| MeanAndSpread.ArraysThroughout | nbdev_minmotion_filters/mean_and_spread_filter.py:26-31 | With the corrected `reset`, the statistics stay arrays from `__init__` on, and every sample is copied out, including the first after a reset. |
| MeanAndSpread.MeanAndSpreadFilter.constructor | nbdev_minmotion_filters/mean_and_spread_filter.py:13-24 | `N = int(fs * window_length_in_seconds)` with defaults 100 and 1. The buffer is a fresh zero array of length `N`, the statistics start at zero, `is_valid_output` starts false and `ready` starts true. |
| MeanAndSpread.MeanAndSpreadFilter.Reset | nbdev_minmotion_filters/mean_and_spread_filter.py:26-31 | The object's state becomes `ResetState` of the old state, and the buffer keeps its contents. |
| MeanAndSpread.MeanAndSpreadFilter.Step | nbdev_minmotion_filters/mean_and_spread_filter.py:38-62 | One loop pass, in place on the fields and the buffer: the state becomes `Push` of the old state. |
| MeanAndSpread.MeanAndSpreadFilter.Record | nbdev_minmotion_filters/mean_and_spread_filter.py:37-65 | The loop: the state becomes `Run` of the old state, and column `i` of the outputs holds the mean and the variance right after sample `i`. |
| MeanAndSpread.MeanAndSpreadFilter.FilterSamples | nbdev_minmotion_filters/mean_and_spread_filter.py:33-67 | Fresh output arrays of the input's length. With samples and `ready`, they hold `Means` and `Variances` and the state becomes `Run`. Otherwise both outputs are all zero and the state is unchanged. |

## Left out

- The trigonometric conversions `to_angle_axis`, `from_angle_axis`, `to_euler_angles` and `to_euler123` (`ahrs_madwick_mahony.py`:49-64, 97-119) need `arccos`, `arcsin`, `arctan2`, `sin` and `cos`, which are outside exact real arithmetic.
- Floating point: all arithmetic is exact over `real`. Rounding, overflow and the concrete `numpy.linalg.norm` are not modelled. Norms go through any function satisfying `IsSqrt`.
- The `norm(...) is 0` guards (`ahrs_madwick_mahony.py`:205, 211, 258) compare object identity with the integer `0`, which a numpy float never is. The warn-and-return path is dead code, so the model follows the code: a zero accelerometer or magnetometer makes the Madgwick estimate NaN rather than skipping the step. `warnings.warn` is I/O.
- For the same reason, the Madgwick step at the aligned attitude (identity, accelerometer `(0, 0, 1)`, magnetometer `(1, 0, 0)`) divides by a zero step norm and gives NaN (`ImuAligned`, `MargStalls`); the model shows NaN here, not a unit estimate near the identity.
- Madgwick.MadgwickAHRS.UpdateImu: with a zero accelerometer, numpy writes `0/0 = NaN` into the caller's array. The model leaves the array unchanged in that case and states only the nonzero case exactly.
- Mahony.MahonyAHRS.UpdateImu: the source writes the new estimate into the `_q` array of the existing `Quaternion` object (line 352), so a caller holding that object sees it change. The model stores a new value; that aliasing is not modelled.
- numpy plumbing: `flatten`, `__array__`, broadcasting, `axisa=0`, the unused `gyroscope111/222/333` copies and the implicit `None` from `__mul__` with an operand that is neither a quaternion nor a number.
- The class-level attributes of `MadgwickAHRS` (lines 171-173) are shared Python defaults. The model keeps their values as constructor defaults only.
- MeanAndSpread.MeanAndSpreadFilter.constructor: requires `fs * window_length_in_seconds >= 1`. With a smaller product the source builds an empty buffer (or raises `ValueError` for a negative size) and then fails with `IndexError` at the first sample (line 41); those paths are not modelled. `int()` is modelled as `Floor`, which agrees with Python's truncation for the positive products allowed.
- `no_channels`: one channel is modelled. Each channel of the source is updated element by element with the same formulas, so the other channels behave identically and independently.
- The `matplotlib` and `helpers` imports and the `t_in` argument of `filter_samples` are unused by the filter.
- Input types: the measurements are taken to be float numpy arrays of length 3. Two other kinds of input are not modelled. The first is integer arrays: `MahonyAHRS(quaternion=Quaternion(1, 0, 0, 0))` stores an `int64` array in `_q`, and the in-place `+=` (`ahrs_madwick_mahony.py`:349) then raises a same-kind casting error; an integer accelerometer raises the same error at the in-place division (lines 323 and 261). The second is a Python list as the Mahony gyroscope: it stays a list after `.copy()`, so `+=` at line 341 extends it and the feedback is silently dropped.
- The `ready` flag is set to true by the constructor and never changed. It is modelled as a field, and `FilterSamples` checks it as the source does.
- The ordinary `Reset` of the class keeps the statistics as arrays; the float-typed statistics of the source's `reset` are modelled on values only (`ResetAsWritten`, see Findings).

## Findings

| source | as written | input that shows it | evidently intended | confidence | as-written member | corrected member |
|---|---|---|---|---|---|---|
| nbdev_minmotion_filters/mean_and_spread_filter.py:29-31 | `reset` sets the mean, `var_sum` and the variance to the Python float `0.`. The first sample after it replaces only the mean (line 40), so line 65 calls `.copy()` on a float. | `reset()` followed by `filter_samples` with any non-empty input: `AttributeError` at line 65, after the first sample has already updated the object; the next call succeeds | `reset` zeroes the statistics but keeps them numpy arrays of length `no_channels`, as `__init__` makes them (lines 20-22) | high, not executed | MeanAndSpread.ResetThenSampleFails | MeanAndSpread.ArraysThroughout |
