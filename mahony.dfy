/**
 * The `MahonyAHRS` filter of the AHRS module, six-axis form: a
 * proportional-integral correction of the gyroscope by the cross product
 * between the measured and the estimated direction of gravity.
 */
module Mahony {
  import opened Wrappers
  import opened Numerics
  import opened Vectors
  import opened Quaternions

  /**
   * `v` of `update_imu`: the direction of gravity in the sensor frame as
   * estimated from `q`.
   */
  function GravityEstimate(q: Quat): Vec3
  {
    GravityOf(q.w, q.x, q.y, q.z)
  }

  /** The gravity estimate written out in the four components `q[0]`..`q[3]`. */
  function GravityOf(w: real, x: real, y: real, z: real): Vec3
  {
    Vec3(2.0 * (x * z - w * y), 2.0 * (w * x + y * z), w * w - x * x - y * y + z * z)
  }

  /** For a unit quaternion the gravity estimate is the third column of its rotation matrix. */
  lemma GravityIsThirdColumn(q: Quat)
    requires NormSq(q) == 1.0
    ensures GravityEstimate(q) == Column2(RotMat(q))
  {
    ThirdColumn(q.w, q.x, q.y, q.z);
  }

  /** The component form of `GravityIsThirdColumn`. */
  lemma ThirdColumn(w: real, x: real, y: real, z: real)
    requires w * w + x * x + y * y + z * z == 1.0
    ensures GravityOf(w, x, y, z) == Column2(RotMatOf(w, x, y, z))
  {
    ThirdColumnZ(w, x, y, z);
  }

  lemma ThirdColumnZ(w: real, x: real, y: real, z: real)
    requires w * w + x * x + y * y + z * z == 1.0
    ensures w * w - x * x - y * y + z * z == 2.0 * w * w - 1.0 + 2.0 * z * z
  {
  }

  /** For a unit quaternion the gravity estimate is a unit vector. */
  lemma GravityEstimateUnit(q: Quat)
    requires NormSq(q) == 1.0
    ensures NormSq3(GravityEstimate(q)) == 1.0
  {
    var n := NormSq(q);
    GravitySquares(q.w, q.x, q.y, q.z);
    assert NormSq3(GravityEstimate(q)) == n * n;
  }

  /** The squared length of the gravity estimate is the square of the squared norm of `q`. */
  lemma GravitySquares(w: real, x: real, y: real, z: real)
    ensures (2.0 * (x * z - w * y)) * (2.0 * (x * z - w * y))
          + (2.0 * (w * x + y * z)) * (2.0 * (w * x + y * z))
          + (w * w - x * x - y * y + z * z) * (w * w - x * x - y * y + z * z)
         == (w * w + x * x + y * y + z * z) * (w * w + x * x + y * y + z * z)
  {
  }

  /**
   * `accelerometer /= accnorm` under the guard `accnorm > 0`: a nonzero
   * reading becomes a unit vector in the same direction, and a zero reading
   * is passed on as it is.
   */
  function NormaliseIfPositive(a: Vec3, sqrt: real -> real): (r: Vec3)
    requires IsSqrt(sqrt)
    ensures a == Zero3 ==> r == Zero3
    ensures a != Zero3 ==> NormSq3(r) == 1.0 && Scale3(r, sqrt(NormSq3(a))) == a
  {
    match Normalised3(a, sqrt)
    case NaN => a
    case Finite(u) => u
  }

  /** `e`: the cross product of the measured with the estimated direction of gravity. */
  function Error(q: Quat, a: Vec3, sqrt: real -> real): Vec3
    requires IsSqrt(sqrt)
  {
    Cross(NormaliseIfPositive(a, sqrt), GravityEstimate(q))
  }

  /** The error is orthogonal to the normalised measurement and to the estimate. */
  lemma ErrorOrthogonal(q: Quat, a: Vec3, sqrt: real -> real)
    requires IsSqrt(sqrt)
    ensures Dot(Error(q, a, sqrt), NormaliseIfPositive(a, sqrt)) == 0.0
    ensures Dot(Error(q, a, sqrt), GravityEstimate(q)) == 0.0
  {
  }

  /** A zero accelerometer reading produces no error at all. */
  lemma ErrorOfZeroReading(q: Quat, sqrt: real -> real)
    requires IsSqrt(sqrt)
    ensures Error(q, Zero3, sqrt) == Zero3
  {
    CrossZero(GravityEstimate(q));
  }

  /** A measurement that agrees with the estimate produces no error. */
  lemma ErrorOfAgreement(q: Quat, sqrt: real -> real)
    requires IsSqrt(sqrt) && NormSq(q) == 1.0
    ensures Error(q, GravityEstimate(q), sqrt) == Zero3
  {
    var v := GravityEstimate(q);
    GravityEstimateUnit(q);
    UnitUnchanged(v, sqrt);
    CrossSelf(v);
  }

  /** A unit vector is not changed by the guarded normalisation. */
  lemma UnitUnchanged(v: Vec3, sqrt: real -> real)
    requires IsSqrt(sqrt) && NormSq3(v) == 1.0
    ensures NormaliseIfPositive(v, sqrt) == v
  {
    SqrtOne(sqrt);
    assert v != Zero3;
  }

  lemma CrossSelf(v: Vec3)
    ensures Cross(v, v) == Zero3
  {
  }

  /**
   * The integral term after a step: reset to zeros unless `Ki > 0`, and
   * otherwise increased by `e * samplePeriod`; NaN stays NaN.
   */
  function IntegralError(eInt: Num<Vec3>, e: Vec3, ki: real, samplePeriod: real): Num<Vec3>
  {
    if ki > 0.0 then
      match eInt
      case NaN => NaN
      case Finite(s) => Finite(Plus3(s, Scale3(e, samplePeriod)))
    else Finite(Zero3)
  }

  /** The gyroscope reading with the feedback `Kp * e + Ki * eInt` added. */
  function Feedback(g: Vec3, e: Vec3, eInt: Vec3, kp: real, ki: real): Vec3
  {
    Plus3(g, Plus3(Scale3(e, kp), Scale3(eInt, ki)))
  }

  /** The state `update_imu` reads and writes: the estimate and the integral error. */
  datatype State = State(quaternion: Num<Quat>, eInt: Num<Vec3>)

  /**
   * One call of `update_imu`. A NaN estimate makes the error NaN, so the
   * integral term becomes NaN when `Ki > 0` and zeros otherwise.
   */
  function Step(s: State, kp: real, ki: real, samplePeriod: real, g: Vec3, a: Vec3, sqrt: real -> real): (r: State)
    requires IsSqrt(sqrt)
    ensures r.quaternion.Finite? ==> NormSq(r.quaternion.value) == 1.0
  {
    match s.quaternion
    case NaN => State(NaN, if ki > 0.0 then NaN else Finite(Zero3))
    case Finite(q) => Correct(q, s.eInt, Error(q, a, sqrt), kp, ki, samplePeriod, g, sqrt)
  }

  /** The rest of a step from a finite estimate `q`, once the error `e` is known. */
  function Correct(q: Quat, eInt: Num<Vec3>, e: Vec3, kp: real, ki: real, samplePeriod: real, g: Vec3, sqrt: real -> real): (r: State)
    requires IsSqrt(sqrt)
    ensures r.quaternion.Finite? ==> NormSq(r.quaternion.value) == 1.0
  {
    match IntegralError(eInt, e, ki, samplePeriod)
    case NaN => State(NaN, NaN)
    case Finite(eInt) =>
      State(Integrate(q, GyroRate(q, Feedback(g, e, eInt, kp, ki)), samplePeriod, sqrt), Finite(eInt))
  }

  /** With `Ki <= 0` the integral error is exactly zero after every step. */
  lemma IntegralResetWithoutKi(s: State, kp: real, ki: real, samplePeriod: real, g: Vec3, a: Vec3, sqrt: real -> real)
    requires IsSqrt(sqrt) && ki <= 0.0
    ensures Step(s, kp, ki, samplePeriod, g, a, sqrt).eInt == Finite(Zero3)
  {
  }

  /** With `Ki > 0` the integral error grows by `e * samplePeriod`. */
  lemma IntegralGrowsWithKi(q: Quat, eInt: Vec3, kp: real, ki: real, samplePeriod: real, g: Vec3, a: Vec3, sqrt: real -> real)
    requires IsSqrt(sqrt) && ki > 0.0
    ensures Step(State(Finite(q), Finite(eInt)), kp, ki, samplePeriod, g, a, sqrt).eInt
         == Finite(Plus3(eInt, Scale3(Error(q, a, sqrt), samplePeriod)))
  {
  }

  /**
   * The estimate is unit or NaN after every step, and a NaN integral error
   * only ever comes with a NaN estimate.
   */
  predicate Consistent(s: State)
  {
    && (s.quaternion.Finite? ==> NormSq(s.quaternion.value) == 1.0)
    && (s.eInt.NaN? ==> s.quaternion.NaN?)
  }

  lemma StepConsistent(s: State, kp: real, ki: real, samplePeriod: real, g: Vec3, a: Vec3, sqrt: real -> real)
    requires IsSqrt(sqrt) && Consistent(s)
    ensures Consistent(Step(s, kp, ki, samplePeriod, g, a, sqrt))
  {
  }

  /** A finite, nonzero estimate with a finite integral error: the state every step keeps. */
  predicate Healthy(s: State)
  {
    s.quaternion.Finite? && s.quaternion.value != Zero && s.eInt.Finite?
  }

  /**
   * From a healthy state a step never produces NaN, whatever the readings
   * and gains: following the corrected rate for `samplePeriod` multiplies
   * the estimate by a quaternion of real part 1, which cannot make it
   * zero, and the new estimate is a unit quaternion.
   */
  lemma StepHealthy(s: State, kp: real, ki: real, samplePeriod: real, g: Vec3, a: Vec3, sqrt: real -> real)
    requires IsSqrt(sqrt) && Healthy(s)
    ensures Healthy(Step(s, kp, ki, samplePeriod, g, a, sqrt))
    ensures NormSq(Step(s, kp, ki, samplePeriod, g, a, sqrt).quaternion.value) == 1.0
  {
    var q := s.quaternion.value;
    var e := Error(q, a, sqrt);
    var eInt := IntegralError(s.eInt, e, ki, samplePeriod).value;
    AdvanceGrows(q, Feedback(g, e, eInt, kp, ki), samplePeriod);
    var r := Step(s, kp, ki, samplePeriod, g, a, sqrt);
    NormSqZero(r.quaternion.value);
  }

  /**
   * At rest, with no rotation measured, no accumulated error and an
   * accelerometer that agrees with the estimated gravity, the estimate
   * does not move.
   */
  lemma AtRest(q: Quat, kp: real, ki: real, samplePeriod: real, sqrt: real -> real)
    requires IsSqrt(sqrt) && NormSq(q) == 1.0
    ensures Step(State(Finite(q), Finite(Zero3)), kp, ki, samplePeriod, Zero3, GravityEstimate(q), sqrt)
         == State(Finite(q), Finite(Zero3))
  {
    ErrorOfAgreement(q, sqrt);
    StillWithoutError(q, kp, ki, samplePeriod, sqrt);
  }

  /** Without rotation, accumulated error or new error, a unit estimate does not move. */
  lemma StillWithoutError(q: Quat, kp: real, ki: real, samplePeriod: real, sqrt: real -> real)
    requires IsSqrt(sqrt) && NormSq(q) == 1.0
    ensures Correct(q, Finite(Zero3), Zero3, kp, ki, samplePeriod, Zero3, sqrt) == State(Finite(q), Finite(Zero3))
  {
    assert IntegralError(Finite(Zero3), Zero3, ki, samplePeriod) == Finite(Zero3);
    FeedbackOfZero(kp, ki);
    IntegrateStill(q, samplePeriod, sqrt);
  }

  lemma FeedbackOfZero(kp: real, ki: real)
    ensures Feedback(Zero3, Zero3, Zero3, kp, ki) == Zero3
  {
    ScaleZero(kp);
    ScaleZero(ki);
  }

  lemma ScaleZero(s: real)
    ensures Scale3(Zero3, s) == Zero3
  {
    assert 0.0 * s == 0.0;
  }

  /** A unit estimate with zero rate is left where it is. */
  lemma IntegrateStill(q: Quat, samplePeriod: real, sqrt: real -> real)
    requires IsSqrt(sqrt) && NormSq(q) == 1.0
    ensures Integrate(q, GyroRate(q, Zero3), samplePeriod, sqrt) == Finite(q)
  {
    GyroRateOfZero(q);
    AdvanceStill(q, samplePeriod);
    NormalisedUnit(q, sqrt);
  }

  lemma AdvanceStill(q: Quat, samplePeriod: real)
    ensures Plus(q, ScalarMul(Zero, samplePeriod)) == q
  {
  }

  /** The reference attitude with gravity along z is such a resting state. */
  lemma AtRestIdentity(kp: real, ki: real, samplePeriod: real, sqrt: real -> real)
    requires IsSqrt(sqrt)
    ensures Step(State(Finite(Identity), Finite(Zero3)), kp, ki, samplePeriod, Zero3, Vec3(0.0, 0.0, 1.0), sqrt)
         == State(Finite(Identity), Finite(Zero3))
  {
    IdentityGravity();
    AtRest(Identity, kp, ki, samplePeriod, sqrt);
  }

  /** In the reference attitude gravity is estimated along z. */
  lemma IdentityGravity()
    ensures NormSq(Identity) == 1.0
    ensures GravityEstimate(Identity) == Vec3(0.0, 0.0, 1.0)
  {
  }

  /**
   * `MahonyAHRS`: sample period, estimate, gains and integral error.
   * The estimate and the integral error are NaN once a division by a zero
   * norm has happened.
   */
  class MahonyAHRS {
    const samplePeriod: real
    const kp: real
    const ki: real
    var quaternion: Num<Quat>
    var eInt: Num<Vec3>

    /** Each argument left out keeps its default: 1/256, `(1, 0, 0, 0)`, `Kp = 1`, `Ki = 0`. */
    constructor(samplePeriod: Option<real>, quaternion: Option<Quat>, kp: Option<real>, ki: Option<real>)
      ensures this.samplePeriod == samplePeriod.UnwrapOr(1.0 / 256.0)
      ensures this.quaternion == Finite(quaternion.UnwrapOr(Identity))
      ensures this.kp == kp.UnwrapOr(1.0)
      ensures this.ki == ki.UnwrapOr(0.0)
      ensures this.eInt == Finite(Zero3)
      ensures quaternion.UnwrapOr(Identity) != Zero ==> Healthy(State(this.quaternion, this.eInt))
    {
      this.samplePeriod := samplePeriod.UnwrapOr(1.0 / 256.0);
      this.quaternion := Finite(quaternion.UnwrapOr(Identity));
      this.kp := kp.UnwrapOr(1.0);
      this.ki := ki.UnwrapOr(0.0);
      this.eInt := Finite(Zero3);
    }

    /** `update_imu`: one step on the gyroscope and accelerometer readings, which are not changed. */
    method UpdateImu(gyroscope: Vec3, accelerometer: Vec3, sqrt: real -> real)
      requires IsSqrt(sqrt)
      modifies this
      ensures State(quaternion, eInt)
           == Step(State(old(quaternion), old(eInt)), kp, ki, samplePeriod, gyroscope, accelerometer, sqrt)
      ensures Consistent(State(old(quaternion), old(eInt))) ==> Consistent(State(quaternion, eInt))
      ensures Healthy(State(old(quaternion), old(eInt))) ==> Healthy(State(quaternion, eInt)) && NormSq(quaternion.value) == 1.0
    {
      var s := State(quaternion, eInt);
      if Consistent(s) {
        StepConsistent(s, kp, ki, samplePeriod, gyroscope, accelerometer, sqrt);
      }
      if Healthy(s) {
        StepHealthy(s, kp, ki, samplePeriod, gyroscope, accelerometer, sqrt);
      }
      var r := Step(s, kp, ki, samplePeriod, gyroscope, accelerometer, sqrt);
      quaternion, eInt := r.quaternion, r.eInt;
    }
  }
}
