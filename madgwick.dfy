/**
 * The gradient-descent core of `MadgwickAHRS`: the objective `f` that
 * measures how far the direction predicted by the current estimate is
 * from the normalised measurements, its Jacobian `j`, the corrective step
 * `jᵀ f`, and the integration of the rate of change of the estimate.
 */
module Madgwick {
  import opened Wrappers
  import opened Numerics
  import opened Vectors
  import opened Quaternions

  /** The dot product of a row of `j` with a four-element array. */
  function Dot4(u: Quat, v: Quat): real
  {
    u.w * v.w + u.x * v.x + u.y * v.y + u.z * v.z
  }

  /** Element-wise difference of two four-element arrays. */
  function Minus(a: Quat, b: Quat): Quat
  {
    Quat(a.w - b.w, a.x - b.x, a.y - b.y, a.z - b.z)
  }

  /** Row 0 of `f`: component x of the predicted minus the measured gravity direction. */
  function GravityRow0(w: real, x: real, y: real, z: real, c: real): real
  {
    2.0 * (x * z - w * y) - c
  }

  /** Row 0 of `j`. */
  function GravityGradient0(w: real, x: real, y: real, z: real): Quat
  {
    Quat(-2.0 * y, 2.0 * z, -2.0 * w, 2.0 * x)
  }

  /** Row 1 of `f`: component y of the predicted minus the measured gravity direction. */
  function GravityRow1(w: real, x: real, y: real, z: real, c: real): real
  {
    2.0 * (w * x + y * z) - c
  }

  /** Row 1 of `j`. */
  function GravityGradient1(w: real, x: real, y: real, z: real): Quat
  {
    Quat(2.0 * x, 2.0 * w, 2.0 * z, 2.0 * y)
  }

  /** Row 2 of `f`: component z of the predicted minus the measured gravity direction. */
  function GravityRow2(w: real, x: real, y: real, z: real, c: real): real
  {
    2.0 * (0.5 - x * x - y * y) - c
  }

  /** Row 2 of `j`. */
  function GravityGradient2(w: real, x: real, y: real, z: real): Quat
  {
    Quat(0.0, -4.0 * x, -4.0 * y, 0.0)
  }

  /** Row 3 of `f`: component x of the predicted minus the measured magnetic field. */
  function FieldRow0(w: real, x: real, y: real, z: real, bx: real, bz: real, c: real): real
  {
    2.0 * bx * (0.5 - y * y - z * z) + 2.0 * bz * (x * z - w * y) - c
  }

  /** Row 3 of `j`. */
  function FieldGradient0(w: real, x: real, y: real, z: real, bx: real, bz: real): Quat
  {
    Quat(-2.0 * bz * y, 2.0 * bz * z, -4.0 * bx * y - 2.0 * bz * w, -4.0 * bx * z + 2.0 * bz * x)
  }

  /** Row 4 of `f`: component y of the predicted minus the measured magnetic field. */
  function FieldRow1(w: real, x: real, y: real, z: real, bx: real, bz: real, c: real): real
  {
    2.0 * bx * (x * y - w * z) + 2.0 * bz * (w * x + y * z) - c
  }

  /** Row 4 of `j`. */
  function FieldGradient1(w: real, x: real, y: real, z: real, bx: real, bz: real): Quat
  {
    Quat(-2.0 * bx * z + 2.0 * bz * x, 2.0 * bx * y + 2.0 * bz * w, 2.0 * bx * x + 2.0 * bz * z, -2.0 * bx * w + 2.0 * bz * y)
  }

  /** Row 5 of `f`: component z of the predicted minus the measured magnetic field. */
  function FieldRow2(w: real, x: real, y: real, z: real, bx: real, bz: real, c: real): real
  {
    2.0 * bx * (w * y + x * z) + 2.0 * bz * (0.5 - x * x - y * y) - c
  }

  /** Row 5 of `j`. */
  function FieldGradient2(w: real, x: real, y: real, z: real, bx: real, bz: real): Quat
  {
    Quat(2.0 * bx * y, 2.0 * bx * z - 4.0 * bz * x, 2.0 * bx * w - 4.0 * bz * y, 2.0 * bx * x)
  }

  /** `f` of `update_imu`: predicted minus measured gravity direction. */
  function ImuObjective(q: Quat, a: Vec3): (f: seq<real>)
    ensures |f| == 3
  {
    [GravityRow0(q.w, q.x, q.y, q.z, a.x),
     GravityRow1(q.w, q.x, q.y, q.z, a.y),
     GravityRow2(q.w, q.x, q.y, q.z, a.z)]
  }

  /** `j` of `update_imu`, one row per entry of `f`. */
  function ImuJacobian(q: Quat): (j: seq<Quat>)
    ensures |j| == 3
  {
    [GravityGradient0(q.w, q.x, q.y, q.z),
     GravityGradient1(q.w, q.x, q.y, q.z),
     GravityGradient2(q.w, q.x, q.y, q.z)]
  }

  /**
   * `f` of `update`: the gravity rows of `update_imu` followed by the
   * predicted minus measured magnetic field, for the field reference `b`.
   */
  function MargObjective(q: Quat, a: Vec3, m: Vec3, b: Quat): (f: seq<real>)
    ensures |f| == 6
  {
    [GravityRow0(q.w, q.x, q.y, q.z, a.x),
     GravityRow1(q.w, q.x, q.y, q.z, a.y),
     GravityRow2(q.w, q.x, q.y, q.z, a.z),
     FieldRow0(q.w, q.x, q.y, q.z, b.x, b.z, m.x),
     FieldRow1(q.w, q.x, q.y, q.z, b.x, b.z, m.y),
     FieldRow2(q.w, q.x, q.y, q.z, b.x, b.z, m.z)]
  }

  /** `j` of `update`. */
  function MargJacobian(q: Quat, b: Quat): (j: seq<Quat>)
    ensures |j| == 6
  {
    [GravityGradient0(q.w, q.x, q.y, q.z),
     GravityGradient1(q.w, q.x, q.y, q.z),
     GravityGradient2(q.w, q.x, q.y, q.z),
     FieldGradient0(q.w, q.x, q.y, q.z, b.x, b.z),
     FieldGradient1(q.w, q.x, q.y, q.z, b.x, b.z),
     FieldGradient2(q.w, q.x, q.y, q.z, b.x, b.z)]
  }

  /** `j.T.dot(f)`: the rows of `j`, each scaled by the matching entry of `f`, summed. */
  function TransposeTimes(j: seq<Quat>, f: seq<real>): Quat
    requires |j| == |f|
  {
    if |j| == 0 then Zero
    else Plus(TransposeTimes(j[..|j| - 1], f[..|f| - 1]), ScalarMul(j[|j| - 1], f[|f| - 1]))
  }

  /** `jᵀ f` splits over a split of the rows. */
  lemma {:induction false} TransposeTimesAppend(j1: seq<Quat>, f1: seq<real>, j2: seq<Quat>, f2: seq<real>)
    requires |j1| == |f1| && |j2| == |f2|
    ensures TransposeTimes(j1 + j2, f1 + f2) == Plus(TransposeTimes(j1, f1), TransposeTimes(j2, f2))
    decreases |j2|
  {
    if |j2| == 0 {
      assert j1 + j2 == j1 && f1 + f2 == f1;
    } else {
      var j, f := j1 + j2, f1 + f2;
      assert j[..|j| - 1] == j1 + j2[..|j2| - 1];
      assert f[..|f| - 1] == f1 + f2[..|f2| - 1];
      TransposeTimesAppend(j1, f1, j2[..|j2| - 1], f2[..|f2| - 1]);
    }
  }

  /** When every entry of `f` is zero, so is the step `jᵀ f`. */
  lemma {:induction false} TransposeTimesZero(j: seq<Quat>, f: seq<real>)
    requires |j| == |f|
    requires forall i :: 0 <= i < |f| ==> f[i] == 0.0
    ensures TransposeTimes(j, f) == Zero
    decreases |j|
  {
    if |j| > 0 {
      TransposeTimesZero(j[..|j| - 1], f[..|f| - 1]);
    }
  }

  /** `update` refines `update_imu`: the first three rows of its `f` and `j` are those of `update_imu`. */
  lemma MargExtendsImu(q: Quat, a: Vec3, m: Vec3, b: Quat)
    ensures MargObjective(q, a, m, b)[..3] == ImuObjective(q, a)
    ensures MargJacobian(q, b)[..3] == ImuJacobian(q)
  {
  }

  /** ... so the step of `update` is that of `update_imu` plus the contribution of the magnetic rows. */
  lemma MargStepSplits(q: Quat, a: Vec3, m: Vec3, b: Quat)
    ensures TransposeTimes(MargJacobian(q, b), MargObjective(q, a, m, b))
         == Plus(TransposeTimes(ImuJacobian(q), ImuObjective(q, a)),
                 TransposeTimes(MargJacobian(q, b)[3..], MargObjective(q, a, m, b)[3..]))
  {
    var j, f := MargJacobian(q, b), MargObjective(q, a, m, b);
    MargExtendsImu(q, a, m, b);
    assert j == j[..3] + j[3..] && f == f[..3] + f[3..];
    TransposeTimesAppend(j[..3], f[..3], j[3..], f[3..]);
  }

  /**
   * Each row of `j` is the gradient of the matching row of `f`: for any
   * displacement `d`, `f(q + d) = f(q) + j(q)·d + ½ j(d)·d` exactly, because
   * every row of `f` is quadratic in `q`.
   */
  lemma ImuTaylor(q: Quat, d: Quat, a: Vec3)
    ensures forall i | 0 <= i < 3 ::
      ImuObjective(Plus(q, d), a)[i] == ImuObjective(q, a)[i] + Dot4(ImuJacobian(q)[i], d) + 0.5 * Dot4(ImuJacobian(d)[i], d)
  {
    GravityRow0Taylor(q.w, q.x, q.y, q.z, d.w, d.x, d.y, d.z, a.x);
    GravityRow1Taylor(q.w, q.x, q.y, q.z, d.w, d.x, d.y, d.z, a.y);
    GravityRow2Taylor(q.w, q.x, q.y, q.z, d.w, d.x, d.y, d.z, a.z);
  }

  /** The same for the six rows of `update`, with the field reference `b` held fixed. */
  lemma MargTaylor(q: Quat, d: Quat, a: Vec3, m: Vec3, b: Quat)
    ensures forall i | 0 <= i < 6 ::
      MargObjective(Plus(q, d), a, m, b)[i]
        == MargObjective(q, a, m, b)[i] + Dot4(MargJacobian(q, b)[i], d) + 0.5 * Dot4(MargJacobian(d, b)[i], d)
  {
    GravityRow0Taylor(q.w, q.x, q.y, q.z, d.w, d.x, d.y, d.z, a.x);
    GravityRow1Taylor(q.w, q.x, q.y, q.z, d.w, d.x, d.y, d.z, a.y);
    GravityRow2Taylor(q.w, q.x, q.y, q.z, d.w, d.x, d.y, d.z, a.z);
    FieldRow0Taylor(q.w, q.x, q.y, q.z, d.w, d.x, d.y, d.z, b.x, b.z, m.x);
    FieldRow1Taylor(q.w, q.x, q.y, q.z, d.w, d.x, d.y, d.z, b.x, b.z, m.y);
    FieldRow2Taylor(q.w, q.x, q.y, q.z, d.w, d.x, d.y, d.z, b.x, b.z, m.z);
  }

  /** The same identity row by row, and the polynomial identity behind each. */
  lemma GravityRow0Taylor(w: real, x: real, y: real, z: real, dw: real, dx: real, dy: real, dz: real, c: real)
    ensures GravityRow0(w + dw, x + dx, y + dy, z + dz, c)
         == GravityRow0(w, x, y, z, c) + Dot4(GravityGradient0(w, x, y, z), Quat(dw, dx, dy, dz))
          + 0.5 * Dot4(GravityGradient0(dw, dx, dy, dz), Quat(dw, dx, dy, dz))
  {
    GravityRow0Identity(w, x, y, z, dw, dx, dy, dz, c);
  }

  lemma GravityRow0Identity(w: real, x: real, y: real, z: real, dw: real, dx: real, dy: real, dz: real, c: real)
    ensures 2.0 * ((x + dx) * (z + dz) - (w + dw) * (y + dy)) - c
         == (2.0 * (x * z - w * y) - c)
          + ((-2.0 * y) * dw + (2.0 * z) * dx + (-2.0 * w) * dy + (2.0 * x) * dz)
          + 0.5 * ((-2.0 * dy) * dw + (2.0 * dz) * dx + (-2.0 * dw) * dy + (2.0 * dx) * dz)
  {
  }

  lemma GravityRow1Taylor(w: real, x: real, y: real, z: real, dw: real, dx: real, dy: real, dz: real, c: real)
    ensures GravityRow1(w + dw, x + dx, y + dy, z + dz, c)
         == GravityRow1(w, x, y, z, c) + Dot4(GravityGradient1(w, x, y, z), Quat(dw, dx, dy, dz))
          + 0.5 * Dot4(GravityGradient1(dw, dx, dy, dz), Quat(dw, dx, dy, dz))
  {
    GravityRow1Identity(w, x, y, z, dw, dx, dy, dz, c);
  }

  lemma GravityRow1Identity(w: real, x: real, y: real, z: real, dw: real, dx: real, dy: real, dz: real, c: real)
    ensures 2.0 * ((w + dw) * (x + dx) + (y + dy) * (z + dz)) - c
         == (2.0 * (w * x + y * z) - c)
          + ((2.0 * x) * dw + (2.0 * w) * dx + (2.0 * z) * dy + (2.0 * y) * dz)
          + 0.5 * ((2.0 * dx) * dw + (2.0 * dw) * dx + (2.0 * dz) * dy + (2.0 * dy) * dz)
  {
  }

  lemma GravityRow2Taylor(w: real, x: real, y: real, z: real, dw: real, dx: real, dy: real, dz: real, c: real)
    ensures GravityRow2(w + dw, x + dx, y + dy, z + dz, c)
         == GravityRow2(w, x, y, z, c) + Dot4(GravityGradient2(w, x, y, z), Quat(dw, dx, dy, dz))
          + 0.5 * Dot4(GravityGradient2(dw, dx, dy, dz), Quat(dw, dx, dy, dz))
  {
    GravityRow2Identity(w, x, y, z, dw, dx, dy, dz, c);
  }

  lemma GravityRow2Identity(w: real, x: real, y: real, z: real, dw: real, dx: real, dy: real, dz: real, c: real)
    ensures 2.0 * (0.5 - (x + dx) * (x + dx) - (y + dy) * (y + dy)) - c
         == (2.0 * (0.5 - x * x - y * y) - c)
          + (0.0 * dw + (-4.0 * x) * dx + (-4.0 * y) * dy + 0.0 * dz)
          + 0.5 * (0.0 * dw + (-4.0 * dx) * dx + (-4.0 * dy) * dy + 0.0 * dz)
  {
  }

  lemma FieldRow0Taylor(w: real, x: real, y: real, z: real, dw: real, dx: real, dy: real, dz: real, bx: real, bz: real, c: real)
    ensures FieldRow0(w + dw, x + dx, y + dy, z + dz, bx, bz, c)
         == FieldRow0(w, x, y, z, bx, bz, c) + Dot4(FieldGradient0(w, x, y, z, bx, bz), Quat(dw, dx, dy, dz))
          + 0.5 * Dot4(FieldGradient0(dw, dx, dy, dz, bx, bz), Quat(dw, dx, dy, dz))
  {
    FieldRow0Identity(w, x, y, z, dw, dx, dy, dz, bx, bz, c);
  }

  lemma FieldRow0Identity(w: real, x: real, y: real, z: real, dw: real, dx: real, dy: real, dz: real, bx: real, bz: real, c: real)
    ensures 2.0 * bx * (0.5 - (y + dy) * (y + dy) - (z + dz) * (z + dz)) + 2.0 * bz * ((x + dx) * (z + dz) - (w + dw) * (y + dy)) - c
         == (2.0 * bx * (0.5 - y * y - z * z) + 2.0 * bz * (x * z - w * y) - c)
          + ((-2.0 * bz * y) * dw + (2.0 * bz * z) * dx + (-4.0 * bx * y - 2.0 * bz * w) * dy + (-4.0 * bx * z + 2.0 * bz * x) * dz)
          + 0.5 * ((-2.0 * bz * dy) * dw + (2.0 * bz * dz) * dx + (-4.0 * bx * dy - 2.0 * bz * dw) * dy + (-4.0 * bx * dz + 2.0 * bz * dx) * dz)
  {
  }

  lemma FieldRow1Taylor(w: real, x: real, y: real, z: real, dw: real, dx: real, dy: real, dz: real, bx: real, bz: real, c: real)
    ensures FieldRow1(w + dw, x + dx, y + dy, z + dz, bx, bz, c)
         == FieldRow1(w, x, y, z, bx, bz, c) + Dot4(FieldGradient1(w, x, y, z, bx, bz), Quat(dw, dx, dy, dz))
          + 0.5 * Dot4(FieldGradient1(dw, dx, dy, dz, bx, bz), Quat(dw, dx, dy, dz))
  {
    FieldRow1Identity(w, x, y, z, dw, dx, dy, dz, bx, bz, c);
  }

  lemma FieldRow1Identity(w: real, x: real, y: real, z: real, dw: real, dx: real, dy: real, dz: real, bx: real, bz: real, c: real)
    ensures 2.0 * bx * ((x + dx) * (y + dy) - (w + dw) * (z + dz)) + 2.0 * bz * ((w + dw) * (x + dx) + (y + dy) * (z + dz)) - c
         == (2.0 * bx * (x * y - w * z) + 2.0 * bz * (w * x + y * z) - c)
          + ((-2.0 * bx * z + 2.0 * bz * x) * dw + (2.0 * bx * y + 2.0 * bz * w) * dx + (2.0 * bx * x + 2.0 * bz * z) * dy + (-2.0 * bx * w + 2.0 * bz * y) * dz)
          + 0.5 * ((-2.0 * bx * dz + 2.0 * bz * dx) * dw + (2.0 * bx * dy + 2.0 * bz * dw) * dx + (2.0 * bx * dx + 2.0 * bz * dz) * dy + (-2.0 * bx * dw + 2.0 * bz * dy) * dz)
  {
  }

  lemma FieldRow2Taylor(w: real, x: real, y: real, z: real, dw: real, dx: real, dy: real, dz: real, bx: real, bz: real, c: real)
    ensures FieldRow2(w + dw, x + dx, y + dy, z + dz, bx, bz, c)
         == FieldRow2(w, x, y, z, bx, bz, c) + Dot4(FieldGradient2(w, x, y, z, bx, bz), Quat(dw, dx, dy, dz))
          + 0.5 * Dot4(FieldGradient2(dw, dx, dy, dz, bx, bz), Quat(dw, dx, dy, dz))
  {
    FieldRow2Identity(w, x, y, z, dw, dx, dy, dz, bx, bz, c);
  }

  lemma FieldRow2Identity(w: real, x: real, y: real, z: real, dw: real, dx: real, dy: real, dz: real, bx: real, bz: real, c: real)
    ensures 2.0 * bx * ((w + dw) * (y + dy) + (x + dx) * (z + dz)) + 2.0 * bz * (0.5 - (x + dx) * (x + dx) - (y + dy) * (y + dy)) - c
         == (2.0 * bx * (w * y + x * z) + 2.0 * bz * (0.5 - x * x - y * y) - c)
          + ((2.0 * bx * y) * dw + (2.0 * bx * z - 4.0 * bz * x) * dx + (2.0 * bx * w - 4.0 * bz * y) * dy + (2.0 * bx * x) * dz)
          + 0.5 * ((2.0 * bx * dy) * dw + (2.0 * bx * dz - 4.0 * bz * dx) * dx + (2.0 * bx * dw - 4.0 * bz * dy) * dy + (2.0 * bx * dx) * dz)
  {
  }

  /** `h` of `update`: the measured field `m` rotated into the Earth frame, `q ⊗ (0, m) ⊗ q*`. */
  function EarthField(q: Quat, m: Vec3): Quat
  {
    Mul(q, Mul(Quat(0.0, m.x, m.y, m.z), Conj(q)))
  }

  /** In the reference attitude the Earth frame is the sensor frame. */
  lemma EarthFieldIdentity(m: Vec3)
    ensures EarthField(Identity, m) == Quat(0.0, m.x, m.y, m.z)
  {
    ConjugateByIdentity(0.0, m.x, m.y, m.z);
  }

  lemma ConjugateByIdentity(w: real, x: real, y: real, z: real)
    ensures Mul(Identity, Mul(Quat(w, x, y, z), Conj(Identity))) == Quat(w, x, y, z)
  {
    MulIdentity(Quat(w, x, y, z));
  }

  /**
   * `b` of `update`: the Earth-frame field `h` with its horizontal part
   * folded onto the x axis.
   */
  function ReferenceField(h: Quat, sqrt: real -> real): Quat
  {
    Quat(0.0, sqrt(h.x * h.x + h.y * h.y), 0.0, h.z)
  }

  /** The field reference lies in the x-z plane, points along +x, and keeps the length and the vertical part of `h`. */
  lemma ReferenceFieldKeepsLength(h: Quat, sqrt: real -> real)
    requires IsSqrt(sqrt)
    ensures var b := ReferenceField(h, sqrt);
      b.w == 0.0 && b.y == 0.0 && 0.0 <= b.x && b.z == h.z &&
      b.x * b.x + b.z * b.z == h.x * h.x + h.y * h.y + h.z * h.z
  {
    SquareSign(h.x, h.x * h.x);
    SquareSign(h.y, h.y * h.y);
  }

  /**
   * `qdot` of both updates: the rate of change measured by the gyroscope,
   * `½ q ⊗ (0, g)`, minus `beta` times the normalised corrective step.
   */
  function Rate(q: Quat, g: Vec3, beta: real, step: Quat): Quat
  {
    Minus(GyroRate(q, g), ScalarMul(step, beta))
  }

  /** Following `Rate` for `dt` is following the gyroscope, then stepping back by `beta dt` along `step`. */
  lemma RateSplit(q: Quat, g: Vec3, beta: real, step: Quat, dt: real)
    ensures Plus(q, ScalarMul(Rate(q, g, beta, step), dt))
         == Minus(Plus(q, ScalarMul(GyroRate(q, g), dt)), ScalarMul(step, beta * dt))
  {
    MinusScaled(q, GyroRate(q, g), step, beta, dt);
  }

  lemma MinusScaled(q: Quat, h: Quat, step: Quat, beta: real, dt: real)
    ensures Plus(q, ScalarMul(Minus(h, ScalarMul(step, beta)), dt))
         == Minus(Plus(q, ScalarMul(h, dt)), ScalarMul(step, beta * dt))
  {
    ScaledDifference(h.w, step.w, beta, dt);
    ScaledDifference(h.x, step.x, beta, dt);
    ScaledDifference(h.y, step.y, beta, dt);
    ScaledDifference(h.z, step.z, beta, dt);
  }

  lemma ScaledDifference(x: real, y: real, b: real, d: real)
    ensures (x - y * b) * d == x * d - y * (b * d)
  {
  }

  /**
   * With a unit estimate, a unit step and `beta dt` below 1, the sum that
   * both updates normalise is never zero: the gyroscope part has squared
   * norm at least 1 and the correction strictly less.
   */
  lemma RateAdvanceNonzero(q: Quat, g: Vec3, beta: real, step: Quat, dt: real)
    requires NormSq(q) == 1.0 && NormSq(step) == 1.0
    requires -1.0 < beta * dt < 1.0
    ensures Plus(q, ScalarMul(Rate(q, g, beta, step), dt)) != Zero
  {
    var u := Plus(q, ScalarMul(GyroRate(q, g), dt));
    var v := ScalarMul(step, beta * dt);
    RateSplit(q, g, beta, step, dt);
    AdvanceGrows(q, g, dt);
    assert NormSq(v) < 1.0 by {
      var c := beta * dt;
      NormSqScale(step, c);
      SquareBelowOne(c);
      assert NormSq(v) == c * c;
    }
    if Minus(u, v) == Zero {
      assert false;
    }
  }

  /** `jᵀ f` of `update_imu`: the direction of the corrective step for the normalised accelerometer `an`. */
  function ImuDirection(q: Quat, an: Vec3): Quat
  {
    TransposeTimes(ImuJacobian(q), ImuObjective(q, an))
  }

  /** `jᵀ f` of `update`, with the field reference computed from the normalised magnetometer `mn`. */
  function MargDirection(q: Quat, an: Vec3, mn: Vec3, sqrt: real -> real): Quat
  {
    var b := ReferenceField(EarthField(q, mn), sqrt);
    TransposeTimes(MargJacobian(q, b), MargObjective(q, an, mn, b))
  }

  /**
   * `update_imu` on the estimate `q`: normalise the accelerometer,
   * take the normalised step `jᵀ f`, and integrate. Every division by a
   * zero norm makes the new estimate NaN; the `is 0` guard never fires.
   */
  function ImuUpdate(q: Num<Quat>, g: Vec3, a: Vec3, beta: real, samplePeriod: real, sqrt: real -> real): (r: Num<Quat>)
    requires IsSqrt(sqrt)
    ensures r.Finite? ==> NormSq(r.value) == 1.0
    ensures q.NaN? || a == Zero3 ==> r == NaN
    ensures q.Finite? && a != Zero3 && ImuDirection(q.value, Normalised3(a, sqrt).value) == Zero ==> r == NaN
  {
    match q
    case NaN => NaN
    case Finite(q) =>
      match Normalised3(a, sqrt)
      case NaN => NaN
      case Finite(an) =>
        match Normalised(ImuDirection(q, an), sqrt)
        case NaN => NaN
        case Finite(step) => Integrate(q, Rate(q, g, beta, step), samplePeriod, sqrt)
  }

  /**
   * `update` on the estimate `q`: as `update_imu`, with the magnetometer
   * normalised too and three more rows in `f` and `j`.
   */
  function MargUpdate(q: Num<Quat>, g: Vec3, a: Vec3, m: Vec3, beta: real, samplePeriod: real, sqrt: real -> real): (r: Num<Quat>)
    requires IsSqrt(sqrt)
    ensures r.Finite? ==> NormSq(r.value) == 1.0
    ensures q.NaN? || a == Zero3 || m == Zero3 ==> r == NaN
    ensures q.Finite? && a != Zero3 && m != Zero3
      && MargDirection(q.value, Normalised3(a, sqrt).value, Normalised3(m, sqrt).value, sqrt) == Zero
      ==> r == NaN
  {
    match q
    case NaN => NaN
    case Finite(q) =>
      match Normalised3(a, sqrt)
      case NaN => NaN
      case Finite(an) =>
        match Normalised3(m, sqrt)
        case NaN => NaN
        case Finite(mn) =>
          match Normalised(MargDirection(q, an, mn, sqrt), sqrt)
          case NaN => NaN
          case Finite(step) => Integrate(q, Rate(q, g, beta, step), samplePeriod, sqrt)
  }

  /**
   * The converse for `update_imu`: from a unit estimate, with a nonzero
   * accelerometer and a nonzero step direction, and a gain small enough
   * that `beta dt` is below 1, the new estimate is a unit quaternion.
   */
  lemma ImuUpdateUnit(q: Quat, g: Vec3, a: Vec3, beta: real, samplePeriod: real, sqrt: real -> real)
    requires IsSqrt(sqrt) && NormSq(q) == 1.0 && a != Zero3
    requires ImuDirection(q, Normalised3(a, sqrt).value) != Zero
    requires -1.0 < beta * samplePeriod < 1.0
    ensures ImuUpdate(Finite(q), g, a, beta, samplePeriod, sqrt).Finite?
    ensures NormSq(ImuUpdate(Finite(q), g, a, beta, samplePeriod, sqrt).value) == 1.0
  {
    var an := Normalised3(a, sqrt).value;
    var step := Normalised(ImuDirection(q, an), sqrt).value;
    RateAdvanceNonzero(q, g, beta, step, samplePeriod);
  }

  /** The converse for `update`, with a nonzero magnetometer too. */
  lemma MargUpdateUnit(q: Quat, g: Vec3, a: Vec3, m: Vec3, beta: real, samplePeriod: real, sqrt: real -> real)
    requires IsSqrt(sqrt) && NormSq(q) == 1.0 && a != Zero3 && m != Zero3
    requires MargDirection(q, Normalised3(a, sqrt).value, Normalised3(m, sqrt).value, sqrt) != Zero
    requires -1.0 < beta * samplePeriod < 1.0
    ensures MargUpdate(Finite(q), g, a, m, beta, samplePeriod, sqrt).Finite?
    ensures NormSq(MargUpdate(Finite(q), g, a, m, beta, samplePeriod, sqrt).value) == 1.0
  {
    var an := Normalised3(a, sqrt).value;
    var mn := Normalised3(m, sqrt).value;
    var step := Normalised(MargDirection(q, an, mn, sqrt), sqrt).value;
    RateAdvanceNonzero(q, g, beta, step, samplePeriod);
  }

  /** A unit vector is its own normalisation. */
  lemma Normalised3Unit(v: Vec3, sqrt: real -> real)
    requires IsSqrt(sqrt) && NormSq3(v) == 1.0
    ensures Normalised3(v, sqrt) == Finite(v)
  {
    SqrtOne(sqrt);
  }

  /**
   * At rest in the reference attitude, with gravity along z, the objective
   * of `update_imu` vanishes, so the step has norm zero and dividing by it
   * makes the new estimate NaN.
   */
  lemma ImuAligned(g: Vec3, beta: real, samplePeriod: real, sqrt: real -> real)
    requires IsSqrt(sqrt)
    ensures forall i | 0 <= i < 3 :: ImuObjective(Identity, Vec3(0.0, 0.0, 1.0))[i] == 0.0
    ensures ImuUpdate(Finite(Identity), g, Vec3(0.0, 0.0, 1.0), beta, samplePeriod, sqrt) == NaN
  {
    var a := Vec3(0.0, 0.0, 1.0);
    Normalised3Unit(a, sqrt);
    TransposeTimesZero(ImuJacobian(Identity), ImuObjective(Identity, a));
  }

  /**
   * The same for `update`: with unit measurements whose field lies along
   * x in the Earth frame, so that the field reference is `(0, 1, 0, 0)`,
   * an objective `f` whose six rows vanish makes the new estimate NaN.
   * `ReferenceAligned` and `MargObjectiveAligned` show that the reference
   * attitude with gravity along z and the field along x is such a case.
   */
  lemma MargStalls(q: Quat, g: Vec3, a: Vec3, m: Vec3, beta: real, samplePeriod: real, sqrt: real -> real)
    requires IsSqrt(sqrt) && NormSq3(a) == 1.0 && NormSq3(m) == 1.0
    requires EarthField(q, m) == Quat(0.0, 1.0, 0.0, 0.0)
    requires forall i | 0 <= i < 6 :: MargObjective(q, a, m, Quat(0.0, 1.0, 0.0, 0.0))[i] == 0.0
    ensures MargUpdate(Finite(q), g, a, m, beta, samplePeriod, sqrt) == NaN
  {
    var b := Quat(0.0, 1.0, 0.0, 0.0);
    Normalised3Unit(a, sqrt);
    Normalised3Unit(m, sqrt);
    ReferenceOfUnitX(EarthField(q, m), sqrt);
    TransposeTimesZero(MargJacobian(q, b), MargObjective(q, a, m, b));
  }

  /** A magnetometer along x in the reference attitude gives the field reference `(0, 1, 0, 0)`. */
  lemma ReferenceAligned(sqrt: real -> real)
    requires IsSqrt(sqrt)
    ensures ReferenceField(EarthField(Identity, Vec3(1.0, 0.0, 0.0)), sqrt) == Quat(0.0, 1.0, 0.0, 0.0)
  {
    EarthFieldIdentity(Vec3(1.0, 0.0, 0.0));
    ReferenceOfUnitX(EarthField(Identity, Vec3(1.0, 0.0, 0.0)), sqrt);
  }

  lemma ReferenceOfUnitX(h: Quat, sqrt: real -> real)
    requires IsSqrt(sqrt) && h == Quat(0.0, 1.0, 0.0, 0.0)
    ensures ReferenceField(h, sqrt) == h
  {
    SqrtOne(sqrt);
    assert h.x * h.x + h.y * h.y == 1.0;
  }

  /** In the aligned case every row of the nine-axis objective is zero. */
  lemma MargObjectiveAligned()
    ensures forall i | 0 <= i < 6 ::
      MargObjective(Identity, Vec3(0.0, 0.0, 1.0), Vec3(1.0, 0.0, 0.0), Quat(0.0, 1.0, 0.0, 0.0))[i] == 0.0
  {
  }

  /**
   * `MadgwickAHRS`: the sample period, the current estimate and the gain.
   * The estimate is NaN once a division by a zero norm has happened.
   */
  class MadgwickAHRS {
    const samplePeriod: real
    const beta: real
    var quaternion: Num<Quat>

    /** Each argument left out keeps the class default: 1/256, `(1, 0, 0, 0)` and 1. */
    constructor(samplePeriod: Option<real>, quaternion: Option<Quat>, beta: Option<real>)
      ensures this.samplePeriod == samplePeriod.UnwrapOr(1.0 / 256.0)
      ensures this.quaternion == Finite(quaternion.UnwrapOr(Identity))
      ensures this.beta == beta.UnwrapOr(1.0)
    {
      this.samplePeriod := samplePeriod.UnwrapOr(1.0 / 256.0);
      this.quaternion := Finite(quaternion.UnwrapOr(Identity));
      this.beta := beta.UnwrapOr(1.0);
    }

    /** `update`: one step with gyroscope, accelerometer and magnetometer readings. */
    method Update(gyroscope: Vec3, accelerometer: Vec3, magnetometer: Vec3, sqrt: real -> real)
      requires IsSqrt(sqrt)
      modifies this
      ensures quaternion == MargUpdate(old(quaternion), gyroscope, accelerometer, magnetometer, beta, samplePeriod, sqrt)
      ensures quaternion.Finite? ==> NormSq(quaternion.value) == 1.0
    {
      quaternion := MargUpdate(quaternion, gyroscope, accelerometer, magnetometer, beta, samplePeriod, sqrt);
    }

    /**
     * `update_imu`: one step with gyroscope and accelerometer readings. The
     * caller's accelerometer array is normalised in place.
     */
    method UpdateImu(gyroscope: Vec3, accelerometer: array<real>, sqrt: real -> real)
      requires IsSqrt(sqrt) && accelerometer.Length == 3
      modifies this, accelerometer
      ensures var a := Vec3(old(accelerometer[0]), old(accelerometer[1]), old(accelerometer[2]));
              && quaternion == ImuUpdate(old(quaternion), gyroscope, a, beta, samplePeriod, sqrt)
              && (a != Zero3 ==> accelerometer[..] == [Normalised3(a, sqrt).value.x, Normalised3(a, sqrt).value.y, Normalised3(a, sqrt).value.z])
              && (a == Zero3 ==> accelerometer[..] == old(accelerometer[..]))
      ensures quaternion.Finite? ==> NormSq(quaternion.value) == 1.0
    {
      var a := Vec3(accelerometer[0], accelerometer[1], accelerometer[2]);
      var an := Normalised3(a, sqrt);
      if an.Finite? {
        accelerometer[0], accelerometer[1], accelerometer[2] := an.value.x, an.value.y, an.value.z;
      }
      quaternion := ImuUpdate(quaternion, gyroscope, a, beta, samplePeriod, sqrt);
    }
  }
}
