/**
 * The `Quaternion` class of the AHRS module: construction from a
 * four-element array, the conjugate, the Hamilton and scalar products,
 * element-wise addition, indexed reads and the conversion to a rotation
 * matrix, together with the algebraic laws these operations obey.
 */
module Quaternions {
  import opened Wrappers
  import opened Numerics
  import opened Vectors

  /** A quaternion `w + x i + y j + z k`, stored as the array `[w, x, y, z]`. */
  datatype Quat = Quat(w: real, x: real, y: real, z: real)

  const Identity := Quat(1.0, 0.0, 0.0, 0.0)
  const Zero := Quat(0.0, 0.0, 0.0, 0.0)

  /** The exceptions the class raises. */
  datatype QuatError = ValueError | TypeError | IndexError

  /**
   * The single argument `w_or_q` of the constructor, or the right operand
   * of `+`: another quaternion, an array of reals, or a bare number.
   */
  datatype Operand = QuatArg(q: Quat) | SeqArg(s: seq<real>) | ScalarArg(r: real)

  /** The vector part `(x, y, z)`. */
  function Vector(q: Quat): Vec3
  {
    Vec3(q.x, q.y, q.z)
  }

  /** The array `[w, x, y, z]` that the quaternion wraps. */
  function ToSeq(q: Quat): (s: seq<real>)
    ensures |s| == 4
  {
    [q.w, q.x, q.y, q.z]
  }

  /**
   * The constructor called with one argument: a quaternion is copied, an
   * array must have exactly four elements, and a bare number has no length.
   */
  function New(arg: Operand): (r: Result<Quat, QuatError>)
    ensures arg.QuatArg? ==> r == Success(arg.q)
    ensures arg.SeqArg? ==> (r.Success? <==> |arg.s| == 4)
    ensures arg.SeqArg? && r.Success? ==> ToSeq(r.value) == arg.s
    ensures arg.ScalarArg? ==> r == Failure(TypeError)
    ensures r.Failure? && arg.SeqArg? ==> r.error == ValueError
  {
    match arg
    case QuatArg(q) => Success(q)
    case SeqArg(s) => if |s| != 4 then Failure(ValueError) else Success(Quat(s[0], s[1], s[2], s[3]))
    case ScalarArg(_) => Failure(TypeError)
  }

  /** Building from the wrapped array gives back the same quaternion. */
  lemma NewToSeq(q: Quat)
    ensures New(SeqArg(ToSeq(q))) == Success(q)
  {
  }

  /** `conj`: the conjugate. */
  function Conj(q: Quat): Quat
  {
    Quat(q.w, -q.x, -q.y, -q.z)
  }

  /**
   * The conjugate keeps the real part, negates the imaginary parts, and is
   * an involution; it keeps the norm, and its sum with `q` is real.
   */
  lemma ConjProperties(q: Quat)
    ensures Conj(q).w == q.w
    ensures Conj(q).x == -q.x && Conj(q).y == -q.y && Conj(q).z == -q.z
    ensures Conj(Conj(q)) == q
    ensures NormSq(Conj(q)) == NormSq(q)
    ensures Plus(q, Conj(q)) == Quat(2.0 * q.w, 0.0, 0.0, 0.0)
  {
  }

  /** The Hamilton product of two quaternions. */
  function Mul(a: Quat, b: Quat): Quat
  {
    Quat(a.w * b.w - a.x * b.x - a.y * b.y - a.z * b.z,
         a.w * b.x + a.x * b.w + a.y * b.z - a.z * b.y,
         a.w * b.y - a.x * b.z + a.y * b.w + a.z * b.x,
         a.w * b.z + a.x * b.y - a.y * b.x + a.z * b.w)
  }

  /**
   * The product in scalar-vector form: the real part is `a.w b.w - a·b` and
   * the vector part `a.w b + b.w a + a × b`.
   */
  lemma MulScalarVector(a: Quat, b: Quat)
    ensures Mul(a, b).w == a.w * b.w - Dot(Vector(a), Vector(b))
    ensures Vector(Mul(a, b)) == Plus3(Plus3(Scale3(Vector(b), a.w), Scale3(Vector(a), b.w)), Cross(Vector(a), Vector(b)))
  {
    MulRealPart(a, b);
    MulVectorPart(a, b);
  }

  lemma MulRealPart(a: Quat, b: Quat)
    ensures Mul(a, b).w == a.w * b.w - Dot(Vector(a), Vector(b))
  {
  }

  lemma MulVectorPart(a: Quat, b: Quat)
    ensures Vector(Mul(a, b)) == Plus3(Plus3(Scale3(Vector(b), a.w), Scale3(Vector(a), b.w)), Cross(Vector(a), Vector(b)))
  {
  }

  /** A quaternion times a number: every component of the array is scaled. */
  function ScalarMul(q: Quat, s: real): Quat
  {
    Quat(q.w * s, q.x * s, q.y * s, q.z * s)
  }

  /** Element-wise sum of the two arrays. */
  function Plus(a: Quat, b: Quat): Quat
  {
    Quat(a.w + b.w, a.x + b.x, a.y + b.y, a.z + b.z)
  }

  /**
   * `a + other`: a quaternion or a four-element array is added element by
   * element; any other array, and a bare number, raise `TypeError`.
   */
  function Add(a: Quat, other: Operand): (r: Result<Quat, QuatError>)
    ensures other.QuatArg? ==> r == Success(Plus(a, other.q))
    ensures other.SeqArg? ==> (r.Success? <==> |other.s| == 4)
    ensures other.SeqArg? && r.Success? ==>
              forall i :: 0 <= i < 4 ==> ToSeq(r.value)[i] == ToSeq(a)[i] + other.s[i]
    ensures other.ScalarArg? ==> r == Failure(TypeError)
    ensures r.Failure? ==> r.error == TypeError
  {
    match other
    case QuatArg(b) => Success(Plus(a, b))
    case SeqArg(s) =>
      if |s| != 4 then Failure(TypeError) else Success(Plus(a, Quat(s[0], s[1], s[2], s[3])))
    case ScalarArg(_) => Failure(TypeError)
  }

  /**
   * `q[i]`: numpy indexing of the four-element array, where a negative
   * index counts from the end.
   */
  function At(q: Quat, i: int): (r: Result<real, QuatError>)
    ensures r.Success? <==> -4 <= i < 4
    ensures 0 <= i < 4 ==> r == Success(ToSeq(q)[i])
    ensures -4 <= i < 0 ==> r == Success(ToSeq(q)[i + 4])
    ensures r.Failure? ==> r.error == IndexError
  {
    if i < -4 || 4 <= i then Failure(IndexError)
    else
      var k := if i < 0 then i + 4 else i;
      Success(if k == 0 then q.w else if k == 1 then q.x else if k == 2 then q.y else q.z)
  }

  function NormSq(q: Quat): real
  {
    q.w * q.w + q.x * q.x + q.y * q.y + q.z * q.z
  }

  /** A sum of four squares is non-negative and vanishes only at the zero quaternion. */
  lemma NormSqZero(q: Quat)
    ensures 0.0 <= NormSq(q)
    ensures NormSq(q) == 0.0 <==> q == Zero
  {
    SquareSign(q.w, q.w * q.w);
    SquareSign(q.x, q.x * q.x);
    SquareSign(q.y, q.y * q.y);
    SquareSign(q.z, q.z * q.z);
  }

  /** `q / norm(q)`: the unit quaternion along `q`, or NaN when `q` is zero. */
  function Normalised(q: Quat, sqrt: real -> real): (r: Num<Quat>)
    requires IsSqrt(sqrt)
    ensures r.Finite? <==> q != Zero
    ensures r.Finite? ==> NormSq(r.value) == 1.0 && ScalarMul(r.value, sqrt(NormSq(q))) == q
  {
    NormSqZero(q);
    SqrtZero(sqrt, NormSq(q));
    var n := sqrt(NormSq(q));
    if n == 0.0 then NaN
    else
      UnitQuotient(q, n);
      Finite(Quat(q.w / n, q.x / n, q.y / n, q.z / n))
  }

  /** Dividing by the norm leaves a quaternion of squared norm 1. */
  lemma UnitQuotient(q: Quat, n: real)
    requires 0.0 < n && n * n == NormSq(q)
    ensures NormSq(Quat(q.w / n, q.x / n, q.y / n, q.z / n)) == 1.0
  {
    var u := Quat(q.w / n, q.x / n, q.y / n, q.z / n);
    assert u.w * n == q.w && u.x * n == q.x && u.y * n == q.y && u.z * n == q.z;
    calc {
      NormSq(u) * (n * n);
      (u.w * n) * (u.w * n) + (u.x * n) * (u.x * n) + (u.y * n) * (u.y * n) + (u.z * n) * (u.z * n);
      NormSq(q);
      1.0 * (n * n);
    }
    assert 0.0 < n * n;
  }

  /** Normalising a unit quaternion leaves it as it is. */
  lemma NormalisedUnit(q: Quat, sqrt: real -> real)
    requires IsSqrt(sqrt) && NormSq(q) == 1.0
    ensures Normalised(q, sqrt) == Finite(q)
  {
    SqrtOne(sqrt);
  }

  /**
   * `quatern2rotMat`: the rotation matrix of a quaternion, element by
   * element. For a unit quaternion its trace is `1 + 2 cos θ` for the
   * rotation angle θ, that is `4 w² - 1`.
   */
  function RotMat(q: Quat): Mat3
  {
    RotMatOf(q.w, q.x, q.y, q.z)
  }

  /** The rotation matrix written out in the four components `q[0]`..`q[3]`. */
  function RotMatOf(w: real, x: real, y: real, z: real): Mat3
  {
    Mat3(Vec3(2.0 * w * w - 1.0 + 2.0 * x * x, 2.0 * (x * y + w * z), 2.0 * (x * z - w * y)),
         Vec3(2.0 * (x * y - w * z), 2.0 * w * w - 1.0 + 2.0 * y * y, 2.0 * (y * z + w * x)),
         Vec3(2.0 * (x * z + w * y), 2.0 * (y * z - w * x), 2.0 * w * w - 1.0 + 2.0 * z * z))
  }

  /** The components of a Hamilton product, for proofs that treat the product's components as unknowns. */
  predicate IsProduct(p: Quat, a: Quat, b: Quat)
  {
    && p.w == a.w * b.w - a.x * b.x - a.y * b.y - a.z * b.z
    && p.x == a.w * b.x + a.x * b.w + a.y * b.z - a.z * b.y
    && p.y == a.w * b.y - a.x * b.z + a.y * b.w + a.z * b.x
    && p.z == a.w * b.z + a.x * b.y - a.y * b.x + a.z * b.w
  }

  lemma MulIsProduct(a: Quat, b: Quat)
    ensures IsProduct(Mul(a, b), a, b)
  {
  }

  /** Multiplying by a number scales every component: it is the product with the real quaternion `(s, 0, 0, 0)`. */
  lemma ScalarMulIsProduct(q: Quat, s: real)
    ensures ScalarMul(q, s) == Mul(q, Quat(s, 0.0, 0.0, 0.0))
    ensures ScalarMul(q, s) == Mul(Quat(s, 0.0, 0.0, 0.0), q)
  {
  }

  /** `(1, 0, 0, 0)` is a two-sided unit of the Hamilton product. */
  lemma MulIdentity(q: Quat)
    ensures Mul(Identity, q) == q
    ensures Mul(q, Identity) == q
  {
  }

  /** The Hamilton product is associative. */
  lemma MulAssociative(a: Quat, b: Quat, c: Quat)
    ensures Mul(Mul(a, b), c) == Mul(a, Mul(b, c))
  {
    var p, q := Mul(a, b), Mul(b, c);
    MulIsProduct(a, b);
    MulIsProduct(b, c);
    AssociativeQuatW(a, b, c, p, q);
    AssociativeQuatX(a, b, c, p, q);
    AssociativeQuatY(a, b, c, p, q);
    AssociativeQuatZ(a, b, c, p, q);
  }

  lemma AssociativeQuatW(a: Quat, b: Quat, c: Quat, p: Quat, q: Quat)
    requires IsProduct(p, a, b) && IsProduct(q, b, c)
    ensures p.w * c.w - p.x * c.x - p.y * c.y - p.z * c.z == a.w * q.w - a.x * q.x - a.y * q.y - a.z * q.z
  {
    AssociativeW(a.w, a.x, a.y, a.z, b.w, b.x, b.y, b.z, c.w, c.x, c.y, c.z, p.w, p.x, p.y, p.z, q.w, q.x, q.y, q.z);
  }

  lemma AssociativeQuatX(a: Quat, b: Quat, c: Quat, p: Quat, q: Quat)
    requires IsProduct(p, a, b) && IsProduct(q, b, c)
    ensures p.w * c.x + p.x * c.w + p.y * c.z - p.z * c.y == a.w * q.x + a.x * q.w + a.y * q.z - a.z * q.y
  {
    AssociativeX(a.w, a.x, a.y, a.z, b.w, b.x, b.y, b.z, c.w, c.x, c.y, c.z, p.w, p.x, p.y, p.z, q.w, q.x, q.y, q.z);
  }

  lemma AssociativeQuatY(a: Quat, b: Quat, c: Quat, p: Quat, q: Quat)
    requires IsProduct(p, a, b) && IsProduct(q, b, c)
    ensures p.w * c.y - p.x * c.z + p.y * c.w + p.z * c.x == a.w * q.y - a.x * q.z + a.y * q.w + a.z * q.x
  {
    AssociativeY(a.w, a.x, a.y, a.z, b.w, b.x, b.y, b.z, c.w, c.x, c.y, c.z, p.w, p.x, p.y, p.z, q.w, q.x, q.y, q.z);
  }

  lemma AssociativeQuatZ(a: Quat, b: Quat, c: Quat, p: Quat, q: Quat)
    requires IsProduct(p, a, b) && IsProduct(q, b, c)
    ensures p.w * c.z + p.x * c.y - p.y * c.x + p.z * c.w == a.w * q.z + a.x * q.y - a.y * q.x + a.z * q.w
  {
    AssociativeZ(a.w, a.x, a.y, a.z, b.w, b.x, b.y, b.z, c.w, c.x, c.y, c.z, p.w, p.x, p.y, p.z, q.w, q.x, q.y, q.z);
  }

  lemma AssociativeW(a0: real, a1: real, a2: real, a3: real, b0: real, b1: real, b2: real, b3: real,
                       c0: real, c1: real, c2: real, c3: real,
                       p0: real, p1: real, p2: real, p3: real, q0: real, q1: real, q2: real, q3: real)
    requires p0 == a0 * b0 - a1 * b1 - a2 * b2 - a3 * b3 && p1 == a0 * b1 + a1 * b0 + a2 * b3 - a3 * b2
    requires p2 == a0 * b2 - a1 * b3 + a2 * b0 + a3 * b1 && p3 == a0 * b3 + a1 * b2 - a2 * b1 + a3 * b0
    requires q0 == b0 * c0 - b1 * c1 - b2 * c2 - b3 * c3 && q1 == b0 * c1 + b1 * c0 + b2 * c3 - b3 * c2
    requires q2 == b0 * c2 - b1 * c3 + b2 * c0 + b3 * c1 && q3 == b0 * c3 + b1 * c2 - b2 * c1 + b3 * c0
    ensures p0 * c0 - p1 * c1 - p2 * c2 - p3 * c3 == a0 * q0 - a1 * q1 - a2 * q2 - a3 * q3
  {
  }

  lemma AssociativeX(a0: real, a1: real, a2: real, a3: real, b0: real, b1: real, b2: real, b3: real,
                       c0: real, c1: real, c2: real, c3: real,
                       p0: real, p1: real, p2: real, p3: real, q0: real, q1: real, q2: real, q3: real)
    requires p0 == a0 * b0 - a1 * b1 - a2 * b2 - a3 * b3 && p1 == a0 * b1 + a1 * b0 + a2 * b3 - a3 * b2
    requires p2 == a0 * b2 - a1 * b3 + a2 * b0 + a3 * b1 && p3 == a0 * b3 + a1 * b2 - a2 * b1 + a3 * b0
    requires q0 == b0 * c0 - b1 * c1 - b2 * c2 - b3 * c3 && q1 == b0 * c1 + b1 * c0 + b2 * c3 - b3 * c2
    requires q2 == b0 * c2 - b1 * c3 + b2 * c0 + b3 * c1 && q3 == b0 * c3 + b1 * c2 - b2 * c1 + b3 * c0
    ensures p0 * c1 + p1 * c0 + p2 * c3 - p3 * c2 == a0 * q1 + a1 * q0 + a2 * q3 - a3 * q2
  {
  }

  lemma AssociativeY(a0: real, a1: real, a2: real, a3: real, b0: real, b1: real, b2: real, b3: real,
                       c0: real, c1: real, c2: real, c3: real,
                       p0: real, p1: real, p2: real, p3: real, q0: real, q1: real, q2: real, q3: real)
    requires p0 == a0 * b0 - a1 * b1 - a2 * b2 - a3 * b3 && p1 == a0 * b1 + a1 * b0 + a2 * b3 - a3 * b2
    requires p2 == a0 * b2 - a1 * b3 + a2 * b0 + a3 * b1 && p3 == a0 * b3 + a1 * b2 - a2 * b1 + a3 * b0
    requires q0 == b0 * c0 - b1 * c1 - b2 * c2 - b3 * c3 && q1 == b0 * c1 + b1 * c0 + b2 * c3 - b3 * c2
    requires q2 == b0 * c2 - b1 * c3 + b2 * c0 + b3 * c1 && q3 == b0 * c3 + b1 * c2 - b2 * c1 + b3 * c0
    ensures p0 * c2 - p1 * c3 + p2 * c0 + p3 * c1 == a0 * q2 - a1 * q3 + a2 * q0 + a3 * q1
  {
  }

  lemma AssociativeZ(a0: real, a1: real, a2: real, a3: real, b0: real, b1: real, b2: real, b3: real,
                       c0: real, c1: real, c2: real, c3: real,
                       p0: real, p1: real, p2: real, p3: real, q0: real, q1: real, q2: real, q3: real)
    requires p0 == a0 * b0 - a1 * b1 - a2 * b2 - a3 * b3 && p1 == a0 * b1 + a1 * b0 + a2 * b3 - a3 * b2
    requires p2 == a0 * b2 - a1 * b3 + a2 * b0 + a3 * b1 && p3 == a0 * b3 + a1 * b2 - a2 * b1 + a3 * b0
    requires q0 == b0 * c0 - b1 * c1 - b2 * c2 - b3 * c3 && q1 == b0 * c1 + b1 * c0 + b2 * c3 - b3 * c2
    requires q2 == b0 * c2 - b1 * c3 + b2 * c0 + b3 * c1 && q3 == b0 * c3 + b1 * c2 - b2 * c1 + b3 * c0
    ensures p0 * c3 + p1 * c2 - p2 * c1 + p3 * c0 == a0 * q3 + a1 * q2 - a2 * q1 + a3 * q0
  {
  }

  /** `a b - b a` is twice the cross product of the vector parts of `a` and `b`. */
  lemma MulCommutator(a: Quat, b: Quat)
    ensures Mul(a, b).w == Mul(b, a).w
    ensures Mul(a, b).x - Mul(b, a).x == 2.0 * Cross(Vector(a), Vector(b)).x
    ensures Mul(a, b).y - Mul(b, a).y == 2.0 * Cross(Vector(a), Vector(b)).y
    ensures Mul(a, b).z - Mul(b, a).z == 2.0 * Cross(Vector(a), Vector(b)).z
  {
    var p, q := Mul(a, b), Mul(b, a);
    MulIsProduct(a, b);
    MulIsProduct(b, a);
    CommutatorComponents(a, b, p, q);
  }

  /** Two quaternions commute exactly when the cross product of their vector parts vanishes. */
  lemma MulCommutes(a: Quat, b: Quat)
    ensures Mul(a, b) == Mul(b, a) <==> Cross(Vector(a), Vector(b)) == Zero3
  {
    MulCommutator(a, b);
    var p, q, c := Mul(a, b), Mul(b, a), Cross(Vector(a), Vector(b));
    assert p == q <==> p.x - q.x == 0.0 && p.y - q.y == 0.0 && p.z - q.z == 0.0;
  }

  lemma CommutatorComponents(a: Quat, b: Quat, p: Quat, q: Quat)
    requires IsProduct(p, a, b) && IsProduct(q, b, a)
    ensures p.w == q.w
    ensures p.x - q.x == 2.0 * Cross(Vector(a), Vector(b)).x
    ensures p.y - q.y == 2.0 * Cross(Vector(a), Vector(b)).y
    ensures p.z - q.z == 2.0 * Cross(Vector(a), Vector(b)).z
  {
  }

  /** In particular the product is not commutative: `i j = k` while `j i = -k`. */
  lemma MulNotCommutative()
    ensures Mul(Quat(0.0, 1.0, 0.0, 0.0), Quat(0.0, 0.0, 1.0, 0.0)) == Quat(0.0, 0.0, 0.0, 1.0)
    ensures Mul(Quat(0.0, 0.0, 1.0, 0.0), Quat(0.0, 1.0, 0.0, 0.0)) == Quat(0.0, 0.0, 0.0, -1.0)
  {
    var i, j := Quat(0.0, 1.0, 0.0, 0.0), Quat(0.0, 0.0, 1.0, 0.0);
    var ij, ji := Mul(i, j), Mul(j, i);
    assert ij.w == 0.0 * 0.0 - 1.0 * 0.0 - 0.0 * 1.0 - 0.0 * 0.0 == 0.0;
    assert ij.x == 0.0 * 0.0 + 1.0 * 0.0 + 0.0 * 0.0 - 0.0 * 1.0 == 0.0;
    assert ij.y == 0.0 * 1.0 - 1.0 * 0.0 + 0.0 * 0.0 + 0.0 * 0.0 == 0.0;
    assert ij.z == 0.0 * 0.0 + 1.0 * 1.0 - 0.0 * 0.0 + 0.0 * 0.0 == 1.0;
    assert ji.w == 0.0 * 0.0 - 0.0 * 1.0 - 1.0 * 0.0 - 0.0 * 0.0 == 0.0;
    assert ji.x == 0.0 * 1.0 + 0.0 * 0.0 + 1.0 * 0.0 - 0.0 * 0.0 == 0.0;
    assert ji.y == 0.0 * 0.0 - 0.0 * 0.0 + 1.0 * 0.0 + 0.0 * 1.0 == 0.0;
    assert ji.z == 0.0 * 0.0 + 0.0 * 0.0 - 1.0 * 1.0 + 0.0 * 0.0 == -1.0;
  }

  /** `q * conj(q)` and `conj(q) * q` are the real quaternion `(|q|^2, 0, 0, 0)`. */
  lemma MulConj(q: Quat)
    ensures Mul(q, Conj(q)) == Quat(NormSq(q), 0.0, 0.0, 0.0)
    ensures Mul(Conj(q), q) == Quat(NormSq(q), 0.0, 0.0, 0.0)
  {
  }

  /** Conjugation reverses products. */
  lemma ConjMul(a: Quat, b: Quat)
    ensures Conj(Mul(a, b)) == Mul(Conj(b), Conj(a))
  {
    MulIsProduct(a, b);
    MulIsProduct(Conj(b), Conj(a));
    ConjProduct(a, b, Mul(a, b), Mul(Conj(b), Conj(a)));
  }

  lemma ConjProduct(a: Quat, b: Quat, p: Quat, q: Quat)
    requires IsProduct(p, a, b) && IsProduct(q, Conj(b), Conj(a))
    ensures Conj(p) == q
  {
    ConjMulComponents(a.w, a.x, a.y, a.z, b.w, b.x, b.y, b.z);
  }

  lemma ConjMulComponents(a0: real, a1: real, a2: real, a3: real, b0: real, b1: real, b2: real, b3: real)
    ensures a0 * b0 - a1 * b1 - a2 * b2 - a3 * b3 == b0 * a0 - (-b1) * (-a1) - (-b2) * (-a2) - (-b3) * (-a3)
    ensures -(a0 * b1 + a1 * b0 + a2 * b3 - a3 * b2) == b0 * (-a1) + (-b1) * a0 + (-b2) * (-a3) - (-b3) * (-a2)
    ensures -(a0 * b2 - a1 * b3 + a2 * b0 + a3 * b1) == b0 * (-a2) - (-b1) * (-a3) + (-b2) * a0 + (-b3) * (-a1)
    ensures -(a0 * b3 + a1 * b2 - a2 * b1 + a3 * b0) == b0 * (-a3) + (-b1) * (-a2) - (-b2) * (-a1) + (-b3) * a0
  {
  }

  /** The identity quaternion is the identity rotation. */
  lemma RotMatIdentity()
    ensures RotMat(Identity) == Identity3
  {
  }

  /** The conjugate quaternion has the transposed rotation matrix. */
  lemma RotMatConj(q: Quat)
    ensures RotMat(Conj(q)) == Transpose(RotMat(q))
  {
    RotMatEntries(q);
    RotMatEntries(Conj(q));
    ConjRotMat(RotMat(q), RotMat(Conj(q)), q.w, q.x, q.y, q.z);
  }

  lemma ConjRotMat(m: Mat3, n: Mat3, w: real, x: real, y: real, z: real)
    requires IsRotMat(m, w, x, y, z) && IsRotMat(n, w, -x, -y, -z)
    ensures n == Transpose(m)
  {
    NegProducts(w, x, y, z);
  }

  /** How negating the vector part changes the quadratic monomials of a quaternion. */
  lemma NegProducts(w: real, x: real, y: real, z: real)
    ensures (-x) * (-x) == x * x && (-y) * (-y) == y * y && (-z) * (-z) == z * z
    ensures (-x) * (-y) == x * y && (-x) * (-z) == x * z && (-y) * (-z) == y * z
    ensures w * (-x) == -(w * x) && w * (-y) == -(w * y) && w * (-z) == -(w * z)
  {
  }

  /** For a unit quaternion the rows of the rotation matrix are orthonormal: R Rᵀ = I. */
  lemma RotMatOrthogonal(q: Quat)
    requires NormSq(q) == 1.0
    ensures MatMul(RotMat(q), Transpose(RotMat(q))) == Identity3
  {
    RotMatEntries(q);
    UnitRotMatOrthogonal(RotMat(q), q.w, q.x, q.y, q.z);
  }

  lemma UnitRotMatOrthogonal(m: Mat3, w: real, x: real, y: real, z: real)
    requires w * w + x * x + y * y + z * z == 1.0 && IsRotMat(m, w, x, y, z)
    ensures MatMul(m, Transpose(m)) == Identity3
  {
    RotRow0Unit(m, w, x, y, z);
    RotRow1Unit(m, w, x, y, z);
    RotRow2Unit(m, w, x, y, z);
    RotRows01Orthogonal(m, w, x, y, z);
    RotRows02Orthogonal(m, w, x, y, z);
    RotRows12Orthogonal(m, w, x, y, z);
    OrthonormalRows(m);
  }

  /** The entries of the rotation matrix of `(w, x, y, z)`, for proofs that treat them as unknowns. */
  predicate IsRotMat(m: Mat3, w: real, x: real, y: real, z: real)
  {
    m == RotMatOf(w, x, y, z)
  }

  lemma RotMatEntries(q: Quat)
    ensures IsRotMat(RotMat(q), q.w, q.x, q.y, q.z)
  {
  }

  /**
   * The trace of the rotation matrix of a unit quaternion is `4 w² - 1`,
   * that is `1 + 2 cos θ` for the rotation angle θ with `w = cos(θ/2)`.
   */
  lemma RotMatTrace(q: Quat)
    requires NormSq(q) == 1.0
    ensures RotMat(q).r0.x + RotMat(q).r1.y + RotMat(q).r2.z == 4.0 * q.w * q.w - 1.0
  {
    RotMatEntries(q);
    TraceOfEntries(RotMat(q), q.w, q.x, q.y, q.z);
  }

  lemma TraceOfEntries(m: Mat3, w: real, x: real, y: real, z: real)
    requires IsRotMat(m, w, x, y, z) && w * w + x * x + y * y + z * z == 1.0
    ensures m.r0.x + m.r1.y + m.r2.z == 4.0 * w * w - 1.0
  {
  }

  /** Row 0 of the rotation matrix of a unit quaternion has unit length. */
  lemma RotRow0Unit(m: Mat3, w: real, x: real, y: real, z: real)
    requires w * w + x * x + y * y + z * z == 1.0 && IsRotMat(m, w, x, y, z)
    ensures Dot(m.r0, m.r0) == 1.0
  {
    var a, b, c := m.r0.x, m.r0.y, m.r0.z;
    RowUnit(w, x, y, z, a, b, c);
  }

  /** Row 1 of the rotation matrix of a unit quaternion has unit length. */
  lemma RotRow1Unit(m: Mat3, w: real, x: real, y: real, z: real)
    requires w * w + x * x + y * y + z * z == 1.0 && IsRotMat(m, w, x, y, z)
    ensures Dot(m.r1, m.r1) == 1.0
  {
    var a, b, c := m.r1.x, m.r1.y, m.r1.z;
    RowUnit(w, y, z, x, b, c, a);
  }

  /** Row 2 of the rotation matrix of a unit quaternion has unit length. */
  lemma RotRow2Unit(m: Mat3, w: real, x: real, y: real, z: real)
    requires w * w + x * x + y * y + z * z == 1.0 && IsRotMat(m, w, x, y, z)
    ensures Dot(m.r2, m.r2) == 1.0
  {
    var a, b, c := m.r2.x, m.r2.y, m.r2.z;
    RowUnit(w, z, x, y, c, a, b);
  }

  /** Rows 0 and 1 of the rotation matrix of a unit quaternion are orthogonal. */
  lemma RotRows01Orthogonal(m: Mat3, w: real, x: real, y: real, z: real)
    requires w * w + x * x + y * y + z * z == 1.0 && IsRotMat(m, w, x, y, z)
    ensures Dot(m.r0, m.r1) == 0.0
  {
    RowsOrthogonal01(w, x, y, z, m.r0, m.r1);
  }

  /** Rows 0 and 2 of the rotation matrix of a unit quaternion are orthogonal. */
  lemma RotRows02Orthogonal(m: Mat3, w: real, x: real, y: real, z: real)
    requires w * w + x * x + y * y + z * z == 1.0 && IsRotMat(m, w, x, y, z)
    ensures Dot(m.r0, m.r2) == 0.0
  {
    RowsOrthogonal02(w, x, y, z, m.r0, m.r2);
  }

  /** Rows 1 and 2 of the rotation matrix of a unit quaternion are orthogonal. */
  lemma RotRows12Orthogonal(m: Mat3, w: real, x: real, y: real, z: real)
    requires w * w + x * x + y * y + z * z == 1.0 && IsRotMat(m, w, x, y, z)
    ensures Dot(m.r1, m.r2) == 0.0
  {
    RowsOrthogonal12(w, x, y, z, m.r1, m.r2);
  }

  /** A matrix with orthonormal rows times its transpose is the identity. */
  lemma OrthonormalRows(m: Mat3)
    requires Dot(m.r0, m.r0) == 1.0 && Dot(m.r1, m.r1) == 1.0 && Dot(m.r2, m.r2) == 1.0
    requires Dot(m.r0, m.r1) == 0.0 && Dot(m.r0, m.r2) == 0.0 && Dot(m.r1, m.r2) == 0.0
    ensures MatMul(m, Transpose(m)) == Identity3
  {
    assert Column0(Transpose(m)) == m.r0 && Column1(Transpose(m)) == m.r1 && Column2(Transpose(m)) == m.r2;
    DotSymmetric(m.r1, m.r0);
    DotSymmetric(m.r2, m.r0);
    DotSymmetric(m.r2, m.r1);
  }

  /**
   * The arithmetic behind RotMatOrthogonal, with each row written in the
   * form that a unit quaternion gives it: every row has unit length ...
   */
  lemma RowUnit(w: real, u: real, v: real, t: real, a: real, b: real, c: real)
    requires w * w + u * u + v * v + t * t == 1.0
    requires a == w * w + u * u - v * v - t * t && b == 2.0 * (u * v + w * t) && c == 2.0 * (u * t - w * v)
    ensures a * a + b * b + c * c == 1.0
  {
  }

  /** ... and any two rows are orthogonal. */
  lemma RowsOrthogonal01(w: real, x: real, y: real, z: real, a: Vec3, b: Vec3)
    requires a.x == w * w + x * x - y * y - z * z && a.y == 2.0 * (x * y + w * z) && a.z == 2.0 * (x * z - w * y)
    requires b.x == 2.0 * (x * y - w * z) && b.y == w * w - x * x + y * y - z * z && b.z == 2.0 * (y * z + w * x)
    ensures Dot(a, b) == 0.0
  {
  }

  lemma RowsOrthogonal02(w: real, x: real, y: real, z: real, a: Vec3, b: Vec3)
    requires a.x == w * w + x * x - y * y - z * z && a.y == 2.0 * (x * y + w * z) && a.z == 2.0 * (x * z - w * y)
    requires b.x == 2.0 * (x * z + w * y) && b.y == 2.0 * (y * z - w * x) && b.z == w * w - x * x - y * y + z * z
    ensures Dot(a, b) == 0.0
  {
  }

  lemma RowsOrthogonal12(w: real, x: real, y: real, z: real, a: Vec3, b: Vec3)
    requires a.x == 2.0 * (x * y - w * z) && a.y == w * w - x * x + y * y - z * z && a.z == 2.0 * (y * z + w * x)
    requires b.x == 2.0 * (x * z + w * y) && b.y == 2.0 * (y * z - w * x) && b.z == w * w - x * x - y * y + z * z
    ensures Dot(a, b) == 0.0
  {
  }

  /** The squared norm is multiplicative: `|a b|² = |a|² |b|²`. */
  lemma NormSqMul(a: Quat, b: Quat)
    ensures NormSq(Mul(a, b)) == NormSq(a) * NormSq(b)
  {
    var ra, rb := Quat(NormSq(a), 0.0, 0.0, 0.0), Quat(NormSq(b), 0.0, 0.0, 0.0);
    calc {
      Quat(NormSq(Mul(a, b)), 0.0, 0.0, 0.0);
      { MulConj(Mul(a, b)); }
      Mul(Mul(a, b), Conj(Mul(a, b)));
      { ConjMul(a, b); }
      Mul(Mul(a, b), Mul(Conj(b), Conj(a)));
      { MulAssociative(a, b, Mul(Conj(b), Conj(a))); }
      Mul(a, Mul(b, Mul(Conj(b), Conj(a))));
      { MulAssociative(b, Conj(b), Conj(a)); MulConj(b); }
      Mul(a, Mul(rb, Conj(a)));
      { ScalarMulIsProduct(Conj(a), NormSq(b)); }
      Mul(a, Mul(Conj(a), rb));
      { MulAssociative(a, Conj(a), rb); MulConj(a); }
      Mul(ra, rb);
      { RealProduct(NormSq(a), NormSq(b)); }
      Quat(NormSq(a) * NormSq(b), 0.0, 0.0, 0.0);
    }
  }

  /** Real quaternions multiply as numbers. */
  lemma RealProduct(s: real, t: real)
    ensures Mul(Quat(s, 0.0, 0.0, 0.0), Quat(t, 0.0, 0.0, 0.0)) == Quat(s * t, 0.0, 0.0, 0.0)
  {
  }

  /** Scaling by a number scales the squared norm by its square. */
  lemma NormSqScale(q: Quat, s: real)
    ensures NormSq(ScalarMul(q, s)) == s * s * NormSq(q)
  {
  }

  /**
   * The rate of change of the estimate `q` measured by a gyroscope reading
   * `g`: `½ q ⊗ (0, g)`, the product first and then the factor ½.
   */
  function GyroRate(q: Quat, g: Vec3): Quat
  {
    ScalarMul(Mul(q, Quat(0.0, g.x, g.y, g.z)), 0.5)
  }

  /** Halving the reading before the product gives the same rate: `q ⊗ (0, g/2)`. */
  lemma GyroRateHalf(q: Quat, g: Vec3)
    ensures GyroRate(q, g) == Mul(q, Quat(0.0, 0.5 * g.x, 0.5 * g.y, 0.5 * g.z))
  {
  }

  /** No rotation measured, no change. */
  lemma GyroRateOfZero(q: Quat)
    ensures GyroRate(q, Zero3) == Zero
  {
  }

  /** Following the gyroscope for `dt` is a product: `q + dt ½ q ⊗ (0, g) = q ⊗ (1, dt g/2)`. */
  lemma AdvanceIsProduct(q: Quat, g: Vec3, dt: real)
    ensures Plus(q, ScalarMul(GyroRate(q, g), dt)) == Mul(q, Quat(1.0, 0.5 * dt * g.x, 0.5 * dt * g.y, 0.5 * dt * g.z))
  {
    var v := Quat(0.0, g.x, g.y, g.z);
    ScaleTwice(Mul(q, v), 0.5, dt, 0.5 * dt);
    calc {
      Plus(q, ScalarMul(GyroRate(q, g), dt));
      Plus(q, ScalarMul(ScalarMul(Mul(q, v), 0.5), dt));
      Plus(q, ScalarMul(Mul(q, v), 0.5 * dt));
      { ScaleMulRight(q, v, 0.5 * dt); MulIdentity(q); }
      Plus(Mul(q, Identity), Mul(q, ScalarMul(v, 0.5 * dt)));
      { MulPlusRight(q, Identity, ScalarMul(v, 0.5 * dt)); }
      Mul(q, Plus(Identity, ScalarMul(v, 0.5 * dt)));
      { AdvanceFactor(g, dt); }
      Mul(q, Quat(1.0, 0.5 * dt * g.x, 0.5 * dt * g.y, 0.5 * dt * g.z));
    }
  }

  /** The factor of `AdvanceIsProduct`: `1 + (0, g) dt/2`. */
  lemma AdvanceFactor(g: Vec3, dt: real)
    ensures Plus(Identity, ScalarMul(Quat(0.0, g.x, g.y, g.z), 0.5 * dt)) == Quat(1.0, 0.5 * dt * g.x, 0.5 * dt * g.y, 0.5 * dt * g.z)
  {
  }

  /** Two scalings compose into one, by the product `c` of the two numbers. */
  lemma ScaleTwice(p: Quat, a: real, b: real, c: real)
    requires c == a * b
    ensures ScalarMul(ScalarMul(p, a), b) == ScalarMul(p, c)
  {
    ScaleAssociative(p.w, a, b, c);
    ScaleAssociative(p.x, a, b, c);
    ScaleAssociative(p.y, a, b, c);
    ScaleAssociative(p.z, a, b, c);
  }

  lemma ScaleAssociative(x: real, a: real, b: real, c: real)
    requires c == a * b
    ensures (x * a) * b == x * c
  {
  }

  /** Quaternions with equal components are equal. */
  lemma QuatExt(s: Quat, t: Quat)
    requires s.w == t.w && s.x == t.x && s.y == t.y && s.z == t.z
    ensures s == t
  {
  }

  /** A number can be moved into the right factor: `(q ⊗ a) k = q ⊗ (a k)`. */
  lemma ScaleMulRight(q: Quat, a: Quat, k: real)
    ensures ScalarMul(Mul(q, a), k) == Mul(q, ScalarMul(a, k))
  {
    var b := ScalarMul(a, k);
    MulIsProduct(q, a);
    MulIsProduct(q, b);
    ScaleQuat(q, a, b, k, Mul(q, a), Mul(q, b));
  }

  lemma ScaleQuat(q: Quat, a: Quat, b: Quat, k: real, p: Quat, s: Quat)
    requires b.w == a.w * k && b.x == a.x * k && b.y == a.y * k && b.z == a.z * k
    requires IsProduct(p, q, a) && IsProduct(s, q, b)
    ensures s == ScalarMul(p, k)
  {
    ScaleComponents(q.w, q.x, q.y, q.z, a.w, a.x, a.y, a.z, b.w, b.x, b.y, b.z, k, p.w, p.x, p.y, p.z, s.w, s.x, s.y, s.z);
    QuatExt(s, ScalarMul(p, k));
  }

  lemma ScaleComponents(q0: real, q1: real, q2: real, q3: real, a0: real, a1: real, a2: real, a3: real,
                        b0: real, b1: real, b2: real, b3: real, k: real,
                        p0: real, p1: real, p2: real, p3: real, s0: real, s1: real, s2: real, s3: real)
    requires b0 == a0 * k && b1 == a1 * k && b2 == a2 * k && b3 == a3 * k
    requires p0 == q0 * a0 - q1 * a1 - q2 * a2 - q3 * a3 && p1 == q0 * a1 + q1 * a0 + q2 * a3 - q3 * a2
    requires p2 == q0 * a2 - q1 * a3 + q2 * a0 + q3 * a1 && p3 == q0 * a3 + q1 * a2 - q2 * a1 + q3 * a0
    requires s0 == q0 * b0 - q1 * b1 - q2 * b2 - q3 * b3 && s1 == q0 * b1 + q1 * b0 + q2 * b3 - q3 * b2
    requires s2 == q0 * b2 - q1 * b3 + q2 * b0 + q3 * b1 && s3 == q0 * b3 + q1 * b2 - q2 * b1 + q3 * b0
    ensures s0 == p0 * k && s1 == p1 * k && s2 == p2 * k && s3 == p3 * k
  {
  }

  /** The product distributes over a sum on the right: `q ⊗ (a + b) = q ⊗ a + q ⊗ b`. */
  lemma MulPlusRight(q: Quat, a: Quat, b: Quat)
    ensures Mul(q, Plus(a, b)) == Plus(Mul(q, a), Mul(q, b))
  {
    var c := Plus(a, b);
    MulIsProduct(q, a);
    MulIsProduct(q, b);
    MulIsProduct(q, c);
    DistributeQuat(q, a, b, c, Mul(q, a), Mul(q, b), Mul(q, c));
  }

  lemma DistributeQuat(q: Quat, a: Quat, b: Quat, c: Quat, p: Quat, r: Quat, s: Quat)
    requires c.w == a.w + b.w && c.x == a.x + b.x && c.y == a.y + b.y && c.z == a.z + b.z
    requires IsProduct(p, q, a) && IsProduct(r, q, b) && IsProduct(s, q, c)
    ensures s == Plus(p, r)
  {
    DistributeComponents(q.w, q.x, q.y, q.z, a.w, a.x, a.y, a.z, b.w, b.x, b.y, b.z, c.w, c.x, c.y, c.z,
                         p.w, p.x, p.y, p.z, r.w, r.x, r.y, r.z, s.w, s.x, s.y, s.z);
  }

  lemma DistributeComponents(q0: real, q1: real, q2: real, q3: real, a0: real, a1: real, a2: real, a3: real,
                             b0: real, b1: real, b2: real, b3: real, c0: real, c1: real, c2: real, c3: real,
                             p0: real, p1: real, p2: real, p3: real, r0: real, r1: real, r2: real, r3: real,
                             s0: real, s1: real, s2: real, s3: real)
    requires c0 == a0 + b0 && c1 == a1 + b1 && c2 == a2 + b2 && c3 == a3 + b3
    requires p0 == q0 * a0 - q1 * a1 - q2 * a2 - q3 * a3 && p1 == q0 * a1 + q1 * a0 + q2 * a3 - q3 * a2
    requires p2 == q0 * a2 - q1 * a3 + q2 * a0 + q3 * a1 && p3 == q0 * a3 + q1 * a2 - q2 * a1 + q3 * a0
    requires r0 == q0 * b0 - q1 * b1 - q2 * b2 - q3 * b3 && r1 == q0 * b1 + q1 * b0 + q2 * b3 - q3 * b2
    requires r2 == q0 * b2 - q1 * b3 + q2 * b0 + q3 * b1 && r3 == q0 * b3 + q1 * b2 - q2 * b1 + q3 * b0
    requires s0 == q0 * c0 - q1 * c1 - q2 * c2 - q3 * c3 && s1 == q0 * c1 + q1 * c0 + q2 * c3 - q3 * c2
    requires s2 == q0 * c2 - q1 * c3 + q2 * c0 + q3 * c1 && s3 == q0 * c3 + q1 * c2 - q2 * c1 + q3 * c0
    ensures s0 == p0 + r0 && s1 == p1 + r1 && s2 == p2 + r2 && s3 == p3 + r3
  {
  }

  /**
   * ... so it never shrinks the estimate: the squared norm of
   * `q + dt ½ q ⊗ (0, g)` is at least that of `q`, and it is nonzero
   * whenever `q` is.
   */
  lemma AdvanceGrows(q: Quat, g: Vec3, dt: real)
    ensures NormSq(q) <= NormSq(Plus(q, ScalarMul(GyroRate(q, g), dt)))
    ensures q != Zero ==> Plus(q, ScalarMul(GyroRate(q, g), dt)) != Zero
  {
    AdvanceIsProduct(q, g, dt);
    UnitRealPartGrows(q, Quat(1.0, 0.5 * dt * g.x, 0.5 * dt * g.y, 0.5 * dt * g.z));
  }

  /** Multiplying by a quaternion of real part 1 never shrinks the squared norm. */
  lemma UnitRealPartGrows(q: Quat, p: Quat)
    requires p.w == 1.0
    ensures NormSq(q) <= NormSq(Mul(q, p))
    ensures q != Zero ==> Mul(q, p) != Zero
  {
    NormSqMul(q, p);
    RealPartOne(p);
    ScaledNormGrows(q, Mul(q, p), NormSq(p));
  }

  /** A quaternion whose squared norm is that of `q` times a factor of at least 1 is no shorter than `q`, and nonzero when `q` is. */
  lemma ScaledNormGrows(q: Quat, m: Quat, f: real)
    requires 1.0 <= f && NormSq(m) == NormSq(q) * f
    ensures NormSq(q) <= NormSq(m)
    ensures q != Zero ==> m != Zero
  {
    NormSqZero(q);
    NormSqZero(m);
    AtLeastOne(NormSq(q), f, NormSq(m));
  }

  /** A quaternion of real part 1 has squared norm at least 1. */
  lemma RealPartOne(p: Quat)
    requires p.w == 1.0
    ensures 1.0 <= NormSq(p)
  {
    SumOfSquaresZero(p.x, p.y, p.z);
  }

  /** A non-negative number times a factor of at least 1 is no smaller, and stays nonzero. */
  lemma AtLeastOne(n: real, f: real, k: real)
    requires 0.0 <= n && 1.0 <= f && k == n * f
    ensures n <= k
    ensures n != 0.0 ==> k != 0.0
  {
    assert n * f == n + n * (f - 1.0);
    assert 0.0 <= n * (f - 1.0);
  }


  /**
   * The advance shared by both filters: `q + qdot * samplePeriod`, divided
   * by its norm.
   */
  function Integrate(q: Quat, qdot: Quat, samplePeriod: real, sqrt: real -> real): (r: Num<Quat>)
    requires IsSqrt(sqrt)
    ensures r.Finite? <==> Plus(q, ScalarMul(qdot, samplePeriod)) != Zero
    ensures r.Finite? ==> NormSq(r.value) == 1.0
  {
    Normalised(Plus(q, ScalarMul(qdot, samplePeriod)), sqrt)
  }
}
