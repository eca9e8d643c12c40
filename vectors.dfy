/**
 * Three-component vectors and 3x3 matrices over the reals: the numpy
 * arrays of length 3 that hold sensor readings, the gravity estimate and
 * the error terms, and the rotation matrix of a quaternion.
 */
module Vectors {
  import opened Numerics

  datatype Vec3 = Vec3(x: real, y: real, z: real)

  const Zero3 := Vec3(0.0, 0.0, 0.0)

  function Plus3(a: Vec3, b: Vec3): Vec3
  {
    Vec3(a.x + b.x, a.y + b.y, a.z + b.z)
  }

  /** A vector times a number (numpy broadcasting `v * s`). */
  function Scale3(v: Vec3, s: real): Vec3
  {
    Vec3(v.x * s, v.y * s, v.z * s)
  }

  function Dot(a: Vec3, b: Vec3): real
  {
    a.x * b.x + a.y * b.y + a.z * b.z
  }

  lemma DotSymmetric(a: Vec3, b: Vec3)
    ensures Dot(a, b) == Dot(b, a)
  {
  }

  /** `numpy.cross(a, b)` for two vectors of length 3: orthogonal to both of its factors. */
  function Cross(a: Vec3, b: Vec3): (r: Vec3)
    ensures Dot(r, a) == 0.0
    ensures Dot(r, b) == 0.0
  {
    var c := Vec3(a.y * b.z - a.z * b.y, a.z * b.x - a.x * b.z, a.x * b.y - a.y * b.x);
    TripleProductVanishes(a.x, a.y, a.z, b.x, b.y, b.z, c.x, c.y, c.z);
    TripleProductVanishes(b.x, b.y, b.z, a.x, a.y, a.z, -c.x, -c.y, -c.z);
    c
  }

  /** The squared Euclidean norm, of which `numpy.linalg.norm` is the square root. */
  function NormSq3(v: Vec3): real
  {
    v.x * v.x + v.y * v.y + v.z * v.z
  }

  /** The cross product with the zero vector is zero. */
  lemma CrossZero(b: Vec3)
    ensures Cross(Zero3, b) == Zero3
  {
  }

  /** Arithmetic core of the orthogonality of `Cross`: (u x v) . u == 0 for the components. */
  lemma TripleProductVanishes(ux: real, uy: real, uz: real, vx: real, vy: real, vz: real,
                              cx: real, cy: real, cz: real)
    requires cx == uy * vz - uz * vy && cy == uz * vx - ux * vz && cz == ux * vy - uy * vx
    ensures cx * ux + cy * uy + cz * uz == 0.0
  {
  }

  /** A sum of three squares is zero exactly when every term is. */
  lemma SumOfSquaresZero(x: real, y: real, z: real)
    ensures 0.0 <= x * x + y * y + z * z
    ensures x * x + y * y + z * z == 0.0 <==> x == 0.0 && y == 0.0 && z == 0.0
  {
    SquareSign(x, x * x);
    SquareSign(y, y * y);
    SquareSign(z, z * z);
  }

  /** Dividing by the norm yields unit squared norm. */
  lemma UnitAfterDivision(x: real, y: real, z: real, n: real)
    requires 0.0 < n && n * n == x * x + y * y + z * z
    ensures (x / n) * (x / n) + (y / n) * (y / n) + (z / n) * (z / n) == 1.0
  {
    var u, v, w := x / n, y / n, z / n;
    assert u * n == x && v * n == y && w * n == z;
    calc {
      (u * u + v * v + w * w) * (n * n);
      (u * n) * (u * n) + (v * n) * (v * n) + (w * n) * (w * n);
      x * x + y * y + z * z;
      1.0 * (n * n);
    }
    assert 0.0 < n * n;
  }

  /**
   * `v / norm(v)`: the unit vector in the direction of `v`, or NaN when `v`
   * is zero, since numpy then divides 0 by 0.
   */
  function Normalised3(v: Vec3, sqrt: real -> real): (r: Num<Vec3>)
    requires IsSqrt(sqrt)
    ensures r.Finite? <==> v != Zero3
    ensures r.Finite? ==> NormSq3(r.value) == 1.0 && Scale3(r.value, sqrt(NormSq3(v))) == v
  {
    SumOfSquaresZero(v.x, v.y, v.z);
    var n := sqrt(NormSq3(v));
    SqrtZero(sqrt, NormSq3(v));
    if n == 0.0 then NaN
    else
      UnitAfterDivision(v.x, v.y, v.z, n);
      Finite(Vec3(v.x / n, v.y / n, v.z / n))
  }

  /** A 3x3 matrix, row by row. */
  datatype Mat3 = Mat3(r0: Vec3, r1: Vec3, r2: Vec3)

  const Identity3 := Mat3(Vec3(1.0, 0.0, 0.0), Vec3(0.0, 1.0, 0.0), Vec3(0.0, 0.0, 1.0))

  function Transpose(m: Mat3): Mat3
  {
    Mat3(Vec3(m.r0.x, m.r1.x, m.r2.x), Vec3(m.r0.y, m.r1.y, m.r2.y), Vec3(m.r0.z, m.r1.z, m.r2.z))
  }

  /** Column j (0, 1 or 2 as x, y, z) of a matrix. */
  function Column0(m: Mat3): Vec3 { Vec3(m.r0.x, m.r1.x, m.r2.x) }
  function Column1(m: Mat3): Vec3 { Vec3(m.r0.y, m.r1.y, m.r2.y) }
  function Column2(m: Mat3): Vec3 { Vec3(m.r0.z, m.r1.z, m.r2.z) }

  function MatMul(a: Mat3, b: Mat3): Mat3
  {
    Mat3(Vec3(Dot(a.r0, Column0(b)), Dot(a.r0, Column1(b)), Dot(a.r0, Column2(b))),
         Vec3(Dot(a.r1, Column0(b)), Dot(a.r1, Column1(b)), Dot(a.r1, Column2(b))),
         Vec3(Dot(a.r2, Column0(b)), Dot(a.r2, Column1(b)), Dot(a.r2, Column2(b))))
  }
}
