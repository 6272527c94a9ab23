/** Exact-arithmetic stand-ins for the three.js vector operations the
    simulation uses. Positions are `real` triples; the horizontal plane is
    (x, z) and y is up. */
module Geometry {

  datatype Vec3 = Vec3(x: real, y: real, z: real)

  const Origin: Vec3 := Vec3(0.0, 0.0, 0.0)

  function Add(a: Vec3, b: Vec3): Vec3 {
    Vec3(a.x + b.x, a.y + b.y, a.z + b.z)
  }

  function Sub(a: Vec3, b: Vec3): Vec3 {
    Vec3(a.x - b.x, a.y - b.y, a.z - b.z)
  }

  function Scale(c: real, v: Vec3): Vec3 {
    Vec3(c * v.x, c * v.y, c * v.z)
  }

  /** Squared length of a vector. */
  function NormSq(v: Vec3): real {
    v.x * v.x + v.y * v.y + v.z * v.z
  }

  /** Squared Euclidean distance between two points. */
  function DistSq(a: Vec3, b: Vec3): real {
    NormSq(Sub(a, b))
  }

  /** Squared distance in the ground plane; the height is ignored. */
  function PlanarDistSq(a: Vec3, b: Vec3): (d: real)
    ensures d >= 0.0
  {
    (a.x - b.x) * (a.x - b.x) + (a.z - b.z) * (a.z - b.z)
  }

  /** The binomial squares, stated on atoms so callers can use compound terms. */
  lemma ExpandSquares(a: real, b: real)
    ensures (a + b) * (a + b) == a * a + 2.0 * (a * b) + b * b
    ensures (a - b) * (a - b) == a * a - 2.0 * (a * b) + b * b
  {
  }

  /** The square of a compound term is non-negative. */
  lemma SquareNonNegative(a: real)
    ensures a * a >= 0.0
  {
  }

  lemma Parallelogram(u1: real, v1: real, u2: real, v2: real)
    ensures (u1 - u2) * (u1 - u2) + (v1 - v2) * (v1 - v2)
         <= 2.0 * (u1 * u1 + v1 * v1) + 2.0 * (u2 * u2 + v2 * v2)
  {
    SquareNonNegative(u1 + u2);
    SquareNonNegative(v1 + v2);
    ExpandSquares(u1, u2);
    ExpandSquares(v1, v2);
  }

  /** Two points' squared planar distance is at most twice the sum of their
      squared planar distances to any third point. */
  lemma PlanarSpread(p: Vec3, a: Vec3, b: Vec3)
    ensures PlanarDistSq(b, a) <= 2.0 * PlanarDistSq(p, a) + 2.0 * PlanarDistSq(p, b)
  {
    Parallelogram(p.x - a.x, p.z - a.z, p.x - b.x, p.z - b.z);
    assert (p.x - a.x) - (p.x - b.x) == b.x - a.x;
    assert (p.z - a.z) - (p.z - b.z) == b.z - a.z;
  }

  lemma NormSqNonNegative(v: Vec3)
    ensures NormSq(v) >= 0.0
  {
  }

  lemma NormSqScale(c: real, v: Vec3)
    ensures NormSq(Scale(c, v)) == c * c * NormSq(v)
  {
  }

  /** A rotation about the vertical axis, given by the cosine and sine of its
      angle. How the angle becomes these two numbers is not modelled; that
      they come from one angle is the condition `IsRotation`. */
  datatype Rotation = Rotation(cos: real, sin: real)

  const Identity: Rotation := Rotation(1.0, 0.0)

  predicate IsRotation(r: Rotation) {
    r.cos * r.cos + r.sin * r.sin == 1.0
  }

  /** `applyAxisAngle((0,1,0), angle)` on the horizontal components (x, z). */
  function RotateY(r: Rotation, x: real, z: real): (p: (real, real))
    requires IsRotation(r)
    ensures p.0 * p.0 + p.1 * p.1 == x * x + z * z
  {
    var p := (x * r.cos + z * r.sin, z * r.cos - x * r.sin);
    assert p.0 * p.0 == x * x * (r.cos * r.cos) + 2.0 * x * z * (r.cos * r.sin) + z * z * (r.sin * r.sin);
    assert p.1 * p.1 == z * z * (r.cos * r.cos) - 2.0 * x * z * (r.cos * r.sin) + x * x * (r.sin * r.sin);
    assert p.0 * p.0 + p.1 * p.1 == (x * x + z * z) * (r.cos * r.cos + r.sin * r.sin);
    p
  }

  /** `k` is 1/√2, the factor that normalises a diagonal unit-grid vector. */
  predicate IsInvSqrt2(k: real) {
    k > 0.0 && k * k == 0.5
  }
}
