/** Vectors, the two fixed 90-degree rotations the capsule branch uses, and the
    trigonometric primitives the sphere and cylinder generators call. */
module Geometry {

  /** A vertex position (Unity's Vector3), over exact reals. */
  datatype Vec3 = Vec3(x: real, y: real, z: real)

  /** An integer vector: grid coordinates of the plane and doubled box corners. */
  datatype IVec3 = IVec3(x: int, y: int, z: int)

  const Zero := Vec3(0.0, 0.0, 0.0)

  function Add(a: Vec3, b: Vec3): Vec3 { Vec3(a.x + b.x, a.y + b.y, a.z + b.z) }
  function Sub(a: Vec3, b: Vec3): Vec3 { Vec3(a.x - b.x, a.y - b.y, a.z - b.z) }
  function Neg(a: Vec3): Vec3 { Vec3(-a.x, -a.y, -a.z) }

  /** `Vector3.Scale`: component-wise product. */
  function Scale(a: Vec3, b: Vec3): Vec3 { Vec3(a.x * b.x, a.y * b.y, a.z * b.z) }

  /** `v * s` for a scalar s. */
  function Mul(a: Vec3, s: real): Vec3 { Vec3(a.x * s, a.y * s, a.z * s) }

  function Dot(a: Vec3, b: Vec3): real { a.x * b.x + a.y * b.y + a.z * b.z }
  function SqNorm(a: Vec3): real { Dot(a, a) }

  function Cross(a: Vec3, b: Vec3): Vec3 {
    Vec3(a.y * b.z - a.z * b.y, a.z * b.x - a.x * b.z, a.x * b.y - a.y * b.x)
  }

  /** The (unnormalised) face normal of the triangle a, b, c: (b - a) x (c - a). */
  function FaceNormal(a: Vec3, b: Vec3, c: Vec3): Vec3 { Cross(Sub(b, a), Sub(c, a)) }

  function IDot(a: IVec3, b: IVec3): int { a.x * b.x + a.y * b.y + a.z * b.z }

  /** The integer face normal (b - a) x (c - a), written out over the coordinates of the two
      edges so that the solver sees plain integer terms. */
  function IFaceNormal(a: IVec3, b: IVec3, c: IVec3): IVec3 {
    var ux, uy, uz := b.x - a.x, b.y - a.y, b.z - a.z;
    var vx, vy, vz := c.x - a.x, c.y - a.y, c.z - a.z;
    IVec3(uy * vz - uz * vy, uz * vx - ux * vz, ux * vy - uy * vx)
  }

  /** Reversing a triangle's vertex order negates its face normal, whatever the positions. */
  lemma FaceNormalFlips(a: Vec3, b: Vec3, c: Vec3)
    ensures FaceNormal(c, b, a) == Neg(FaceNormal(a, b, c))
  {
    var n, m := FaceNormal(a, b, c), FaceNormal(c, b, a);
    assert m.x == -n.x by {
      assert m.x == (b.y - c.y) * (a.z - c.z) - (b.z - c.z) * (a.y - c.y);
      assert n.x == (b.y - a.y) * (c.z - a.z) - (b.z - a.z) * (c.y - a.y);
    }
    assert m.y == -n.y by {
      assert m.y == (b.z - c.z) * (a.x - c.x) - (b.x - c.x) * (a.z - c.z);
      assert n.y == (b.z - a.z) * (c.x - a.x) - (b.x - a.x) * (c.z - a.z);
    }
    assert m.z == -n.z by {
      assert m.z == (b.x - c.x) * (a.y - c.y) - (b.y - c.y) * (a.x - c.x);
      assert n.z == (b.x - a.x) * (c.y - a.y) - (b.y - a.y) * (c.x - a.x);
    }
  }

  /** The two axes `RotatePointAroundAxis` is called with: `Vector3.forward` (+Z) and `Vector3.right` (+X). */
  datatype Axis = Forward | Right

  /** `Quaternion.AngleAxis(90, axis) * p`, written as its exact linear map.
      About +Z: (x, y, z) -> (-y, x, z). About +X: (x, y, z) -> (x, -z, y). */
  function Rotate90(p: Vec3, axis: Axis): (r: Vec3)
    ensures axis == Forward ==> r.z == p.z
    ensures axis == Right ==> r.x == p.x
  {
    match axis
    case Forward => Vec3(-p.y, p.x, p.z)
    case Right => Vec3(p.x, -p.z, p.y)
  }

  /** `RotatePointAroundAxis(point, 90, axis, pivot)`: translate to the pivot, rotate, translate back.
      The result is as far from the pivot as the point was, and its coordinate along the axis is kept. */
  function RotatePointAroundAxis(point: Vec3, axis: Axis, pivot: Vec3): (r: Vec3)
    ensures SqNorm(Sub(r, pivot)) == SqNorm(Sub(point, pivot))
    ensures axis == Forward ==> r.z == point.z
    ensures axis == Right ==> r.x == point.x
  {
    Add(Rotate90(Sub(point, pivot), axis), pivot)
  }

  /** Both rotations are rigid and keep handedness: they preserve dot products
      and commute with the cross product, so the rotated mesh keeps its winding. */
  lemma Rotate90IsProperRotation(u: Vec3, v: Vec3, axis: Axis)
    ensures Dot(Rotate90(u, axis), Rotate90(v, axis)) == Dot(u, v)
    ensures Cross(Rotate90(u, axis), Rotate90(v, axis)) == Rotate90(Cross(u, v), axis)
  {
  }

  /** The height axis (+Y) goes to -X about +Z and to +Z about +X; four quarter turns are the identity. */
  lemma Rotate90Axes(p: Vec3, axis: Axis)
    ensures Rotate90(Vec3(0.0, 1.0, 0.0), Forward) == Vec3(-1.0, 0.0, 0.0)
    ensures Rotate90(Vec3(0.0, 1.0, 0.0), Right) == Vec3(0.0, 0.0, 1.0)
    ensures Rotate90(Rotate90(Rotate90(Rotate90(p, axis), axis), axis), axis) == p
  {
  }

  /** `Mathf.Sin`, `Mathf.Cos` and `Mathf.PI`, which the model treats as given. */
  datatype Trig = Trig(sin: real -> real, cos: real -> real, pi: real)

  function Sin(t: Trig, a: real): real { t.sin(a) }
  function Cos(t: Trig, a: real): real { t.cos(a) }

  /** sin^2 + cos^2 = 1 at every angle. */
  ghost predicate Pythagorean(t: Trig) {
    forall a: real {:trigger Sin(t, a)} :: Sin(t, a) * Sin(t, a) + Cos(t, a) * Cos(t, a) == 1.0
  }

  /** The values at 0 and pi. */
  predicate Anchored(t: Trig) {
    Sin(t, 0.0) == 0.0 && Cos(t, 0.0) == 1.0 && Sin(t, t.pi) == 0.0 && Cos(t, t.pi) == -1.0
  }

  /** Both functions repeat after a full turn of 2 pi. */
  ghost predicate Periodic(t: Trig) {
    forall a: real, b: real {:trigger Sin(t, a), Sin(t, b)} ::
      b == a + 2.0 * t.pi ==> Sin(t, b) == Sin(t, a) && Cos(t, b) == Cos(t, a)
  }
}
