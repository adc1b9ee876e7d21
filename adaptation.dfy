/** The vertex loops of `RenderMesh`: each branch rewrites the vertex list of a fresh copy
    of a canonical mesh and leaves its index list and index format alone. */
module Adaptation {
  import opened Geometry
  import opened Topology
  import opened Meshes
  import BoxTable
  import UvSphere
  import PlaneGrid

  // ----- Per-vertex maps

  /** Box: scale by the collider's size, then by the transform's lossy scale. */
  function BoxVertex(v: Vec3, size: Vec3, lossyScale: Vec3): (r: Vec3)
    ensures r == Scale(v, Scale(size, lossyScale))
  {
    ScaleTwice(v, size, lossyScale);
    Scale(Scale(v, size), lossyScale)
  }

  /** Sphere: multiply by the collider's radius, which multiplies the squared distance from
      the centre by radius^2. */
  function SphereVertex(v: Vec3, radius: real): (r: Vec3)
    ensures SqNorm(r) == radius * radius * SqNorm(v)
  {
    Mul(v, radius)
  }

  /** What `RenderMesh` reads of a `CapsuleCollider`. */
  datatype Capsule = Capsule(radius: real, height: real, direction: int, center: Vec3)

  /** Capsule: scale by (radius, height, radius); for direction 0 turn 90 degrees about +Z,
      for direction 2 turn 90 degrees about +X, for any other direction do not turn;
      then add the centre. The turn is rigid, so the vertex is as far from the centre as the
      scaled vertex is from the origin. */
  function CapsuleVertex(v: Vec3, cap: Capsule): (r: Vec3)
    ensures SqNorm(Sub(r, cap.center)) == SqNorm(Scale(v, Vec3(cap.radius, cap.height, cap.radius)))
  {
    var scaled := Scale(v, Vec3(cap.radius, cap.height, cap.radius));
    var turned :=
      if cap.direction == 0 then RotatePointAroundAxis(scaled, Forward, Zero)
      else if cap.direction == 2 then RotatePointAroundAxis(scaled, Right, Zero)
      else scaled;
    Add(turned, cap.center)
  }

  /** `Terrain.SampleHeight`, taken as a given function of the world position. */
  datatype HeightField = HeightField(sample: Vec3 -> real)

  function SampleHeight(field: HeightField, p: Vec3): real { field.sample(p) }

  /** What the terrain branch reads: the terrain data's bounds size, the terrain's position
      and its height field. */
  datatype TerrainSource = TerrainSource(boundsSize: Vec3, position: Vec3, field: HeightField)

  /** Terrain: scale the plane vertex by the bounds size, then replace its height by the terrain
      height sampled at the terrain position plus the scaled vertex. A vertex of the flat plane
      lands on the terrain surface above its own world x and z. */
  function TerrainVertex(v: Vec3, t: TerrainSource): (r: Vec3)
    ensures r.x == v.x * t.boundsSize.x && r.z == v.z * t.boundsSize.z
    ensures v.y == 0.0 ==> r.y == SampleHeight(t.field, Vec3(t.position.x + r.x, t.position.y, t.position.z + r.z))
  {
    var scaled := Scale(v, t.boundsSize);
    Vec3(scaled.x, SampleHeight(t.field, Add(t.position, scaled)), scaled.z)
  }

  // ----- Whole vertex lists

  function BoxAdapted(vs: seq<Vec3>, size: Vec3, lossyScale: Vec3): (r: seq<Vec3>)
    ensures |r| == |vs|
  {
    seq(|vs|, k requires 0 <= k < |vs| => BoxVertex(vs[k], size, lossyScale))
  }

  function SphereAdapted(vs: seq<Vec3>, radius: real): (r: seq<Vec3>)
    ensures |r| == |vs|
  {
    seq(|vs|, k requires 0 <= k < |vs| => SphereVertex(vs[k], radius))
  }

  function CapsuleAdapted(vs: seq<Vec3>, cap: Capsule): (r: seq<Vec3>)
    ensures |r| == |vs|
  {
    seq(|vs|, k requires 0 <= k < |vs| => CapsuleVertex(vs[k], cap))
  }

  function TerrainAdapted(vs: seq<Vec3>, t: TerrainSource): (r: seq<Vec3>)
    ensures |r| == |vs|
  {
    seq(|vs|, k requires 0 <= k < |vs| => TerrainVertex(vs[k], t))
  }

  // ----- The loops, on a mesh copy

  /** `mesh.vertices` returns a copy of the vertex list as an array. */
  method VertexArray(mesh: Mesh) returns (a: array<Vec3>)
    ensures fresh(a) && a[..] == mesh.vertices
  {
    a := new Vec3[|mesh.vertices|];
    for k := 0 to |mesh.vertices|
      invariant forall m :: 0 <= m < k ==> a[m] == mesh.vertices[m]
    {
      a[k] := mesh.vertices[k];
    }
  }

  /** The box branch's loop: both scalings, one at a time, written back into the copy. */
  method AdaptBox(mesh: Mesh, size: Vec3, lossyScale: Vec3)
    modifies mesh
    ensures mesh.vertices == BoxAdapted(old(mesh.vertices), size, lossyScale)
    ensures mesh.triangles == old(mesh.triangles) && mesh.indexFormat == old(mesh.indexFormat)
    ensures old(mesh.Valid()) ==> mesh.Valid()
  {
    var vertCopy := VertexArray(mesh);
    ghost var target := BoxAdapted(mesh.vertices, size, lossyScale);
    for j := 0 to |mesh.vertices|
      modifies vertCopy
      invariant forall m :: 0 <= m < j ==> vertCopy[m] == target[m]
      invariant forall m :: j <= m < vertCopy.Length ==> vertCopy[m] == mesh.vertices[m]
    {
      vertCopy[j] := Scale(vertCopy[j], size);
      vertCopy[j] := Scale(vertCopy[j], lossyScale);
    }
    mesh.vertices := vertCopy[..];
  }

  /** The sphere branch's loop: `vertCopy[i] *= radius`. */
  method AdaptSphere(mesh: Mesh, radius: real)
    modifies mesh
    ensures mesh.vertices == SphereAdapted(old(mesh.vertices), radius)
    ensures mesh.triangles == old(mesh.triangles) && mesh.indexFormat == old(mesh.indexFormat)
    ensures old(mesh.Valid()) ==> mesh.Valid()
  {
    var vertCopy := VertexArray(mesh);
    ghost var target := SphereAdapted(mesh.vertices, radius);
    for i := 0 to vertCopy.Length
      modifies vertCopy
      invariant forall m :: 0 <= m < i ==> vertCopy[m] == target[m]
      invariant forall m :: i <= m < vertCopy.Length ==> vertCopy[m] == mesh.vertices[m]
    {
      vertCopy[i] := Mul(vertCopy[i], radius);
    }
    mesh.vertices := vertCopy[..];
  }

  /** The capsule branch's loop: scale, turn according to the direction, add the centre. */
  method AdaptCapsule(mesh: Mesh, cap: Capsule)
    modifies mesh
    ensures mesh.vertices == CapsuleAdapted(old(mesh.vertices), cap)
    ensures mesh.triangles == old(mesh.triangles) && mesh.indexFormat == old(mesh.indexFormat)
    ensures old(mesh.Valid()) ==> mesh.Valid()
  {
    var vertCopy := VertexArray(mesh);
    ghost var target := CapsuleAdapted(mesh.vertices, cap);
    var scaleVec := Vec3(cap.radius, cap.height, cap.radius);
    for i := 0 to vertCopy.Length
      modifies vertCopy
      invariant forall m :: 0 <= m < i ==> vertCopy[m] == target[m]
      invariant forall m :: i <= m < vertCopy.Length ==> vertCopy[m] == mesh.vertices[m]
    {
      vertCopy[i] := Scale(vertCopy[i], scaleVec);
      if cap.direction == 0 {
        vertCopy[i] := RotatePointAroundAxis(vertCopy[i], Forward, Zero);
      } else if cap.direction == 2 {
        vertCopy[i] := RotatePointAroundAxis(vertCopy[i], Right, Zero);
      }
      vertCopy[i] := Add(vertCopy[i], cap.center);
    }
    mesh.vertices := vertCopy[..];
  }

  /** The terrain branch's loop: one height sample per vertex; `samples` counts the calls. */
  method AdaptTerrain(mesh: Mesh, t: TerrainSource) returns (samples: nat)
    modifies mesh
    ensures mesh.vertices == TerrainAdapted(old(mesh.vertices), t)
    ensures mesh.triangles == old(mesh.triangles) && mesh.indexFormat == old(mesh.indexFormat)
    ensures old(mesh.Valid()) ==> mesh.Valid()
    ensures samples == |mesh.vertices|
  {
    var vertCopy := VertexArray(mesh);
    ghost var target := TerrainAdapted(mesh.vertices, t);
    var count := vertCopy.Length;
    samples := 0;
    for i := 0 to count
      modifies vertCopy
      invariant samples == i
      invariant forall m :: 0 <= m < i ==> vertCopy[m] == target[m]
      invariant forall m :: i <= m < vertCopy.Length ==> vertCopy[m] == mesh.vertices[m]
    {
      var newVal := vertCopy[i];
      newVal := Scale(newVal, t.boundsSize);
      var worldPos := Add(t.position, newVal);
      newVal := newVal.(y := SampleHeight(t.field, worldPos));
      samples := samples + 1;
      vertCopy[i] := newVal;
    }
    mesh.vertices := vertCopy[..];
  }

  // ----- What the adapted lists are

  /** The two scalings compose: the drawn box is the canonical box scaled by size times lossy
      scale, that is a box of that extent centred on the origin. */
  lemma BoxAdaptedIsScaledBox(size: Vec3, lossyScale: Vec3)
    ensures forall k :: 0 <= k < 8 ==>
      BoxAdapted(BoxTable.BoxVertices, size, lossyScale)[k] == Scale(BoxTable.BoxVertices[k], Scale(size, lossyScale))
  {
    forall k | 0 <= k < 8
      ensures BoxAdapted(BoxTable.BoxVertices, size, lossyScale)[k] == Scale(BoxTable.BoxVertices[k], Scale(size, lossyScale))
    {
      ScaleTwice(BoxTable.BoxVertices[k], size, lossyScale);
    }
  }

  lemma ScaleTwice(v: Vec3, a: Vec3, b: Vec3)
    ensures Scale(Scale(v, a), b) == Scale(v, Scale(a, b))
  {
    assert (v.x * a.x) * b.x == v.x * (a.x * b.x);
    assert (v.y * a.y) * b.y == v.y * (a.y * b.y);
    assert (v.z * a.z) * b.z == v.z * (a.z * b.z);
  }

  /** Multiplying the unit sphere by a radius gives the sphere generated with that radius,
      so with sin^2 + cos^2 = 1 every drawn vertex is at distance |radius| from the centre. */
  lemma SphereAdaptedIsRadius(trig: Trig, r: nat, radius: real)
    requires r >= 1
    ensures SphereAdapted(UvSphere.SphereVertices(trig, r, 1.0), radius) == UvSphere.SphereVertices(trig, r, radius)
    ensures Pythagorean(trig) ==> forall k :: 0 <= k < (r + 1) * (r + 1) ==>
      SqNorm(SphereAdapted(UvSphere.SphereVertices(trig, r, 1.0), radius)[k]) == radius * radius
  {
    var unit, scaled := UvSphere.SphereVertices(trig, r, 1.0), UvSphere.SphereVertices(trig, r, radius);
    forall k | 0 <= k < (r + 1) * (r + 1) ensures SphereVertex(unit[k], radius) == scaled[k] {
      var i, j := k / (r + 1), k % (r + 1);
      UnitTimesRadius(trig, r, radius, i, j);
    }
    if Pythagorean(trig) {
      forall k | 0 <= k < (r + 1) * (r + 1) ensures SqNorm(scaled[k]) == radius * radius {
        UvSphere.SphereOnSphere(trig, r, radius, k);
      }
    }
  }

  lemma UnitTimesRadius(trig: Trig, r: nat, radius: real, i: nat, j: nat)
    requires r >= 1
    ensures SphereVertex(UvSphere.SpherePoint(trig, r, 1.0, i, j), radius) == UvSphere.SpherePoint(trig, r, radius, i, j)
  {
    var s, c := Sin(trig, UvSphere.Polar(trig, r, i)), Cos(trig, UvSphere.Polar(trig, r, i));
    var su, cu := Sin(trig, UvSphere.Azimuth(trig, r, j)), Cos(trig, UvSphere.Azimuth(trig, r, j));
    assert 1.0 * s * cu * radius == radius * s * cu;
    assert 1.0 * s * su * radius == radius * s * su;
    assert 1.0 * c * radius == radius * c;
  }

  /** The capsule's height axis: coordinate 0 (X) for direction 0, 2 (Z) for direction 2 and
      1 (Y) for every other direction. */
  function AxisOf(direction: int): nat {
    if direction == 0 then 0 else if direction == 2 then 2 else 1
  }

  function Coord(v: Vec3, axis: nat): real {
    if axis == 0 then v.x else if axis == 1 then v.y else v.z
  }

  /** Seen from the centre, a capsule vertex lies along the height axis at height times the
      canonical y (negated for direction 0, where +Y turns onto -X), and off that axis at radius
      times the canonical distance from the Y axis. */
  lemma CapsuleFrame(v: Vec3, cap: Capsule)
    ensures var d := Sub(CapsuleVertex(v, cap), cap.center);
      var axis := AxisOf(cap.direction);
      Coord(d, axis) == (if cap.direction == 0 then -(v.y * cap.height) else v.y * cap.height) &&
      SqNorm(d) - Coord(d, axis) * Coord(d, axis) == cap.radius * cap.radius * (v.x * v.x + v.z * v.z)
  {
    var px, py, pz := v.x * cap.radius, v.y * cap.height, v.z * cap.radius;
    CapsuleOffset(v, cap);
    RadialSquare(v.x, v.z, cap.radius);
    OffAxisSquare(Sub(CapsuleVertex(v, cap), cap.center), AxisOf(cap.direction), px, py, pz);
  }

  /** The offset of a capsule vertex from the centre, direction by direction. */
  lemma CapsuleOffset(v: Vec3, cap: Capsule)
    ensures var d, px, py, pz := Sub(CapsuleVertex(v, cap), cap.center), v.x * cap.radius, v.y * cap.height, v.z * cap.radius;
      d == (if cap.direction == 0 then Vec3(-py, px, pz)
            else if cap.direction == 2 then Vec3(px, -pz, py)
            else Vec3(px, py, pz))
  {
  }

  /** Removing the axis coordinate from the squared length leaves the two radial ones. */
  lemma OffAxisSquare(d: Vec3, axis: nat, px: real, py: real, pz: real)
    requires axis <= 2
    requires axis == 0 ==> d == Vec3(-py, px, pz)
    requires axis == 2 ==> d == Vec3(px, -pz, py)
    requires axis == 1 ==> d == Vec3(px, py, pz)
    ensures SqNorm(d) - Coord(d, axis) * Coord(d, axis) == px * px + pz * pz
  {
  }

  /** Scaling both radial coordinates by the radius scales their squared length by its square. */
  lemma RadialSquare(x: real, z: real, radius: real)
    ensures (x * radius) * (x * radius) + (z * radius) * (z * radius) == radius * radius * (x * x + z * z)
  {
  }

  /** The capsule map keeps winding: the face normal of the drawn triangle is the face normal of
      the scaled triangle, turned the way the vertices were. */
  lemma CapsuleKeepsWinding(a: Vec3, b: Vec3, c: Vec3, cap: Capsule)
    ensures var s := Vec3(cap.radius, cap.height, cap.radius);
      var n := FaceNormal(Scale(a, s), Scale(b, s), Scale(c, s));
      FaceNormal(CapsuleVertex(a, cap), CapsuleVertex(b, cap), CapsuleVertex(c, cap)) ==
        (if cap.direction == 0 then Rotate90(n, Forward) else if cap.direction == 2 then Rotate90(n, Right) else n)
  {
    var s := Vec3(cap.radius, cap.height, cap.radius);
    var sa, sb, sc := Scale(a, s), Scale(b, s), Scale(c, s);
    if cap.direction == 0 || cap.direction == 2 {
      var axis := if cap.direction == 0 then Forward else Right;
      TurnedDifference(sb, sa, axis, cap.center);
      TurnedDifference(sc, sa, axis, cap.center);
      Rotate90IsProperRotation(Sub(sb, sa), Sub(sc, sa), axis);
    } else {
      assert Sub(CapsuleVertex(b, cap), CapsuleVertex(a, cap)) == Sub(sb, sa);
      assert Sub(CapsuleVertex(c, cap), CapsuleVertex(a, cap)) == Sub(sc, sa);
    }
  }

  lemma TurnedDifference(p: Vec3, q: Vec3, axis: Axis, center: Vec3)
    ensures Sub(Add(RotatePointAroundAxis(p, axis, Zero), center), Add(RotatePointAroundAxis(q, axis, Zero), center))
      == Rotate90(Sub(p, q), axis)
  {
  }

  /** On the canonical plane the terrain mesh spans [0, size.x] by [0, size.z] for a
      non-negative bounds size, and every vertex's height is the sample at its own world position. */
  lemma TerrainFootprint(nx: nat, nz: nat, t: TerrainSource, k: nat)
    requires nx >= 2 && nz >= 2 && k < nx * nz
    requires t.boundsSize.x >= 0.0 && t.boundsSize.z >= 0.0
    ensures var p := TerrainAdapted(PlaneGrid.PlaneVertices(nx, nz), t)[k];
      0.0 <= p.x <= t.boundsSize.x && 0.0 <= p.z <= t.boundsSize.z &&
      p.y == SampleHeight(t.field, Add(t.position, Vec3(p.x, 0.0, p.z)))
  {
    var v := PlaneGrid.PlaneVertices(nx, nz)[k];
    assert v == PlaneGrid.PlanePoint(nx, nz, k);
    PlaneGrid.PlanePointInUnitSquare(nx, nz, k);
    UnitSquareVertex(v, t);
  }

  /** A vertex of the unit square at y = 0 lands in the terrain's footprint, at its sampled height. */
  lemma UnitSquareVertex(v: Vec3, t: TerrainSource)
    requires 0.0 <= v.x <= 1.0 && v.y == 0.0 && 0.0 <= v.z <= 1.0
    requires t.boundsSize.x >= 0.0 && t.boundsSize.z >= 0.0
    ensures var p := TerrainVertex(v, t);
      0.0 <= p.x <= t.boundsSize.x && 0.0 <= p.z <= t.boundsSize.z &&
      p.y == SampleHeight(t.field, Add(t.position, Vec3(p.x, 0.0, p.z)))
  {
    var x, z := v.x * t.boundsSize.x, v.z * t.boundsSize.z;
    AtMostFactor(v.x, t.boundsSize.x);
    AtMostFactor(v.z, t.boundsSize.z);
    assert z <= t.boundsSize.z;
    assert Scale(v, t.boundsSize) == Vec3(x, 0.0, z);
    assert TerrainVertex(v, t).z == z;
    assert TerrainVertex(v, t) == Vec3(x, SampleHeight(t.field, Add(t.position, Vec3(x, 0.0, z))), z);
  }

  lemma AtMostFactor(u: real, s: real)
    requires 0.0 <= u <= 1.0 && s >= 0.0
    ensures 0.0 <= u * s <= s
  {
    assert s - u * s == (1.0 - u) * s;
  }
}
