/** The UV sphere: an (r + 1)-by-(r + 1) latitude/longitude grid of vertices, two
    triangles per grid quad, written slot by slot into a fixed-size index array that
    is then reversed in place. */
module UvSphere {
  import opened Geometry
  import opened Topology

  /** The generator uses 10 subdivisions and radius 1. */
  const SphereResolution: nat := 10
  const SphereRadius: real := 1.0

  /** The polar angle of row i: v pi with v = i / r, from one pole (v = 0) to the other (v = 1). */
  function Polar(trig: Trig, r: nat, i: nat): real
    requires r >= 1
  {
    (i as real / r as real) * trig.pi
  }

  /** The azimuth of column j: u 2 pi with u = j / r, a full turn at u = 1. */
  function Azimuth(trig: Trig, r: nat, j: nat): real
    requires r >= 1
  {
    (j as real / r as real) * 2.0 * trig.pi
  }

  /** Vertex (i, j) of the grid. */
  function SpherePoint(trig: Trig, r: nat, radius: real, i: nat, j: nat): Vec3
    requires r >= 1
  {
    Vec3(radius * Sin(trig, Polar(trig, r, i)) * Cos(trig, Azimuth(trig, r, j)),
         radius * Sin(trig, Polar(trig, r, i)) * Sin(trig, Azimuth(trig, r, j)),
         radius * Cos(trig, Polar(trig, r, i)))
  }

  /** Vertex k is grid point (k / (r + 1), k % (r + 1)). */
  function SphereVertices(trig: Trig, r: nat, radius: real): (vs: seq<Vec3>)
    requires r >= 1
    ensures |vs| == (r + 1) * (r + 1)
  {
    seq((r + 1) * (r + 1), k requires 0 <= k < (r + 1) * (r + 1) => SpherePoint(trig, r, radius, k / (r + 1), k % (r + 1)))
  }

  /** The vertex written into slot m (0..5) of quad (i, j): with a the quad's corner on row i
      and b the corner below it on row i + 1, the slots hold a, a + 1, b, a + 1, b + 1, b. */
  function QuadCorner(r: nat, i: nat, j: nat, m: nat): nat {
    var a := i * (r + 1) + j;
    var b := (i + 1) * (r + 1) + j;
    if m == 0 then a else if m == 1 then a + 1 else if m == 2 then b
    else if m == 3 then a + 1 else if m == 4 then b + 1 else b
  }

  /** The slot that quad (i, j) writes its m-th index to. */
  function SlotOf(r: nat, i: nat, j: nat, m: nat): nat {
    6 * (i * r + j) + m
  }

  /** What slot s of the index array holds once both loops are done. */
  function SphereSlot(r: nat, s: nat): nat
    requires r >= 1
  {
    var q := s / 6;
    QuadCorner(r, q / r, q % r, s % 6)
  }

  /** The index array before `Array.Reverse`. */
  function SphereQuadIndices(r: nat): (s: seq<int>)
    requires r >= 1
    ensures |s| == 6 * (r * r) && |s| % 3 == 0
  {
    SixSquares(r);
    seq(6 * (r * r), s requires 0 <= s < 6 * (r * r) => SphereSlot(r, s))
  }

  /** The sphere's index list: the quad indices reversed. */
  function SphereIndices(r: nat): (s: seq<int>)
    requires r >= 1
    ensures |s| == 6 * (r * r) && |s| % 3 == 0
  {
    Reversed(SphereQuadIndices(r))
  }

  lemma QuadBelow(r: nat, i: nat, j: nat)
    requires i < r && j < r
    ensures i * r + j < r * r
    ensures 6 * (i * r + j) + 6 <= 6 * (r * r)
  {
    assert i * r + j < i * r + r == (i + 1) * r;
    MulLeRight(i + 1, r, r);
  }

  /** Row i of quads ends within the r * r quads, where row i + 1 starts. */
  lemma RowFits(r: nat, i: nat)
    requires i < r
    ensures i * r + r == (i + 1) * r <= r * r
  {
    MulLeRight(i + 1, r, r);
  }

  /** Slot 6 (i r + j) + m is read back as slot m of quad (i, j): no two writes share a slot. */
  lemma SlotOfQuad(r: nat, i: nat, j: nat, m: nat)
    requires r >= 1 && i < r && j < r && m < 6
    ensures SlotOf(r, i, j, m) < 6 * (r * r)
    ensures SphereSlot(r, SlotOf(r, i, j, m)) == QuadCorner(r, i, j, m)
  {
    var q := i * r + j;
    QuadBelow(r, i, j);
    DivModOf(6 * q + m, 6, q, m);
    DivModOf(q, r, i, j);
  }

  /** Builds the index array with the generator's nested loops, then reverses it in place. */
  method SphereTriangleList(r: nat) returns (triangles: seq<int>)
    requires r >= 1
    ensures triangles == SphereIndices(r)
  {
    var a := new int[r * r * 6];
    assert a.Length == 6 * (r * r);
    ghost var slots := SphereQuadIndices(r);
    for i := 0 to r
      invariant forall s :: 0 <= s < 6 * (i * r) ==> a[s] == slots[s]
    {
      var rowStart := i * r;
      RowFits(r, i);
      for j := 0 to r
        invariant forall s :: 0 <= s < 6 * (rowStart + j) ==> a[s] == slots[s]
      {
        QuadBelow(r, i, j);
        WriteQuad(a, r, i, j);
      }
    }
    assert a[..] == slots;
    ReverseInPlace(a);
    triangles := a[..];
  }

  /** The body of the inner loop: the six indices of quad (i, j) go to slots 6 (i r + j) .. 6 (i r + j) + 5. */
  method WriteQuad(a: array<int>, r: nat, i: nat, j: nat)
    requires r >= 1 && i < r && j < r && a.Length == 6 * (r * r)
    requires 6 * (i * r + j) + 6 <= a.Length
    modifies a
    ensures forall s :: 0 <= s < a.Length && !(6 * (i * r + j) <= s < 6 * (i * r + j) + 6) ==> a[s] == old(a[s])
    ensures forall s :: 6 * (i * r + j) <= s < 6 * (i * r + j) + 6 ==> a[s] == SphereSlot(r, s)
  {
    var q := i * r + j;
    a[6 * q + 0] := i * (r + 1) + j;
    a[6 * q + 1] := i * (r + 1) + j + 1;
    a[6 * q + 2] := (i + 1) * (r + 1) + j;
    a[6 * q + 3] := i * (r + 1) + j + 1;
    a[6 * q + 4] := (i + 1) * (r + 1) + j + 1;
    a[6 * q + 5] := (i + 1) * (r + 1) + j;
    forall s | 6 * q <= s < 6 * q + 6 ensures a[s] == SphereSlot(r, s) {
      SlotOfQuad(r, i, j, s - 6 * q);
    }
  }

  /** `Array.Reverse` on the index array. */
  method ReverseInPlace(a: array<int>)
    modifies a
    ensures a[..] == Reversed(old(a[..]))
  {
    var n := a.Length;
    for i := 0 to n / 2
      invariant forall k :: 0 <= k < i ==> a[k] == old(a[n - 1 - k]) && a[n - 1 - k] == old(a[k])
      invariant forall k :: i <= k < n - i ==> a[k] == old(a[k])
    {
      a[i], a[n - 1 - i] := a[n - 1 - i], a[i];
    }
  }

  /** Builds the vertex array with the generator's nested loops. */
  method SphereVertexList(trig: Trig, r: nat, radius: real) returns (vertices: seq<Vec3>)
    requires r >= 1
    ensures vertices == SphereVertices(trig, r, radius)
  {
    var a := new Vec3[(r + 1) * (r + 1)];
    ghost var points := SphereVertices(trig, r, radius);
    for i := 0 to r + 1
      invariant forall k :: 0 <= k < i * (r + 1) ==> a[k] == points[k]
    {
      var rowStart := i * (r + 1);
      RowFits(r + 1, i);
      for j := 0 to r + 1
        invariant forall k :: 0 <= k < rowStart + j ==> a[k] == points[k]
      {
        DivModOf(rowStart + j, r + 1, i, j);
        a[rowStart + j] := SpherePoint(trig, r, radius, i, j);
      }
    }
    vertices := a[..];
  }

  // ----- Counts and bounds

  /** (r + 1)^2 vertices and 6 r^2 indices, that is 2 r^2 triangles. */
  lemma SphereCounts(trig: Trig, r: nat, radius: real)
    requires r >= 1
    ensures |SphereVertices(trig, r, radius)| == (r + 1) * (r + 1)
    ensures |SphereIndices(r)| == 6 * (r * r) && |SphereIndices(r)| % 3 == 0
    ensures TriCount(SphereIndices(r)) == 2 * (r * r)
  {
    SixSquares(r);
  }

  lemma SixSquares(r: nat)
    ensures 6 * (r * r) == 3 * (2 * (r * r)) && (6 * (r * r)) / 3 == 2 * (r * r) && (6 * (r * r)) % 3 == 0
  {
    DivModOf(6 * (r * r), 3, 2 * (r * r), 0);
  }

  lemma CornerBelow(r: nat, i: nat, j: nat, m: nat)
    requires i < r && j < r
    ensures QuadCorner(r, i, j, m) < (r + 1) * (r + 1)
  {
    MulLeRight(i + 1, r, r + 1);
    assert (r + 1) * (r + 1) == r * (r + 1) + r + 1;
  }

  /** Every slot s is written by exactly one iteration: quad (s / 6 / r, s / 6 % r), position s % 6. */
  lemma SlotCovered(r: nat, s: nat)
    requires r >= 1 && s < 6 * (r * r)
    ensures var q := s / 6; q / r < r && q % r < r && s == SlotOf(r, q / r, q % r, s % 6)
  {
    var q := s / 6;
    assert q < r * r;
    var i := q / r;
    assert q == i * r + q % r;
    if i >= r {
      AtLeastDivisor(i - r + 1, r);
    }
  }

  lemma SlotOfInjective(r: nat, i: nat, j: nat, m: nat, i': nat, j': nat, m': nat)
    requires j < r && m < 6 && j' < r && m' < 6
    requires SlotOf(r, i, j, m) == SlotOf(r, i', j', m')
    ensures i == i' && j == j' && m == m'
  {
    var q, q' := i * r + j, i' * r + j';
    DivModOf(6 * q + m, 6, q, m);
    DivModOf(6 * q' + m', 6, q', m');
    DivModOf(q, r, i, j);
    DivModOf(q', r, i', j');
  }

  /** Every index of the sphere addresses one of its (r + 1)^2 vertices. */
  lemma SphereIndicesInRange(r: nat)
    requires r >= 1
    ensures IndicesBelow(SphereQuadIndices(r), (r + 1) * (r + 1))
    ensures IndicesBelow(SphereIndices(r), (r + 1) * (r + 1))
  {
    var s := SphereQuadIndices(r);
    forall k | 0 <= k < |s| ensures 0 <= s[k] < (r + 1) * (r + 1) {
      SlotBelow(r, k);
    }
    ReversedIndicesBelow(s, (r + 1) * (r + 1));
  }

  lemma SlotBelow(r: nat, k: nat)
    requires r >= 1 && k < 6 * (r * r)
    ensures SphereSlot(r, k) < (r + 1) * (r + 1)
  {
    var q := k / 6;
    SlotCovered(r, k);
    CornerBelow(r, q / r, q % r, k % 6);
  }

  // ----- Winding

  /** Before the reversal quad (i, j) is the triangles (a, a + 1, b) and (a + 1, b + 1, b),
      where a is its corner on row i and b the corner below on row i + 1. */
  lemma SphereQuadTriangles(r: nat, i: nat, j: nat)
    requires r >= 1 && i < r && j < r
    ensures var q, a, b := i * r + j, i * (r + 1) + j, (i + 1) * (r + 1) + j;
      2 * q + 1 < 2 * (r * r) &&
      TriAt(SphereQuadIndices(r), 2 * q) == Tri(a, a + 1, b) &&
      TriAt(SphereQuadIndices(r), 2 * q + 1) == Tri(a + 1, b + 1, b)
  {
    QuadBelow(r, i, j);
    SlotOfQuad(r, i, j, 0); SlotOfQuad(r, i, j, 1); SlotOfQuad(r, i, j, 2);
    SlotOfQuad(r, i, j, 3); SlotOfQuad(r, i, j, 4); SlotOfQuad(r, i, j, 5);
  }

  /** After `Array.Reverse`, triangle t is triangle 2 r^2 - 1 - t of the loop's output with its
      vertex order reversed; the set of triangles is unchanged. */
  lemma SphereReversal(r: nat, t: nat)
    requires r >= 1 && t < 2 * (r * r)
    ensures TriAt(SphereIndices(r), t) == Flip(TriAt(SphereQuadIndices(r), 2 * (r * r) - 1 - t))
    ensures Faces(SphereIndices(r)) == Faces(SphereQuadIndices(r))
  {
    var s := SphereQuadIndices(r);
    SixSquares(r);
    ReversedTriangle(s, t);
    ReversedKeepsFaces(s);
  }

  /** The face normal of a triangle of indices into a vertex list. */
  function NormalIn(vs: seq<Vec3>, tr: Tri): Vec3
    requires 0 <= tr.a < |vs| && 0 <= tr.b < |vs| && 0 <= tr.c < |vs|
  {
    FaceNormal(vs[tr.a], vs[tr.b], vs[tr.c])
  }

  /** Whatever the vertex positions, the reversal negates the face normal of every triangle:
      it turns all the sphere's triangles inside out at once. */
  lemma SphereWindingFlipped(trig: Trig, r: nat, radius: real, t: nat)
    requires r >= 1 && t < 2 * (r * r)
    ensures var vs, before := SphereVertices(trig, r, radius), TriAt(SphereQuadIndices(r), 2 * (r * r) - 1 - t);
      IndicesBelow(SphereQuadIndices(r), |vs|) && IndicesBelow(SphereIndices(r), |vs|) &&
      NormalIn(vs, TriAt(SphereIndices(r), t)) == Neg(NormalIn(vs, before))
  {
    var vs := SphereVertices(trig, r, radius);
    var before := TriAt(SphereQuadIndices(r), 2 * (r * r) - 1 - t);
    SphereIndicesInRange(r);
    SphereReversal(r, t);
    SixSquares(r);
    FaceNormalFlips(vs[before.a], vs[before.b], vs[before.c]);
  }

  // ----- Positions

  /** With sin^2 + cos^2 = 1 every vertex lies on the sphere of the given radius. */
  lemma SphereOnSphere(trig: Trig, r: nat, radius: real, k: nat)
    requires r >= 1 && Pythagorean(trig) && k < (r + 1) * (r + 1)
    ensures SqNorm(SphereVertices(trig, r, radius)[k]) == radius * radius
  {
    SpherePointOnSphere(trig, r, radius, k / (r + 1), k % (r + 1));
  }

  lemma SpherePointOnSphere(trig: Trig, r: nat, radius: real, i: nat, j: nat)
    requires r >= 1 && Pythagorean(trig)
    ensures SqNorm(SpherePoint(trig, r, radius, i, j)) == radius * radius
  {
    var sv, cv := Sin(trig, Polar(trig, r, i)), Cos(trig, Polar(trig, r, i));
    var su, cu := Sin(trig, Azimuth(trig, r, j)), Cos(trig, Azimuth(trig, r, j));
    assert su * su + cu * cu == 1.0;
    assert sv * sv + cv * cv == 1.0;
    UnitSquares(radius, sv, cv, su, cu);
  }

  /** (R s c)^2 + (R s t)^2 + (R d)^2 = R^2 when t^2 + c^2 = 1 and s^2 + d^2 = 1. */
  lemma UnitSquares(radius: real, sv: real, cv: real, su: real, cu: real)
    requires su * su + cu * cu == 1.0 && sv * sv + cv * cv == 1.0
    ensures SqNorm(Vec3(radius * sv * cu, radius * sv * su, radius * cv)) == radius * radius
  {
    var rr, ss := radius * radius, sv * sv;
    assert (radius * sv * cu) * (radius * sv * cu) == rr * ss * (cu * cu);
    assert (radius * sv * su) * (radius * sv * su) == rr * ss * (su * su);
    assert (radius * cv) * (radius * cv) == rr * (cv * cv);
    assert rr * ss * (cu * cu) + rr * ss * (su * su) == rr * ss * (su * su + cu * cu);
    assert rr * ss + rr * (cv * cv) == rr * (ss + cv * cv);
  }

  /** Row 0 collapses to the pole (0, 0, radius) and row r to (0, 0, -radius). */
  lemma SpherePoles(trig: Trig, r: nat, radius: real, j: nat)
    requires r >= 1 && Anchored(trig)
    ensures SpherePoint(trig, r, radius, 0, j) == Vec3(0.0, 0.0, radius)
    ensures SpherePoint(trig, r, radius, r, j) == Vec3(0.0, 0.0, -radius)
  {
    assert Polar(trig, r, 0) == 0.0;
    assert r as real / r as real == 1.0;
    assert Polar(trig, r, r) == trig.pi;
  }

  /** The seam column j = r repeats column j = 0 after a full turn. */
  lemma SphereSeam(trig: Trig, r: nat, radius: real, i: nat)
    requires r >= 1 && Periodic(trig)
    ensures SpherePoint(trig, r, radius, i, r) == SpherePoint(trig, r, radius, i, 0)
  {
    assert r as real / r as real == 1.0;
    assert Azimuth(trig, r, r) == 0.0 + 2.0 * trig.pi;
    assert Azimuth(trig, r, 0) == 0.0;
    assert Sin(trig, 0.0 + 2.0 * trig.pi) == Sin(trig, 0.0);
  }
}
