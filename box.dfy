/** The unit box: a fixed table of 8 corners and 12 triangles. */
module BoxTable {
  import opened Geometry
  import opened Topology

  /** The corner table of the generator, at +-0.5. */
  const BoxVertices: seq<Vec3> := [
    Vec3(-0.5, -0.5, -0.5), Vec3(0.5, -0.5, -0.5),
    Vec3(0.5, 0.5, -0.5), Vec3(-0.5, 0.5, -0.5), Vec3(-0.5, 0.5, 0.5),
    Vec3(0.5, 0.5, 0.5), Vec3(0.5, -0.5, 0.5), Vec3(-0.5, -0.5, 0.5)
  ]

  /** The triangle table of the generator, as a flat index list. */
  const BoxTriangles: seq<int> := [
    0, 2, 1, 0, 3, 2, 2, 3, 4, 2, 4, 5, 1, 2, 5, 1, 5, 6, 0, 7, 4, 0, 4, 3, 5, 4, 7, 5, 7, 6, 0, 6,
    7, 0, 1, 6
  ]

  /** The same table read as twelve triangles. */
  const BoxTris: seq<Tri> := [
    Tri(0, 2, 1), Tri(0, 3, 2), Tri(2, 3, 4), Tri(2, 4, 5), Tri(1, 2, 5), Tri(1, 5, 6),
    Tri(0, 7, 4), Tri(0, 4, 3), Tri(5, 4, 7), Tri(5, 7, 6), Tri(0, 6, 7), Tri(0, 1, 6)
  ]

  /** The same corners with every coordinate doubled, so that they are integers (+-1). */
  const DoubledCorners: seq<IVec3> := [
    IVec3(-1, -1, -1), IVec3(1, -1, -1),
    IVec3(1, 1, -1), IVec3(-1, 1, -1), IVec3(-1, 1, 1),
    IVec3(1, 1, 1), IVec3(1, -1, 1), IVec3(-1, -1, 1)
  ]

  function Halved(v: IVec3): Vec3 { Vec3(v.x as real / 2.0, v.y as real / 2.0, v.z as real / 2.0) }

  /** A face of the cube: the coordinate `axis` (0 = X, 1 = Y, 2 = Z) is fixed at `sign` (+-1, doubled). */
  datatype Face = Face(axis: nat, sign: int)

  function Coord(v: IVec3, axis: nat): int {
    if axis == 0 then v.x else if axis == 1 then v.y else v.z
  }

  /** The outward unit direction of a face. */
  function Outward(f: Face): IVec3 {
    if f.axis == 0 then IVec3(f.sign, 0, 0)
    else if f.axis == 1 then IVec3(0, f.sign, 0)
    else IVec3(0, 0, f.sign)
  }

  /** The faces in the order the triangle table lists them, two triangles each:
      -Z, +Y, +X, -X, +Z, -Y. */
  const BoxFaces: seq<Face> := [Face(2, -1), Face(1, 1), Face(0, 1), Face(0, -1), Face(2, 1), Face(1, -1)]

  function Corner(k: int): IVec3 {
    if 0 <= k < 8 then DoubledCorners[k] else IVec3(0, 0, 0)
  }

  predicate OnFace(f: Face, t: Tri) {
    Coord(Corner(t.a), f.axis) == f.sign && Coord(Corner(t.b), f.axis) == f.sign && Coord(Corner(t.c), f.axis) == f.sign
  }

  /** The four corners of a face. */
  function FaceCorners(f: Face): set<int> {
    set k | 0 <= k < 8 && Coord(DoubledCorners[k], f.axis) == f.sign
  }

  function BoxTri(t: nat): Tri
    requires t < 12
  {
    TriAt(BoxTriangles, t)
  }

  /** Triangle t of the flat table is entry t of the triple table. */
  lemma BoxTriIs(t: nat)
    requires t < 12
    ensures BoxTri(t) == BoxTris[t]
  {
    assert BoxTriangles[3 * t] == BoxTris[t].a && BoxTriangles[3 * t + 1] == BoxTris[t].b && BoxTriangles[3 * t + 2] == BoxTris[t].c;
  }

  /** 8 corners, 36 indices, every index below 8; the real table is the doubled table halved. */
  lemma BoxTableShape()
    ensures |BoxVertices| == 8 && |BoxTriangles| == 36 && TriCount(BoxTriangles) == 12
    ensures IndicesBelow(BoxTriangles, |BoxVertices|)
    ensures forall k :: 0 <= k < 8 ==> BoxVertices[k] == Halved(DoubledCorners[k])
  {
  }

  /** The triangles of one face are exactly triangles 2f and 2f + 1 ... */
  lemma BoxFaceOfTriangle(t: nat)
    requires t < 12
    ensures forall f :: 0 <= f < 6 ==> (OnFace(BoxFaces[f], BoxTri(t)) <==> t / 2 == f)
  {
    BoxTriIs(t);
    assert t == 0 || t == 1 || t == 2 || t == 3 || t == 4 || t == 5 || t == 6 || t == 7 || t == 8 || t == 9 || t == 10 || t == 11;
  }

  /** ... and together they use all four corners of that face. */
  lemma BoxFaceCorners(f: nat)
    requires f < 6
    ensures Corners(BoxTri(2 * f)) + Corners(BoxTri(2 * f + 1)) == FaceCorners(BoxFaces[f])
  {
    BoxTriIs(2 * f);
    BoxTriIs(2 * f + 1);
    assert f == 0 || f == 1 || f == 2 || f == 3 || f == 4 || f == 5;
  }

  /** Every face of the cube is covered by exactly two triangles of the table. */
  lemma BoxFacesCovered()
    ensures forall f, t :: 0 <= f < 6 && 0 <= t < 12 ==> (OnFace(BoxFaces[f], BoxTri(t)) <==> t / 2 == f)
    ensures forall f :: 0 <= f < 6 ==> Corners(BoxTri(2 * f)) + Corners(BoxTri(2 * f + 1)) == FaceCorners(BoxFaces[f])
  {
    forall t | 0 <= t < 12 ensures forall f :: 0 <= f < 6 ==> (OnFace(BoxFaces[f], BoxTri(t)) <==> t / 2 == f) {
      BoxFaceOfTriangle(t);
    }
    forall f | 0 <= f < 6 ensures Corners(BoxTri(2 * f)) + Corners(BoxTri(2 * f + 1)) == FaceCorners(BoxFaces[f]) {
      BoxFaceCorners(f);
    }
  }

  function Quadrupled(v: IVec3): IVec3 { IVec3(4 * v.x, 4 * v.y, 4 * v.z) }

  /** The face normal of a triangle of corner numbers, in doubled coordinates. */
  function TriNormal(tr: Tri): IVec3 {
    IFaceNormal(Corner(tr.a), Corner(tr.b), Corner(tr.c))
  }

  function BoxNormal(t: nat): IVec3
    requires t < 12
  {
    TriNormal(BoxTri(t))
  }

  /** Triangles 0 and 1, on the -Z face, are wound outward. */
  lemma BackFaceOutward()
    ensures TriNormal(BoxTris[0]) == Quadrupled(Outward(BoxFaces[0]))
    ensures TriNormal(BoxTris[1]) == Quadrupled(Outward(BoxFaces[0]))
  {
  }

  /** Triangles 2 and 3, on the +Y face, are wound outward. */
  lemma TopFaceOutward()
    ensures TriNormal(BoxTris[2]) == Quadrupled(Outward(BoxFaces[1]))
    ensures TriNormal(BoxTris[3]) == Quadrupled(Outward(BoxFaces[1]))
  {
  }

  /** Triangles 4 and 5, on the +X face, are wound outward. */
  lemma RightFaceOutward()
    ensures TriNormal(BoxTris[4]) == Quadrupled(Outward(BoxFaces[2]))
    ensures TriNormal(BoxTris[5]) == Quadrupled(Outward(BoxFaces[2]))
  {
  }

  /** Triangles 6 and 7, on the -X face, are wound outward. */
  lemma LeftFaceOutward()
    ensures TriNormal(BoxTris[6]) == Quadrupled(Outward(BoxFaces[3]))
    ensures TriNormal(BoxTris[7]) == Quadrupled(Outward(BoxFaces[3]))
  {
  }

  /** Triangles 8 and 9, on the +Z face, are wound outward. */
  lemma FrontFaceOutward()
    ensures TriNormal(BoxTris[8]) == Quadrupled(Outward(BoxFaces[4]))
    ensures TriNormal(BoxTris[9]) == Quadrupled(Outward(BoxFaces[4]))
  {
  }

  /** Triangles 10 and 11, on the -Y face, are wound outward. */
  lemma BottomFaceOutward()
    ensures TriNormal(BoxTris[10]) == Quadrupled(Outward(BoxFaces[5]))
    ensures TriNormal(BoxTris[11]) == Quadrupled(Outward(BoxFaces[5]))
  {
  }

  /** With doubled coordinates every triangle's edge cross product is four times the
      outward direction of its face, so it points away from the centre of the box. */
  lemma BoxOutwardWinding(t: nat)
    requires t < 12
    ensures BoxNormal(t) == Quadrupled(Outward(BoxFaces[t / 2]))
  {
    BoxTriIs(t);
    if t / 2 == 0 {
      BackFaceOutward();
    } else if t / 2 == 1 {
      TopFaceOutward();
    } else if t / 2 == 2 {
      RightFaceOutward();
    } else if t / 2 == 3 {
      LeftFaceOutward();
    } else if t / 2 == 4 {
      FrontFaceOutward();
    } else {
      BottomFaceOutward();
    }
  }

  lemma OutwardDot(f: Face, p: IVec3)
    requires f.sign == 1 || f.sign == -1
    requires Coord(p, f.axis) == f.sign
    ensures IDot(Quadrupled(Outward(f)), p) == 4
  {
  }

  /** Each triangle's normal has a positive dot product with each of its corners:
      seen from the centre of the box, every triangle faces away. */
  lemma BoxNormalPointsOut(t: nat)
    requires t < 12
    ensures forall k :: k in Corners(BoxTri(t)) ==> IDot(BoxNormal(t), Corner(k)) == 4
  {
    BoxOutwardWinding(t);
    BoxFaceOfTriangle(t);
    var f := BoxFaces[t / 2];
    assert OnFace(f, BoxTri(t));
    assert f.sign == 1 || f.sign == -1;
    var tr := BoxTri(t);
    OutwardDot(f, Corner(tr.a));
    OutwardDot(f, Corner(tr.b));
    OutwardDot(f, Corner(tr.c));
  }
}
