/** The capped cylinder: a lower ring, an upper ring and two cap centres; sides made of
    one quad per ring segment, caps made of one fan triangle per segment. */
module CappedCylinder {
  import opened Geometry
  import opened Topology

  /** The generator uses 10 segments and height 1. */
  const CylinderResolution: nat := 10
  const CylinderHeight: real := 1.0

  /** The angle step 2 pi / r. */
  function Increment(trig: Trig, r: nat): real
    requires r >= 1
  {
    (trig.pi * 2.0) / (r as real)
  }

  /** The angle of ring vertex k: k times the step, also for the upper ring (k >= r). */
  function Theta(trig: Trig, r: nat, k: nat): real
    requires r >= 1
  {
    (k as real) * Increment(trig, r)
  }

  /** Vertex layout: [0, r) lower ring, [r, 2 r) upper ring, 2 r lower centre, 2 r + 1 upper centre. */
  function CylinderPoint(trig: Trig, r: nat, height: real, k: nat): Vec3
    requires r >= 1
  {
    if k < r then Vec3(Cos(trig, Theta(trig, r, k)), -height / 2.0, Sin(trig, Theta(trig, r, k)))
    else if k < 2 * r then Vec3(Cos(trig, Theta(trig, r, k)), height / 2.0, Sin(trig, Theta(trig, r, k)))
    else if k == 2 * r then Vec3(0.0, -height / 2.0, 0.0)
    else Vec3(0.0, height / 2.0, 0.0)
  }

  function CylinderVertices(trig: Trig, r: nat, height: real): (vs: seq<Vec3>)
    requires r >= 1
    ensures |vs| == 2 * r + 2
  {
    seq(2 * r + 2, k requires 0 <= k < 2 * r + 2 => CylinderPoint(trig, r, height, k))
  }

  /** The six indices one iteration adds: of the side loop (cap == false) or of the cap loop. */
  function Block(r: nat, i: nat, cap: bool): (b: seq<int>)
    requires i < r
    ensures |b| == 6
  {
    if !cap then
      var toTopOffset := r;
      [i, i + toTopOffset, (i + 1) % r,
       i + toTopOffset, if i + 1 + toTopOffset >= r * 2 then toTopOffset else i + 1 + toTopOffset, (i + 1) % r]
    else
      var nextIndex := (i + 1) % r;
      var upperNext := if nextIndex + r >= r * 2 then r + 1 else nextIndex + r;
      [nextIndex, r * 2, i, i + r, r * 2 + 1, upperNext]
  }

  /** The indices the first n iterations of a loop have added. */
  function Blocks(r: nat, n: nat, cap: bool): (s: seq<int>)
    requires n <= r
    ensures |s| == 6 * n
  {
    if n == 0 then [] else Blocks(r, n - 1, cap) + Block(r, n - 1, cap)
  }

  /** Position s of the index list: entry s % 6 of side iteration s / 6 for the first 6 r
      positions, then entry (s - 6 r) % 6 of cap iteration (s - 6 r) / 6. */
  function CylinderSlot(r: nat, s: nat): int
    requires s < 12 * r
  {
    if s < 6 * r then Block(r, s / 6, false)[s % 6] else Block(r, (s - 6 * r) / 6, true)[(s - 6 * r) % 6]
  }

  /** The side loop's indices followed by the cap loop's. */
  function CylinderIndices(r: nat): (s: seq<int>)
    ensures |s| == 12 * r
  {
    seq(12 * r, s requires 0 <= s < 12 * r => CylinderSlot(r, s))
  }

  // ----- The generator's loops

  /** Fills the vertex array with the generator's two ring loops and the two centres. */
  method CylinderVertexList(trig: Trig, r: nat, height: real) returns (vertices: seq<Vec3>)
    requires r >= 1
    ensures vertices == CylinderVertices(trig, r, height)
  {
    var a := new Vec3[r * 2 + 2];
    ghost var points := CylinderVertices(trig, r, height);
    for i := 0 to r
      invariant forall k :: 0 <= k < i ==> a[k] == points[k]
    {
      a[i] := Vec3(Cos(trig, Theta(trig, r, i)), -height / 2.0, Sin(trig, Theta(trig, r, i)));
    }
    for i := r to r * 2
      invariant forall k :: 0 <= k < i ==> a[k] == points[k]
    {
      a[i] := Vec3(Cos(trig, Theta(trig, r, i)), height / 2.0, Sin(trig, Theta(trig, r, i)));
    }
    a[r * 2] := Vec3(0.0, -height / 2.0, 0.0);
    a[r * 2 + 1] := Vec3(0.0, height / 2.0, 0.0);
    vertices := a[..];
  }

  /** Builds the index list with the generator's side loop and cap loop, adding one index at a time. */
  method CylinderTriangleList(r: nat) returns (triangles: seq<int>)
    ensures triangles == CylinderIndices(r)
  {
    triangles := [];
    var toTopOffset := r;
    for i := 0 to r
      invariant triangles == Blocks(r, i, false)
    {
      triangles := triangles + [i];
      triangles := triangles + [i + toTopOffset];
      triangles := triangles + [(i + 1) % r];
      triangles := triangles + [i + toTopOffset];
      triangles := triangles + [if i + 1 + toTopOffset >= r * 2 then toTopOffset else i + 1 + toTopOffset];
      triangles := triangles + [(i + 1) % r];
    }
    ghost var sides := triangles;
    for i := 0 to r
      invariant triangles == sides + Blocks(r, i, true)
    {
      var index := i;
      var nextIndex := (i + 1) % r;
      triangles := triangles + [nextIndex];
      triangles := triangles + [r * 2];
      triangles := triangles + [index];
      index := i + r;
      nextIndex := if nextIndex + r >= r * 2 then r + 1 else nextIndex + r;
      triangles := triangles + [index];
      triangles := triangles + [r * 2 + 1];
      triangles := triangles + [nextIndex];
    }
    LoopsAreIndices(r);
  }

  // ----- Index structure

  /** Entry m of iteration i sits at position 6 i + m of the loop's output. */
  lemma {:induction false} BlocksAt(r: nat, n: nat, cap: bool, i: nat, m: nat)
    requires i < n <= r && m < 6
    ensures Blocks(r, n, cap)[6 * i + m] == Block(r, i, cap)[m]
  {
    if i < n - 1 {
      BlocksAt(r, n - 1, cap, i, m);
    }
  }

  /** The two loops together emit exactly the index list. */
  lemma LoopsAreIndices(r: nat)
    ensures Blocks(r, r, false) + Blocks(r, r, true) == CylinderIndices(r)
  {
    var sides, caps := Blocks(r, r, false), Blocks(r, r, true);
    forall s | 0 <= s < 12 * r ensures (sides + caps)[s] == CylinderIndices(r)[s] {
      if s < 6 * r {
        DivModOf(s, 6, s / 6, s % 6);
        BlocksAt(r, r, false, s / 6, s % 6);
      } else {
        var t := s - 6 * r;
        DivModOf(t, 6, t / 6, t % 6);
        BlocksAt(r, r, true, t / 6, t % 6);
        assert (sides + caps)[s] == caps[t];
      }
    }
  }

  /** Entry m of iteration i of the side loop (cap == false) or of the cap loop sits at
      position p of the index list: 6 i + m, after the side loop's 6 r for the cap loop. */
  lemma IterationSlot(r: nat, cap: bool, i: nat, m: nat, p: nat)
    requires i < r && m < 6 && p == (if cap then 6 * r else 0) + 6 * i + m
    ensures p < 12 * r && CylinderIndices(r)[p] == Block(r, i, cap)[m]
  {
    DivModOf(6 * i + m, 6, i, m);
  }

  /** The side loop's wrap-around test at its fifth index picks r exactly when i + 1 wraps
      to 0, so that index is always the upper-ring vertex r + (i + 1) mod r. */
  lemma SideWrapIsModular(r: nat, i: nat)
    requires i < r
    ensures (if i + 1 + r >= r * 2 then r else i + 1 + r) == r + (i + 1) % r
  {
    if i + 1 < r {
      DivModOf(i + 1, r, 0, i + 1);
    } else {
      DivModOf(i + 1, r, 1, 0);
    }
  }

  /** In the cap loop (i + 1) mod r + r is always below 2 r: the fallback value r + 1 is never taken. */
  lemma CapFallbackUnreachable(r: nat, i: nat)
    requires i < r
    ensures (i + 1) % r + r < r * 2
    ensures Block(r, i, true)[5] == r + (i + 1) % r
  {
  }

  /** Triangles 2 i and 2 i + 1 form the side quad between ring segments i and i + 1 (mod r):
      the first has two lower and one upper corner, the second two upper and one lower. */
  lemma CylinderSideTriangles(r: nat, i: nat)
    requires i < r
    ensures TriAt(CylinderIndices(r), 2 * i) == Tri(i, i + r, (i + 1) % r)
    ensures TriAt(CylinderIndices(r), 2 * i + 1) == Tri(i + r, r + (i + 1) % r, (i + 1) % r)
  {
    var s, p, n := CylinderIndices(r), 6 * i, (i + 1) % r;
    SideWrapIsModular(r, i);
    assert Block(r, i, false) == [i, i + r, n, i + r, r + n, n];
    IterationSlot(r, false, i, 0, p); IterationSlot(r, false, i, 1, p + 1); IterationSlot(r, false, i, 2, p + 2);
    IterationSlot(r, false, i, 3, p + 3); IterationSlot(r, false, i, 4, p + 4); IterationSlot(r, false, i, 5, p + 5);
    assert TriAt(s, 2 * i) == Tri(s[p], s[p + 1], s[p + 2]);
    assert TriAt(s, 2 * i + 1) == Tri(s[p + 3], s[p + 4], s[p + 5]);
  }

  /** Triangles 2 r + 2 i and 2 r + 2 i + 1 are the fan triangles of the lower cap
      (around centre 2 r) and of the upper cap (around centre 2 r + 1) for segment i. */
  lemma CylinderCapTriangles(r: nat, i: nat)
    requires i < r
    ensures 2 * r + 2 * i + 1 < 4 * r
    ensures TriAt(CylinderIndices(r), 2 * r + 2 * i) == Tri((i + 1) % r, 2 * r, i)
    ensures TriAt(CylinderIndices(r), 2 * r + 2 * i + 1) == Tri(i + r, 2 * r + 1, r + (i + 1) % r)
  {
    var s, p, n := CylinderIndices(r), 6 * r + 6 * i, (i + 1) % r;
    CapFallbackUnreachable(r, i);
    assert Block(r, i, true) == [n, 2 * r, i, i + r, 2 * r + 1, r + n];
    IterationSlot(r, true, i, 0, p); IterationSlot(r, true, i, 1, p + 1); IterationSlot(r, true, i, 2, p + 2);
    IterationSlot(r, true, i, 3, p + 3); IterationSlot(r, true, i, 4, p + 4); IterationSlot(r, true, i, 5, p + 5);
    assert TriAt(s, 2 * r + 2 * i) == Tri(s[p], s[p + 1], s[p + 2]);
    assert TriAt(s, 2 * r + 2 * i + 1) == Tri(s[p + 3], s[p + 4], s[p + 5]);
  }

  /** 2 r + 2 vertices and 12 r indices, that is 4 r triangles, every index a vertex. */
  lemma CylinderCounts(trig: Trig, r: nat, height: real)
    requires r >= 1
    ensures |CylinderVertices(trig, r, height)| == 2 * r + 2
    ensures |CylinderIndices(r)| == 12 * r && |CylinderIndices(r)| % 3 == 0 && TriCount(CylinderIndices(r)) == 4 * r
    ensures IndicesBelow(CylinderIndices(r), 2 * r + 2)
  {
    DivModOf(12 * r, 3, 4 * r, 0);
    forall k | 0 <= k < 12 * r ensures 0 <= CylinderIndices(r)[k] < 2 * r + 2 {
      BlockBelow(r, if k < 6 * r then k / 6 else (k - 6 * r) / 6, k >= 6 * r);
    }
  }

  lemma BlockBelow(r: nat, i: nat, cap: bool)
    requires i < r
    ensures forall m :: 0 <= m < 6 ==> 0 <= Block(r, i, cap)[m] < 2 * r + 2
  {
    assert (i + 1) % r < r;
  }

  // ----- Positions

  /** The upper ring's angles run on past a full turn: vertex k + r is turned 2 pi further than vertex k. */
  lemma ThetaShift(trig: Trig, r: nat, k: nat)
    requires r >= 1
    ensures Theta(trig, r, k + r) == Theta(trig, r, k) + 2.0 * trig.pi
  {
    var inc := Increment(trig, r);
    assert (r as real) * inc == trig.pi * 2.0;
    assert ((k + r) as real) * inc == (k as real) * inc + (r as real) * inc;
  }

  /** With a 2 pi period every upper-ring vertex i + r sits straight above lower-ring vertex i, one height higher. */
  lemma UpperAboveLower(trig: Trig, r: nat, height: real, i: nat)
    requires r >= 1 && i < r && Periodic(trig)
    ensures CylinderPoint(trig, r, height, i + r) == Add(CylinderPoint(trig, r, height, i), Vec3(0.0, height, 0.0))
  {
    ThetaShift(trig, r, i);
    assert Sin(trig, Theta(trig, r, i + r)) == Sin(trig, Theta(trig, r, i));
  }

  /** With a 2 pi period both triangles of side quad i, (i, i + r, q) and (i + r, r + q, q) with
      q = (i + 1) mod r as `CylinderSideTriangles` lists them, have the same face normal: horizontal, with component
      height (p.x q.z - p.z q.x) along the radial directions of both lower ring vertices p and q.
      That is height times sin(theta_q - theta_p), the sine of one angle step, so the normal
      points away from the axis. */
  lemma CylinderSideNormals(trig: Trig, r: nat, height: real, i: nat)
    requires r >= 1 && i < r && Periodic(trig)
    ensures var vs, n := CylinderVertices(trig, r, height), (i + 1) % r;
      var p, q := vs[i], vs[n];
      var nrm := Vec3(height * (q.z - p.z), 0.0, -(height * (q.x - p.x)));
      FaceNormal(vs[i], vs[i + r], vs[n]) == nrm && FaceNormal(vs[i + r], vs[r + n], vs[n]) == nrm &&
      Dot(nrm, Vec3(p.x, 0.0, p.z)) == height * (p.x * q.z - p.z * q.x) &&
      Dot(nrm, Vec3(q.x, 0.0, q.z)) == height * (p.x * q.z - p.z * q.x)
  {
    var vs, n := CylinderVertices(trig, r, height), (i + 1) % r;
    SideQuadPoints(trig, r, height, i);
    QuadNormals(vs, i, i + r, n, r + n, height);
  }

  /** The corners of side quad i: two lower ring vertices at one height and the upper ring
      vertices straight above them. */
  lemma SideQuadPoints(trig: Trig, r: nat, height: real, i: nat)
    requires r >= 1 && i < r && Periodic(trig)
    ensures var vs, n, up := CylinderVertices(trig, r, height), (i + 1) % r, Vec3(0.0, height, 0.0);
      vs[i].y == vs[n].y && vs[i + r] == Add(vs[i], up) && vs[r + n] == Add(vs[n], up)
  {
    var vs, n := CylinderVertices(trig, r, height), (i + 1) % r;
    UpperAboveLower(trig, r, height, i);
    UpperAboveLower(trig, r, height, n);
    assert vs[i + r] == CylinderPoint(trig, r, height, i + r);
    assert vs[n + r] == CylinderPoint(trig, r, height, n + r);
  }

  /** A quad whose upper corners b and d sit a height h above its lower corners a and c, which
      share one height, is wound the same in both halves (a, b, c) and (b, d, c). */
  lemma QuadNormals(vs: seq<Vec3>, a: nat, b: nat, c: nat, d: nat, h: real)
    requires a < |vs| && b < |vs| && c < |vs| && d < |vs|
    requires vs[a].y == vs[c].y && vs[b] == Add(vs[a], Vec3(0.0, h, 0.0)) && vs[d] == Add(vs[c], Vec3(0.0, h, 0.0))
    ensures var p, q := vs[a], vs[c];
      var nrm := Vec3(h * (q.z - p.z), 0.0, -(h * (q.x - p.x)));
      FaceNormal(vs[a], vs[b], vs[c]) == nrm && FaceNormal(vs[b], vs[d], vs[c]) == nrm &&
      Dot(nrm, Vec3(p.x, 0.0, p.z)) == h * (p.x * q.z - p.z * q.x) &&
      Dot(nrm, Vec3(q.x, 0.0, q.z)) == h * (p.x * q.z - p.z * q.x)
  {
    var p, q := vs[a], vs[c];
    assert h * (q.z - p.z) * p.x - h * (q.x - p.x) * p.z == h * (p.x * q.z - p.z * q.x);
    assert h * (q.z - p.z) * q.x - h * (q.x - p.x) * q.z == h * (p.x * q.z - p.z * q.x);
  }

  /** With sin^2 + cos^2 = 1 both rings lie on the unit circle around the Y axis. */
  lemma RingOnUnitCircle(trig: Trig, r: nat, height: real, k: nat)
    requires r >= 1 && k < 2 * r && Pythagorean(trig)
    ensures var p := CylinderPoint(trig, r, height, k); p.x * p.x + p.z * p.z == 1.0
  {
    assert Sin(trig, Theta(trig, r, k)) * Sin(trig, Theta(trig, r, k)) + Cos(trig, Theta(trig, r, k)) * Cos(trig, Theta(trig, r, k)) == 1.0;
  }

  /** The caps are flat: every corner of a lower-cap triangle is at y = -height / 2 and
      every corner of an upper-cap triangle at y = height / 2. */
  lemma CylinderCapsFlat(trig: Trig, r: nat, height: real, i: nat)
    requires r >= 1 && i < r
    ensures 2 * r + 2 * i + 1 < TriCount(CylinderIndices(r))
    ensures forall k :: k in Corners(TriAt(CylinderIndices(r), 2 * r + 2 * i)) ==> CylinderPoint(trig, r, height, k).y == -height / 2.0
    ensures forall k :: k in Corners(TriAt(CylinderIndices(r), 2 * r + 2 * i + 1)) ==> CylinderPoint(trig, r, height, k).y == height / 2.0
  {
    CylinderCapTriangles(r, i);
    DivModOf(12 * r, 3, 4 * r, 0);
    assert (i + 1) % r < r;
  }
}
