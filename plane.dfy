/** The subdivided plane: an nx-by-nz grid of vertices over the unit square at y = 0,
    two triangles per grid cell. */
module PlaneGrid {
  import opened Geometry
  import opened Topology

  /** The plane the generator builds has 1000 by 1000 vertices. */
  const VerticesX: nat := 1000
  const VerticesZ: nat := 1000

  /** Vertex k sits at column k % nx and row k / nx; the row runs along Z. */
  function PlanePoint(nx: nat, nz: nat, k: nat): Vec3
    requires nx >= 2 && nz >= 2
  {
    Vec3((k % nx) as real / (nx - 1) as real, 0.0, (k / nx) as real / (nz - 1) as real)
  }

  function PlaneVertices(nx: nat, nz: nat): (r: seq<Vec3>)
    requires nx >= 2 && nz >= 2
    ensures |r| == nx * nz
  {
    seq(nx * nz, k requires 0 <= k < nx * nz => PlanePoint(nx, nz, k))
  }

  /** The two triangles of the cell whose lower-left vertex is q:
      (q, q + nx, q + nx + 1) and (q, q + nx + 1, q + 1). */
  function PlaneCell(nx: int, q: int): seq<int> {
    [q, q + nx, q + nx + 1, q, q + nx + 1, q + 1]
  }

  /** The first x cells of grid row y, in the order the inner loop emits them. */
  function PlaneRow(nx: int, y: int, x: nat): seq<int> {
    if x == 0 then [] else PlaneRow(nx, y, x - 1) + PlaneCell(nx, y * nx + x - 1)
  }

  /** The first y rows of cells, each of nx - 1 cells. */
  function PlaneRows(nx: nat, y: nat): seq<int>
    requires nx >= 1
  {
    if y == 0 then [] else PlaneRows(nx, y - 1) + PlaneRow(nx, y - 1, nx - 1)
  }

  /** Position s of the index list: entry s % 6 of cell c = s / 6, which is cell c % (nx - 1)
      of row c / (nx - 1). */
  function PlaneSlot(nx: nat, s: nat): int
    requires nx >= 2
  {
    var c := s / 6;
    PlaneCell(nx, (c / (nx - 1)) * nx + c % (nx - 1))[s % 6]
  }

  /** The plane's index list: every cell of the (nx - 1)-by-(nz - 1) cell grid, row by row. */
  function PlaneIndices(nx: nat, nz: nat): (s: seq<int>)
    requires nx >= 2 && nz >= 2
    ensures |s| == 6 * ((nx - 1) * (nz - 1))
  {
    seq(6 * ((nx - 1) * (nz - 1)), s requires 0 <= s < 6 * ((nx - 1) * (nz - 1)) => PlaneSlot(nx, s))
  }

  /** Builds the vertex list with the generator's two nested loops (rows outside, columns inside). */
  method PlaneVertexList(nx: nat, nz: nat) returns (vertices: seq<Vec3>)
    requires nx >= 2 && nz >= 2
    ensures vertices == PlaneVertices(nx, nz)
  {
    vertices := [];
    var y := 0;
    while y < nz
      invariant 0 <= y <= nz
      invariant |vertices| == y * nx
      invariant forall k :: 0 <= k < |vertices| ==> vertices[k] == PlanePoint(nx, nz, k)
    {
      var x := 0;
      while x < nx
        invariant 0 <= x <= nx
        invariant |vertices| == y * nx + x
        invariant forall k :: 0 <= k < |vertices| ==> vertices[k] == PlanePoint(nx, nz, k)
      {
        var tx := x as real / (nx - 1) as real;
        var ty := y as real / (nz - 1) as real;
        GridVertex(nx, nz, y, x);
        vertices := vertices + [Vec3(tx, 0.0, ty)];
        x := x + 1;
      }
      assert y * nx + nx == (y + 1) * nx;
      y := y + 1;
    }
    assert |vertices| == nx * nz;
  }

  /** The vertex the loops emit at row y, column x is vertex y nx + x. */
  lemma GridVertex(nx: nat, nz: nat, y: nat, x: nat)
    requires nx >= 2 && nz >= 2 && x < nx
    ensures PlanePoint(nx, nz, y * nx + x) == Vec3(x as real / (nx - 1) as real, 0.0, y as real / (nz - 1) as real)
  {
    DivModOf(y * nx + x, nx, y, x);
  }

  /** Builds the index list with the generator's two nested loops, six indices per cell. */
  method PlaneIndexList(nx: nat, nz: nat) returns (indices: seq<int>)
    requires nx >= 2 && nz >= 2
    ensures indices == PlaneIndices(nx, nz)
  {
    indices := [];
    var y := 0;
    while y < nz - 1
      invariant 0 <= y <= nz - 1
      invariant indices == PlaneRows(nx, y)
    {
      var x := 0;
      while x < nx - 1
        invariant 0 <= x <= nx - 1
        invariant indices == PlaneRows(nx, y) + PlaneRow(nx, y, x)
      {
        var quad := y * nx + x;
        indices := indices + [quad];
        indices := indices + [quad + nx];
        indices := indices + [quad + nx + 1];
        indices := indices + [quad];
        indices := indices + [quad + nx + 1];
        indices := indices + [quad + 1];
        assert indices == PlaneRows(nx, y) + PlaneRow(nx, y, x + 1);
        x := x + 1;
      }
      y := y + 1;
    }
    RowsAreIndices(nx, nz);
  }

  /** Entry s of the first x cells of row y is entry s % 6 of cell s / 6 of that row. */
  lemma {:induction false} PlaneRowAt(nx: int, y: int, x: nat, s: nat)
    requires s < 6 * x
    ensures |PlaneRow(nx, y, x)| == 6 * x && PlaneRow(nx, y, x)[s] == PlaneCell(nx, y * nx + s / 6)[s % 6]
  {
    PlaneRowLength(nx, y, x);
    if s < 6 * (x - 1) {
      PlaneRowAt(nx, y, x - 1, s);
    } else {
      DivModOf(s, 6, x - 1, s - 6 * (x - 1));
    }
  }

  /** Entry s of the first y rows is the slot formula at s. */
  lemma {:induction false} PlaneRowsAt(nx: nat, y: nat, s: nat)
    requires nx >= 2 && s < 6 * ((nx - 1) * y)
    ensures |PlaneRows(nx, y)| == 6 * ((nx - 1) * y) && PlaneRows(nx, y)[s] == PlaneSlot(nx, s)
  {
    PlaneRowsLength(nx, y);
    RowCells(nx - 1, y, s);
    var cells := (nx - 1) * (y - 1);
    if s < 6 * cells {
      PlaneRowsAt(nx, y - 1, s);
    } else {
      LastRowAt(nx, y - 1, cells, s - 6 * cells);
    }
  }

  lemma RowCells(w: nat, y: nat, s: nat)
    requires s < 6 * (w * y)
    ensures y >= 1 && w * y == w * (y - 1) + w
  {
  }

  /** Entry t of row `rows`, which follows `cells` = (nx - 1) rows cells. */
  lemma LastRowAt(nx: nat, rows: nat, cells: nat, t: nat)
    requires nx >= 2 && cells == (nx - 1) * rows && t < 6 * (nx - 1)
    ensures |PlaneRows(nx, rows)| == 6 * cells && |PlaneRows(nx, rows + 1)| == 6 * cells + 6 * (nx - 1)
    ensures PlaneRows(nx, rows + 1)[6 * cells + t] == PlaneSlot(nx, 6 * cells + t)
  {
    PlaneRowsLength(nx, rows);
    PlaneRowLength(nx, rows, nx - 1);
    PlaneRowAt(nx, rows, nx - 1, t);
    LastRowSlot(nx, cells, rows, t);
  }

  /** A slot t of the row after the first `cells` cells, which make up `rows` full rows. */
  lemma LastRowSlot(nx: nat, cells: nat, rows: nat, t: nat)
    requires nx >= 2 && cells == (nx - 1) * rows && t < 6 * (nx - 1)
    ensures PlaneSlot(nx, 6 * cells + t) == PlaneCell(nx, rows * nx + t / 6)[t % 6]
  {
    var c := cells + t / 6;
    assert 6 * cells + t == c * 6 + t % 6;
    DivModOf(6 * cells + t, 6, c, t % 6);
    assert c == rows * (nx - 1) + t / 6;
    DivModOf(c, nx - 1, rows, t / 6);
  }

  /** The two nested loops emit exactly the index list. */
  lemma RowsAreIndices(nx: nat, nz: nat)
    requires nx >= 2 && nz >= 2
    ensures PlaneRows(nx, nz - 1) == PlaneIndices(nx, nz)
  {
    PlaneRowsLength(nx, nz - 1);
    forall s | 0 <= s < 6 * ((nx - 1) * (nz - 1)) ensures PlaneRows(nx, nz - 1)[s] == PlaneIndices(nx, nz)[s] {
      PlaneRowsAt(nx, nz - 1, s);
    }
  }

  // ----- Counts

  lemma {:induction false} PlaneRowLength(nx: int, y: int, x: nat)
    ensures |PlaneRow(nx, y, x)| == 6 * x
  {
    if x > 0 { PlaneRowLength(nx, y, x - 1); }
  }

  lemma {:induction false} PlaneRowsLength(nx: nat, y: nat)
    requires nx >= 1
    ensures |PlaneRows(nx, y)| == 6 * ((nx - 1) * y)
  {
    if y > 0 {
      PlaneRowsLength(nx, y - 1);
      PlaneRowLength(nx, y - 1, nx - 1);
      assert 6 * ((nx - 1) * (y - 1)) + 6 * (nx - 1) == 6 * ((nx - 1) * y);
    }
  }

  /** The plane has nx * nz vertices and 6 (nx - 1)(nz - 1) indices: two triangles per cell. */
  lemma PlaneCounts(nx: nat, nz: nat)
    requires nx >= 2 && nz >= 2
    ensures |PlaneVertices(nx, nz)| == nx * nz
    ensures |PlaneIndices(nx, nz)| == 6 * ((nx - 1) * (nz - 1))
    ensures TriCount(PlaneIndices(nx, nz)) == 2 * ((nx - 1) * (nz - 1))
  {
    DivModOf(6 * ((nx - 1) * (nz - 1)), 3, 2 * ((nx - 1) * (nz - 1)), 0);
  }

  // ----- Index bounds

  lemma CellInRange(nx: nat, nz: nat, y: nat, x: nat)
    requires nx >= 2 && nz >= 2 && y < nz - 1 && x < nx - 1
    ensures IndicesBelow(PlaneCell(nx, y * nx + x), nx * nz)
  {
    var q := y * nx + x;
    assert q + nx + 1 == (y + 1) * nx + (x + 1);
    MulLeRight(y + 1, nz - 1, nx);
    assert (nz - 1) * nx + nx == nx * nz;
  }

  lemma {:induction false} PlaneRowInRange(nx: nat, nz: nat, y: nat, x: nat)
    requires nx >= 2 && nz >= 2 && y < nz - 1 && x <= nx - 1
    ensures IndicesBelow(PlaneRow(nx, y, x), nx * nz)
  {
    if x > 0 {
      PlaneRowInRange(nx, nz, y, x - 1);
      CellInRange(nx, nz, y, x - 1);
      IndicesBelowConcat(PlaneRow(nx, y, x - 1), PlaneCell(nx, y * nx + x - 1), nx * nz);
    }
  }

  lemma {:induction false} PlaneRowsInRange(nx: nat, nz: nat, y: nat)
    requires nx >= 2 && nz >= 2 && y <= nz - 1
    ensures IndicesBelow(PlaneRows(nx, y), nx * nz)
  {
    if y > 0 {
      PlaneRowsInRange(nx, nz, y - 1);
      PlaneRowInRange(nx, nz, y - 1, nx - 1);
      IndicesBelowConcat(PlaneRows(nx, y - 1), PlaneRow(nx, y - 1, nx - 1), nx * nz);
    }
  }

  /** Every index of the plane addresses one of its nx * nz vertices. */
  lemma PlaneIndicesInRange(nx: nat, nz: nat)
    requires nx >= 2 && nz >= 2
    ensures IndicesBelow(PlaneIndices(nx, nz), |PlaneVertices(nx, nz)|)
  {
    PlaneRowsInRange(nx, nz, nz - 1);
    RowsAreIndices(nx, nz);
  }

  // ----- Winding

  /** Integer grid position of vertex k: (column, 0, row). The real vertex is this point
      scaled by the positive factors 1/(nx - 1) and 1/(nz - 1) on X and Z. */
  function GridPoint(nx: nat, k: int): IVec3
    requires nx >= 1
  {
    IVec3(k % nx, 0, k / nx)
  }

  /** A triangle of the grid whose face normal is the unit +Y vector. */
  predicate FacesUp(nx: nat, t: Tri)
    requires nx >= 1
  {
    IFaceNormal(GridPoint(nx, t.a), GridPoint(nx, t.b), GridPoint(nx, t.c)) == IVec3(0, 1, 0)
  }

  predicate AllFaceUp(nx: nat, s: seq<int>)
    requires nx >= 1
  {
    |s| % 3 == 0 && forall t: nat :: t < |s| / 3 ==> FacesUp(nx, TriAt(s, t))
  }

  lemma AllFaceUpConcat(nx: nat, a: seq<int>, b: seq<int>)
    requires nx >= 1 && AllFaceUp(nx, a) && AllFaceUp(nx, b)
    ensures AllFaceUp(nx, a + b)
  {
    forall t: nat | t < |a + b| / 3 ensures FacesUp(nx, TriAt(a + b, t)) {
      TriAtConcat(a, b, t);
    }
  }

  /** Both triangles of a cell face +Y on the integer grid. */
  lemma CellFacesUp(nx: nat, y: nat, x: nat)
    requires nx >= 2 && x < nx - 1
    ensures AllFaceUp(nx, PlaneCell(nx, y * nx + x))
  {
    var q := y * nx + x;
    DivModOf(q, nx, y, x);
    DivModOf(q + 1, nx, y, x + 1);
    DivModOf(q + nx, nx, y + 1, x);
    DivModOf(q + nx + 1, nx, y + 1, x + 1);
    var s := PlaneCell(nx, q);
    assert TriAt(s, 0) == Tri(q, q + nx, q + nx + 1);
    assert TriAt(s, 1) == Tri(q, q + nx + 1, q + 1);
  }

  lemma {:induction false} PlaneRowFacesUp(nx: nat, y: nat, x: nat)
    requires nx >= 2 && x <= nx - 1
    ensures AllFaceUp(nx, PlaneRow(nx, y, x))
  {
    if x > 0 {
      PlaneRowFacesUp(nx, y, x - 1);
      CellFacesUp(nx, y, x - 1);
      AllFaceUpConcat(nx, PlaneRow(nx, y, x - 1), PlaneCell(nx, y * nx + x - 1));
    }
  }

  lemma {:induction false} PlaneRowsFaceUp(nx: nat, y: nat)
    requires nx >= 2
    ensures AllFaceUp(nx, PlaneRows(nx, y))
  {
    if y > 0 {
      PlaneRowsFaceUp(nx, y - 1);
      PlaneRowFacesUp(nx, y - 1, nx - 1);
      AllFaceUpConcat(nx, PlaneRows(nx, y - 1), PlaneRow(nx, y - 1, nx - 1));
    }
  }

  /** Every triangle of the plane has the same orientation: face normal +Y. */
  lemma PlaneFacesUp(nx: nat, nz: nat)
    requires nx >= 2 && nz >= 2
    ensures AllFaceUp(nx, PlaneIndices(nx, nz))
  {
    PlaneRowsFaceUp(nx, nz - 1);
    RowsAreIndices(nx, nz);
  }

  // ----- Positions

  lemma QuotientAtMostOne(a: nat, b: nat)
    requires 0 < b && a <= b
    ensures 0.0 <= a as real / b as real <= 1.0
  {
  }

  lemma RowBelow(nx: nat, nz: nat, k: nat)
    requires nx >= 1 && k < nx * nz
    ensures k / nx < nz
  {
    var q := k / nx;
    assert k == q * nx + k % nx;
    if q >= nz {
      AtLeastDivisor(q - nz + 1, nx);
    }
  }

  lemma PlanePointInUnitSquare(nx: nat, nz: nat, k: nat)
    requires nx >= 2 && nz >= 2 && k < nx * nz
    ensures var p := PlanePoint(nx, nz, k); 0.0 <= p.x <= 1.0 && p.y == 0.0 && 0.0 <= p.z <= 1.0
  {
    QuotientAtMostOne(k % nx, nx - 1);
    RowBelow(nx, nz, k);
    QuotientAtMostOne(k / nx, nz - 1);
  }

  /** The plane spans the unit square at y = 0, with its first vertex at the origin
      and its last at (1, 0, 1). */
  lemma PlaneInUnitSquare(nx: nat, nz: nat)
    requires nx >= 2 && nz >= 2
    ensures forall k :: 0 <= k < nx * nz ==>
      var p := PlaneVertices(nx, nz)[k];
      0.0 <= p.x <= 1.0 && p.y == 0.0 && 0.0 <= p.z <= 1.0
    ensures PlaneVertices(nx, nz)[0] == Vec3(0.0, 0.0, 0.0)
    ensures PlaneVertices(nx, nz)[nx * nz - 1] == Vec3(1.0, 0.0, 1.0)
  {
    forall k | 0 <= k < nx * nz
      ensures var p := PlaneVertices(nx, nz)[k]; 0.0 <= p.x <= 1.0 && p.y == 0.0 && 0.0 <= p.z <= 1.0
    {
      PlanePointInUnitSquare(nx, nz, k);
    }
    PlaneCorner(nx, nz);
  }

  lemma PlaneCorner(nx: nat, nz: nat)
    requires nx >= 2 && nz >= 2
    ensures PlanePoint(nx, nz, 0) == Vec3(0.0, 0.0, 0.0)
    ensures nx * nz >= 1 && PlanePoint(nx, nz, nx * nz - 1) == Vec3(1.0, 0.0, 1.0)
  {
    var last := nx * nz - 1;
    assert last == (nz - 1) * nx + (nx - 1);
    DivModOf(last, nx, nz - 1, nx - 1);
    SelfQuotient(nx - 1);
    SelfQuotient(nz - 1);
  }

  lemma SelfQuotient(n: nat)
    requires n >= 1
    ensures n as real / n as real == 1.0
  {
  }
}
