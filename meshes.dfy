/** Unity's `Mesh` as far as the debug view uses it: an index format, a vertex list and
    a flat triangle index list. */
module Meshes {
  import opened Geometry
  import opened Topology

  /** `IndexFormat`: 16-bit or 32-bit index buffer. */
  datatype IndexFormat = UInt16 | UInt32

  /** The largest vertex count each index format supports. */
  function MaxVertices(f: IndexFormat): nat {
    match f
    case UInt16 => 65535
    case UInt32 => 4294967295
  }

  /** A mesh Unity can draw: its vertex count fits the index format, its index list is made of
      whole triangles and every index addresses a vertex. */
  predicate WellFormed(f: IndexFormat, vertices: seq<Vec3>, triangles: seq<int>) {
    |vertices| <= MaxVertices(f) && |triangles| % 3 == 0 && IndicesBelow(triangles, |vertices|)
  }

  class Mesh {
    var indexFormat: IndexFormat
    var vertices: seq<Vec3>
    var triangles: seq<int>

    /** `new Mesh()`: empty, with 16-bit indices. */
    constructor()
      ensures indexFormat == UInt16 && vertices == [] && triangles == []
    {
      indexFormat := UInt16;
      vertices := [];
      triangles := [];
    }

    /** The mesh is one Unity can draw. */
    predicate Valid()
      reads this
    {
      WellFormed(indexFormat, vertices, triangles)
    }
  }

  /** Adapting a copy keeps it well formed: only positions change. */
  lemma AdaptedCopyWellFormed(f: IndexFormat, vs: seq<Vec3>, ts: seq<int>, ws: seq<Vec3>)
    requires WellFormed(f, vs, ts) && |ws| == |vs|
    ensures WellFormed(f, ws, ts)
  {
  }

  /** The subdivided plane's vertex count is above what 16-bit indices address and within
      what 32-bit indices address, which is why the generator switches that mesh to `UInt32`. */
  lemma PlaneNeedsUInt32(nx: nat, nz: nat)
    requires nx == 1000 && nz == 1000
    ensures MaxVertices(UInt16) < nx * nz <= MaxVertices(UInt32)
  {
    assert nx * nz == 1000000;
  }
}
