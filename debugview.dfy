/** `DebugView`: the canonical meshes, the collider filter and dispatch of `RenderMesh`,
    the terrain mesh cache and the per-frame `PollMeshes` driver. */
module Debug {
  import opened Geometry
  import opened Topology
  import opened Meshes
  import opened Visibility
  import opened Adaptation
  import PlaneGrid
  import BoxTable
  import UvSphere
  import CappedCylinder

  datatype Option<T> = None | Some(value: T)

  /** The collider types `RenderMesh` tells apart, with what each branch reads of its collider. */
  datatype Shape =
    | MeshShape(sharedMesh: Mesh)
    | BoxShape(size: Vec3, lossyScale: Vec3)
    | TerrainShape(instanceId: int, boundsSize: Vec3)
    | SphereShape(radius: real)
    | CapsuleShape(capsule: Capsule)
    | OtherShape

  datatype Collider = Collider(isTrigger: bool, enabled: bool, shape: Shape)

  /** A `Terrain` component: where it is and how high it is everywhere. */
  datatype TerrainComponent = TerrainComponent(position: Vec3, field: HeightField)

  /** A game object hit by the overlap query: its name and position, the collider
      `TryGetComponent` finds on it (if any) and its `Terrain` component (if any). */
  datatype GameObject = GameObject(name: string, position: Vec3, collider: Option<Collider>, terrain: Option<TerrainComponent>)

  datatype RenderNameData = RenderNameData(name: string, worldPosition: Vec3)

  datatype Material = MeshMaterial | BoxMaterial | TerrainMaterial | SphereMaterial | CapsuleMaterial

  /** One `Graphics.DrawMesh` call: which mesh, with which material. */
  datatype Draw = Draw(mesh: Mesh, material: Material)

  /** What one `RenderMesh` call does: nothing, one draw, or a null-reference exception
      because the canonical mesh it copies has not been generated. */
  datatype Outcome = NoDraw | Drawn(draw: Draw) | Fault

  /** The branch of `RenderMesh` a game object takes. */
  datatype Branch = MeshBranch | BoxBranch | TerrainBranch | SphereBranch | CapsuleBranch | NoBranch

  /** The branch of `RenderMesh` an object takes under mode vis. */
  function BranchOf(vis: ColVis, go: GameObject): Branch {
    if go.collider.None? || !PassesFilter(vis, go.collider.value.isTrigger, go.collider.value.enabled) then NoBranch
    else match go.collider.value.shape
      case MeshShape(_) => MeshBranch
      case BoxShape(_, _) => BoxBranch
      case TerrainShape(_, _) => if go.terrain.Some? then TerrainBranch else NoBranch
      case SphereShape(_) => SphereBranch
      case CapsuleShape(_) => CapsuleBranch
      case OtherShape => NoBranch
  }

  function MaterialOf(b: Branch): Material
    requires b != NoBranch
  {
    match b
    case MeshBranch => MeshMaterial
    case BoxBranch => BoxMaterial
    case TerrainBranch => TerrainMaterial
    case SphereBranch => SphereMaterial
    case CapsuleBranch => CapsuleMaterial
  }

  /** The materials of the draws a run of `RenderMesh` calls makes when nothing faults:
      at most one draw per object. */
  function ExpectedMaterials(vis: ColVis, gos: seq<GameObject>): (ms: seq<Material>)
    ensures |ms| <= |gos|
  {
    if |gos| == 0 then []
    else
      var last := gos[|gos| - 1];
      ExpectedMaterials(vis, gos[..|gos| - 1]) + (if BranchOf(vis, last) == NoBranch then [] else [MaterialOf(BranchOf(vis, last))])
  }

  /** The terrain instance ids a run of `RenderMesh` calls looks up. */
  function TerrainKeys(vis: ColVis, gos: seq<GameObject>): set<int> {
    if |gos| == 0 then {}
    else
      var last := gos[|gos| - 1];
      TerrainKeys(vis, gos[..|gos| - 1]) + (if BranchOf(vis, last) == TerrainBranch then {last.collider.value.shape.instanceId} else {})
  }

  function Materials(draws: seq<Draw>): seq<Material> {
    seq(|draws|, k requires 0 <= k < |draws| => draws[k].material)
  }

  function NamesOf(gos: seq<GameObject>): seq<RenderNameData> {
    seq(|gos|, k requires 0 <= k < |gos| => RenderNameData(gos[k].name, gos[k].position))
  }

  /** A mesh with the vertex list vs and the index format and index list of base. */
  predicate AdaptedCopy(m: Mesh, base: Mesh, vs: seq<Vec3>)
    reads m, base
  {
    m.indexFormat == base.indexFormat && m.triangles == base.triangles && m.vertices == vs
  }

  /** The canonical meshes `GenerateBaseMeshes` builds. */
  predicate IsPlaneMesh(m: Mesh, nx: nat, nz: nat)
    requires nx >= 2 && nz >= 2
    reads m
  {
    m.indexFormat == UInt32 && m.vertices == PlaneGrid.PlaneVertices(nx, nz) && m.triangles == PlaneGrid.PlaneIndices(nx, nz)
  }

  predicate IsBoxMesh(m: Mesh)
    reads m
  {
    m.indexFormat == UInt16 && m.vertices == BoxTable.BoxVertices && m.triangles == BoxTable.BoxTriangles
  }

  predicate IsSphereMesh(trig: Trig, m: Mesh)
    reads m
  {
    m.indexFormat == UInt16 &&
    m.vertices == UvSphere.SphereVertices(trig, UvSphere.SphereResolution, UvSphere.SphereRadius) &&
    m.triangles == UvSphere.SphereIndices(UvSphere.SphereResolution)
  }

  predicate IsCylinderMesh(trig: Trig, m: Mesh)
    reads m
  {
    m.indexFormat == UInt16 &&
    m.vertices == CappedCylinder.CylinderVertices(trig, CappedCylinder.CylinderResolution, CappedCylinder.CylinderHeight) &&
    m.triangles == CappedCylinder.CylinderIndices(CappedCylinder.CylinderResolution)
  }

  // ----- The four blocks of `GenerateBaseMeshes`

  method BuildPlaneMesh(nx: nat, nz: nat) returns (m: Mesh)
    requires nx >= 2 && nz >= 2
    ensures fresh(m) && IsPlaneMesh(m, nx, nz)
  {
    var vertices := PlaneGrid.PlaneVertexList(nx, nz);
    var indices := PlaneGrid.PlaneIndexList(nx, nz);
    m := new Mesh();
    m.indexFormat := UInt32;
    m.vertices := vertices;
    m.triangles := indices;
  }

  method BuildBoxMesh() returns (m: Mesh)
    ensures fresh(m) && IsBoxMesh(m)
  {
    m := new Mesh();
    m.vertices := BoxTable.BoxVertices;
    m.triangles := BoxTable.BoxTriangles;
  }

  method BuildSphereMesh(trig: Trig) returns (m: Mesh)
    ensures fresh(m) && IsSphereMesh(trig, m)
  {
    var vertices := UvSphere.SphereVertexList(trig, UvSphere.SphereResolution, UvSphere.SphereRadius);
    var triangles := UvSphere.SphereTriangleList(UvSphere.SphereResolution);
    m := new Mesh();
    m.vertices := vertices;
    m.triangles := triangles;
  }

  method BuildCylinderMesh(trig: Trig) returns (m: Mesh)
    ensures fresh(m) && IsCylinderMesh(trig, m)
  {
    var vertices := CappedCylinder.CylinderVertexList(trig, CappedCylinder.CylinderResolution, CappedCylinder.CylinderHeight);
    var triangles := CappedCylinder.CylinderTriangleList(CappedCylinder.CylinderResolution);
    m := new Mesh();
    m.vertices := vertices;
    m.triangles := triangles;
  }

  /** `Dictionary<int, Mesh>` as the terrain cache uses it. */
  class TerrainMeshCache {
    var entries: map<int, Mesh>

    constructor()
      ensures entries == map[]
    {
      entries := map[];
    }

    method TryGetValue(key: int) returns (found: bool, value: Mesh?)
      ensures found <==> key in entries
      ensures found ==> value == entries[key]
    {
      found := key in entries;
      value := if found then entries[key] else null;
    }

    /** `Add` throws on a key that is already present; callers must not pass one. */
    method Add(key: int, value: Mesh)
      requires key !in entries
      modifies this
      ensures entries == old(entries)[key := value]
    {
      entries := entries[key := value];
    }

    method Clear()
      modifies this
      ensures entries == map[]
    {
      entries := map[];
    }
  }

  class DebugView {
    var ColliderVisibility: ColVis
    var ShowNames: bool
    const cachedTerrainMeshes: TerrainMeshCache
    var RenderNameDatas: seq<RenderNameData>

    var SphereMesh: Mesh?
    var SubdivPlaneMesh: Mesh?
    var BoxMesh: Mesh?
    var CylinderMesh: Mesh?

    constructor()
      ensures ColliderVisibility == All && !ShowNames && RenderNameDatas == []
      ensures fresh(cachedTerrainMeshes) && cachedTerrainMeshes.entries == map[]
      ensures SphereMesh == null && SubdivPlaneMesh == null && BoxMesh == null && CylinderMesh == null
    {
      ColliderVisibility := All;
      ShowNames := false;
      cachedTerrainMeshes := new TerrainMeshCache();
      RenderNameDatas := [];
      SphereMesh, SubdivPlaneMesh, BoxMesh, CylinderMesh := null, null, null, null;
    }

    predicate BaseMeshesBuilt()
      reads this
    {
      SphereMesh != null && SubdivPlaneMesh != null && BoxMesh != null && CylinderMesh != null
    }

    /** Whether the branch b for go copies a canonical mesh that is still null; a terrain
        branch only copies on a cache miss. */
    predicate NeedsMissingMesh(b: Branch, go: GameObject, keys: set<int>): (missing: bool)
      reads this
      ensures missing ==> !BaseMeshesBuilt()
      ensures b == MeshBranch || b == NoBranch ==> !missing
    {
      match b
      case BoxBranch => BoxMesh == null
      case SphereBranch => SphereMesh == null
      case CapsuleBranch => CylinderMesh == null
      case TerrainBranch =>
        go.collider.Some? && go.collider.value.shape.TerrainShape? &&
        go.collider.value.shape.instanceId !in keys && SubdivPlaneMesh == null
      case _ => false
    }

    /** A new mesh with the index format, vertex list and index list of baseMesh. */
    method GetMeshCopy(baseMesh: Mesh) returns (copy: Mesh)
      ensures fresh(copy)
      ensures copy.indexFormat == baseMesh.indexFormat && copy.vertices == baseMesh.vertices && copy.triangles == baseMesh.triangles
      ensures baseMesh.Valid() ==> copy.Valid()
    {
      copy := new Mesh();
      copy.indexFormat := baseMesh.indexFormat;
      copy.vertices := baseMesh.vertices;
      copy.triangles := baseMesh.triangles;
    }

    /** Builds each canonical mesh that is still null and keeps the ones that exist. */
    method GenerateBaseMeshes(trig: Trig)
      modifies this`SphereMesh, this`SubdivPlaneMesh, this`BoxMesh, this`CylinderMesh
      ensures BaseMeshesBuilt()
      ensures old(SubdivPlaneMesh) != null ==> SubdivPlaneMesh == old(SubdivPlaneMesh)
      ensures old(SubdivPlaneMesh) == null ==> fresh(SubdivPlaneMesh) && IsPlaneMesh(SubdivPlaneMesh, PlaneGrid.VerticesX, PlaneGrid.VerticesZ)
      ensures old(BoxMesh) != null ==> BoxMesh == old(BoxMesh)
      ensures old(BoxMesh) == null ==> fresh(BoxMesh) && IsBoxMesh(BoxMesh)
      ensures old(SphereMesh) != null ==> SphereMesh == old(SphereMesh)
      ensures old(SphereMesh) == null ==> fresh(SphereMesh) && IsSphereMesh(trig, SphereMesh)
      ensures old(CylinderMesh) != null ==> CylinderMesh == old(CylinderMesh)
      ensures old(CylinderMesh) == null ==> fresh(CylinderMesh) && IsCylinderMesh(trig, CylinderMesh)
    {
      if SubdivPlaneMesh == null {
        SubdivPlaneMesh := BuildPlaneMesh(PlaneGrid.VerticesX, PlaneGrid.VerticesZ);
      }
      if BoxMesh == null {
        BoxMesh := BuildBoxMesh();
      }
      if SphereMesh == null {
        SphereMesh := BuildSphereMesh(trig);
      }
      if CylinderMesh == null {
        CylinderMesh := BuildCylinderMesh(trig);
      }
    }

    /** Empties the terrain cache, then generates the canonical meshes. */
    method InitMeshes(trig: Trig)
      modifies cachedTerrainMeshes, this`SphereMesh, this`SubdivPlaneMesh, this`BoxMesh, this`CylinderMesh
      ensures cachedTerrainMeshes.entries == map[]
      ensures BaseMeshesBuilt()
      ensures old(SubdivPlaneMesh) != null ==> SubdivPlaneMesh == old(SubdivPlaneMesh)
      ensures old(SubdivPlaneMesh) == null ==> fresh(SubdivPlaneMesh) && IsPlaneMesh(SubdivPlaneMesh, PlaneGrid.VerticesX, PlaneGrid.VerticesZ)
      ensures old(BoxMesh) != null ==> BoxMesh == old(BoxMesh)
      ensures old(BoxMesh) == null ==> fresh(BoxMesh) && IsBoxMesh(BoxMesh)
      ensures old(SphereMesh) != null ==> SphereMesh == old(SphereMesh)
      ensures old(SphereMesh) == null ==> fresh(SphereMesh) && IsSphereMesh(trig, SphereMesh)
      ensures old(CylinderMesh) != null ==> CylinderMesh == old(CylinderMesh)
      ensures old(CylinderMesh) == null ==> fresh(CylinderMesh) && IsCylinderMesh(trig, CylinderMesh)
    {
      cachedTerrainMeshes.Clear();
      GenerateBaseMeshes(trig);
    }

    /** Filters the object's collider, then draws according to its type; only the terrain
        cache may change, and the canonical meshes are only ever copied. */
    method RenderMesh(source: GameObject) returns (outcome: Outcome, samples: nat)
      modifies cachedTerrainMeshes
      ensures var b := BranchOf(ColliderVisibility, source);
        (b == NoBranch ==> outcome == NoDraw) &&
        (outcome.Fault? <==> NeedsMissingMesh(b, source, old(cachedTerrainMeshes.entries.Keys))) &&
        (outcome.Drawn? <==> b != NoBranch && !outcome.Fault?) &&
        (outcome.Drawn? ==> outcome.draw.material == MaterialOf(b))
      ensures var b := BranchOf(ColliderVisibility, source);
        b == MeshBranch ==> outcome.Drawn? && outcome.draw.mesh == source.collider.value.shape.sharedMesh
      ensures BranchOf(ColliderVisibility, source) == BoxBranch && outcome.Drawn? ==>
        var s := source.collider.value.shape;
        fresh(outcome.draw.mesh) && AdaptedCopy(outcome.draw.mesh, BoxMesh, BoxAdapted(BoxMesh.vertices, s.size, s.lossyScale))
      ensures BranchOf(ColliderVisibility, source) == SphereBranch && outcome.Drawn? ==>
        var s := source.collider.value.shape;
        fresh(outcome.draw.mesh) && AdaptedCopy(outcome.draw.mesh, SphereMesh, SphereAdapted(SphereMesh.vertices, s.radius))
      ensures BranchOf(ColliderVisibility, source) == CapsuleBranch && outcome.Drawn? ==>
        var s := source.collider.value.shape;
        fresh(outcome.draw.mesh) && AdaptedCopy(outcome.draw.mesh, CylinderMesh, CapsuleAdapted(CylinderMesh.vertices, s.capsule))
      ensures BranchOf(ColliderVisibility, source) == TerrainBranch ==>
        var s := source.collider.value.shape;
        if s.instanceId in old(cachedTerrainMeshes.entries) then
          outcome == Drawn(Draw(old(cachedTerrainMeshes.entries)[s.instanceId], TerrainMaterial)) &&
          cachedTerrainMeshes.entries == old(cachedTerrainMeshes.entries) && samples == 0
        else if outcome.Drawn? then
          fresh(outcome.draw.mesh) &&
          AdaptedCopy(outcome.draw.mesh, SubdivPlaneMesh,
            TerrainAdapted(SubdivPlaneMesh.vertices, TerrainSource(s.boundsSize, source.terrain.value.position, source.terrain.value.field))) &&
          cachedTerrainMeshes.entries == old(cachedTerrainMeshes.entries)[s.instanceId := outcome.draw.mesh] &&
          samples == |SubdivPlaneMesh.vertices|
        else
          cachedTerrainMeshes.entries == old(cachedTerrainMeshes.entries) && samples == 0
      ensures BranchOf(ColliderVisibility, source) != TerrainBranch ==>
        cachedTerrainMeshes.entries == old(cachedTerrainMeshes.entries) && samples == 0
      ensures BoxMesh != null ==> unchanged(BoxMesh)
      ensures SphereMesh != null ==> unchanged(SphereMesh)
      ensures CylinderMesh != null ==> unchanged(CylinderMesh)
      ensures SubdivPlaneMesh != null ==> unchanged(SubdivPlaneMesh)
    {
      samples := 0;
      if source.collider.None? {
        return NoDraw, 0;
      }
      var c := source.collider.value;
      if (ColliderVisibility == NoTriggers && c.isTrigger) ||
         (ColliderVisibility == OnlyTriggers && !c.isTrigger) ||
         c.enabled == false
      {
        return NoDraw, 0;
      }

      if c.shape.MeshShape? {
        outcome := Drawn(Draw(c.shape.sharedMesh, MeshMaterial));
      } else if c.shape.BoxShape? {
        if BoxMesh == null {
          return Fault, 0;
        }
        var boxMesh := GetMeshCopy(BoxMesh);
        AdaptBox(boxMesh, c.shape.size, c.shape.lossyScale);
        outcome := Drawn(Draw(boxMesh, BoxMaterial));
      } else if c.shape.TerrainShape? && source.terrain.Some? {
        var terrain := source.terrain.value;
        var found, cached := cachedTerrainMeshes.TryGetValue(c.shape.instanceId);
        var terrainMesh: Mesh;
        if !found {
          if SubdivPlaneMesh == null {
            return Fault, 0;
          }
          terrainMesh := GetMeshCopy(SubdivPlaneMesh);
          samples := AdaptTerrain(terrainMesh, TerrainSource(c.shape.boundsSize, terrain.position, terrain.field));
          cachedTerrainMeshes.Add(c.shape.instanceId, terrainMesh);
        } else {
          terrainMesh := cached;
        }
        outcome := Drawn(Draw(terrainMesh, TerrainMaterial));
      } else if c.shape.SphereShape? {
        if SphereMesh == null {
          return Fault, 0;
        }
        var sphereMesh := GetMeshCopy(SphereMesh);
        AdaptSphere(sphereMesh, c.shape.radius);
        outcome := Drawn(Draw(sphereMesh, SphereMaterial));
      } else if c.shape.CapsuleShape? {
        if CylinderMesh == null {
          return Fault, 0;
        }
        var cylMesh := GetMeshCopy(CylinderMesh);
        AdaptCapsule(cylMesh, c.shape.capsule);
        outcome := Drawn(Draw(cylMesh, CapsuleMaterial));
      } else {
        outcome := NoDraw;
      }
    }

    /** The body of the frame loop for one object: `RenderMesh`, then its name when `ShowNames`
        is on. An exception in `RenderMesh` skips the rest. */
    method RenderAndName(go: GameObject) returns (outcome: Outcome)
      modifies this`RenderNameDatas, cachedTerrainMeshes
      ensures var b := BranchOf(ColliderVisibility, go);
        (outcome.Fault? <==> NeedsMissingMesh(b, go, old(cachedTerrainMeshes.entries.Keys))) &&
        (outcome.Drawn? <==> b != NoBranch && !outcome.Fault?) &&
        (outcome.Drawn? ==> outcome.draw.material == MaterialOf(b))
      ensures outcome.Fault? ==> cachedTerrainMeshes.entries == old(cachedTerrainMeshes.entries) && RenderNameDatas == old(RenderNameDatas)
      ensures !outcome.Fault? ==>
        cachedTerrainMeshes.entries.Keys == old(cachedTerrainMeshes.entries.Keys) +
          (if BranchOf(ColliderVisibility, go) == TerrainBranch then {go.collider.value.shape.instanceId} else {})
      ensures CacheExtends(old(cachedTerrainMeshes.entries), cachedTerrainMeshes.entries)
      ensures !outcome.Fault? ==> RenderNameDatas == old(RenderNameDatas) + (if ShowNames then [RenderNameData(go.name, go.position)] else [])
    {
      var samples;
      outcome, samples := RenderMesh(go);
      if !outcome.Fault? && ShowNames {
        RenderNameDatas := RenderNameDatas + [RenderNameData(go.name, go.position)];
      }
    }

    /** Renders every object the overlap query returned, in order, and records their names
        when `ShowNames` is on; an exception in `RenderMesh` ends the frame early. */
    method PollMeshes(overlaps: seq<GameObject>) returns (draws: seq<Draw>, processed: nat, faulted: bool)
      modifies this`RenderNameDatas, cachedTerrainMeshes
      ensures processed <= |overlaps| && (!faulted ==> processed == |overlaps|)
      ensures faulted ==> (processed < |overlaps| &&
        NeedsMissingMesh(BranchOf(ColliderVisibility, overlaps[processed]), overlaps[processed], cachedTerrainMeshes.entries.Keys))
      ensures BaseMeshesBuilt() ==> !faulted
      ensures ShowNames ==> RenderNameDatas == NamesOf(overlaps[..processed])
      ensures !ShowNames ==> RenderNameDatas == old(RenderNameDatas)
      ensures Materials(draws) == ExpectedMaterials(ColliderVisibility, overlaps[..processed])
      ensures cachedTerrainMeshes.entries.Keys == old(cachedTerrainMeshes.entries.Keys) + TerrainKeys(ColliderVisibility, overlaps[..processed])
      ensures CacheExtends(old(cachedTerrainMeshes.entries), cachedTerrainMeshes.entries)
    {
      if ShowNames {
        RenderNameDatas := [];
      }
      draws, processed, faulted := [], 0, false;
      while processed < |overlaps|
        invariant processed <= |overlaps|
        invariant ShowNames ==> RenderNameDatas == NamesOf(overlaps[..processed])
        invariant !ShowNames ==> RenderNameDatas == old(RenderNameDatas)
        invariant Materials(draws) == ExpectedMaterials(ColliderVisibility, overlaps[..processed])
        invariant cachedTerrainMeshes.entries.Keys == old(cachedTerrainMeshes.entries.Keys) + TerrainKeys(ColliderVisibility, overlaps[..processed])
        invariant CacheExtends(old(cachedTerrainMeshes.entries), cachedTerrainMeshes.entries)
        decreases |overlaps| - processed
      {
        var colResult := overlaps[processed];
        ghost var before := cachedTerrainMeshes.entries;
        var outcome := RenderAndName(colResult);
        if outcome.Fault? {
          faulted := true;
          return;
        }
        CacheExtendsTransitive(old(cachedTerrainMeshes.entries), before, cachedTerrainMeshes.entries);
        ExpectedMaterialsStep(ColliderVisibility, overlaps, processed);
        TerrainKeysStep(ColliderVisibility, overlaps, processed);
        NamesOfStep(overlaps, processed);
        if outcome.Drawn? {
          MaterialsAppend(draws, outcome.draw);
          draws := draws + [outcome.draw];
        }
        processed := processed + 1;
      }
    }
  }

  // ----- One step of the frame loop

  /** The cache b keeps every entry of a. */
  predicate CacheExtends(a: map<int, Mesh>, b: map<int, Mesh>) {
    forall id :: id in a ==> id in b && b[id] == a[id]
  }

  lemma CacheExtendsTransitive(a: map<int, Mesh>, b: map<int, Mesh>, c: map<int, Mesh>)
    requires CacheExtends(a, b) && CacheExtends(b, c)
    ensures CacheExtends(a, c)
  {
  }

  lemma NamesOfStep(gos: seq<GameObject>, i: nat)
    requires i < |gos|
    ensures NamesOf(gos[..i + 1]) == NamesOf(gos[..i]) + [RenderNameData(gos[i].name, gos[i].position)]
  {
  }

  lemma ExpectedMaterialsStep(vis: ColVis, gos: seq<GameObject>, i: nat)
    requires i < |gos|
    ensures ExpectedMaterials(vis, gos[..i + 1]) ==
      ExpectedMaterials(vis, gos[..i]) + (if BranchOf(vis, gos[i]) == NoBranch then [] else [MaterialOf(BranchOf(vis, gos[i]))])
  {
    assert gos[..i + 1][..i] == gos[..i];
  }

  lemma TerrainKeysStep(vis: ColVis, gos: seq<GameObject>, i: nat)
    requires i < |gos|
    ensures TerrainKeys(vis, gos[..i + 1]) ==
      TerrainKeys(vis, gos[..i]) + (if BranchOf(vis, gos[i]) == TerrainBranch then {gos[i].collider.value.shape.instanceId} else {})
  {
    assert gos[..i + 1][..i] == gos[..i];
  }

  /** The terrain ids a frame looks up are exactly the ids of the objects that take the
      terrain branch. */
  lemma {:induction false} TerrainKeysAre(vis: ColVis, gos: seq<GameObject>)
    ensures forall id :: id in TerrainKeys(vis, gos) <==>
      exists i :: 0 <= i < |gos| && BranchOf(vis, gos[i]) == TerrainBranch && gos[i].collider.value.shape.instanceId == id
  {
    if |gos| > 0 {
      var init := gos[..|gos| - 1];
      TerrainKeysAre(vis, init);
      forall i | 0 <= i < |init| ensures init[i] == gos[i] {}
    }
  }

  lemma MaterialsAppend(draws: seq<Draw>, d: Draw)
    ensures Materials(draws + [d]) == Materials(draws) + [d.material]
  {
  }

  // ----- Properties of the pure parts

  /** Only an object with an enabled collider that the mode lets through takes a branch, each
      branch matches its collider type, and the terrain branch also needs a `Terrain` component. */
  lemma BranchNeeds(vis: ColVis, go: GameObject)
    ensures BranchOf(vis, go) != NoBranch ==> go.collider.Some? && go.collider.value.enabled
    ensures BranchOf(vis, go) != NoBranch && vis == NoTriggers ==> !go.collider.value.isTrigger
    ensures BranchOf(vis, go) != NoBranch && vis == OnlyTriggers ==> go.collider.value.isTrigger
    ensures BranchOf(vis, go) == TerrainBranch ==> go.collider.value.shape.TerrainShape? && go.terrain.Some?
    ensures BranchOf(vis, go) == MeshBranch ==> go.collider.value.shape.MeshShape?
    ensures BranchOf(vis, go) == BoxBranch ==> go.collider.value.shape.BoxShape?
    ensures BranchOf(vis, go) == SphereBranch ==> go.collider.value.shape.SphereShape?
    ensures BranchOf(vis, go) == CapsuleBranch ==> go.collider.value.shape.CapsuleShape?
  {
  }

  /** NoTriggers and OnlyTriggers split what All draws: every object All draws is drawn by
      exactly one of them, and the others by neither. */
  lemma FilterModesPartition(go: GameObject)
    ensures (BranchOf(NoTriggers, go) != NoBranch || BranchOf(OnlyTriggers, go) != NoBranch) <==> BranchOf(All, go) != NoBranch
    ensures !(BranchOf(NoTriggers, go) != NoBranch && BranchOf(OnlyTriggers, go) != NoBranch)
  {
  }

  /** Over a whole frame, the draws under NoTriggers and under OnlyTriggers add up to the draws under All. */
  lemma {:induction false} ExpectedMaterialsPartition(gos: seq<GameObject>)
    ensures |ExpectedMaterials(All, gos)| == |ExpectedMaterials(NoTriggers, gos)| + |ExpectedMaterials(OnlyTriggers, gos)|
  {
    if |gos| > 0 {
      ExpectedMaterialsPartition(gos[..|gos| - 1]);
      FilterModesPartition(gos[|gos| - 1]);
    }
  }

  /** The largest value of C#'s 32-bit `int`. */
  const Int32Max := 0x7fff_ffff

  /** At the generator's constants the lengths of the plane, sphere and cylinder index lists,
      and every index stored in them, are at most the largest C# `int`. */
  lemma GeneratorIntsFit(trig: Trig)
    ensures |PlaneGrid.PlaneIndices(PlaneGrid.VerticesX, PlaneGrid.VerticesZ)| <= Int32Max
    ensures IndicesBelow(PlaneGrid.PlaneIndices(PlaneGrid.VerticesX, PlaneGrid.VerticesZ), Int32Max)
    ensures |UvSphere.SphereQuadIndices(UvSphere.SphereResolution)| <= Int32Max
    ensures IndicesBelow(UvSphere.SphereQuadIndices(UvSphere.SphereResolution), Int32Max)
    ensures |CappedCylinder.CylinderIndices(CappedCylinder.CylinderResolution)| <= Int32Max
    ensures IndicesBelow(CappedCylinder.CylinderIndices(CappedCylinder.CylinderResolution), Int32Max)
  {
    var nx, nz := PlaneGrid.VerticesX, PlaneGrid.VerticesZ;
    PlaneGrid.PlaneCounts(nx, nz);
    PlaneGrid.PlaneIndicesInRange(nx, nz);
    UvSphere.SphereIndicesInRange(UvSphere.SphereResolution);
    CappedCylinder.CylinderCounts(trig, CappedCylinder.CylinderResolution, CappedCylinder.CylinderHeight);
  }

  /** The four canonical meshes are well formed; the plane is only because it uses 32-bit indices. */
  lemma CanonicalMeshesWellFormed(trig: Trig)
    ensures WellFormed(UInt32, PlaneGrid.PlaneVertices(PlaneGrid.VerticesX, PlaneGrid.VerticesZ),
                               PlaneGrid.PlaneIndices(PlaneGrid.VerticesX, PlaneGrid.VerticesZ))
    ensures !WellFormed(UInt16, PlaneGrid.PlaneVertices(PlaneGrid.VerticesX, PlaneGrid.VerticesZ),
                                PlaneGrid.PlaneIndices(PlaneGrid.VerticesX, PlaneGrid.VerticesZ))
    ensures WellFormed(UInt16, BoxTable.BoxVertices, BoxTable.BoxTriangles)
    ensures WellFormed(UInt16, UvSphere.SphereVertices(trig, UvSphere.SphereResolution, UvSphere.SphereRadius),
                               UvSphere.SphereIndices(UvSphere.SphereResolution))
    ensures WellFormed(UInt16, CappedCylinder.CylinderVertices(trig, CappedCylinder.CylinderResolution, CappedCylinder.CylinderHeight),
                               CappedCylinder.CylinderIndices(CappedCylinder.CylinderResolution))
  {
    var nx, nz := PlaneGrid.VerticesX, PlaneGrid.VerticesZ;
    PlaneGrid.PlaneCounts(nx, nz);
    PlaneGrid.PlaneIndicesInRange(nx, nz);
    PlaneNeedsUInt32(nx, nz);
    BoxTable.BoxTableShape();
    UvSphere.SphereCounts(trig, UvSphere.SphereResolution, UvSphere.SphereRadius);
    UvSphere.SphereIndicesInRange(UvSphere.SphereResolution);
    CappedCylinder.CylinderCounts(trig, CappedCylinder.CylinderResolution, CappedCylinder.CylinderHeight);
  }

}
