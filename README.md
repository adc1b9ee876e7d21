# Reeds Crab Utils: the collision debug view, modelled in Dafny

Reeds Crab Utils is a Unity mod. Its debug view draws a wireframe of every collider near the player. This project models that view's core.

**Canonical meshes.** `DebugView.GenerateBaseMeshes` builds four canonical meshes once:
- a 1000 x 1000 subdivided plane;
- a unit box;
- a 10 x 10 UV sphere;
- a 10-segment capped cylinder.

**The frame loop.** Every frame, `PollMeshes` walks the colliders the overlap query returned. For each one, `RenderMesh` does the following:
1. It filters the collider by the visibility mode (`ColVis`) and its enabled and trigger flags.
2. It dispatches on the collider type.
3. It copies the matching canonical mesh (`GetMeshCopy`) and rewrites the copy's vertices in a loop:
   - box: scale by size, then by lossy scale;
   - sphere: multiply by the radius;
   - capsule: scale by (radius, height, radius), turn 90 degrees according to the direction, add the centre;
   - terrain: scale the plane by the terrain bounds and sample the height.

   Terrain meshes are kept in a cache keyed by the collider's instance id. A mesh collider draws its own mesh, uncopied.

**The Mod behaviour.** The `Mod` behaviour:
- toggles the view with PageDown;
- finds the player;
- polls only when both are set;
- moves the visibility mode round its three-way cycle and toggles names from two buttons;
- guards `Awake` so there is only one instance, and gives up when the asset bundle is missing.

## How the model is built

- **Types.**
  - Positions are `Vec3` over exact reals.
  - `sin`, `cos` and `pi` are a `Trig` parameter. Lemmas that need sin² + cos² = 1, the values at 0 and pi, or the 2 pi period require them as `Pythagorean`, `Anchored` and `Periodic`.
  - The plane and the box are also read in integer coordinates: plane grid coordinates, and box corners doubled to ±1. Winding is proved there with an integer cross product.
- **Meshes.** A `Mesh` is a class with an index format and two `seq` fields. `GetMeshCopy` returns a fresh mesh with the same three values. A mesh is drawable (`Valid`) when its vertex count fits the index format, its index list is made of whole triangles and every index addresses a vertex.
- **Loops.** The generator's loops are methods. Each is proved equal to a reference function: `PlaneVertices`, `PlaneIndices`, `SphereIndices`, `CylinderIndices` and the rest. The sphere's slot-writing loop and `Array.Reverse` work on an `array`. The vertex loops of `RenderMesh` rewrite an array copy of the vertex list.
- **RenderMesh outcome.** `RenderMesh` returns `NoDraw`, `Drawn(Draw(mesh, material))`, or `Fault`.
  - `Fault` stands for the null-reference exception the source raises when the branch copies a canonical mesh that was never generated.
  - That happens when `Awake` gave up on a missing bundle and the view was later switched on.
  - `PollMeshes` stops at the first fault, as the exception leaves the `foreach`.
- **Terrain cache.** The cache is a class over a `map`. `Add` requires a fresh key, which the terrain branch meets because it only adds after a failed `TryGetValue`. The out-parameter `samples` counts the calls to `SampleHeight`.
- **The static field.** `Mod.ModInstance` is the field of a `ModStatics` object that is passed to `Awake`.

Three behaviours of the source worth noting:
- **Height sample.** The terrain height is sampled at the full world position `terrainPos + scaled vertex` (DebugView.cs:200-206), not at its XZ part alone.
- **Failure.** A frame ends early when a canonical mesh is missing, because `GetMeshCopy(null)` throws.
- **Sphere winding.** The sphere's global `Array.Reverse` (DebugView.cs:444) flips the winding of every triangle. Which side then faces outward under the renderer's convention is not stated.

## Model

| member | source | states |
|---|---|---|
| Geometry.Rotate90 | DebugView.cs:313-314 | the quarter turn about +Z keeps z and the one about +X keeps x |
| Geometry.RotatePointAroundAxis | DebugView.cs:306-320 | the turned point is as far from the pivot as before and keeps its coordinate along the turning axis |
| Geometry.Rotate90IsProperRotation | DebugView.cs:306-319 | both quarter turns keep dot products and commute with the cross product, so a turned triangle keeps its winding |
| Geometry.Rotate90Axes | DebugView.cs:247-253 | +Y goes to -X about +Z and to +Z about +X; four quarter turns give back the point |
| Geometry.FaceNormalFlips | DebugView.cs:444 | reading a triangle back to front negates its face normal whatever the positions |
| Topology.ReversedTriangle | DebugView.cs:444 | after `Array.Reverse` of a list of whole triangles, triangle t is triangle T-1-t with its vertex order reversed |
| Topology.ReversedKeepsFaces | DebugView.cs:444 | `Array.Reverse` keeps the set of triangles, each taken as its set of corners |
| Topology.ReversedIndicesBelow | DebugView.cs:444 | `Array.Reverse` keeps every index below a vertex count |
| Topology.ReversedTwice | DebugView.cs:444 | reversing twice gives back the list |
| Topology.Reversed | DebugView.cs:444 | `Array.Reverse` as a function of the list: as long as its input (its content is stated by the four lemmas above) |
| Meshes.Mesh.constructor | DebugView.cs:330 | `new Mesh()` has 16-bit indices and no vertices or triangles |
| Meshes.PlaneNeedsUInt32 | DebugView.cs:344-379 | 1000 x 1000 plane vertices exceed what 16-bit indices address and fit in 32-bit ones |
| Visibility.FromOrdinal | Mod.cs:50 | the cast from 0..3 gives the enum member with that ordinal |
| Visibility.NextVisibility | Mod.cs:50 | the button's `(v + 1) % COUNT` never yields `COUNT` |
| Visibility.VisibilityCycle | Mod.cs:50 | the cycle is All, NoTriggers, OnlyTriggers, All |
| Visibility.VisibilityThreeSteps | Mod.cs:50 | three presses restore every reachable mode and one press always changes it |
| Visibility.PassesFilter | DebugView.cs:154-157 | only an enabled collider passes the filter |
| Visibility.PassesFilterByMode | DebugView.cs:154-157 | a collider passes iff it is enabled and All passes any, NoTriggers only non-triggers, OnlyTriggers only triggers (COUNT as All) |
| PlaneGrid.PlaneVertexList | DebugView.cs:348-358 | the two nested loops build exactly `PlaneVertices`: vertex k at (column k mod nx / (nx-1), 0, row k div nx / (nz-1)) |
| PlaneGrid.GridVertex | DebugView.cs:353-356 | the vertex the loops emit at row y, column x is vertex y nx + x of the grid |
| PlaneGrid.PlaneIndexList | DebugView.cs:360-376 | the two nested loops build exactly `PlaneIndices`: every cell (nx-1 per row, nz-1 rows) contributes (q, q+nx, q+nx+1, q, q+nx+1, q+1) for q = y nx + x, row by row |
| PlaneGrid.PlaneRowAt | DebugView.cs:364-375 | entry s of the first x cells of a row is entry s mod 6 of cell s div 6 |
| PlaneGrid.PlaneRowsAt | DebugView.cs:362-376 | entry s of the first y rows of cells is the slot formula for s |
| PlaneGrid.LastRowAt | DebugView.cs:362-376 | the entries of row y of cells, appended to rows 0..y-1, are the slot formula at their positions |
| PlaneGrid.LastRowSlot | DebugView.cs:366-374 | the slot formula at position 6 cells + t is entry t mod 6 of cell t div 6 of the next row |
| PlaneGrid.RowsAreIndices | DebugView.cs:362-376 | the loops' row-by-row concatenation equals the slot-wise index list |
| PlaneGrid.PlaneRowLength | DebugView.cs:364-375 | x cells give 6 x indices |
| PlaneGrid.PlaneRowsLength | DebugView.cs:362-376 | y rows give 6 (nx-1) y indices |
| PlaneGrid.PlaneCounts | DebugView.cs:344-376 | the plane has nx nz vertices, 6 (nx-1)(nz-1) indices and 2 (nx-1)(nz-1) triangles |
| PlaneGrid.CellInRange | DebugView.cs:366-374 | the six indices of an interior cell address vertices below nx nz |
| PlaneGrid.PlaneRowInRange | DebugView.cs:364-375 | every index of a row of cells is below nx nz |
| PlaneGrid.PlaneRowsInRange | DebugView.cs:362-376 | every index of the first rows of cells is below nx nz |
| PlaneGrid.PlaneIndicesInRange | DebugView.cs:362-381 | every index of the plane addresses one of its vertices |
| PlaneGrid.CellFacesUp | DebugView.cs:366-374 | both triangles of a cell have integer face normal (0, 1, 0) on the grid |
| PlaneGrid.PlaneRowFacesUp | DebugView.cs:364-375 | every triangle of a row of cells faces +Y |
| PlaneGrid.PlaneRowsFaceUp | DebugView.cs:362-376 | every triangle of the first rows faces +Y |
| PlaneGrid.PlaneFacesUp | DebugView.cs:362-376 | every triangle of the plane has the same orientation, face normal +Y |
| PlaneGrid.PlanePointInUnitSquare | DebugView.cs:353-356 | each vertex lies in the unit square at y = 0 |
| PlaneGrid.PlaneInUnitSquare | DebugView.cs:349-358 | the plane spans the unit square at y = 0, first vertex at the origin and last at (1, 0, 1) |
| PlaneGrid.PlaneCorner | DebugView.cs:353-356 | vertex 0 is the origin and vertex nx nz - 1 is (1, 0, 1) |
| PlaneGrid.PlaneVertices | DebugView.cs:348-358 | the reference vertex list the loops are proved against, nx nz long (its content is stated by `PlaneVertexList`, `PlaneInUnitSquare` and `PlaneCorner`) |
| PlaneGrid.PlaneIndices | DebugView.cs:360-376 | the reference index list, 6 (nx-1)(nz-1) long (its content is stated by `PlaneIndexList`, `PlaneIndicesInRange` and `PlaneFacesUp`) |
| BoxTable.BoxTriIs | DebugView.cs:394-398 | triangle t of the flat table is entry t of the twelve-triangle table |
| BoxTable.BoxTableShape | DebugView.cs:387-398 | 8 corners, 36 indices, 12 triangles, every index below 8; the corners are the doubled ±1 corners halved |
| BoxTable.BoxFaceOfTriangle | DebugView.cs:394-398 | triangle t lies on face f exactly when t div 2 == f |
| BoxTable.BoxFaceCorners | DebugView.cs:387-398 | triangles 2 f and 2 f + 1 together use the four corners of face f |
| BoxTable.BoxFacesCovered | DebugView.cs:387-398 | every cube face is covered by exactly two triangles of the table, which use its four corners |
| BoxTable.BoxOutwardWinding | DebugView.cs:387-398 | in doubled coordinates each triangle's edge cross product is four times the outward direction of its face |
| BoxTable.BoxNormalPointsOut | DebugView.cs:387-398 | each triangle's normal has dot product 4 with each of its corners: every triangle faces away from the centre |
| UvSphere.SphereTriangleList | DebugView.cs:414-444 | the slot-writing loops followed by the in-place reversal produce exactly `SphereIndices`, the reversed quad list |
| UvSphere.WriteQuad | DebugView.cs:434-439 | one inner iteration writes slots 6 (i r + j) .. +5 with the quad's corners and leaves every other slot alone |
| UvSphere.ReverseInPlace | DebugView.cs:444 | `Array.Reverse` leaves the array equal to `Reversed` of its old contents |
| UvSphere.SphereVertexList | DebugView.cs:412-428 | the nested loops fill vertex i (r+1) + j with the point at polar angle (i/r) pi and azimuth (j/r) 2 pi |
| UvSphere.SlotOfQuad | DebugView.cs:434-439 | slot 6 (i r + j) + m is inside the array and holds corner m of quad (i, j) |
| UvSphere.SlotCovered | DebugView.cs:430-441 | every slot of the 6 r² array is written by some iteration (i, j) at some position m |
| UvSphere.SlotOfInjective | DebugView.cs:430-441 | no two iterations write the same slot |
| UvSphere.SphereCounts | DebugView.cs:412-414 | (r+1)² vertices, 6 r² indices, 2 r² triangles |
| UvSphere.SphereIndicesInRange | DebugView.cs:430-444 | every index before and after the reversal is below (r+1)² |
| UvSphere.SlotBelow | DebugView.cs:434-439 | every value written is below (r+1)² |
| UvSphere.SphereQuadTriangles | DebugView.cs:434-439 | before the reversal quad (i, j) is triangles (a, a+1, b) and (a+1, b+1, b) |
| UvSphere.SphereReversal | DebugView.cs:444 | after the reversal triangle t is triangle 2 r² - 1 - t read backwards, and the set of triangles is unchanged |
| UvSphere.SphereWindingFlipped | DebugView.cs:444 | whatever the positions, the reversal negates the face normal of every triangle |
| UvSphere.SphereOnSphere | DebugView.cs:420-425 | with sin² + cos² = 1 every vertex has squared length radius² |
| UvSphere.SpherePointOnSphere | DebugView.cs:420-424 | with sin² + cos² = 1 each grid point has squared length radius² |
| UvSphere.SpherePoles | DebugView.cs:420-424 | row 0 is the pole (0, 0, radius) and row r the pole (0, 0, -radius) |
| UvSphere.SphereSeam | DebugView.cs:420-424 | with a 2 pi period column r repeats column 0 |
| UvSphere.SphereVertices | DebugView.cs:412-428 | the reference vertex list, (r+1)² long (its content is stated by `SphereVertexList`, `SphereOnSphere`, `SpherePoles` and `SphereSeam`) |
| UvSphere.SphereQuadIndices | DebugView.cs:430-441 | the index array before the reversal, 6 r² long (its content is stated by `SlotOfQuad` and `SphereQuadTriangles`) |
| UvSphere.SphereIndices | DebugView.cs:430-444 | the reversed index list, 6 r² long and made of whole triangles (its content is stated by `SphereReversal` and `SphereIndicesInRange`) |
| CappedCylinder.CylinderVertexList | DebugView.cs:463-495 | the two ring loops and the two centres build exactly `CylinderVertices`: lower ring, upper ring at angles k 2 pi / r, then the lower and upper centre |
| CappedCylinder.CylinderTriangleList | DebugView.cs:497-525 | the side loop and the cap loop, one index at a time, build exactly `CylinderIndices` |
| CappedCylinder.BlocksAt | DebugView.cs:499-525 | entry m of iteration i sits at position 6 i + m of a loop's output |
| CappedCylinder.LoopsAreIndices | DebugView.cs:499-525 | the side loop's 6 r indices followed by the cap loop's 6 r are the index list |
| CappedCylinder.IterationSlot | DebugView.cs:499-525 | entry m of side iteration i is index 6 i + m; of cap iteration i, index 6 r + 6 i + m |
| CappedCylinder.SideWrapIsModular | DebugView.cs:506 | the side loop's wrap test yields r + (i+1) mod r |
| CappedCylinder.CapFallbackUnreachable | DebugView.cs:520 | (i+1) mod r + r is always below 2 r, so the fallback r + 1 is never taken |
| CappedCylinder.CylinderSideTriangles | DebugView.cs:499-508 | side triangles 2 i and 2 i + 1 are (i, i+r, (i+1) mod r) and (i+r, r+(i+1) mod r, (i+1) mod r) |
| CappedCylinder.CylinderCapTriangles | DebugView.cs:510-525 | cap triangles 2 r + 2 i and 2 r + 2 i + 1 fan from apex 2 r and from apex 2 r + 1 |
| CappedCylinder.CylinderCounts | DebugView.cs:463-525 | 2 r + 2 vertices, 12 r indices, 4 r triangles, every index below 2 r + 2 |
| CappedCylinder.BlockBelow | DebugView.cs:501-524 | every index one iteration adds is below 2 r + 2 |
| CappedCylinder.ThetaShift | DebugView.cs:472-491 | upper ring vertex k + r is turned 2 pi further than vertex k |
| CappedCylinder.UpperAboveLower | DebugView.cs:474-492 | with a 2 pi period upper vertex i + r is lower vertex i raised by the height |
| CappedCylinder.RingOnUnitCircle | DebugView.cs:474-492 | with sin² + cos² = 1 both rings lie on the unit circle about Y |
| CappedCylinder.CylinderCapsFlat | DebugView.cs:494-525 | every corner of a lower-cap triangle is at -height/2 and of an upper-cap triangle at height/2 |
| CappedCylinder.SideQuadPoints | DebugView.cs:474-495 | the lower corners of side quad i share a height and its upper corners sit straight above them |
| CappedCylinder.CylinderSideNormals | DebugView.cs:474-508 | both triangles of side quad i have the same horizontal face normal, whose component along the radial direction of either lower corner is height (p.x q.z - p.z q.x) |
| CappedCylinder.CylinderVertices | DebugView.cs:463-495 | the reference vertex list, 2 r + 2 long (its content is stated by `CylinderVertexList`, `RingOnUnitCircle` and `UpperAboveLower`) |
| CappedCylinder.CylinderIndices | DebugView.cs:497-525 | the reference index list, 12 r long (its content is stated by `CylinderTriangleList`, `CylinderSideTriangles`, `CylinderCapTriangles` and `CylinderCounts`) |
| Adaptation.VertexArray | DebugView.cs:170 | `mesh.vertices` yields a fresh array holding the vertex list |
| Adaptation.BoxVertex | DebugView.cs:172-176 | scaling by size and then by lossy scale is one scaling by their product |
| Adaptation.SphereVertex | DebugView.cs:224-227 | multiplying by the radius multiplies the squared distance from the centre by radius² |
| Adaptation.CapsuleVertex | DebugView.cs:242-256 | the vertex is as far from the centre as the scaled vertex is from the origin: the turn is rigid |
| Adaptation.TerrainVertex | DebugView.cs:200-207 | x and z are scaled by the bounds, and a vertex of the flat plane sits at the height sampled at the terrain's base under its own world x and z |
| Adaptation.BoxAdapted | DebugView.cs:169-178 | one drawn vertex per canonical vertex |
| Adaptation.SphereAdapted | DebugView.cs:222-229 | one drawn vertex per canonical vertex |
| Adaptation.CapsuleAdapted | DebugView.cs:240-265 | one drawn vertex per canonical vertex |
| Adaptation.TerrainAdapted | DebugView.cs:193-209 | one drawn vertex per plane vertex |
| Adaptation.AdaptBox | DebugView.cs:169-178 | the box loop leaves the copy's vertices scaled by size then lossy scale, index list and format unchanged, and a drawable mesh stays drawable |
| Adaptation.AdaptSphere | DebugView.cs:222-229 | the sphere loop leaves the copy's vertices multiplied by the radius, index list and format unchanged, and a drawable mesh stays drawable |
| Adaptation.AdaptCapsule | DebugView.cs:240-265 | the capsule loop leaves the copy's vertices scaled, turned by direction and offset by the centre, index list and format unchanged, and a drawable mesh stays drawable |
| Adaptation.AdaptTerrain | DebugView.cs:193-209 | the terrain loop leaves the copy's vertices scaled by the bounds with y the sampled height, index list and format unchanged, samples once per vertex, and a drawable mesh stays drawable |
| Adaptation.BoxAdaptedIsScaledBox | DebugView.cs:172-176 | the two scalings of a box corner are one scaling by size times lossy scale |
| Adaptation.SphereAdaptedIsRadius | DebugView.cs:224-227 | the unit sphere multiplied by a radius is the sphere generated with that radius, every vertex at squared distance radius² |
| Adaptation.CapsuleFrame | DebugView.cs:242-256 | about the centre, a capsule vertex's height-axis coordinate is ±height times the canonical y, and its squared distance from that axis is radius² times the canonical one |
| Adaptation.CapsuleOffset | DebugView.cs:242-256 | the offset from the centre is (-h y, r x, r z) for direction 0, (r x, -r z, h y) for direction 2 and (r x, h y, r z) otherwise |
| Adaptation.CapsuleKeepsWinding | DebugView.cs:242-256 | a capsule triangle's face normal is the scaled triangle's normal turned the way its vertices were |
| Adaptation.TerrainFootprint | DebugView.cs:200-207 | on the canonical plane every terrain vertex lies in [0, size.x] x [0, size.z] at the height sampled at its own world position |
| Adaptation.UnitSquareVertex | DebugView.cs:202-206 | a vertex of the unit square lands in the terrain footprint at its sampled height |
| Debug.BuildPlaneMesh | DebugView.cs:342-381 | a fresh mesh with 32-bit indices, the plane's vertices and the plane's indices |
| Debug.BuildBoxMesh | DebugView.cs:385-404 | a fresh mesh with the box table |
| Debug.BuildSphereMesh | DebugView.cs:407-456 | a fresh mesh with the sphere's vertices and reversed index list |
| Debug.BuildCylinderMesh | DebugView.cs:458-533 | a fresh mesh with the cylinder's vertices and index list as the loops emit them, before `Optimize` |
| Debug.BranchNeeds | DebugView.cs:154-235 | `BranchOf`, the filter and dispatch chain: an object takes a branch only with an enabled collider that the mode lets through (no triggers under NoTriggers, only triggers under OnlyTriggers); each branch matches its collider type, and the terrain branch also needs a `Terrain` component |
| Debug.ExpectedMaterials | DebugView.cs:82-90 | the materials a frame draws when nothing faults: at most one per object |
| Debug.TerrainKeysAre | DebugView.cs:185-214 | `TerrainKeys`, the ids a frame looks up in the cache: an id is in it iff some object of the frame takes the terrain branch with that instance id |
| Debug.DebugView.NeedsMissingMesh | DebugView.cs:167-241 | a branch can only hit a null canonical mesh when not all four are built, and the mesh branch and a skipped object never do |
| Debug.TerrainMeshCache.constructor | DebugView.cs:28 | the cache starts empty |
| Debug.TerrainMeshCache.TryGetValue | DebugView.cs:187 | found iff the key is present, and then the stored mesh |
| Debug.TerrainMeshCache.Add | DebugView.cs:214 | adds one fresh key and leaves every other entry |
| Debug.TerrainMeshCache.Clear | DebugView.cs:95 | the cache is empty |
| Debug.DebugView.constructor | DebugView.cs:23-28 | mode All, names off, an empty cache and name list, no canonical meshes |
| Debug.DebugView.GetMeshCopy | DebugView.cs:328-337 | a fresh mesh with the source's index format, vertex list and index list, drawable when the source is |
| Debug.DebugView.GenerateBaseMeshes | DebugView.cs:339-534 | afterwards all four canonical meshes exist; each that was null is a fresh mesh equal to its generator's output, each that existed is kept |
| Debug.DebugView.InitMeshes | DebugView.cs:93-96 | the terrain cache is empty and the canonical meshes are generated as above |
| Debug.DebugView.RenderMesh | DebugView.cs:152-304 | nothing is drawn for a filtered or unmatched collider; the draw carries the branch's material; the outcome is a fault iff the branch copies a null canonical mesh; mesh colliders draw their own mesh; box, sphere and capsule draw a fresh adapted copy; terrain hits return the cached mesh without sampling; terrain misses add the adapted copy under the id and sample once per vertex; the canonical meshes are unchanged |
| Debug.DebugView.RenderAndName | DebugView.cs:84-89 | one loop body: the outcome as `RenderMesh`'s, the cache grows by at most the terrain id and only by new keys, and the name is appended when `ShowNames` is on and nothing faulted |
| Debug.DebugView.PollMeshes | DebugView.cs:74-91 | renders the objects in order until the first fault, which happens only when a canonical mesh is missing; the draws' materials are the branches' materials of the processed objects; the cache gains exactly their terrain ids and keeps its entries; the name list is cleared and refilled with theirs exactly when `ShowNames` is on |
| Debug.FilterModesPartition | DebugView.cs:154-157 | an object drawn under All is drawn under exactly one of NoTriggers and OnlyTriggers, and an object not drawn under All under neither |
| Debug.ExpectedMaterialsPartition | DebugView.cs:82-90 | over a frame the number of draws under NoTriggers plus the number under OnlyTriggers is the number under All |
| Debug.GeneratorIntsFit | DebugView.cs:344-525 | at the generator's constants the plane, sphere and cylinder index lists and every index in them stay within C#'s 32-bit `int` |
| Debug.CanonicalMeshesWellFormed | DebugView.cs:339-534 | the four canonical meshes are well formed for their index format, and the plane would not be with 16-bit indices |
| Meshes.AdaptedCopyWellFormed | DebugView.cs:169-178 | replacing a well-formed mesh's vertices by a list of the same length keeps it well formed |
| ModBehaviour.ModStatics.constructor | Mod.cs:12 | `ModInstance` starts null |
| ModBehaviour.Mod.constructor | Mod.cs:14-26 | debug off, no player, layer 31, a new debug view with an empty cache and no canonical meshes, the bundle as assigned |
| ModBehaviour.Mod.PollInput | Mod.cs:179-185 | a PageDown press flips `ShowDebug`, so two presses restore it; otherwise nothing changes |
| ModBehaviour.Mod.Update | Mod.cs:164-177 | input first, then the player lookup only when none is known; polling happens iff a player is known and the view is on, and otherwise names and cache are untouched |
| ModBehaviour.Mod.OnGUIButtons | Mod.cs:47-60 | the visibility button advances the cycle and the names button toggles names, each only when the view is on and it was clicked |
| ModBehaviour.Mod.Awake | Mod.cs:88-114 | a second instance destroys itself and changes nothing else; the first registers itself, loads a missing bundle, gives up without one leaving the view untouched, and otherwise empties the terrain cache and builds each canonical mesh that was null as a fresh mesh equal to its generator's output; a canonical mesh that existed is kept on every path |

## Left out

- Floating point: positions are exact reals, and `sin`, `cos` and `pi` are parameters, so rounding and the float casts of the plane's coordinates are not modelled.
- Normals, `uv`, `RecalculateNormals` and `RecalculateBounds`: none of these changes topology or positions as the model sees them.
- Debug.BuildCylinderMesh: `Mesh.Optimize` (DebugView.cs:530) may permute both the cylinder's vertex buffer and its index buffer. The modelled cylinder, in `IsCylinderMesh`, `GenerateBaseMeshes`, the copy the capsule branch adapts and the apex indices 2 r and 2 r + 1 of `CylinderCapTriangles`, is the mesh as the loops emit it, before `Optimize`.
- Rendering: `Graphics.DrawMesh` becomes a `Draw` record of the mesh and a material tag. The transform, rotation, `bounds.center`, `localToWorldMatrix` and the render layer (`Mod.ModInstance.DbgLayer`) are not modelled.
- Materials: shader loading, the materials and `SetMaterialColors` are left out; the draw records which of the five materials is used. `Alpha` only feeds the overlay shader.
- Resource lifetime: the delayed `Destroy` of adapted meshes and the finalizer are left out.
- Physics and I/O:
  - The overlap query is the input sequence of `PollMeshes`.
  - `TryGetComponent` gives the first collider on the object, and that is the collider the object holds in the model. An object with several colliders appears once per overlapping collider, and each time draws that first collider, as the source does.
  - `SampleHeight` is a given function.
  - `Debug.Log` is dropped.
  - The asset-bundle load is an input of `Awake`.
  - `FindObjectOfType` is an input of `Update`.
- Unity's overloaded null: `!PlayerRef` and the canonical-mesh null tests are plain null tests.
- A mesh collider's `sharedMesh` is taken to be present, and so is a terrain collider's `terrainData`.
- Aliasing: mesh data is held as values. `GetMeshCopy`'s `ToArray` copies and the `vertices` getter's copy are fresh by construction, not aliasing facts about arrays.
- Resolutions and radii: the generator's resolutions stay as the source's constants. The loops are proved for every resolution with nx, nz ≥ 2 and r ≥ 1; at nx = 1 or nz = 1 the source's plane coordinates divide 0 by 0.
- Integer width: C#'s `int` is 32 bits and the model's integers are unbounded. For resolutions large enough that nx nz or 6 r² passes 2^31 - 1, the source's index arithmetic (`y * numVerticesX + x`, `6 * (i * resolution + j)`) would wrap and the model would not. At the source's constants nothing wraps (the largest value is 6 · 999 · 999), which `GeneratorIntsFit` states.
- OnGUI: the overlay texture, layout, labels, the "Mod Loaded!" button, the alpha slider and `RenderNameData.Render` are left out. Only the two button handlers are modelled.
- Mod.cs camera work: `CreateDbgCam`, `LateUpdate`, `DontDestroyOnLoad` and the camera set-up are left out.
- The commented-out sphere caps of the capsule branch are not part of the code that runs.
- Debug.DebugView.RenderAndName: the body of the `foreach` in `PollMeshes`, split out as its own method.
- CappedCylinder.CylinderSideNormals: it states the normal's radial component as height (p.x q.z - p.z q.x). That this is positive needs sin of one angle step to be positive, which takes trigonometric inequalities the model does not have.
- UvSphere.SphereWindingFlipped: it states that the reversal flips every triangle, not which way the result faces under the renderer's convention.
- ModBehaviour.Mod.Update: when it polls, its contract says that polling ran but not what the frame did; `PollMeshes` states that.
- The cylinder's side quads are described triangle by triangle; the set of the four corners of each quad is not stated on its own.
