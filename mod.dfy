/** The mod's `MonoBehaviour`: the debug toggle, the player lookup that gates polling,
    the two debug buttons and the one-instance guard of `Awake`. */
module ModBehaviour {
  import opened Geometry
  import opened Visibility
  import Debug
  import PlaneGrid

  /** The game's player object; only whether one is known matters here. */
  class Player {
    constructor() {}
  }

  /** The asset bundle the mod's shaders come from. */
  class AssetBundle {
    constructor() {}
  }

  /** The static field `Mod.ModInstance`, shared by every `Mod`. */
  class ModStatics {
    var ModInstance: Mod?

    constructor()
      ensures ModInstance == null
    {
      ModInstance := null;
    }
  }

  /** How `Awake` ended. */
  datatype AwakeResult = DuplicateDestroyed | BundleMissing | Initialized

  class Mod {
    var ShowDebug: bool
    var PlayerRef: Player?
    const DebugView: Debug.DebugView
    var DbgLayer: int
    var CustomBundle: AssetBundle?
    /** Set by `Destroy(gameObject)`. */
    var destroyed: bool

    /** A fresh component; `CustomBundle` may already be assigned in the scene. */
    constructor(bundle: AssetBundle?)
      ensures !ShowDebug && PlayerRef == null && DbgLayer == 31 && CustomBundle == bundle && !destroyed
      ensures fresh(DebugView) && fresh(DebugView.cachedTerrainMeshes)
      ensures DebugView.ColliderVisibility == All && !DebugView.ShowNames && DebugView.RenderNameDatas == []
      ensures DebugView.cachedTerrainMeshes.entries == map[] && !DebugView.BaseMeshesBuilt()
    {
      ShowDebug := false;
      PlayerRef := null;
      DebugView := new Debug.DebugView();
      DbgLayer := 31;
      CustomBundle := bundle;
      destroyed := false;
    }

    /** PageDown flips `ShowDebug`; nothing else changes. */
    method PollInput(pageDown: bool)
      modifies this`ShowDebug
      ensures ShowDebug == (old(ShowDebug) != pageDown)
    {
      if pageDown {
        ShowDebug := !ShowDebug;
      }
    }

    /** Input first, then the player lookup when none is known, then polling only when a player
        is known and the debug view is on. */
    method Update(pageDown: bool, foundPlayer: Player?, overlaps: seq<Debug.GameObject>) returns (polled: bool)
      modifies this`ShowDebug, this`PlayerRef, DebugView`RenderNameDatas, DebugView.cachedTerrainMeshes
      ensures ShowDebug == (old(ShowDebug) != pageDown)
      ensures PlayerRef == if old(PlayerRef) == null then foundPlayer else old(PlayerRef)
      ensures polled <==> PlayerRef != null && ShowDebug
      ensures !polled ==> DebugView.RenderNameDatas == old(DebugView.RenderNameDatas) && unchanged(DebugView.cachedTerrainMeshes)
    {
      PollInput(pageDown);
      if PlayerRef == null {
        PlayerRef := foundPlayer;
      }
      polled := false;
      if PlayerRef != null && ShowDebug {
        var _, _, _ := DebugView.PollMeshes(overlaps);
        polled := true;
      }
    }

    /** The visibility and names buttons of `OnGUI`: each acts only when the debug view is on
        and the button was clicked. */
    method OnGUIButtons(visibilityClicked: bool, namesClicked: bool)
      modifies DebugView`ColliderVisibility, DebugView`ShowNames
      ensures DebugView.ColliderVisibility ==
        if ShowDebug && visibilityClicked then NextVisibility(old(DebugView.ColliderVisibility)) else old(DebugView.ColliderVisibility)
      ensures DebugView.ShowNames == if ShowDebug && namesClicked then !old(DebugView.ShowNames) else old(DebugView.ShowNames)
    {
      if ShowDebug && visibilityClicked {
        DebugView.ColliderVisibility := NextVisibility(DebugView.ColliderVisibility);
      }
      if ShowDebug && namesClicked {
        DebugView.ShowNames := !DebugView.ShowNames;
      }
    }

    /** A second instance destroys itself and leaves everything else alone; the first one
        registers itself, loads the bundle if it is missing and gives up without it;
        otherwise it empties the terrain cache and generates every canonical mesh that is
        still missing, keeping the others. */
    method Awake(statics: ModStatics, trig: Trig, bundleOnDisk: AssetBundle?) returns (result: AwakeResult)
      modifies statics, this`destroyed, this`CustomBundle, DebugView.cachedTerrainMeshes,
        DebugView`SphereMesh, DebugView`SubdivPlaneMesh, DebugView`BoxMesh, DebugView`CylinderMesh
      ensures old(statics.ModInstance) != null ==>
        result == DuplicateDestroyed && destroyed && statics.ModInstance == old(statics.ModInstance) &&
        CustomBundle == old(CustomBundle) && unchanged(DebugView) && unchanged(DebugView.cachedTerrainMeshes)
      ensures old(statics.ModInstance) == null ==> statics.ModInstance == this && destroyed == old(destroyed)
      ensures old(statics.ModInstance) == null && old(CustomBundle) == null ==> CustomBundle == bundleOnDisk
      ensures old(statics.ModInstance) == null && old(CustomBundle) != null ==> CustomBundle == old(CustomBundle)
      ensures result == BundleMissing <==> old(statics.ModInstance) == null && CustomBundle == null
      ensures result == BundleMissing ==> unchanged(DebugView) && unchanged(DebugView.cachedTerrainMeshes)
      ensures result == Initialized <==> old(statics.ModInstance) == null && CustomBundle != null
      ensures result == Initialized ==> DebugView.BaseMeshesBuilt() && DebugView.cachedTerrainMeshes.entries == map[]
      ensures result == Initialized && old(DebugView.SubdivPlaneMesh) == null ==>
        fresh(DebugView.SubdivPlaneMesh) && Debug.IsPlaneMesh(DebugView.SubdivPlaneMesh, PlaneGrid.VerticesX, PlaneGrid.VerticesZ)
      ensures result == Initialized && old(DebugView.BoxMesh) == null ==> fresh(DebugView.BoxMesh) && Debug.IsBoxMesh(DebugView.BoxMesh)
      ensures result == Initialized && old(DebugView.SphereMesh) == null ==>
        fresh(DebugView.SphereMesh) && Debug.IsSphereMesh(trig, DebugView.SphereMesh)
      ensures result == Initialized && old(DebugView.CylinderMesh) == null ==>
        fresh(DebugView.CylinderMesh) && Debug.IsCylinderMesh(trig, DebugView.CylinderMesh)
      ensures old(DebugView.SubdivPlaneMesh) != null ==> DebugView.SubdivPlaneMesh == old(DebugView.SubdivPlaneMesh)
      ensures old(DebugView.BoxMesh) != null ==> DebugView.BoxMesh == old(DebugView.BoxMesh)
      ensures old(DebugView.SphereMesh) != null ==> DebugView.SphereMesh == old(DebugView.SphereMesh)
      ensures old(DebugView.CylinderMesh) != null ==> DebugView.CylinderMesh == old(DebugView.CylinderMesh)
    {
      if statics.ModInstance != null {
        destroyed := true;
        return DuplicateDestroyed;
      } else {
        statics.ModInstance := this;
      }

      if CustomBundle == null {
        CustomBundle := bundleOnDisk;
        if CustomBundle == null {
          return BundleMissing;
        }
      }

      DebugView.InitMeshes(trig);
      result := Initialized;
    }
  }
}
