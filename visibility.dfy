/** The collider visibility mode, its three-way cycle and the collider filter. */
module Visibility {

  /** `ColVis`; `COUNT` is the number of modes, used as the modulus of the cycle. */
  datatype ColVis = All | NoTriggers | OnlyTriggers | COUNT

  function Ordinal(v: ColVis): nat {
    match v
    case All => 0
    case NoTriggers => 1
    case OnlyTriggers => 2
    case COUNT => 3
  }

  /** The cast `(ColVis)n`, for the ordinals the enum names (0..3). */
  function FromOrdinal(n: nat): (v: ColVis)
    requires n <= 3
    ensures Ordinal(v) == n
  {
    if n == 0 then All else if n == 1 then NoTriggers else if n == 2 then OnlyTriggers else COUNT
  }

  /** The visibility button: `(ColVis)((int)(v + 1) % (int)ColVis.COUNT)`. */
  function NextVisibility(v: ColVis): (w: ColVis)
    ensures w != COUNT
  {
    FromOrdinal((Ordinal(v) + 1) % Ordinal(COUNT))
  }

  /** The cycle is All -> NoTriggers -> OnlyTriggers -> All. */
  lemma VisibilityCycle()
    ensures NextVisibility(All) == NoTriggers
    ensures NextVisibility(NoTriggers) == OnlyTriggers
    ensures NextVisibility(OnlyTriggers) == All
  {
  }

  /** Three presses bring every reachable mode back. */
  lemma VisibilityThreeSteps(v: ColVis)
    requires v != COUNT
    ensures NextVisibility(NextVisibility(NextVisibility(v))) == v
    ensures NextVisibility(v) != v
  {
    VisibilityCycle();
  }

  /** The filter at the top of `RenderMesh`, for a collider that is present: it is skipped when
      disabled, when the mode is NoTriggers and it is a trigger, or when the mode is
      OnlyTriggers and it is not. */
  function PassesFilter(v: ColVis, isTrigger: bool, enabled: bool): (pass: bool)
    ensures pass ==> enabled
  {
    !((v == NoTriggers && isTrigger) || (v == OnlyTriggers && !isTrigger) || enabled == false)
  }

  /** The filter mode by mode: All passes triggers and solid colliders alike, NoTriggers only
      solid ones, OnlyTriggers only triggers; COUNT behaves like All. */
  lemma PassesFilterByMode(v: ColVis, isTrigger: bool, enabled: bool)
    ensures PassesFilter(v, isTrigger, enabled) <==>
      enabled && match v
        case All => true
        case NoTriggers => !isTrigger
        case OnlyTriggers => isTrigger
        case COUNT => true
  {
  }
}
