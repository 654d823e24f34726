/**
 * The collision-group bits the prototype assigns (`InteractionFlags`) and the
 * physics library's 16-bit membership/filter pairs they are put into.
 */
module Interaction {

  /** `InteractionFlags::PLAYER`: the group of character capsules. */
  const PLAYER: bv16 := 0x1
  /** `InteractionFlags::WALKABLE`: the group of terrain trimeshes. */
  const WALKABLE: bv16 := 0x2

  /**
   * A collider's (or a query's) interaction groups: the groups it belongs to
   * and the groups it is willing to interact with.
   */
  datatype InteractionGroups = InteractionGroups(memberships: bv16, filter: bv16) {
    /** `with_groups`: replaces the memberships. */
    function WithGroups(groups: bv16): InteractionGroups { this.(memberships := groups) }
    /** `with_mask`: replaces the filter. */
    function WithMask(mask: bv16): InteractionGroups { this.(filter := mask) }
    /** Two group pairs interact when each belongs to a group the other admits. */
    predicate Test(other: InteractionGroups) {
      memberships & other.filter != 0 && other.memberships & filter != 0
    }
  }

  /** `InteractionGroups::all()`: member of every group, admits every group. */
  const ALL: InteractionGroups := InteractionGroups(0xffff, 0xffff)

  /** Groups of a terrain collider built by `load_collider`. */
  const TERRAIN_GROUPS: InteractionGroups := ALL.WithGroups(WALKABLE)
  /** Groups of a player capsule built by `load_collider`. */
  const PLAYER_GROUPS: InteractionGroups := ALL.WithGroups(PLAYER)
  /** Groups of the downward grounding ray: it admits every group but PLAYER. */
  const GROUND_RAY_GROUPS: InteractionGroups := ALL.WithMask(!PLAYER)

  /** The two flags are distinct single bits. */
  lemma FlagsAreDistinctBits()
    ensures PLAYER != 0 && WALKABLE != 0
    ensures PLAYER & WALKABLE == 0
    ensures PLAYER & (PLAYER - 1) == 0 && WALKABLE & (WALKABLE - 1) == 0
  {
  }

  /**
   * The grounding ray never reports a collider that belongs only to the PLAYER
   * group, and it does report the terrain.
   */
  lemma GroundRaySkipsPlayers(g: InteractionGroups)
    ensures g.memberships == PLAYER ==> !GROUND_RAY_GROUPS.Test(g)
    ensures GROUND_RAY_GROUPS.Test(TERRAIN_GROUPS)
    ensures !GROUND_RAY_GROUPS.Test(PLAYER_GROUPS)
  {
  }
}
