/**
 * The shot and portal objects the player owns, two of each. Their own code is
 * not part of this model: every operation on them is abstract, specified only
 * by what it may change, and its body leaves those fields arbitrary.
 */
module Slots {
  import opened Collision

  /** The facing directions named where the player sets up its portal templates. */
  datatype Facing = Front | Right

  /** A projectile that becomes a portal when it reaches a wall. */
  class Shot {
    var active: bool
    var x: real
    var y: real
    var z: real

    /** A shot's initial fields are those of its own constructor, which is not modelled. */
    constructor ()
    {
      active, x, y, z := *, *, *, *;
    }

    /** Fires the shot for portal slot `id` from a position and a view direction. */
    method Shoot(id: int, px: real, py: real, pz: real, xrot: real, yrot: real)
      modifies this
    {
      active, x, y, z := *, *, *, *;
    }

    /** Advances the shot by `dt` seconds. */
    method Update(dt: real)
      modifies this
    {
      active, x, y, z := *, *, *, *;
    }

    /**
     * Places `portal` on the wall box `wall` the shot has struck. It may change
     * this shot and that portal, and nothing else.
     */
    method PlacePortal(wall: Box, portal: Portal)
      modifies this, portal
    {
      active, x, y, z := *, *, *, *;
      portal.active, portal.x, portal.y, portal.z, portal.facing := *, *, *, *, *;
    }
  }

  /** Where a portal stands and which way it faces. */
  datatype Pose = Pose(x: real, y: real, z: real, facing: Facing)

  /** One of the two linked portals. */
  class Portal {
    var active: bool
    var x: real
    var y: real
    var z: real
    var facing: Facing

    function Placement(): Pose
      reads this
    {
      Pose(x, y, z, facing)
    }

    /** A portal's initial fields are those of its own constructor, which is not modelled. */
    constructor ()
    {
      active, x, y, z, facing := *, *, *, *, *;
    }

    /** Sets the portal's template pose relative to the player. */
    method Set(px: real, py: real, pz: real, dir: Facing)
      modifies this
    {
      active, x, y, z, facing := *, *, *, *, *;
    }
  }
}
