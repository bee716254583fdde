/**
 * Axis-aligned boxes and the world map seen as a collision oracle.
 * The map's own storage of wall boxes is not part of this model: the player
 * only asks it two questions, so the map is the pair of those answers.
 */
module Collision {
  import opened Wrappers

  /** An axis-aligned box given by its low corner (x1, y1, z1) and its high corner (x2, y2, z2). */
  datatype Box = Box(x1: real, y1: real, z1: real, x2: real, y2: real, z2: real)

  /**
   * The map as the player uses it: whether a box overlaps a wall, and the wall
   * box (if any) that contains a point.
   */
  datatype Map = Map(collidesWithWall: Box -> bool, pointInWall: (real, real, real) -> Option<Box>)

  /** Half of the player's horizontal extent, and the player's height. */
  const BodyHalfWidth: real := 0.5
  const BodyHeight: real := 1.8

  /**
   * The player's bounding box when standing with feet at height `feet`,
   * centred horizontally on (cx, cz).
   */
  function BodyBox(cx: real, feet: real, cz: real): (b: Box)
    ensures b.x2 - b.x1 == 2.0 * BodyHalfWidth && b.z2 - b.z1 == 2.0 * BodyHalfWidth
    ensures b.y2 - b.y1 == BodyHeight && b.y1 == feet
    ensures (b.x1 + b.x2) / 2.0 == cx && (b.z1 + b.z2) / 2.0 == cz
  {
    Box(cx - BodyHalfWidth, feet, cz - BodyHalfWidth, cx + BodyHalfWidth, feet + BodyHeight, cz + BodyHalfWidth)
  }
}
