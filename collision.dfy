/** The collision test between the player and an obstacle: axis-aligned boxes,
    each shrunk by a forgiveness margin of 12 on every side. */
module Collision {
  import opened Canvas
  import opened Physics
  import opened Obstacles

  const INSET: real := 12.0

  datatype Box = Box(left: real, top: real, width: real, height: real)

  function BossBox(y: real): Box
  {
    Box(BOSS_X, y, BOSS_WIDTH, BOSS_HEIGHT)
  }

  function ObstacleBox(o: Obstacle): Box
  {
    Box(o.x, o.y, o.width, o.height)
  }

  /** The box with `margin` taken off every side. */
  function Shrink(b: Box, margin: real): Box
  {
    Box(b.left + margin, b.top + margin, b.width - 2.0 * margin, b.height - 2.0 * margin)
  }

  /** Reference definition: the open horizontal intervals overlap and the
      open vertical intervals overlap. It compares the edge formulas only: a
      box shrunk by more than half its size has a negative extent and is no
      longer a geometric box. */
  predicate Overlap(a: Box, b: Box)
  {
    a.left < b.left + b.width && b.left < a.left + a.width &&
    a.top < b.top + b.height && b.top < a.top + a.height
  }

  /** The test as the game writes it, edge by edge. */
  function Collides(p: Box, o: Box): (hit: bool)
    ensures hit <==> Overlap(Shrink(p, INSET), Shrink(o, INSET))
    ensures o.left + o.width - INSET <= p.left + INSET ==> !hit
    ensures o.left + o.width < p.left ==> !hit
  {
    p.left + INSET < o.left + o.width - INSET &&
    p.left + p.width - INSET > o.left + INSET &&
    p.top + INSET < o.top + o.height - INSET &&
    p.top + p.height - INSET > o.top + INSET
  }

  /** A small bear never collides with a player that is not below the ground
      line, wherever it has scrolled to: its shrunk box is 21 - 24 = -3 high,
      so a collision would need the player's top above 235, while the ground
      line keeps it at most 232. */
  lemma SmallBearHarmless(b: Body, typeRoll: real, sizeRoll: real, x: real)
    requires b.y + BOSS_HEIGHT <= GROUND_LINE
    requires typeRoll <= 0.4 && sizeRoll <= 0.4
    ensures !Collides(BossBox(b.y), ObstacleBox(NewObstacle(typeRoll, sizeRoll).(x := x)))
  {
  }
}
