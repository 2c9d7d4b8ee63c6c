/** The player ("the boss"): a 48 by 48 box in a fixed lane at x = 50 that
    moves only vertically, under gravity, and may jump while grounded. */
module Physics {
  import opened Canvas

  const BOSS_X: real := 50.0
  const BOSS_WIDTH: real := 48.0
  const BOSS_HEIGHT: real := 48.0
  const START_Y: real := 150.0
  const JUMP_FORCE: real := -14.2
  /** The height at which the player's bottom edge touches the ground line. */
  const REST_Y: real := GROUND_LINE - BOSS_HEIGHT

  /** The mutable part of the player: position, vertical velocity, and
      whether it is standing on the ground. */
  datatype Body = Body(y: real, dy: real, grounded: bool)

  /** The player as each game session creates it: in the air, at rest. */
  const START: Body := Body(START_Y, 0.0, false)

  /** The player is never below the ground line, and a grounded player rests
      exactly on it without moving. */
  predicate Settled(b: Body)
  {
    b.y + BOSS_HEIGHT <= GROUND_LINE && (b.grounded ==> b.y == REST_Y && b.dy == 0.0)
  }

  /** One physics step: add gravity to the velocity, the velocity to the
      position, and clamp the player to the ground line. */
  function Fall(b: Body, gravity: real): (r: Body)
    ensures r.y + BOSS_HEIGHT <= GROUND_LINE
    ensures b.y + b.dy + gravity + BOSS_HEIGHT > GROUND_LINE ==> r == Body(REST_Y, 0.0, true)
    ensures r.grounded && !b.grounded ==> r == Body(REST_Y, 0.0, true)
    ensures b.y + b.dy + gravity + BOSS_HEIGHT <= GROUND_LINE ==> r == Body(b.y + b.dy + gravity, b.dy + gravity, b.grounded)
  {
    var dy := b.dy + gravity;
    var y := b.y + dy;
    if y + BOSS_HEIGHT > GROUND_LINE then Body(GROUND_LINE - BOSS_HEIGHT, 0.0, true)
    else Body(y, dy, b.grounded)
  }

  /** A jump request: it takes effect only on the ground. */
  function Jumped(b: Body): (r: Body)
    ensures r.y == b.y
    ensures !r.grounded
    ensures b.grounded ==> r.dy == JUMP_FORCE
    ensures !b.grounded ==> r == b
  {
    if b.grounded then Body(b.y, JUMP_FORCE, false) else b
  }

  /** A second request before the next step changes nothing: no double jump. */
  lemma JumpIdempotent(b: Body)
    ensures Jumped(Jumped(b)) == Jumped(b)
  {
  }

  /** Jumping keeps the player settled. */
  lemma JumpKeepsSettled(b: Body)
    requires Settled(b)
    ensures Settled(Jumped(b))
  {
  }

  /** Under positive gravity a physics step keeps the player settled, and a
      grounded player that does not jump stays exactly where it is. */
  lemma FallKeepsSettled(b: Body, gravity: real)
    requires Settled(b)
    requires gravity > 0.0
    ensures Settled(Fall(b, gravity))
    ensures b.grounded ==> Fall(b, gravity) == b
  {
  }

  /** Right after a jump the player is still on the ground line but no longer
      grounded: being on the ground line does not imply being grounded. */
  lemma JumpLeavesGroundLine()
    ensures var r := Jumped(Body(REST_Y, 0.0, true));
            Settled(r) && r.y + BOSS_HEIGHT == GROUND_LINE && !r.grounded
  {
  }

  /** `n` physics steps under constant gravity. */
  function FallSteps(b: Body, gravity: real, n: nat): (r: Body)
    ensures n > 0 ==> r.y + BOSS_HEIGHT <= GROUND_LINE
  {
    if n == 0 then b else Fall(FallSteps(b, gravity, n - 1), gravity)
  }

  /** From the starting position at the initial gravity 0.8, with no jump,
      the player lands on the 14th step and not before. */
  lemma {:induction false} LandsFromStart()
    ensures !FallSteps(START, 0.8, 13).grounded
    ensures FallSteps(START, 0.8, 14) == Body(REST_Y, 0.0, true)
    ensures forall n: nat :: n < 14 ==> !FallSteps(START, 0.8, n).grounded
  {
    var g := 0.8;
    assert FallSteps(START, g, 0) == Body(150.0, 0.0, false);
    assert FallSteps(START, g, 1) == Body(150.8, 0.8, false);
    assert FallSteps(START, g, 2) == Body(152.4, 1.6, false);
    assert FallSteps(START, g, 3) == Body(154.8, 2.4, false);
    assert FallSteps(START, g, 4) == Body(158.0, 3.2, false);
    assert FallSteps(START, g, 5) == Body(162.0, 4.0, false);
    assert FallSteps(START, g, 6) == Body(166.8, 4.8, false);
    assert FallSteps(START, g, 7) == Body(172.4, 5.6, false);
    assert FallSteps(START, g, 8) == Body(178.8, 6.4, false);
    assert FallSteps(START, g, 9) == Body(186.0, 7.2, false);
    assert FallSteps(START, g, 10) == Body(194.0, 8.0, false);
    assert FallSteps(START, g, 11) == Body(202.8, 8.8, false);
    assert FallSteps(START, g, 12) == Body(212.4, 9.6, false);
    assert FallSteps(START, g, 13) == Body(222.8, 10.4, false);
    assert FallSteps(START, g, 14) == Body(REST_Y, 0.0, true);
  }
}
