/** One game session: the player, the obstacle list, the score, the frame
    counter, the stored best score, and whether the session has ended. */
module Game {
  import opened Canvas
  import opened Difficulty
  import opened Physics
  import opened Obstacles
  import opened Movement

  /** The stored best after a session ends with `final`: it is overwritten
      only by a strictly greater score, so it becomes the larger of the two. */
  function NewBest(best: nat, final: nat): (r: nat)
    ensures r >= best && r >= final
    ensures r == best || r == final
    ensures r != best ==> final > best
  {
    if final > best then final else best
  }

  class Session {
    /** The square root used for the speed bonus. */
    const sqrt: nat -> real

    var y: real
    var dy: real
    var grounded: bool
    var obstacles: seq<Obstacle>
    var score: nat
    var frames: nat
    /** The best score held in the browser's storage. */
    var best: nat
    var over: bool

    function Boss(): Body
      reads this
    {
      Body(y, dy, grounded)
    }

    ghost predicate Valid()
      reads this
    {
      MonotoneRoot(sqrt) && Settled(Boss()) && (!over ==> InPlay(obstacles))
    }

    /** Mount and start: the best score is read from storage (`stored`, 0 when
        absent) and a fresh player is created. */
    constructor (stored: nat, sqrt: nat -> real)
      requires MonotoneRoot(sqrt)
      ensures Valid() && this.sqrt == sqrt
      ensures Boss() == START && obstacles == [] && score == 0 && frames == 0
      ensures best == stored && !over
    {
      this.sqrt := sqrt;
      y, dy, grounded := START_Y, 0.0, false;
      obstacles := [];
      score, frames := 0, 0;
      best := stored;
      over := false;
    }

    /** A jump request from the keyboard or a touch. The listeners exist only
        while a session is running. */
    method Jump()
      requires Valid() && !over
      modifies this
      ensures Valid()
      ensures Boss() == Jumped(old(Boss()))
      ensures obstacles == old(obstacles) && score == old(score) && frames == old(frames)
      ensures best == old(best) && over == old(over)
    {
      if grounded {
        dy := JUMP_FORCE;
        grounded := false;
      }
    }

    /** One animation frame's worth of simulation. `typeRoll` and `sizeRoll`
        are the two random draws used if an obstacle is spawned. Speed,
        gravity and spawn distance all come from the score the frame starts
        with. */
    method Tick(typeRoll: real, sizeRoll: real)
      requires Valid() && !over
      modifies this
      ensures Valid()
      ensures frames == old(frames) + 1
      ensures Boss() == Fall(old(Boss()), Gravity(old(score)))
      ensures var pass := Sweep(Spawn(old(obstacles), old(score), typeRoll, sizeRoll), y, Speed(sqrt, old(score)));
              obstacles == pass.obstacles && score == old(score) + pass.removed && over == pass.hit &&
              best == if pass.hit then NewBest(old(best), score) else old(best)
      ensures over ==> score == old(score)
    {
      frames := frames + 1;
      var speed := Speed(sqrt, score);
      var gravity := Gravity(score);
      ApplyPhysics(gravity);
      SpawnStep(typeRoll, sizeRoll);
      MoveObstacles(speed);
    }

    /** Gravity, integration and the ground clamp. */
    method ApplyPhysics(gravity: real)
      requires Valid() && gravity > 0.0
      modifies this
      ensures Valid()
      ensures Boss() == Fall(old(Boss()), gravity)
      ensures obstacles == old(obstacles) && score == old(score) && frames == old(frames)
      ensures best == old(best) && over == old(over)
    {
      dy := dy + gravity;
      y := y + dy;
      if y + BOSS_HEIGHT > GROUND_LINE {
        y := GROUND_LINE - BOSS_HEIGHT;
        dy := 0.0;
        grounded := true;
      }
      FallKeepsSettled(old(Boss()), gravity);
    }

    /** Append one obstacle at the right edge when one is due. */
    method SpawnStep(typeRoll: real, sizeRoll: real)
      requires Valid() && !over
      modifies this
      ensures Valid()
      ensures obstacles == Spawn(old(obstacles), score, typeRoll, sizeRoll)
      ensures Boss() == old(Boss()) && score == old(score) && frames == old(frames)
      ensures best == old(best) && over == old(over)
    {
      SpawnKeepsInPlay(obstacles, score, typeRoll, sizeRoll);
      var minDistance := MinDistance(score);
      if obstacles == [] || CANVAS_WIDTH - obstacles[|obstacles| - 1].x > minDistance as real {
        obstacles := obstacles + [NewObstacle(typeRoll, sizeRoll)];
      }
    }

    /** The obstacle pass, then the end of the session on a collision: the
        stored best is overwritten only by a strictly greater final score. */
    method MoveObstacles(speed: real)
      requires Valid() && !over
      modifies this
      ensures Valid()
      ensures var pass := Sweep(old(obstacles), y, speed);
              obstacles == pass.obstacles && score == old(score) + pass.removed && over == pass.hit &&
              best == if pass.hit then NewBest(old(best), score) else old(best)
      ensures over ==> score == old(score)
      ensures Boss() == old(Boss()) && frames == old(frames)
    {
      var list, removed, hit := Pass(obstacles, y, speed);
      assert (hit ==> removed == 0) && (!hit ==> InPlay(list)) by {
        SweepInPlay(obstacles, y, speed);
      }
      obstacles := list;
      score := score + removed;
      if hit {
        var finalScore := score;
        if finalScore > best {
          best := finalScore;
        }
      }
      over := hit;
    }

    /** "Try Again": the score and the obstacle list are reset, and the game
        starts over with a fresh player. The best score and the frame counter
        are kept. */
    method Retry()
      requires Valid() && over
      modifies this
      ensures Valid()
      ensures Boss() == START && obstacles == [] && score == 0 && !over
      ensures best == old(best) && frames == old(frames)
    {
      score := 0;
      obstacles := [];
      over := false;
      y, dy, grounded := START_Y, 0.0, false;
    }
  }
}
