/** Obstacles and the rule that spawns them at the right edge of the canvas. */
module Obstacles {
  import opened Canvas
  import opened Difficulty

  /** A candle stands above the ground on its wick; a bear sits on the ground. */
  datatype Kind = Candle | Bear

  datatype Obstacle = Obstacle(x: real, y: real, width: real, height: real, kind: Kind)

  /** The size multiplier picked by the second random draw: large above 0.92,
      normal above 0.4, small otherwise. */
  function SizeMult(sizeRoll: real): (m: real)
    ensures m == 0.7 || m == 1.0 || m == 1.3
    ensures m == 1.3 <==> sizeRoll > 0.92
    ensures m == 0.7 <==> sizeRoll <= 0.4
  {
    if sizeRoll > 0.92 then 1.3 else if sizeRoll > 0.4 then 1.0 else 0.7
  }

  /** The obstacle spawned from the two random draws, at the right edge. */
  function NewObstacle(typeRoll: real, sizeRoll: real): (o: Obstacle)
    ensures o.x == CANVAS_WIDTH
    ensures o.kind == Candle <==> typeRoll > 0.4
    ensures o.width == 30.0 * SizeMult(sizeRoll)
    ensures o.kind == Candle ==>
              o.height == 50.0 * SizeMult(sizeRoll) && o.y + o.height == GROUND_LINE - 10.0 * SizeMult(sizeRoll)
    ensures o.kind == Bear ==>
              o.height == 30.0 * SizeMult(sizeRoll) && o.y + o.height == GROUND_LINE
    ensures 21.0 <= o.width <= 39.0 && 21.0 <= o.height <= 65.0
  {
    var kind := if typeRoll > 0.4 then Candle else Bear;
    var m := SizeMult(sizeRoll);
    Obstacle(CANVAS_WIDTH,
             CANVAS_HEIGHT - (if kind == Candle then 60.0 * m + 20.0 else 30.0 * m + 20.0),
             30.0 * m,
             if kind == Candle then 50.0 * m else 30.0 * m,
             kind)
  }

  /** An obstacle is due when there is none, or when the newest one has
      scrolled more than the minimum distance away from the right edge. */
  predicate SpawnDue(obstacles: seq<Obstacle>, score: nat)
  {
    obstacles == [] || CANVAS_WIDTH - obstacles[|obstacles| - 1].x > MinDistance(score) as real
  }

  /** The spawning stage of a tick: append at most one new obstacle. */
  function Spawn(obstacles: seq<Obstacle>, score: nat, typeRoll: real, sizeRoll: real): (r: seq<Obstacle>)
    ensures |r| == if SpawnDue(obstacles, score) then |obstacles| + 1 else |obstacles|
    ensures r[..|obstacles|] == obstacles
    ensures |r| > |obstacles| ==> r[|obstacles|] == NewObstacle(typeRoll, sizeRoll)
  {
    if SpawnDue(obstacles, score) then obstacles + [NewObstacle(typeRoll, sizeRoll)] else obstacles
  }

  /** Right after a spawn the newest obstacle is at the right edge, so no other
      obstacle can be due before it has scrolled the minimum distance. */
  lemma SpawnThenWait(obstacles: seq<Obstacle>, score: nat, typeRoll: real, sizeRoll: real)
    requires SpawnDue(obstacles, score)
    ensures !SpawnDue(Spawn(obstacles, score, typeRoll, sizeRoll), score)
  {
  }

  /** The shape of every obstacle list in play: widths as spawned, and the
      obstacles strictly left to right in index order, since each one is
      spawned at the right edge and all of them scroll together. */
  predicate InPlay(t: seq<Obstacle>)
  {
    (forall k :: 0 <= k < |t| ==> 21.0 <= t[k].width <= 39.0) &&
    (forall k, l :: 0 <= k < l < |t| ==> t[k].x < t[l].x)
  }

  /** Spawning keeps the list in play: a new obstacle is due only once the
      newest one is more than 180 to the left of the edge it appears at. */
  lemma SpawnKeepsInPlay(obstacles: seq<Obstacle>, score: nat, typeRoll: real, sizeRoll: real)
    requires InPlay(obstacles)
    ensures InPlay(Spawn(obstacles, score, typeRoll, sizeRoll))
  {
    var r := Spawn(obstacles, score, typeRoll, sizeRoll);
    if SpawnDue(obstacles, score) && obstacles != [] {
      var n := |obstacles|;
      assert r == obstacles + [NewObstacle(typeRoll, sizeRoll)];
      forall k, l | 0 <= k < l < |r|
        ensures r[k].x < r[l].x
      {
        if l == n {
          assert obstacles[k].x <= obstacles[n - 1].x;
        } else {
          assert r[k] == obstacles[k] && r[l] == obstacles[l];
        }
      }
    }
  }
}
