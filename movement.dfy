/** The obstacle pass of a tick. Obstacles are visited from the newest (the
    highest index) down to the oldest; each one is moved left by the current
    speed and checked against the player. The first collision ends the pass;
    otherwise an obstacle that has left the screen is removed and scores one
    point. */
module Movement {
  import opened Obstacles
  import opened Collision

  datatype Option<T> = None | Some(value: T)

  /** An obstacle moved left by `speed`. */
  function Advance(o: Obstacle, speed: real): Obstacle
  {
    o.(x := o.x - speed)
  }

  /** Entirely past the left edge of the canvas. */
  predicate Offscreen(o: Obstacle)
  {
    o.x + o.width < 0.0
  }

  /** Whether `o`, once moved, collides with the player standing at height `y`. */
  predicate Hits(y: real, o: Obstacle, speed: real)
  {
    Collides(BossBox(y), ObstacleBox(Advance(o, speed)))
  }

  /** The obstacles of `t` that survive a pass without collision, moved, in
      their original order. */
  function Kept(t: seq<Obstacle>, speed: real): (r: seq<Obstacle>)
    ensures |r| <= |t|
  {
    if t == [] then []
    else
      var o := Advance(t[0], speed);
      (if Offscreen(o) then [] else [o]) + Kept(t[1..], speed)
  }

  /** How many obstacles of `t` leave the screen during a pass without
      collision: each of them is either kept or counted here. */
  function Removed(t: seq<Obstacle>, speed: real): (n: nat)
    ensures n + |Kept(t, speed)| == |t|
  {
    if t == [] then 0
    else (if Offscreen(Advance(t[0], speed)) then 1 else 0) + Removed(t[1..], speed)
  }

  /** For each obstacle of `t[from..]` that a pass without collision keeps,
      the index in `t` it came from. */
  function Survivors(t: seq<Obstacle>, from: nat, speed: real): (idx: seq<nat>)
    requires from <= |t|
    ensures |idx| == |Kept(t[from..], speed)|
    ensures forall k :: 0 <= k < |idx| ==> from <= idx[k] < |t|
    ensures forall k :: 0 <= k < |idx| ==> Kept(t[from..], speed)[k] == Advance(t[idx[k]], speed)
    decreases |t| - from
  {
    if from == |t| then []
    else
      assert t[from..][1..] == t[from + 1..];
      var head := if Offscreen(Advance(t[from], speed)) then [] else [from];
      head + Survivors(t, from + 1, speed)
  }

  /** Strictly increasing. */
  predicate Increasing(s: seq<nat>)
  {
    forall k, l :: 0 <= k < l < |s| ==> s[k] < s[l]
  }

  /** The survivors' indices increase, so a pass without collision keeps the
      obstacles' relative order. */
  lemma {:induction false} SurvivorsIncreasing(t: seq<Obstacle>, from: nat, speed: real)
    requires from <= |t|
    ensures Increasing(Survivors(t, from, speed))
    decreases |t| - from
  {
    if from < |t| {
      SurvivorsIncreasing(t, from + 1, speed);
      var idx, rest := Survivors(t, from, speed), Survivors(t, from + 1, speed);
      if Offscreen(Advance(t[from], speed)) {
        assert idx == rest;
      } else {
        assert idx == [from] + rest;
        ConsIncreasing(from, rest);
      }
    }
  }

  /** Putting an index below all of an increasing sequence in front of it. */
  lemma {:induction false} ConsIncreasing(i: nat, s: seq<nat>)
    requires Increasing(s)
    requires forall k :: 0 <= k < |s| ==> i < s[k]
    ensures Increasing([i] + s)
  {
    var c := [i] + s;
    forall k, l | 0 <= k < l < |c|
      ensures c[k] < c[l]
    {
      assert c[l] == s[l - 1];
      if k > 0 {
        assert c[k] == s[k - 1];
      }
    }
  }

  /** The survivors are exactly the indices whose obstacle is still on
      screen after moving. */
  lemma {:induction false} SurvivorsExact(t: seq<Obstacle>, from: nat, speed: real)
    requires from <= |t|
    ensures forall j :: from <= j < |t| ==> (!Offscreen(Advance(t[j], speed)) <==> j in Survivors(t, from, speed))
    decreases |t| - from
  {
    if from < |t| {
      SurvivorsExact(t, from + 1, speed);
      var idx, rest := Survivors(t, from, speed), Survivors(t, from + 1, speed);
      var head := if Offscreen(Advance(t[from], speed)) then [] else [from];
      assert idx == head + rest;
      assert from !in rest;
      forall j | from <= j < |t|
        ensures !Offscreen(Advance(t[j], speed)) <==> j in idx
      {
        assert j in idx <==> j in head || j in rest;
      }
    }
  }

  /** The highest index whose obstacle, once moved, collides with the player:
      the first collision the pass meets. */
  function LastHit(t: seq<Obstacle>, y: real, speed: real): (r: Option<nat>)
    ensures r.Some? ==> r.value < |t|
  {
    if t == [] then None
    else if Hits(y, t[|t| - 1], speed) then Some(|t| - 1)
    else LastHit(t[..|t| - 1], y, speed)
  }

  /** `LastHit` finds the highest colliding index, and `None` means that no
      obstacle collides. */
  lemma {:induction false} LastHitIsHighest(t: seq<Obstacle>, y: real, speed: real)
    ensures var h := LastHit(t, y, speed);
            h.Some? ==> h.value < |t| && Hits(y, t[h.value], speed) &&
                        forall k :: h.value < k < |t| ==> !Hits(y, t[k], speed)
    ensures LastHit(t, y, speed).None? ==> forall k :: 0 <= k < |t| ==> !Hits(y, t[k], speed)
    decreases |t|
  {
    if t != [] && !Hits(y, t[|t| - 1], speed) {
      var front := t[..|t| - 1];
      LastHitIsHighest(front, y, speed);
      assert forall k :: 0 <= k < |front| ==> front[k] == t[k];
    }
  }

  /** Visiting index `i` from the top: the prefix up to `i` contains a
      collision at `i` or whatever collision lies below it. */
  lemma HitStep(t: seq<Obstacle>, i: nat, y: real, speed: real)
    requires i < |t|
    ensures LastHit(t[..i + 1], y, speed) ==
            if Hits(y, t[i], speed) then Some(i) else LastHit(t[..i], y, speed)
  {
    assert t[..i + 1][..i] == t[..i];
  }

  /** What a pass leaves behind: the obstacle list, how many obstacles it
      removed (each worth one point), and whether it ended in a collision. */
  datatype Outcome = Outcome(obstacles: seq<Obstacle>, removed: nat, hit: bool)

  /** The whole pass over `t` with the player at height `y`. */
  function Sweep(t: seq<Obstacle>, y: real, speed: real): Outcome
  {
    match LastHit(t, y, speed)
    case None => Outcome(Kept(t, speed), Removed(t, speed), false)
    case Some(j) =>
      Outcome(t[..j] + [Advance(t[j], speed)] + Kept(t[j + 1..], speed), Removed(t[j + 1..], speed), true)
  }

  /** What a pass promises: it ends in a collision exactly when some
      obstacle, once moved, meets the player; every obstacle either remains
      in the list or is scored, exactly once; a pass without collision keeps
      precisely the obstacles still on screen, moved. On a collision at index
      `j` (the highest index that collides) the obstacles below `j` are
      untouched, the one at `j` has moved, and only those above `j` can have
      been scored. */
  lemma {:induction false} SweepFacts(t: seq<Obstacle>, y: real, speed: real)
    ensures var r := Sweep(t, y, speed);
            (r.hit <==> exists k :: 0 <= k < |t| && Hits(y, t[k], speed)) &&
            |r.obstacles| + r.removed == |t| &&
            (!r.hit ==> r.obstacles == Kept(t, speed))
    ensures var r, h := Sweep(t, y, speed), LastHit(t, y, speed);
            h.Some? ==> h.value < |r.obstacles| && r.obstacles[..h.value] == t[..h.value] &&
                        r.obstacles[h.value] == Advance(t[h.value], speed) &&
                        r.removed == Removed(t[h.value + 1..], speed)
  {
    LastHitIsHighest(t, y, speed);
  }

  /** Visiting index `i` from the top. `list` is the list after visiting
      `t[i + 1..]`; moving `t[i]` in place gives the list a collision at `i`
      stops with, and splicing it out when it has left the screen gives the
      list after visiting `t[i..]`, with one more point scored. */
  lemma {:induction false} VisitStep(t: seq<Obstacle>, i: nat, speed: real, list: seq<Obstacle>)
    requires i < |t|
    requires list == t[..i + 1] + Kept(t[i + 1..], speed)
    ensures i < |list| && list[i] == t[i]
    ensures var o := Advance(t[i], speed);
            var moved := list[i := o];
            moved == t[..i] + [o] + Kept(t[i + 1..], speed) &&
            (if Offscreen(o) then moved[..i] + moved[i + 1..] else moved) == t[..i] + Kept(t[i..], speed) &&
            Removed(t[i..], speed) == (if Offscreen(o) then 1 else 0) + Removed(t[i + 1..], speed)
  {
    MoveInPlace(t, i, speed, list);
    SpliceOut(t, i, speed, list[i := Advance(t[i], speed)]);
  }

  /** Moving `t[i]` in place in the list after visiting `t[i + 1..]`. */
  lemma {:induction false} MoveInPlace(t: seq<Obstacle>, i: nat, speed: real, list: seq<Obstacle>)
    requires i < |t|
    requires list == t[..i + 1] + Kept(t[i + 1..], speed)
    ensures i < |list| && list[i] == t[i]
    ensures list[i := Advance(t[i], speed)] == t[..i] + [Advance(t[i], speed)] + Kept(t[i + 1..], speed)
  {
    assert t[..i + 1] == t[..i] + [t[i]];
  }

  /** Splicing out the moved obstacle at `i` when it has left the screen. */
  lemma {:induction false} SpliceOut(t: seq<Obstacle>, i: nat, speed: real, moved: seq<Obstacle>)
    requires i < |t|
    requires moved == t[..i] + [Advance(t[i], speed)] + Kept(t[i + 1..], speed)
    ensures (if Offscreen(Advance(t[i], speed)) then moved[..i] + moved[i + 1..] else moved) ==
            t[..i] + Kept(t[i..], speed)
    ensures Removed(t[i..], speed) == (if Offscreen(Advance(t[i], speed)) then 1 else 0) + Removed(t[i + 1..], speed)
  {
    assert t[i..][1..] == t[i + 1..];
    var o := Advance(t[i], speed);
    if Offscreen(o) {
      assert moved[..i] == t[..i];
      assert moved[i + 1..] == Kept(t[i + 1..], speed);
    } else {
      assert Kept(t[i..], speed) == [o] + Kept(t[i + 1..], speed);
      assert t[..i] + [o] + Kept(t[i + 1..], speed) == t[..i] + ([o] + Kept(t[i + 1..], speed));
    }
  }

  /** The outcome of a pass whose first collision is at index `i`. */
  lemma SweepHitAt(t: seq<Obstacle>, y: real, speed: real, i: nat)
    requires LastHit(t, y, speed) == Some(i)
    ensures i < |t|
    ensures Sweep(t, y, speed) ==
            Outcome(t[..i] + [Advance(t[i], speed)] + Kept(t[i + 1..], speed), Removed(t[i + 1..], speed), true)
  {
  }

  /** The outcome of a pass that meets no collision. */
  lemma SweepClear(t: seq<Obstacle>, y: real, speed: real)
    requires LastHit(t, y, speed) == None
    ensures Sweep(t, y, speed) == Outcome(Kept(t, speed), Removed(t, speed), false)
  {
  }

  /** The obstacle pass as the game runs it: a loop from the highest index
      down that moves each obstacle in place, returns at the first collision,
      and splices out each obstacle that has left the screen. */
  method Pass(t: seq<Obstacle>, y: real, speed: real) returns (list: seq<Obstacle>, removed: nat, hit: bool)
    ensures Sweep(t, y, speed) == Outcome(list, removed, hit)
  {
    list, removed, hit := t, 0, false;
    var i := |list|;
    assert t[..i] == t;
    while i > 0
      invariant 0 <= i <= |t|
      invariant list == t[..i] + Kept(t[i..], speed)
      invariant removed == Removed(t[i..], speed)
      invariant LastHit(t[..i], y, speed) == LastHit(t, y, speed)
    {
      i := i - 1;
      VisitStep(t, i, speed, list);
      HitStep(t, i, y, speed);
      var o := list[i];
      o := o.(x := o.x - speed);
      assert o == Advance(t[i], speed);
      list := list[i := o];
      if Collides(BossBox(y), ObstacleBox(o)) {
        SweepHitAt(t, y, speed, i);
        hit := true;
        return;
      }
      if o.x + o.width < 0.0 {
        list := list[..i] + list[i + 1..];
        removed := removed + 1;
      }
    }
    assert t[0..] == t;
    SweepClear(t, y, speed);
  }

  /** A pass without collision keeps the list in play: survivors keep their
      widths and their order, and they all move by the same speed. */
  lemma {:induction false} KeptKeepsInPlay(t: seq<Obstacle>, speed: real)
    requires InPlay(t)
    ensures InPlay(Kept(t, speed))
  {
    KeptKeepsOrder(t, speed);
    KeptKeepsWidths(t, speed);
  }

  /** Survivors stay left to right. */
  lemma {:induction false} KeptKeepsOrder(t: seq<Obstacle>, speed: real)
    requires forall k, l :: 0 <= k < l < |t| ==> t[k].x < t[l].x
    ensures var kept := Kept(t, speed);
            forall k, l :: 0 <= k < l < |kept| ==> kept[k].x < kept[l].x
  {
    var kept, idx := Kept(t, speed), Survivors(t, 0, speed);
    assert t[0..] == t;
    SurvivorsIncreasing(t, 0, speed);
    forall k, l | 0 <= k < l < |kept|
      ensures kept[k].x < kept[l].x
    {
      assert idx[k] < idx[l];
    }
  }

  /** Survivors keep their widths. */
  lemma {:induction false} KeptKeepsWidths(t: seq<Obstacle>, speed: real)
    requires forall k :: 0 <= k < |t| ==> 21.0 <= t[k].width <= 39.0
    ensures var kept := Kept(t, speed);
            forall k :: 0 <= k < |kept| ==> 21.0 <= kept[k].width <= 39.0
  {
    var kept, idx := Kept(t, speed), Survivors(t, 0, speed);
    assert t[0..] == t;
    forall k | 0 <= k < |kept|
      ensures 21.0 <= kept[k].width <= 39.0
    {
      assert kept[k] == Advance(t[idx[k]], speed);
    }
  }

  /** A pass over obstacles that all stay on screen removes nothing. */
  lemma {:induction false} NoneOffscreen(t: seq<Obstacle>, speed: real)
    requires forall k :: 0 <= k < |t| ==> !Offscreen(Advance(t[k], speed))
    ensures Removed(t, speed) == 0
    decreases |t|
  {
    if t != [] {
      assert !Offscreen(Advance(t[0], speed));
      NoneOffscreen(t[1..], speed);
    }
  }

  /** In play, nothing above a collision can have left the screen: an obstacle
      that meets the player has its right edge inside the player's shrunk box,
      at least 35 from the left edge, and every obstacle above it is further
      right. So a pass that ends in a collision scores nothing. */
  lemma NoRemovalBeforeHit(t: seq<Obstacle>, y: real, speed: real, j: nat)
    requires InPlay(t)
    requires LastHit(t, y, speed) == Some(j)
    ensures Removed(t[j + 1..], speed) == 0
  {
    LastHitIsHighest(t, y, speed);
    assert Hits(y, t[j], speed);
    assert t[j].x - speed > 35.0;
    var above := t[j + 1..];
    forall k | 0 <= k < |above|
      ensures !Offscreen(Advance(above[k], speed))
    {
      assert above[k] == t[j + 1 + k];
    }
    NoneOffscreen(above, speed);
  }

  /** A pass over a list in play either scores nothing and ends the game, or
      leaves a list that is still in play. */
  lemma SweepInPlay(t: seq<Obstacle>, y: real, speed: real)
    requires InPlay(t)
    ensures var r := Sweep(t, y, speed);
            (r.hit ==> r.removed == 0) && (!r.hit ==> InPlay(r.obstacles))
  {
    match LastHit(t, y, speed)
    case None => KeptKeepsInPlay(t, speed);
    case Some(j) => NoRemovalBeforeHit(t, y, speed, j);
  }
}
