/** Difficulty as a function of the score: the scroll speed grows with the
    square root of the score, gravity grows linearly, and the minimum gap
    between spawned obstacles shrinks linearly down to a floor.

    The square root is kept abstract: any `sqrt` that is non-decreasing and
    maps 0 to 0 will do. */
module Difficulty {

  /** What the model relies on about the square root. */
  ghost predicate MonotoneRoot(sqrt: nat -> real)
  {
    sqrt(0) == 0.0 && forall a: nat, b: nat :: a <= b ==> sqrt(a) <= sqrt(b)
  }

  /** The scroll speed: 6 plus half the square root of the score. */
  function Speed(sqrt: nat -> real, score: nat): (v: real)
    requires MonotoneRoot(sqrt)
    ensures v >= 6.0
    ensures score == 0 ==> v == 6.0
  {
    6.0 + sqrt(score) * 0.5
  }

  /** Gravity: 0.8 plus 0.005 per point. */
  function Gravity(score: nat): (g: real)
    ensures g >= 0.8
    ensures score == 0 ==> g == 0.8
  {
    0.8 + score as real * 0.005
  }

  /** The gap the last obstacle must have scrolled past the right edge before
      the next one may appear: 450 less 5 per point, but never below 180. */
  function MinDistance(score: nat): (d: int)
    ensures 180 <= d <= 450
    ensures score == 0 ==> d == 450
    ensures d == 180 <==> score >= 54
  {
    var shrinking := 450 - score * 5;
    if 180 >= shrinking then 180 else shrinking
  }

  /** A higher score never makes the game easier on any of the three axes. */
  lemma DifficultyMonotone(sqrt: nat -> real, a: nat, b: nat)
    requires MonotoneRoot(sqrt)
    requires a <= b
    ensures Speed(sqrt, a) <= Speed(sqrt, b)
    ensures Gravity(a) <= Gravity(b)
    ensures MinDistance(b) <= MinDistance(a)
  {
  }
}
