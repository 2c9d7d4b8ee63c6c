# Boss runner: a verified model of the game engine

This project models the simulation engine of the side-scrolling runner game in
`components/BossGame.tsx`. The game works like this:

- The player, "the boss", is a 48 by 48 box in a fixed lane at x = 50.
- The player falls under gravity and may jump while grounded.
- Candles and bears are spawned at the right edge of an 800 by 300 canvas.
- Obstacles scroll left faster as the score grows.
- An obstacle that leaves the screen scores one point.
- A collision ends the session. The best score kept in browser storage is then overwritten if, and only if, the final score beats it.

The model has one module per stage of a frame:

- `Canvas`: the canvas size and the ground line, 20 above the bottom edge.
- `Difficulty`: speed, gravity and the minimum spawn gap as functions of the score. The square root is abstract: any non-decreasing function with `sqrt(0) = 0` will do.
- `Physics`: the player's position, velocity and `grounded` flag. It holds the physics step, the jump, and their invariant `Settled`: never below the ground line, and at rest on it when grounded.
- `Obstacles`: the size and type draws, the obstacle each pair of draws produces, and the spawn rule.
- `Collision`: the inset bounding-box test, and its equivalence with an overlap of shrunk boxes. The equivalence is between edge formulas: a shrunk box can have a negative width or height.
- `Movement`: the obstacle pass. `Pass` is the loop the game runs. It goes from the newest obstacle down, moves each one in place, stops at the first collision, and splices out each obstacle that has left the screen. `Sweep` is its reference definition. The lemmas about `Sweep` state what the pass promises.
- `Game`: the session as a class.
  - Its fields are the player, the obstacle list, the score, the frame counter, the stored best score and the game-over flag.
  - Its methods are the mount and start (`constructor`), `Jump`, `Tick` and `Retry`.
  - `Tick` is composed of `ApplyPhysics`, `SpawnStep` and `MoveObstacles`.
  - Each method states its whole new state in terms of the functions above, and keeps `Valid`: the player is `Settled`, and while the game runs the obstacle list is `InPlay`.

Four behaviours of the code are easy to misread:

- **Grounded and the ground line.** Being on the ground line does not imply being grounded. Right after a jump the player still stands on the ground line with `grounded` false. `JumpLeavesGroundLine` states this.
- **Obstacle baselines.** Obstacles do not all stand on the same baseline. A bear's bottom edge is on the ground line; a candle's is `10 * sizeMult` above it. `NewObstacle` states both.
- **Score on a collision.** As written, the pass would remove and score obstacles visited before the colliding one (higher indices), so `Sweep` counts those removals. In play there are none. Obstacles are spawned at the right edge and scroll together, so they stay left to right in index order (`InPlay`). A colliding obstacle's right edge is at least 35 from the left edge, so nothing above it can have left the screen. A frame that ends the game therefore scores nothing (`NoRemovalBeforeHit`, `Game.Session.Tick`).
- **Small bears.** A small bear (multiplier 0.7) never collides with the player. Its box shrunk by 12 on every side has a negative height, and the ground line keeps the player too high for the remaining inequalities to hold. `SmallBearHarmless` states this.

## Model

| member | source | states |
|---|---|---|
| Difficulty.Speed | components/BossGame.tsx:89-90 | the speed is at least 6, and exactly 6 at score 0 |
| Difficulty.Gravity | components/BossGame.tsx:91 | gravity is at least 0.8, and exactly 0.8 at score 0 |
| Difficulty.MinDistance | components/BossGame.tsx:102 | the spawn gap lies in [180, 450]; it is 450 at score 0; it reaches the floor 180 exactly from score 54 on |
| Difficulty.DifficultyMonotone | components/BossGame.tsx:89-102 | speed and gravity never decrease, and the spawn gap never increases, as the score grows |
| Physics.Fall | components/BossGame.tsx:94-99 | after a step the player is never below the ground line; when the integrated position would cross it, the player lands exactly on it with zero velocity and grounded; otherwise velocity gains gravity and position gains velocity |
| Physics.Jumped | components/BossGame.tsx:42-47 | a jump leaves y alone and the player airborne; from the ground it sets the velocity to -14.2; in the air it changes nothing |
| Physics.JumpIdempotent | components/BossGame.tsx:42-47 | a second jump request before the next step has no effect: no double jump |
| Physics.JumpKeepsSettled | components/BossGame.tsx:42-47 | a jump preserves the invariant that the player is not below the ground line and rests on it when grounded |
| Physics.FallKeepsSettled | components/BossGame.tsx:94-99 | under positive gravity a step preserves that invariant, and a grounded player stays exactly where it is |
| Physics.JumpLeavesGroundLine | components/BossGame.tsx:42-47 | a player can stand exactly on the ground line without being grounded (right after a jump) |
| Physics.FallSteps | components/BossGame.tsx:94-99 | after at least one step of the physics, the player is not below the ground line |
| Physics.LandsFromStart | components/BossGame.tsx:94-99 | from the start position at gravity 0.8 with no jump, the player first lands, grounded, on the 14th frame |
| Obstacles.SizeMult | components/BossGame.tsx:107-108 | the multiplier is one of 0.7, 1.0 and 1.3; it is 1.3 exactly for draws above 0.92 and 0.7 exactly for draws of at most 0.4 |
| Obstacles.NewObstacle | components/BossGame.tsx:106-115 | a new obstacle starts at the right edge at 30 times the multiplier wide; it is a candle exactly when the type draw exceeds 0.4; a candle is 50m high with its bottom edge 10m above the ground line; a bear is 30m high with its bottom edge on the ground line; sizes stay within [21, 39] wide and [21, 65] high |
| Obstacles.Spawn | components/BossGame.tsx:102-116 | exactly one obstacle is appended when the list is empty or the newest obstacle has scrolled more than the spawn gap, and none otherwise; existing obstacles are untouched |
| Obstacles.SpawnThenWait | components/BossGame.tsx:102-116 | right after a spawn no further obstacle is due at the same score |
| Obstacles.SpawnKeepsInPlay | components/BossGame.tsx:102-116 | spawning keeps the obstacles left to right in index order, with widths in [21, 39] |
| Collision.Collides | components/BossGame.tsx:123-126 | the four-edge test holds exactly when the open-interval overlap formula holds for both boxes with 12 taken off every side (a formula only: a shrunk extent can be negative); it fails whenever the obstacle's shrunk right edge is at or left of the player's shrunk left edge |
| Collision.SmallBearHarmless | components/BossGame.tsx:106-126 | a small bear, wherever it has scrolled, never collides with a player that is not below the ground line |
| Movement.Kept | components/BossGame.tsx:119-139 | a pass without collision never grows the list |
| Movement.Removed | components/BossGame.tsx:138-141 | every obstacle of a pass without collision is either kept or counted as removed, exactly once |
| Movement.Survivors | components/BossGame.tsx:119-139 | each obstacle kept by a pass without collision is an original obstacle moved left by exactly the speed, with one original index for each kept obstacle |
| Movement.SurvivorsIncreasing | components/BossGame.tsx:119-139 | the original indices of the kept obstacles increase: survivors keep their relative order |
| Movement.SurvivorsExact | components/BossGame.tsx:138-139 | an obstacle is kept exactly when it is still on screen after moving |
| Movement.LastHit | components/BossGame.tsx:119-126 | the first collision the pass meets is at a valid index |
| Movement.LastHitIsHighest | components/BossGame.tsx:119-136 | the first collision is at the highest colliding index; no obstacle above it collides; no collision means no obstacle collides at all |
| Movement.SweepFacts | components/BossGame.tsx:119-143 | the pass ends in a collision exactly when some moved obstacle meets the player; obstacles kept plus obstacles removed equal the obstacles visited; without a collision the kept obstacles are the moved on-screen ones; on a collision the obstacles below it are untouched, the colliding one has moved, and only those above it can have been removed and scored |
| Movement.KeptKeepsInPlay | components/BossGame.tsx:119-139 | a pass without collision keeps the obstacles left to right, with their widths |
| Movement.KeptKeepsOrder | components/BossGame.tsx:119-139 | survivors of a pass without collision stay strictly left to right |
| Movement.KeptKeepsWidths | components/BossGame.tsx:119-139 | survivors of a pass without collision keep their widths |
| Movement.NoneOffscreen | components/BossGame.tsx:138-141 | a pass over obstacles that all stay on screen removes and scores nothing |
| Movement.NoRemovalBeforeHit | components/BossGame.tsx:119-141 | in play, no obstacle above the first collision can have left the screen, so nothing is scored before it |
| Movement.SweepInPlay | components/BossGame.tsx:119-143 | in play, a pass either ends in a collision having scored nothing, or leaves the list in play |
| Movement.Pass | components/BossGame.tsx:119-143 | the in-place loop (reverse indices, move, return at the first hit, splice out and count) produces exactly the list, removal count and collision flag of the reference pass |
| Game.NewBest | components/BossGame.tsx:128-133 | the stored best becomes the larger of itself and the final score, and changes only when the final score is strictly greater |
| Game.Session.constructor | components/BossGame.tsx:17-20 | a session starts with the stored best, score 0, no obstacles, frame 0 and the player at its start position |
| Game.Session.Jump | components/BossGame.tsx:42-47 | while the session runs, the player becomes its jumped state; nothing else changes |
| Game.Session.ApplyPhysics | components/BossGame.tsx:94-99 | the player becomes its state after one physics step; nothing else changes |
| Game.Session.SpawnStep | components/BossGame.tsx:102-116 | the obstacle list becomes the spawned list; nothing else changes |
| Game.Session.MoveObstacles | components/BossGame.tsx:119-143 | list, score and game-over flag become the outcome of the pass, and on a collision the best becomes the larger of best and final score; player and frame counter are unchanged; on a collision the score is unchanged |
| Game.Session.Tick | components/BossGame.tsx:84-143 | one frame: the counter advances; speed, gravity and spawn gap all come from the score the frame starts with; player, obstacles, score, game over and best become the physics step, spawn and pass in that order; a frame that ends the game leaves the score unchanged; the invariant is kept |
| Game.Session.Retry | components/BossGame.tsx:218-222 | Try Again resets the score to 0 and the list to empty, clears game over, and restarts with a fresh player; the best score and frame counter are kept |

## Left out

- Rendering: clearing the canvas, the grid and its offset, the ground line, the sprite, the candle wicks and the bear. It is drawing only.
- React plumbing: state hooks, effect scheduling, the display-score and game-over re-render triggers, the overlays, and `requestAnimationFrame` scheduling. These are framework machinery. The model's `Tick` requires the session not to be over, because the loop is not scheduled then.
- Keyboard and touch listeners, and `preventDefault`. Their only effect on the engine is a call to `Jump`.
- Browser storage and `parseInt`. The stored best is a natural number, read once at mount (0 when absent) and compared and written on a collision.
  - The model assumes that nothing else writes the key between those two points, and that its text parses as a natural number.
  - Unparsable text (which would make the comparison with `NaN` always false) is not modelled.
- `Math.random`: the two draws are parameters of `Tick`.
- `Math.sqrt`, and IEEE-754 floating point. Coordinates are exact reals, and the square root is any non-decreasing function with `sqrt(0) = 0`. Rounding, for example in the exact frame numbers of `LandsFromStart`, is not modelled.
- In-place mutation of obstacle objects: the obstacle loop runs on a value copy of the list, and the result is written back into the session's field. In the game there is an array of objects, each mutated in place. No other reference to those objects exists, so the order of effects is the same.
- The share link and `window.open`.
- The remaining files of the repository: static page markup and a wrapper around an external swap widget. They hold no engine logic.
- Nothing further to model on input and tuning: the engine has a single difficulty curve and one storage key (`boss_high_score`), and no input debounce, mouse input or audio.
