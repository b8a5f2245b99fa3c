# Dodge the Block — simulation core in Dafny

This project models the frame-by-frame simulation of the browser game
*Dodge the Block* (`script.js`). The player's square slides along the
bottom of the canvas. Obstacles ("enemies") fall in four lanes, and
power-ups drift down. Each animation frame the game does the following:

- It reads the input and moves the player, clamped to top speed and to
  the canvas edges.
- It lets the fallback spawner add an obstacle and, sometimes, a power-up.
- It sweeps the obstacle, power-up and particle pools from the last entry
  to the first, splicing out what is hit, collected, expired or off-screen.
- It counts the level timer down.

The session counters follow fixed rules:

- A hit costs one shield charge, or a life when there is no shield.
  Losing the last life ends the round.
- Power-ups raise the shield (cap 3) or the lives (cap 5), slow every
  obstacle to 0.64 of its speed, clear all but the big obstacles, or award
  12 points.
- A dodged obstacle is worth 1 point and a finished level 6.

Modules, in dependency order:

- `Geometry`: lane centres, the edge clamp and the padded overlap test.
- `Levels`: the five-level schedule.
- `Entities`: the player, obstacles with their bounded trails, power-ups and
  particles as values, how each is created and how it moves in one frame.
- `Rules`: what a hit and each power-up do to the counters and the pool.
- `Sweeps`: the three reverse sweeps of `update` as recursive functions that
  handle the last entry first, with the lemmas about them.
- `GameState`: the module-level state as `class Game`. It has one method
  per state-changing function of the script, with `update` split into its
  three sweeps and the level timer. Most methods are proved against the
  functions above; the input, pause and reset steps state their new state
  in closed form. `computeLanes`, `addTrail` and `rectIntersect` stay
  outside the class, as `Geometry.ComputeLanes`, `Entities.AddTrail` and
  `Geometry.RectIntersect`.

The pools are `seq` fields that the methods reassign. Each sweep loop runs
on a local copy of its pool, splices entries out of it, and writes it back.
Random draws are method parameters. Those that decide a value are
required to lie in [0, 1). The trail draw of `FrameDraw` is left free,
because it only decides whether a dot is added. The clock
reading is a parameter of `Game.Frame`. The sine of an obstacle's phase is
an input of `FrameDraw`. The canvas size is a parameter of `Game.Reset`,
with width at least 300, the smallest width the page ever gives the
canvas. Positions and speeds are exact reals.

Two behaviours are kept exactly as written, though each is a design point
worth a second look:

- The final level lasts 9999 seconds. When its timer runs out it is
  selected again, re-armed, and 6 points are awarded each time
  (`Levels.FinalLevelRefires`, `Game.TickLevelTimer`).
- Collecting a power-up does not check whether the round is still running.
  An extra life picked up in the same frame as a fatal hit raises the
  lives of a round that is over (`Rules.LifeAfterGameOver`).

Three other details:

- The power-up distance test compares the squared distance with 120²
  instead of taking a square root. For non-negative quantities the
  decision is the same.
- With at most one live power-up, the spawner stops on the capacity test
  before the distance test could ever find a neighbour.
- `Game.OnPlayerHit` is proved against `Rules.HitEffect`. The obstacle
  sweep applies that same function to the counters for each hit, instead of
  calling the method, because the sweep runs on a local copy of the pool.

## Model

| member | source | states |
|---|---|---|
| Geometry.RoundHalfUp | script.js:469 | `Math.round`: the result is within half a unit of the input, halves rounding up |
| Geometry.LaneCentre | script.js:99-107 | a lane centre lies strictly between 26 and width − 26 when the band is positive |
| Geometry.LaneSpacing | script.js:99-107 | lanes are a quarter of the usable band apart and strictly increasing when the band is positive |
| Geometry.ComputeLanes | script.js:99-107 | the loop yields exactly four centres, lane i's being `LaneCentre(width, i)` |
| Geometry.KeepInside | script.js:228 | the clamped left edge is at least 8, at most width − w − 8 when that is possible, and unchanged when already inside |
| Geometry.RectIntersectMeansOverlap | script.js:291-294 | the padded test holds exactly when the padded spans meet on both axes |
| Geometry.RectIntersectSymmetric | script.js:291-294 | the test does not depend on argument order |
| Levels.ClampLevel | script.js:110 | `min(i, 4)`: never above the request, equal to it up to 4, else 4 |
| Levels.Level | script.js:81-87 | every level has a positive duration, an interval of at least 260 and a speed multiplier above 1 |
| Levels.LevelTime | script.js:112 | a level's timer starts at no less than 12000 ms |
| Levels.ScheduleHardens | script.js:81-87 | later levels spawn more often, fall faster and last longer |
| Levels.FinalLevelRefires | script.js:281-283 | the level after the last is the last again, re-armed to 9999000 ms |
| Entities.KindOf | script.js:128-132 | obstacle type thresholds 0.14, 0.34, 0.52, each type exactly on its interval |
| Entities.LaneOf | script.js:122 | the lane is the floor of the draw times 4 |
| Entities.NewEnemyFits | script.js:119-139 | a new obstacle is a 20–56 square on its lane target inside the edge gaps, fully above the canvas, without trail, falling at 2.4–5 times the level multiplier |
| Entities.AddTrailPushes | script.js:156-161 | the trail is a queue bounded by 14: newest dot is the centre, a full trail drops its oldest, nothing else changes |
| Entities.AgeTrail | script.js:240 | the loop ages every dot by dt and changes nothing else |
| Entities.MoveEnemyKeepsShape | script.js:226-240 | motion keeps lane, size and type, does not overshoot the lane target, and keeps a valid obstacle valid |
| Entities.PowerupKindOf | script.js:149-150 | each of the five kinds is drawn exactly on its fifth of [0, 1) |
| Entities.PowerupSize | script.js:151 | the power-up side lies in [34, 72] |
| Entities.NewPowerUpFits | script.js:142-153 | a new power-up is a square sized from the canvas width, of the drawn kind, at the requested height, moved only to stay inside the edge gaps |
| Entities.TooClose | script.js:144-148 | the loop answers true exactly when some live power-up's centre is closer than 120 |
| Entities.PowerupsAfterSpawnRule | script.js:142-153 | nothing is added when full or too close, else exactly the new power-up; the pool stays at most 1 |
| Entities.EnemiesAfterSpawnRule | script.js:119-139 | nothing is added at 18, else exactly the new obstacle; the pool stays at most 18 and valid |
| Entities.MoveParticle | script.js:271-273 | a particle ages by dt and keeps its lifetime |
| Rules.HitEffectRule | script.js:296-312 | a hit costs exactly one shield charge or one life, shield first; score untouched; round ends exactly on the last life; invariant kept |
| Rules.KeepBig | script.js:319 | the filter never grows the pool and keeps only big obstacles drawn from it |
| Rules.KeepBigAppend | script.js:319 | the filter distributes over concatenation, so order is kept |
| Rules.KeepBigCounts | script.js:319 | every big obstacle is kept as often as it occurs, no other is kept |
| Rules.KeepBigOnlyBig | script.js:319 | an all-big pool passes unchanged |
| Rules.PowerupEffectRule | script.js:314-322 | a pickup keeps the invariant, never lowers the score or touches the running flag; boom keeps the big ones, slow scales each speed by 0.64, others leave the pool alone |
| Rules.PowerupCaps | script.js:315-321 | shield and lives stay at most 3 and 5 and rise by at most one; only the score pickup adds points, exactly 12 |
| Rules.LifeAfterGameOver | script.js:260-261 | an extra life collected after the last life was lost gives one life to a round that stays over |
| Sweeps.EnemySweepConserves | script.js:225-254 | each obstacle is kept, dodged for one point, or costs one shield charge or life; no hit is processed once the round is over |
| Sweeps.EnemySweepSessionOk | script.js:243-252 | the obstacle sweep keeps shield in [0, 3], lives in [0, 5] and a life in a running round |
| Sweeps.EnemySweepShrinks | script.js:245-250 | the obstacle sweep never grows the pool |
| Sweeps.EnemySweepKeepsShape | script.js:225-254 | every surviving obstacle stays inside the edge gaps with a bounded trail |
| Sweeps.PowerupSweepKeeps | script.js:257-266 | the power-up sweep keeps the invariant and the running flag, never lowers the score, grows no pool, keeps obstacles valid |
| Sweeps.ParticleSweepSurvivors | script.js:269-275 | every moved particle still within its lifetime survives, every survivor is within its lifetime, and every survivor is a moved particle of the pool |
| Sweeps.ParticleSweepInOrder | script.js:269-275 | the end-to-start splice loop's result equals the front-to-back filter of the moved particles, so order and repeats are kept |
| GameState.ClampSpeed | script.js:459-460 | the velocity is clamped into [−14, 14], unchanged inside it |
| GameState.StepEnemy | script.js:226-240 | the per-obstacle loop body computes `MoveEnemy` |
| GameState.StartX | script.js:469 | the start column is the rounded centre, inside the edge gaps |
| GameState.MakeEnemy | script.js:121-137 | the obstacle built from the draws is `NewEnemy` |
| GameState.SweepStep | script.js:226-253 | one pass of the obstacle loop: moving, splicing and counting at index i leaves the rest of the sweep's result unchanged |
| GameState.SweepEnemies | script.js:225-254 | the reverse splice loop computes `EnemySweep` on the pool and the counters |
| GameState.Game.constructor | script.js:75-78 | load-time state followed by a reset gives a valid fresh round, the player centred at rest above the bottom edge |
| GameState.Game.SetLevel | script.js:109-112 | the level is clamped and its timer and spawn interval re-armed |
| GameState.Game.PlacePlayer | script.js:469-471 | the player is centred above the bottom, at rest, without shield |
| GameState.Game.ClearRound | script.js:472-477 | pools empty, score 0, three lives, running and not paused |
| GameState.Game.Reset | script.js:467-482 | a valid fresh round at level 0 on the given canvas |
| GameState.Game.TogglePause | script.js:484-488 | the pause flag flips and the invariant holds |
| GameState.Game.SpawnEnemy | script.js:119-139 | the pool becomes `EnemiesAfterSpawn` and the invariant holds |
| GameState.Game.SpawnPowerupAt | script.js:142-153 | the pool becomes `PowerupsAfterSpawn` and the invariant holds |
| GameState.Game.FallbackStep | script.js:202-214 | spawns only past the interval, then resets the count and ramps the interval down to no less than 260; otherwise only the count grows |
| GameState.Game.OnPlayerHit | script.js:296-312 | the counters become `HitEffect` of the old ones, only the shield of the player changes |
| GameState.Game.SlowEnemies | script.js:316 | the in-place loop leaves `Slowed` of the old pool |
| GameState.Game.ApplyPowerup | script.js:314-322 | pool and counters become `PowerupEffect` of the old ones |
| GameState.Game.UpdateEnemies | script.js:225-254 | pool and counters become `EnemySweep` of the old ones; invariant kept, score not lowered, pool not grown |
| GameState.Game.SweepPowerups | script.js:257-266 | the reverse splice loop, collecting through `ApplyPowerup`, leaves pools and counters as `PowerupSweep` of the old ones |
| GameState.Game.UpdatePowerups | script.js:257-266 | pools and counters become `PowerupSweep` of the old ones; invariant and running flag kept |
| GameState.Game.UpdateParticles | script.js:269-275 | the particle pool becomes `ParticleSweep` of the old one |
| GameState.Game.TickLevelTimer | script.js:278-287 | an expiry moves to `min(level + 1, 4)`, re-arms timer and interval, adds 6; otherwise only the timer counts down while unpaused |
| GameState.Game.Update | script.js:217-288 | one update keeps the invariant, never lowers the score, never restarts the round, never grows the obstacle pool |
| GameState.Game.ApplyInput | script.js:448-464 | the new velocity is the clamped steering result, the position is clamped to the edge gaps, velocity zeroed at an edge |
| GameState.FrameStep | script.js:436 | the step is the time since the last frame, capped at 60 ms |
| GameState.Game.Frame | script.js:434-445 | the fallback count grows by `FrameStep` or restarts past the interval; nothing but the clock changes unless running and not paused; the pause flag and canvas size are never touched; invariant kept, score not lowered |

## Left out

- Rendering (`drawBackground`, `draw`, `roundRect`), the HUD text, image assets and the DOM event listeners. The listeners' effect is the `Input` value given to `Game.ApplyInput` and the `Game.TogglePause` method.
- Audio (`tryBeep`): a browser API with no effect on the game state.
- `resizeCanvas` and the window it reads: the canvas size is a parameter of `Game.Reset`, and the width is required to be at least 300.
- The resize listener, which re-runs `resizeCanvas` whenever the window changes size, so the canvas width can change in the middle of a round. The model changes the width only on reset. The edge-gap clauses of `Game.Valid`, `Sweeps.EnemySweepKeepsShape` and the player bound of `Game.ApplyInput` hold only while the width stays fixed between resets. After a shrink, obstacles and the player can lie outside the new gaps until lane-seeking or input pulls them back.
- The star field (`initStars` and the star loop in `update`): cosmetic, and it does not interact with anything else.
- `spawnParticles`: particles are only decoration. The model takes the particle pool as given, ages it and expires it, but never adds to it on hits or on the bomb.
- The trail dot colour: it depends only on the obstacle type and is used only for drawing.
- The `Math.sin` of the obstacle phase: it is the `sine` input of each `FrameDraw`. `Math.PI` is the 16-digit decimal that JavaScript prints for it, which differs from the double's exact value in later digits.
- The lane draw in `fallbackStep`, whose result is never used: it changes nothing but the random sequence, which the model takes as parameters.
- Floating-point rounding: positions and speeds are exact reals.
- Game.Update: states the invariant and the monotone counters. It does not repeat the exact pools, which are those of its four sub-steps' contracts in turn.
- Game.Frame: states the clock, the gate, the invariant and the monotone counters. It does not restate the exact post-state of the gated steps, which is given by the contracts of `Game.ApplyInput`, `Game.FallbackStep` and `Game.Update`.
- UI.js (overlay, stored profile and best score, wallet connection) and server.js (a network relay) are not part of this model.
