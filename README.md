# Arcade game core in Dafny

This is a model of the game logic of a small Frogger-style browser game, with proofs about it.
The player crosses a grid of 5 columns and 6 rows one block per key press. Enemy bugs run
left to right along the three middle lanes. Reaching the top row wins: the player goes back to
the start and all enemies are cleared. Being hit by an enemy loses: only the player goes back to
the start. The model covers `js/app.js` (classes `Range`, `CollisionArea`, `Enemy`, `Player` and
the session functions) and the constants of `js/constants.js`.

Modules, leaves first:

- `Constants` (`constants.dfy`): canvas, grid and block dimensions, and the spawn rate.
- `Ranges` (`ranges.dfy`): the inclusive range and its `overlaps` test, modelled as written.
  Against a range the test is one-sided: it only asks whether an endpoint of the argument lies
  in the receiver. So `[2,3].overlaps([0,5])` is false.
- `Collision` (`collision.dfy`): the four-number collision area, `collidesWith`, and the areas
  of an enemy and of the player (the two `collisionArea` getters).
- `EnemyEntity` (`enemy.dfy`): class `Enemy`. Its position `x` is the one field that changes.
- `PlayerEntity` (`player.dfy`): class `Player` and `Move`, the movement rule on values that
  `handleInput` follows.
- `Session` (`game.dfy`): class `Game`, which holds the global `player` and `allEnemies`, and the
  session functions `handleGameWon`, `handleGameLost`, `checkCollisions`, `spawnEnemy`,
  `deleteEnemy` and the spawn period.

Pixel quantities are `real`, so `BLOCK_WIDTH / 4 = 25.25` is exact. Block coordinates are `int`.

The main result is about collisions. `collidesWith` uses the one-sided range test, yet at its
only call site it is exact rectangle intersection. There the enemy's area is the receiver and
the player's area is the argument. The player's area is half a block wide and the enemy's a
full block, and both are one row band high (`Collision.EnemyHitsPlayerIffIntersects`).
Concretely, an enemy hits the player exactly when it is on the player's row and its left edge
is within three quarters of a block of the left edge of the player's block
(`Collision.EnemyHitsPlayerIff`).

`checkCollisions` resets the player inside its loop. Enemies later in the list are therefore
checked against the start block's area. `Session.Scan` models that loop step by step.
`Session.ScanClosedForm` proves that the player ends on the start block exactly when some enemy
hit its original area.

`Session.Game.Valid` is the session invariant. The player is on the grid. The enemy list holds
distinct objects, each on rows 1..3 with a speed in [50, 300), as `spawnEnemy` creates them.
Every session method keeps it. Because enemies are distinct, `deleteEnemy` removes the enemy
itself (`Session.DeletedDistinct`). An enemy that has moved past the canvas is then gone from
the list.

Two behaviours of the code are easy to get wrong:

- The range test against a range is one-sided. `Ranges.ContainedReceiverNotReported` shows
  where it differs from the symmetric test. `Ranges.OverlapsNarrowerIffIntersects` shows when
  the two agree.
- From the start block (2,4) the goal row 0 is four "up" inputs away
  (`PlayerEntity.FourUpsReachGoal`).

Inputs from outside become parameters of the model:

- `spawnEnemy` receives the two `Math.random()` draws, each in [0, 1). It computes the lane and
  the speed from them as the code does.
- `Enemy.update` returns a flag instead of calling `deleteEnemy` itself.
  `Game.UpdateEnemy` applies the flag, which gives the same combined effect.
- `Player.update` returns a "won" flag. `Game.UpdatePlayer` then calls the win handler.

## Model

| member | source | states |
|---|---|---|
| `Constants.CanvasMatchesGrid` | js/constants.js:1-5 | the canvas width 505 is the number of columns (5) times the block width (101) |
| `Constants.QuarterBlockIsFractional` | js/constants.js:5 | a quarter block is 25.25 pixels, not a whole number; half a block (50.5) is at most one block |
| `Ranges.Range.RangesOverlap` | js/app.js:193-195 | the static wrapper holds exactly when the first range contains the second's start or its end |
| `Ranges.Range.Overlaps` | js/app.js:178-185 | against a number: true iff the range contains it; against a range: true iff the receiver contains the argument's start or its end (one-sided) |
| `Ranges.IntersectsIff` | js/app.js:143-157 | two well-formed inclusive ranges share a point iff `a.start <= b.end && b.start <= a.end` |
| `Ranges.OverlapsSound` | js/app.js:182-183 | for every pair, a reported overlap with a well-formed argument means the two ranges share a point |
| `Ranges.OverlapsReflexive` | js/app.js:182-183 | every well-formed range overlaps itself |
| `Ranges.OverlapsNarrowerIffIntersects` | js/app.js:182-183 | with an argument no wider than the receiver, the one-sided test holds iff the ranges share a point |
| `Ranges.ContainedReceiverNotReported` | js/app.js:182-183 | `[2,3].overlaps([0,5])` is false although the ranges intersect, while `[0,5].overlaps([2,3])` is true |
| `Collision.RowBand` | js/app.js:30-31 | the Y range of block row `yBlock` starts at `yBlock * BLOCK_HEIGHT` and is `BLOCK_HEIGHT - 1` high |
| `Collision.EnemyArea` | js/app.js:27-33 | an enemy's area is well-formed, starts at its `x`, is one block wide and covers its row band |
| `Collision.PlayerArea` | js/app.js:75-81 | the player's area is well-formed and half a block wide; it lies strictly inside its block, centred, and covers its row band |
| `Collision.CollisionArea.XRange` | js/app.js:252-254 | the X range spans `endX - startX`, is well-formed iff `startX <= endX`, and then contains both bounds |
| `Collision.CollisionArea.YRange` | js/app.js:259-261 | the Y range spans `endY - startY`, is well-formed iff `startY <= endY`, and then contains both bounds |
| `Collision.CollisionArea.CollidesWith` | js/app.js:267-270 | true iff our X range contains the other's `startX` or `endX` and our Y range contains its `startY` or `endY`; a reported collision with a well-formed area is a shared pixel |
| `Collision.CollidesWithNarrowerIffIntersects` | js/app.js:267-270 | when the receiver is at least as wide on both axes, `collidesWith` is true rectangle intersection |
| `Collision.EnemyHitsPlayerIffIntersects` | js/app.js:293 | with the enemy area as receiver and the player area as argument, `collidesWith` is true rectangle intersection |
| `Collision.RowBandsOverlapIffSameRow` | js/app.js:30-31 | two row bands overlap exactly when they are the same block row |
| `Collision.EnemyHitsPlayerIff` | js/app.js:293 | an enemy hits the player iff same row and its `x` is within 3/4 of a block of the player block's left edge |
| `Collision.FarEnemyMisses` | js/app.js:293 | an enemy more than a block away horizontally never hits the player |
| `Collision.SameBlockHits` | js/app.js:293 | an enemy exactly on the player's block hits it |
| `EnemyEntity.Enemy.constructor` | js/app.js:17-22 | a new enemy is at `x = -BLOCK_WIDTH`, fully left of the canvas, on row `1 + enemyRow`, with the given speed |
| `EnemyEntity.Enemy.Area` | js/app.js:27-33 | the getter's area is well-formed, runs from `x` to `x + BLOCK_WIDTH` and covers the pixel band of the enemy's row |
| `EnemyEntity.Enemy.Update` | js/app.js:39-44 | `x` advances by `speed * dt`; it strictly increases for positive speed and dt; deletion is asked for iff `x > CANVAS_WIDTH` |
| `EnemyEntity.PositionAfterIsLinear` | js/app.js:39-40 | after any sequence of updates the enemy has moved speed times the total time; with positive speed and deltas it moved right |
| `PlayerEntity.Move` | js/app.js:112-139 | falsy input: no change; unknown names throw with the source's message; otherwise at most one block in the named direction, staying put only at that edge, never leaving the grid |
| `PlayerEntity.Player.constructor` | js/app.js:66-70 | a new player is at the start block (2,4), which is on the grid |
| `PlayerEntity.Player.Area` | js/app.js:75-81 | the getter's area is well-formed, half a block wide, strictly inside the player's block, and covers its row's pixel band |
| `PlayerEntity.Player.Update` | js/app.js:87-91 | the win signal is raised exactly when the player is on row 0 |
| `PlayerEntity.Player.Reset` | js/app.js:103-106 | the player is at (2,4) whatever its position was, so repeated resets equal one |
| `PlayerEntity.Player.HandleInput` | js/app.js:112-139 | the position becomes the one `Move` gives, or stays the same when `Move` throws; the grid invariant is kept |
| `PlayerEntity.StartAndLanesInGrid` | js/app.js:68-69 | the start block and enemy rows 1, 2, 3 lie in the grid; the start row is no enemy row and not the goal row |
| `PlayerEntity.MoveAllInGrid` | js/app.js:112-139 | any sequence of inputs from a grid position ends on the grid; an input that throws leaves the position for the next one |
| `PlayerEntity.FourUpsReachGoal` | js/app.js:116-120 | from (2,4) four "up" inputs reach the goal row 0 and three only reach row 1; an unknown name in between changes nothing |
| `Session.IndexOf` | js/app.js:311 | `indexOf` gives the first index holding the element, or -1 exactly when it is absent |
| `Session.SpliceOne` | js/app.js:311 | `splice(start, 1)` removes the element at `start`; a negative start counts from the end; a start past the end removes nothing |
| `Session.Deleted` | js/app.js:310-312 | a present enemy loses its first occurrence, the rest keep their order; an absent one makes the last enemy go |
| `Session.DeletedDistinct` | js/app.js:310-312 | deletion adds no element and keeps a list of distinct entries distinct; on such a list the deleted element is gone afterwards |
| `Session.CheckOne` | js/app.js:293-295 | one loop step: a hit against the player's current block gives the start block, otherwise the block is kept |
| `Session.Scan` | js/app.js:292-296 | the loop over the enemies in order ends either on the start block or on the block the player had |
| `Session.ScanClosedForm` | js/app.js:291-297 | the collision loop leaves the player at the start iff some enemy hits its original area, else untouched |
| `Session.CheckTwiceIsCheckOnce` | js/app.js:291-297 | checking collisions twice with nothing moving in between is the same as checking once |
| `Session.SpawnLane` | js/app.js:303 | the lane `floor(3 * draw)` of a draw in [0,1) is 0, 1 or 2, so its row `1 + lane` is on the grid |
| `Session.SpawnSpeed` | js/app.js:303 | the speed `50 + 250 * draw` of a draw in [0,1) lies in [50, 300) |
| `Session.SpawnPeriod` | js/app.js:319 | for a positive rate the period is positive and one period at that rate spawns one enemy per 1000 ms |
| `Session.DefaultSpawnPeriod` | js/constants.js:12 | the default rate 0.5 is positive and gives a spawn period of 2000 ms |
| `Session.Game.constructor` | js/app.js:341-342 | the session starts with a fresh player at the start block and no enemies, so the game invariant holds |
| `Session.Game.HandleGameWon` | js/app.js:276-279 | afterwards the player is at (2,4) and the enemy list is empty |
| `Session.Game.HandleGameLost` | js/app.js:284-286 | afterwards the player is at (2,4) and the enemy list is unchanged; the game invariant is kept |
| `Session.Game.CheckCollisions` | js/app.js:291-297 | the enemy list is unchanged; the player ends at (2,4) if some enemy hit it, otherwise where it was |
| `Session.Game.SpawnEnemy` | js/app.js:302-304 | exactly one fresh enemy is appended, at `x = -BLOCK_WIDTH`, row 1..3, speed in [50,300); earlier entries unchanged; the game invariant is kept |
| `Session.Game.DeleteEnemy` | js/app.js:310-312 | the enemy list becomes `Deleted` of the old list; the invariant is kept and an enemy of the game is gone afterwards |
| `Session.Game.UpdatePlayer` | js/app.js:87-90 | on row 0 the win reset happens (player at start, no enemies); otherwise nothing changes |
| `Session.Game.UpdateEnemy` | js/app.js:39-44 | the enemy advances by `speed * dt` and is deleted iff its new `x` exceeds the canvas width; an enemy of the game moves right for `dt > 0` and, once past the canvas, is no longer in the list |

## Left out

- Drawing is not modelled: the `render` methods, `ctx.drawImage`, `Resources.get` and the sprite URLs of both characters.
- The `keyup` listener (js/app.js:330-339) is DOM plumbing. Its one effect on the model is that an unmapped key delivers `undefined`, which is `Input.Absent`.
- `spawnEnemiesLoop` schedules itself with `setTimeout` (js/app.js:318-326). Only its period `1000 / spawnRate` is modelled (`Session.SpawnPeriod`). Its first spawn happens at start-up; that is one `Game.SpawnEnemy` call after `Game.constructor`.
- `deleteEnemy` changes the array in place with `splice` (js/app.js:311), while `handleGameWon` binds `allEnemies` to a new array (js/app.js:278). Code part-way through iterating the list would see the first change and not the second. In the model both are assignments of a new `seq` value to `Game.enemies`, so that difference is not captured.
- `Math.random` is not modelled. Its two draws are parameters of `Game.SpawnEnemy`, each in [0, 1).
- The tick driver that calls `update` on every entity and then `checkCollisions` lives in an engine file that is not part of this model. No order of updates within a tick is assumed. `Game.UpdatePlayer` and `Game.UpdateEnemy` model one call each.
- Floating point is not modelled: positions, speeds, time deltas and bounds are exact reals, with no IEEE rounding.
- The `undefined` that `Range.overlaps` returns for an argument that is neither a number nor a `Range` is not modelled. The `Operand` type rules that case out.
- `PlayerEntity.Input` has only `undefined` and strings. JavaScript's other falsy values (`null`, `0`, `false`, `NaN`) would also return early, and non-string truthy values would throw; the key listener never passes them.
- `Session.SpawnSpeed`: the bound `speed < 300` holds over exact reals. Over IEEE doubles the largest draw below 1 makes `50 + draw * 250` round to exactly 300.
- The `CANVAS_HEIGHT` constant is declared but no modelled code uses it.
