# Neon Dash game core in Dafny

Neon Dash is a side-scrolling runner. The player's avatar is a cube that hops or a ship
that flies. It moves through a stream of spikes and blocks that the engine generates at
the right edge of the canvas and scrolls to the left. A run is won when the distance
covered reaches the level's length. It is lost on any lethal contact. Either way it pays
orbs, which buy cosmetic skins.

This project models the game engine component (`components/GameEngine.tsx`) and proves
properties of the model:

- **The tick.** The frame loop's logic runs in six steps, in the source's order:
  1. the held-input auto-jump;
  2. mode-specific physics;
  3. the floor and ceiling clamp;
  4. distance, progress and completion;
  5. obstacle generation;
  6. the backwards pass over the obstacles, which advances, removes, resolves contact and scores.

  The steps run as the in-place method `Simulation.Simulation.Tick` on a class with one
  field per piece of run state. Each method is proved equal to a pure function on the
  value `Simulation.World`, and `Tick` is proved equal to `Simulation.Step`.
- **The lifecycle.** Starting a run (`initGame`), ending it with its reward (`endGame`),
  and the input latch with its gating (`handleInputStart`, `handleInputEnd`).
- **The progression helpers.** The reward formula, buying or equipping a skin, and the
  level index that wraps around.
- **The run invariant.** `RunInvariants.Inv` holds of the initial world and is kept by
  every transition.

Randomness, the canvas size and the skin colour are parameters:

- the three `Math.random()` values a tick may draw are a `Draws` record of reals in [0, 1);
- the canvas is a `Canvas(width, height)` of naturals;
- the equipped skin's colour is passed to `Start`.

Positions and velocities are exact `real`s, and `Math.floor` is `.Floor`.

Modules, one per file:

- `Entities`: constants, records, the level table.
- `Rewards`, `Store`, `LevelSelect`: the pure helpers.
- `Physics`, `Collision`, `Generation`, `ObstaclePass`: the tick's steps as functions.
- `Simulation`: the world value, the pure transitions and the class.
- `RunInvariants`: the invariant and the lemmas about whole ticks.

## Model

| member | source | states |
|---|---|---|
| Rewards.Progress | components/GameEngine.tsx:359-361 | The HUD percentage is at most 100 and not negative for a non-negative distance. It is exactly 100 iff the distance has reached the length, and otherwise it is the floor of 100·distance/length. |
| Rewards.ProgressMonotone | components/GameEngine.tsx:359-361 | A larger distance never gives a smaller percentage. |
| Rewards.Reward | components/GameEngine.tsx:150-154 | The reward is between 0 and 30. It is at least the completion bonus of 20 when the run was completed and at most 10 otherwise. Without the bonus it is the number of whole tens in the percentage. |
| Rewards.ApplyReward | components/GameEngine.tsx:156-164 | The orbs grow by exactly the reward when it is positive. Skins and the equipped skin are untouched, and a reward that is not positive leaves the record as it was. |
| Rewards.RewardExamples | components/GameEngine.tsx:150-154 | 45% of a level pays 4, a completed level pays 30, and 5% pays nothing. |
| Store.BuyOrEquip | components/GameEngine.tsx:242-260 | There are three outcomes. An unlocked item is only equipped. A locked item is bought when the orbs cover its price: the orbs drop by the price, the id is appended and equipped. Otherwise nothing changes. Orbs stay non-negative and the equipped skin stays unlocked. The item ends equipped iff it was unlocked or affordable. |
| Store.DefaultUserWellFormed | components/GameEngine.tsx:23-27 | The fallback progression record (0 orbs, only the default skin, equipped) is well formed. |
| LevelSelect.PrevLevel | components/GameEngine.tsx:79-82 | The previous index stays in range, steps down by one, and wraps from the first level to the last. |
| LevelSelect.NextLevel | components/GameEngine.tsx:84-87 | The next index stays in range, steps up by one, and wraps from the last level to the first. |
| LevelSelect.PrevUndoesNext | components/GameEngine.tsx:79-87 | "Previous" and "next" undo each other. |
| LevelSelect.NextTimesWraps | components/GameEngine.tsx:84-87 | k presses of "next" move the index k places round the catalogue, modulo its size. |
| Physics.Round | components/GameEngine.tsx:324 | Rounding lands within half a unit of its argument, with halves rounded up, as `Math.round` does. |
| Physics.AutoJump | components/GameEngine.tsx:311-315 | A grounded cube with the input held gets the jump velocity and leaves the ground. Every other avatar is unchanged. |
| Physics.ShipTarget | components/GameEngine.tsx:335 | The tilt a ship leans towards is its velocity times 4, held within ±45 degrees. |
| Physics.Turn | components/GameEngine.tsx:321-336 | An airborne cube spins by 6 degrees. A grounded cube moves towards the nearest upright angle without overshooting it. A ship moves towards its target tilt without overshooting it. |
| Physics.Integrate | components/GameEngine.tsx:318-337 | A cube always gains gravity. A holding ship gains lift but never rises faster than the maximum rise speed. A ship that is not holding gains ship gravity. The position moves by the new velocity and nothing but y, dy and rotation changes. |
| Physics.ShipTurnBounded | components/GameEngine.tsx:335-336 | A ship's rotation stays within ±45 degrees. |
| Physics.CubeSettles | components/GameEngine.tsx:323-326 | A grounded cube closes a fifth of its distance to the nearest upright angle each tick. |
| Physics.Clamp | components/GameEngine.tsx:339-357 | After the clamp, 0 ≤ y ≤ floorY when floorY ≥ 0. Reaching the floor stops and grounds the avatar in both modes. Reaching the ceiling zeroes dy only for a ship and never grounds. Between the two nothing changes. |
| Physics.Move | components/GameEngine.tsx:311-357 | Steps 1 to 3 keep the avatar's x, size, colour and mode. They keep a ship's velocity above the rise limit and leave y between the ceiling and the floor. |
| Physics.CubeJumpsBeforeGravity | components/GameEngine.tsx:311-320 | Holding on the ground launches a cube before gravity applies. It leaves the tick airborne with the jump force plus one step of gravity. |
| Collision.OverlapsIffSharedPoint | components/GameEngine.tsx:508-518 | The four comparisons on the hitbox, inset by 8 on each side, hold exactly when the hitbox and the obstacle share an interior point. |
| Collision.Classify | components/GameEngine.tsx:508-538 | Contact is a miss iff there is no overlap. It is a landing iff there is an overlap, the obstacle is a block, dy ≥ 0 and (y − dy) + height ≤ top + 15. Every other overlap is lethal, including every spike overlap. |
| Collision.LandOn | components/GameEngine.tsx:526-533 | A landing puts the avatar's bottom on the block's top, zeroes dy and grounds the avatar. Nothing else changes. |
| Collision.LandingClearsOverlap | components/GameEngine.tsx:526-533 | After a landing the avatar no longer overlaps that block. |
| Collision.Overlaps | components/GameEngine.tsx:508-518 | Any point inside both the inset hitbox and the obstacle sets the test off. |
| Generation.Spawn | components/GameEngine.tsx:369-494 | Generation fails only for stairs in progress on an empty list. New obstacles get consecutive fresh ids, start at the right edge, are not passed, are never floor spikes and are at most 80 wide. Outside stairs in progress, a closed spacing gate adds nothing in either mode. Cube levels: everything stands on the ground; a draw above 0.8 starts stairs with a 60×50 block, above 0.5 gives a 50×50 block, otherwise a 40×40 spike; each stair is 60 wide and taller than the last, the step stays ≤ 1 while the pattern is on, and the generic gate is skipped during stairs. Ship levels ignore the pattern. A draw above 0.6 gives a gate: a 60-wide block hanging from y = 0 to `GateY`, and one from 180 below it down to the ground, both at least 50 high on a canvas 380 or more tall. Above 0.3 it gives an 80×80 block at `MidAirY`. Otherwise it gives a 50×50 spike, on the ground line when the placement draw is above 0.5 and at the ceiling otherwise. |
| Generation.SpawnShip | components/GameEngine.tsx:372-429 | Ship generation never fails. On a canvas 380 or more tall, both gate blocks are at least 50 high. |
| Generation.SpawnCube | components/GameEngine.tsx:431-493 | Cube generation fails exactly when stairs are in progress and there is no last obstacle. |
| Generation.StairsHaveThreeSteps | components/GameEngine.tsx:435-469 | A stairs pattern lays blocks of heights 50, 100 and 150 and then returns to no pattern. |
| Generation.SpawnClearsLast | components/GameEngine.tsx:369-494 | At the catalogue's speeds, a new obstacle starts to the right of the previous last one. |
| ObstaclePass.Visit | components/GameEngine.tsx:497-546 | An obstacle off screen after advancing is dropped and nothing else changes. One still on screen is kept in front of the later ones, marked against the avatar. The avatar changes only by a landing, which is `LandOn`, and a lethal contact sets the death flag, which is never cleared. A ship stays above the rise limit. |
| ObstaclePass.Sweep | components/GameEngine.tsx:497-546 | The whole pass keeps at most the obstacles it was given and scores at most one per kept obstacle. It changes only the avatar's y, dy and grounded flag, and keeps a ship above the rise limit. |
| ObstaclePass.SweepMatchesReference | components/GameEngine.tsx:497-546 | The backwards pass keeps, in their order, exactly the advanced obstacles still on screen. It marks those whose right edge is behind the avatar, and the score grows by the number of those not marked before. |
| ObstaclePass.SweepKeepsOnScreen | components/GameEngine.tsx:497-505 | Every obstacle the pass keeps is on screen, and every obstacle still on screen after advancing is kept, marked against the avatar. |
| ObstaclePass.SweepDiesIffLethal | components/GameEngine.tsx:507-538 | The pass ends the run exactly when, at some index, an obstacle still on screen meets the avatar, as the later indices left it, in a lethal contact. |
| ObstaclePass.SweepWithoutContact | components/GameEngine.tsx:507-538 | When no obstacle still on screen overlaps the avatar, the pass leaves the avatar as it was and the run goes on. |
| ObstaclePass.SweepAvatarLands | components/GameEngine.tsx:524-533 | After the pass the avatar is either unchanged or stands, stopped and grounded, on the top of one of the advanced blocks. |
| ObstaclePass.MarkingCountsFlips | components/GameEngine.tsx:541-545 | Marking only turns flags on, and it turns on exactly as many as it scores, so an obstacle is scored at most once. |
| ObstaclePass.SweepKeepsIds | components/GameEngine.tsx:497-505 | The pass only drops obstacles. Kept ids stay increasing and below the id counter. |
| Simulation.Started | components/GameEngine.tsx:109-147 | A start enters Playing and clears obstacles, score, distance, progress, the pattern type and step, and the earned orbs. It keeps the record, the held input and the id counter. The avatar is a 40×40 square at a fifth of the canvas width, upright, in the given colour, in the level's mode, with dy = 0. A cube stands on the ground line and is grounded; a ship starts at half the canvas height and is airborne. |
| Simulation.Pressed | components/GameEngine.tsx:189-215 | Input is ignored while the store is open, on a button, or outside Playing. Otherwise the input is latched and a grounded cube jumps at once. |
| Simulation.Released | components/GameEngine.tsx:217-219 | Release clears the latch and nothing else. |
| Simulation.Ended | components/GameEngine.tsx:149-173 | The state becomes LevelComplete when the run was completed and GameOver otherwise. The record becomes the given base record credited with the reward for the current distance. The earned orbs are the reward when positive and 0 otherwise. Nothing else changes. |
| Simulation.Initial | components/GameEngine.tsx:17-69 | Before any run the engine is in the menu on the first level, with the fallback record, no obstacles, zero counters, no held input and a cube avatar. |
| Simulation.Prelude | components/GameEngine.tsx:309-366 | Steps 1 to 4 move the avatar by `Move`, add the level speed to the distance and set the progress from it. Reaching the length ends the run as completed, on the tick-start record; otherwise state and record stay. Obstacles, pattern, score and ids are untouched. |
| Simulation.AfterSweep | components/GameEngine.tsx:497-546 | The pass's avatar and kept obstacles replace the world's, and the score grows by what it scored. A lethal contact ends the run as GameOver, with the failure reward credited to the base record; otherwise state and record stay. |
| Simulation.Step | components/GameEngine.tsx:307-546 | Outside Playing a tick changes nothing. A tick halts exactly when a cube level has stairs in progress and no obstacle left. The level and the held input never change. |
| Simulation.Simulation.constructor | components/GameEngine.tsx:17-69 | The engine begins in the menu on the first level, with the fallback record and no obstacles. |
| Simulation.Simulation.Start | components/GameEngine.tsx:109-147 | Starting in place yields `Started` on the level at the given index. |
| Simulation.Simulation.ResetRun | components/GameEngine.tsx:133-142 | The reset clears the run's counters, its obstacles and its pattern, and nothing else. |
| Simulation.Simulation.InputStart | components/GameEngine.tsx:189-215 | The in-place input start equals `Pressed`. |
| Simulation.Simulation.InputEnd | components/GameEngine.tsx:217-219 | The in-place input end equals `Released`. |
| Simulation.Simulation.EndGame | components/GameEngine.tsx:149-173 | Ending in place equals `Ended` on the given base record. |
| Simulation.Simulation.BuyOrEquip | components/GameEngine.tsx:242-260 | Only the record changes, and it changes as `Store.BuyOrEquip` says. |
| Simulation.Simulation.Push | components/GameEngine.tsx:385-393 | A push appends one fresh obstacle at the right edge and advances the id counter. |
| Simulation.Simulation.GenerateObstacles | components/GameEngine.tsx:369-494 | Step 5 in place halts exactly when `Spawn` fails. Otherwise it appends what `Spawn` produced and adopts its pattern state. |
| Simulation.Simulation.GenerateShip | components/GameEngine.tsx:372-429 | Ship generation in place equals `SpawnShip`. |
| Simulation.Simulation.GenerateCube | components/GameEngine.tsx:431-493 | Cube generation in place equals `SpawnCube`, halting exactly when it fails. |
| Simulation.Simulation.UpdateObstacles | components/GameEngine.tsx:497-546 | The backwards loop in place equals the pure pass `Sweep`. A lethal contact ends the run on the base record. |
| Simulation.Simulation.VisitAt | components/GameEngine.tsx:498-505 | One loop iteration: it removes the obstacle at i or resolves it, as `Visit` says. |
| Simulation.Simulation.Resolve | components/GameEngine.tsx:507-545 | Contact and scoring for an obstacle still on screen, as `Visit` says. |
| Simulation.Simulation.Collide | components/GameEngine.tsx:508-538 | A landing moves the avatar onto the block. A lethal contact ends the run. A miss changes nothing. |
| Simulation.Simulation.MoveAndProgress | components/GameEngine.tsx:309-366 | Steps 1 to 4 in place equal `Prelude`: move, add the level speed to the distance, update the progress, and complete the level once the length is reached. |
| Simulation.Simulation.Tick | components/GameEngine.tsx:307-546 | One frame in place equals the pure `Step`. |
| RunInvariants.InitialInv | components/GameEngine.tsx:17-69 | The initial world satisfies the run invariant. |
| RunInvariants.StartedInv | components/GameEngine.tsx:109-147 | Starting any level from a well-formed record establishes the invariant. |
| RunInvariants.PressedInv | components/GameEngine.tsx:189-215 | Pressing keeps the invariant. |
| RunInvariants.ReleasedInv | components/GameEngine.tsx:217-219 | Releasing keeps the invariant. |
| RunInvariants.BuyOrEquipInv | components/GameEngine.tsx:242-260 | The store keeps the invariant. |
| RunInvariants.ApplyRewardWellFormed | components/GameEngine.tsx:156-164 | Crediting a reward keeps the record well formed. |
| RunInvariants.PassedCountOnScreen | components/GameEngine.tsx:497-505 | Advancing and removing never adds passed obstacles. |
| RunInvariants.PreludeInv | components/GameEngine.tsx:309-366 | Steps 1 to 4 keep the invariant and leave the obstacles, the pattern and the ids alone. |
| RunInvariants.SpawnedInv | components/GameEngine.tsx:369-494 | Appending the generated obstacles keeps ids fresh and increasing. It adds no passed obstacle and keeps the stairs step ≤ 1. |
| RunInvariants.SweepInv | components/GameEngine.tsx:497-546 | The obstacle pass keeps the invariant, including: every passed obstacle still on screen has been scored. |
| RunInvariants.StepPreservesInv | components/GameEngine.tsx:307-546 | Every tick keeps the run invariant. |
| RunInvariants.StepOutcome | components/GameEngine.tsx:307-546 | Outside Playing a tick changes nothing. In Playing the distance grows by the speed. The tick halts iff generation fails. The run is lost iff some contact was lethal, even in the tick that reached the length. It is complete iff the length was reached without one. Once the run has ended, the record is the tick-start record credited once with the reward. |
| RunInvariants.StepObstacles | components/GameEngine.tsx:497-546 | After a tick the obstacles are the advanced on-screen ones, marked when behind the avatar. The score grows by the number newly marked. |
| RunInvariants.StepProgressMonotone | components/GameEngine.tsx:359-366 | In a run the distance strictly grows and the progress never decreases. |
| RunInvariants.Inv | components/GameEngine.tsx:307-366 | The run invariant: progress is the HUD value of the distance, a run in progress is short of the length and a completed one is not, the stairs step is 0 or 1, the record is well formed, ids are fresh and increasing, the avatar flies in the level's mode within the rise limit, and every passed obstacle was scored. Whenever it holds, the HUD progress lies between 0 and 100. |
| RunInvariants.StepLostIffLethal | components/GameEngine.tsx:497-546 | In a tick that does not halt, the run is lost exactly when some obstacle still on screen makes lethal contact with the avatar as the pass over the later obstacles left it. |

## Left out

- Canvas drawing is left out: the background, the grid, the ground, the obstacles and the avatar. It is drawing with no logic.
- Particles (`spawnParticles`, and their update and drawing) are left out. They are cosmetic and do not affect play.
- React state mirrors are not modelled as separate copies: `setScore`, `setProgress`, `setEarnedOrbs`. The world holds the one value each of them shows.
- The MENU buttons (GameEngine.tsx:817, 846) change only the view state. The engine's state stays GameOver or LevelComplete, and the model has no transition back to Menu.
- `setShowStore(false)` in `initGame`, and the JSX views, are user-interface state.
- The resize handler is left out. The canvas size is a parameter of each tick and of `Start`.
- The keyboard, mouse and touch listeners are left out. Their effect is `InputStart`/`InputEnd`, and the event-target test is the `onButton` parameter.
- `requestAnimationFrame` scheduling is left out. One call of `Tick` is one frame.
- `localStorage` persistence and `JSON.parse` are left out. Saving is a plain update of the `user` field.
- `getCurrentSkinColor` is left out: the `SHOP_ITEMS` lookup is outside the core, and the colour is a parameter of `Start`.
- Obstacle ids come from a counter (`nextId`) instead of `Date.now() + Math.random()`. They are still distinct and increasing.
- IEEE double rounding is not modelled. Every quantity is an exact real.
- The level table keeps id, name, speed, mode and length. Difficulty and palette are display data.
- Simulation.Simulation.Tick: when stairs are in progress and the list is empty, the source reads `x` of `undefined`. That throws a `TypeError` and the frame loop stops. The model stops the tick after step 4 and returns `halted`, but does not model the loop no longer running.
- Simulation.Simulation.Start: the level is looked up with an index the selection UI keeps in range. An index outside the catalogue is excluded by a precondition, since the source would read `undefined` there.
- Simulation.Simulation.UpdateObstacles: obstacles are records in a sequence, not shared objects. The source mutates the same object it read. No other reference to it exists, so nothing observable differs.
- Generation.Spawn: the gate's heights are only shown to be at least 50 on a canvas at least 380 tall. On a shorter canvas the band for gapY is negative, so a gate block can be less than 50 high. At a height of 330 or less it can have zero or negative height.

### Where the intended behaviour and the code differ; the model follows the code

- Completion and death can happen in the same tick. `endGame(true)` runs at step 4, and the obstacle pass then still runs and may call `endGame(false)`. Each call saves the record the tick started with plus its own reward, so the last call wins. The run then ends as GameOver, paid the failure reward. `RunInvariants.StepOutcome` states this.
- The avatar's y is not always between the ceiling and the floor. The clamp establishes it, but a later landing places the avatar on the block's top, which may lie outside that range.
- The gate's band for gapY guarantees both segments their minimum height only on a canvas at least 380 tall.
