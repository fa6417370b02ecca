# Flappy bird play scene, modelled in Dafny

This project models the game logic of the play scene of a Phaser "Flappy
Bird" game (`src/scenes/PlayScene.js`). The logic covers:

- the obstacle pool of four upper/lower pipe pairs;
- the placement of a pair to the right of the rightmost pipe, at distances drawn
  from the current difficulty tier;
- the recycling scan that re-places stale pipes and scores a point;
- the difficulty tiers and their score-triggered switches;
- the best score kept in storage;
- pause, the three-second resume countdown, flapping, the out-of-bounds check,
  game over and restart.

The scene is the class `Play.PlayScene` (`play_scene.dfy`). Its pipe group is an
`array<Pipe>` of eight pipes in creation order, with upper halves at even
positions and lower halves at odd ones. Its methods update the fields in
place, as the JavaScript methods do. They are specified by functions over
sequences and by lemmas about those functions, which live in:

- `obstacle_stream.dfy`: the max-fold, placement, the stale-pipe scan,
  the pool invariant and the creation layout.
- `difficulty.dfy`: the tier table and the tier a score selects.
- `score.dfy`: the best-score rule.
- `lifecycle.dfy`: the countdown and the bounds test.
- `util.dfy`: `Option` and `Max`.

Randomness enters as parameters. Each `Phaser.Math.Between` call becomes a
field of a `Draw(gap, top, offset)` value. `ValidDraw` requires each field to
lie in the inclusive range the source draws it from.

The class invariant `Valid()` has five parts:

- the playfield is at least 240 pixels high, so every tier's gap fits with
  its margins;
- every pair slot holds a lined-up pair: the same x, a gap between 120 and 200,
  and 20 pixels of margin above and below;
- the score is non-negative;
- the tier is `TierFor(score)`;
- once the score is positive, the stored best is at least the score.

The constructor, `Create` and `Restart` establish it. `Update`,
`RecyclePipes`, `CheckGameStatus`, `GameOver` and `Advance` require it and
keep it. `PlacePipe`, `CreatePipes`, `IncreaseScore`, `SaveBestScore` and
`IncreaseDifficulty` are inner steps of `RecyclePipes` and `CreatePipes`.
They neither require nor ensure the invariant, which holds again only once
the enclosing method has finished: for example, `IncreaseScore` alone takes
the score from 9 to 10 before `IncreaseDifficulty` switches the tier.
`Flap`, `Pause`, `OnResume` and `CountDown` touch none of the fields the
invariant reads.

The source pairs the first two stale pipes in scan order, not the two halves
of one original pair. The model keeps that behaviour in `RecyclePipes`
(specified by `Recycled`). `FirstTwoStaleArePair` then proves that under the
pool invariant those two pipes are always the two halves of one pair slot.

Two behaviours of the code that a reader might not expect; the model keeps
both:

- `increaseDifficulty` switches the tier only when the score equals 10
  (normal) or 20 (hard), and the scene starts at hard, so the easy tier is
  never chosen. The tier is still a function of the score, `TierFor` (normal
  for 10 to 19, hard otherwise), because the score grows by exactly one per
  clearance; `TierForStep` proves that step, and `Valid()` keeps
  `currentDifficulty == TierFor(score)`.
- A game over does not stop the same frame's recycling scan. `update()` calls
  `recyclePipes()` after `checkGameStatus()` in any case, so `Update` can
  save the best score twice in one frame. Either way the stored best never
  goes down.

## Model

| member | source | states |
|---|---|---|
| Play.PlayScene.constructor | src/scenes/PlayScene.js:8-47 | The scene starts valid at the hard tier with score 0, the bird at half the height with no velocity, nothing paused, the stored best as found in storage, and the pool laid out from the creation draws. |
| Play.PlayScene.Create | src/scenes/PlayScene.js:38-47 | create() leaves a valid scene at the hard tier, score 0, bird at its start, unpaused and running, with a fresh pool laid out from the draws. The stored best is kept. |
| Play.PlayScene.CreatePipes | src/scenes/PlayScene.js:81-96 | createPipes builds a fresh pool of eight pipes. Pair i sits at the sum of the first i + 1 horizontal draws with the i-th vertical draws, and the pairs lie strictly left to right in creation order. |
| Play.PlayScene.PlacePipe | src/scenes/PlayScene.js:98-111 | The two given pipes become the pair placed from the current tier and the group's rightmost x; every other pipe is unchanged. |
| Play.PlayScene.GetRightMostPipeX | src/scenes/PlayScene.js:128-136 | The result is at least 0 and at least every pipe's x, and equals 0 or some pipe's x. |
| Play.PlayScene.RecyclePipes | src/scenes/PlayScene.js:113-126 | One scan leaves the group as Recycled of the old group, and the score up by one exactly when two stale pipes were found. The stored best becomes SaveBest of the new score in that case and is otherwise unchanged. The scene stays valid. |
| Play.PlayScene.IncreaseScore | src/scenes/PlayScene.js:237-240 | The score goes up by exactly one. |
| Play.PlayScene.SaveBestScore | src/scenes/PlayScene.js:206-213 | The stored best becomes SaveBest of the old stored value and the score. |
| Play.PlayScene.IncreaseDifficulty | src/scenes/PlayScene.js:242-250 | Normal when the score is 10, hard when it is 20, and the tier unchanged for any other score. |
| Play.PlayScene.Update | src/scenes/PlayScene.js:62-65 | The bounds check, then one scan. A restart is pending and physics paused exactly when the bird was out of bounds. Pipes and score follow Recycled. The stored best follows both saves in order and never decreases. The scene stays valid. |
| Play.PlayScene.CheckGameStatus | src/scenes/PlayScene.js:200-204 | Game over (physics paused, restart pending, best saved) exactly when the bird's bottom is at or below the height or its y is at most 0; otherwise nothing changes. |
| Play.PlayScene.GameOver | src/scenes/PlayScene.js:215-228 | Physics is paused, a restart is scheduled, the stored best becomes SaveBest of it and the score, and the scene stays valid. |
| Play.PlayScene.Restart | src/scenes/PlayScene.js:221-227 | The scheduled restart resets the bird, pool, score, tier and flags to the initial state whatever came before, keeping only the stored best. |
| Play.PlayScene.Flap | src/scenes/PlayScene.js:230-235 | While paused the velocity is unchanged; otherwise it becomes exactly -300, whatever it was. |
| Play.PlayScene.Pause | src/scenes/PlayScene.js:157-162 | The pause button sets isPaused, pauses physics and stops the scene. |
| Play.PlayScene.OnResume | src/scenes/PlayScene.js:176-186 | On resume the scene runs again, the counter is 3, and the repeating countdown is scheduled. |
| Play.PlayScene.CountDown | src/scenes/PlayScene.js:189-198 | The counter drops by one. The pause flag clears, the timer stops and physics resumes exactly when the counter reaches 0 or below. |
| Play.PlayScene.Advance | src/scenes/PlayScene.js:95 | While physics runs every pipe moves left by the same distance; while it is paused nothing moves. The pool stays lined up. |
| ObstacleStream.RightMostX | src/scenes/PlayScene.js:128-136 | The max-fold over the group in order, starting from 0; its result is never negative. RightMostXIsMax and RightMostXEquals characterise it. |
| ObstacleStream.RightMostXIsMax | src/scenes/PlayScene.js:128-136 | The max-fold from 0 is at least 0 and every x, and is 0 or attained by some pipe. |
| ObstacleStream.RightMostXEquals | src/scenes/PlayScene.js:128-136 | Any value with those three properties is the fold's result, so the fold is the maximum of 0 and all x. |
| ObstacleStream.Place | src/scenes/PlayScene.js:98-111 | Both halves share an x that lies a tier horizontal distance right of the anchor. The gap is a tier vertical distance, and the upper half is at least 20 from the top and the lower at least 20 from the bottom. |
| ObstacleStream.IsStale | src/scenes/PlayScene.js:116 | A pipe is stale when its right edge, x plus the sprite width, is at or left of 0; with a non-negative width its left edge is then off screen too. |
| ObstacleStream.StaleIndices | src/scenes/PlayScene.js:114-117 | Every position collected into tempPipes lies inside the group; StaleIndicesSpec states the rest. |
| ObstacleStream.StaleIndicesSpec | src/scenes/PlayScene.js:114-117 | tempPipes holds exactly the stale pipes (right edge at or left of 0), each once, in increasing scan order. |
| ObstacleStream.StaleIndicesStep | src/scenes/PlayScene.js:115-117 | Scanning one more pipe appends its position exactly when it is stale. |
| ObstacleStream.Recycled | src/scenes/PlayScene.js:113-126 | A scan keeps the group's size; RecycleTouchesFirstTwoStale and RecycledPairLeads state what it changes. |
| ObstacleStream.Scanned | src/scenes/PlayScene.js:113-126 | A partial scan keeps the group's size; ScanStep and ScannedAll relate it to the loop and to Recycled. |
| ObstacleStream.ScanStep | src/scenes/PlayScene.js:115-123 | The pipe being scanned is still untouched. The group changes at a step only when that pipe is the second stale one found, and then exactly the first and second stale pipes become the placed pair. |
| ObstacleStream.ScannedAll | src/scenes/PlayScene.js:113-126 | The scan over the whole group gives Recycled. |
| ObstacleStream.RecycleTouchesFirstTwoStale | src/scenes/PlayScene.js:113-126 | A pipe moves only if it was stale and is one of the first two stale pipes. With fewer than two stale pipes nothing moves, so at most one pair is placed per scan. |
| ObstacleStream.RecycledPairLeads | src/scenes/PlayScene.js:101-109 | A recycled pair shares one x that is strictly right of every pipe before the scan and of every pipe the scan left alone. |
| ObstacleStream.PairMateStale | src/scenes/PlayScene.js:107-110 | In a lined-up pool, a stale pipe's pair-slot mate is stale too. |
| ObstacleStream.FirstTwoStaleArePair | src/scenes/PlayScene.js:113-126 | In a lined-up pool, the first two stale pipes in scan order are the upper and lower half of one pair slot. |
| ObstacleStream.RecyclePreservesPairs | src/scenes/PlayScene.js:113-126 | A scan keeps every pair slot lined up. |
| ObstacleStream.Shifted | src/scenes/PlayScene.js:95 | Moving the group keeps its size; ShiftPreservesPairs states the invariant it keeps. |
| ObstacleStream.ShiftPreservesPairs | src/scenes/PlayScene.js:95 | Moving every pipe left by the same distance keeps every pair slot lined up. |
| ObstacleStream.OffsetSumIncreasing | src/scenes/PlayScene.js:84-93 | With positive horizontal draws, the anchor after more placements lies strictly further right. |
| ObstacleStream.DrawsFitOffsetsPositive | src/scenes/PlayScene.js:22-35 | Every horizontal distance a tier allows is positive. |
| ObstacleStream.PlacedWithinAnchor | src/scenes/PlayScene.js:84-93 | During creation no placed pipe lies right of the sum of the offsets drawn so far. |
| ObstacleStream.CreationAnchor | src/scenes/PlayScene.js:84-93 | During creation, with n pairs placed and the rest at the origin, the rightmost x is the sum of the first n horizontal draws. |
| ObstacleStream.PlaceNextPair | src/scenes/PlayScene.js:84-93 | Placing the next pair at the rightmost x extends the placed layout by one pair and leaves the rest at the origin. |
| ObstacleStream.CreatedPairsInField | src/scenes/PlayScene.js:84-93 | The created pool is lined up: each pair shares an x and has a gap within the margins. |
| ObstacleStream.PairsOrdered | src/scenes/PlayScene.js:84-93 | Of two created pairs, both halves of the later one lie strictly right of both halves of the earlier one. |
| ObstacleStream.CreatedIncreasing | src/scenes/PlayScene.js:84-93 | The created pairs' x coordinates strictly increase in creation order. |
| Difficulty.HorizontalDistanceRange | src/scenes/PlayScene.js:22-35 | Each tier's pipeHorizontalDistanceRange is non-empty and starts at 250 or more, so every placement moves strictly right. |
| Difficulty.VerticalDistanceRange | src/scenes/PlayScene.js:22-35 | Each tier's pipeVerticalDistanceRange is non-empty and lies between 120 and 200. |
| Difficulty.TierRangesWithinBounds | src/scenes/PlayScene.js:22-35 | Every tier's ranges are non-empty, horizontal distances are at least 250, and gaps lie between 120 and 200. |
| Difficulty.TierFor | src/scenes/PlayScene.js:242-250 | The tier a score reached from 0 by single steps selects: never easy, and the initial hard tier below 10. |
| Difficulty.TierForStep | src/scenes/PlayScene.js:242-250 | The tier at score 0 is the initial hard tier. One more point followed by the equality tests gives TierFor of the new score. The easy tier is never selected. |
| Score.SaveBest | src/scenes/PlayScene.js:206-213 | Something is always stored, and for a non-negative score it is the larger of the old best (absent as 0) and the score. |
| Score.SaveBestNeverLowers | src/scenes/PlayScene.js:206-213 | Saving never lowers the stored best and leaves it at least the score. |
| Score.SaveBestIdempotent | src/scenes/PlayScene.js:206-213 | Saving the same score twice stores the same as saving it once. |
| Score.SaveAllKeepsMaximum | src/scenes/PlayScene.js:206-213 | After any run of saves the stored best is the maximum of what was stored first and every saved score. |
| Lifecycle.Tick | src/scenes/PlayScene.js:189-198 | One countDown tick: the counter drops by one, the pause flag is never set, and it is clear once the counter is at or below 0. |
| Lifecycle.CountdownUnpausesOnLastTick | src/scenes/PlayScene.js:189-198 | Starting paused with n > 0 on the counter, the scene stays paused for ticks 1 to n - 1 and is unpaused on tick n. |
| Lifecycle.ResumeTakesThreeTicks | src/scenes/PlayScene.js:177-198 | From the resume handler's 3, the scene is paused after ticks one and two and running after tick three. |
| Lifecycle.OutOfBounds | src/scenes/PlayScene.js:201 | The game-over condition: bottom edge at or below the height, or y at most 0; a bird strictly inside is in bounds. |
| Lifecycle.StartInBounds | src/scenes/PlayScene.js:15 | A bird shorter than half the field, at the start y of half the height, is in bounds. |

## Left out

- Rendering is not modelled: sprites, text, tint, animation, the score labels and the pause button's image. They change no game state.
- The physics engine is one step, `Play.PlayScene.Advance`, with the bird's new position and velocity as parameters. Gravity, the -200 horizontal velocity, float positions, world-bounds clipping and collision detection are not modelled.
- The bird-pipe collider callback is not modelled separately. It calls the same `GameOver`.
- Coordinates are integers. The start y is half the height rounded down, and the bird's x is not modelled.
- A sprite's right edge is x plus a fixed pipe width, and the bird's bottom is y plus a fixed bird height.
- The stored best is the integer `localStorage` would parse, or `None` when the key is absent. Stored text that does not parse, and the string conversion, are not modelled.
- `Phaser.Math.Between` is not modelled. Its results are parameters constrained to the same inclusive ranges.
- The playfield must be at least 240 pixels high, so that every tier's vertical draw range is non-empty.
- Timers are not modelled. The one-second countdown and restart timers become the `countingDown` and `restartPending` flags, and their firing becomes calls to `CountDown` and `Restart`.
- `listenToEvents` registers its handler only once; that guard is not modelled.
- Scene management is not modelled: launching the pause scene, and the menu, pause, score and base scenes. src/scenes/BaseScene.js, MenuScene.js, PauseScene.js and ScoreScene.js are not part of this model.
- Score.SaveBest: the maximum form is stated for non-negative scores only, the only scores the scene produces.
