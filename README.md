# Dotruto game bookkeeping, in Dafny

Dotruto is a browser platformer built on React and the matter-js physics
engine. The player is a ball that moves left and right, jumps off
platforms, collects chakra scrolls and avoids falling enemies. It can also
leave shadow clones behind. A clone replays the player's inputs one second
late and expires after five seconds.

This project models the logic the game keeps around the physics engine. It
covers four components:

- **`GameContext`** (`game_context.dfy`). This is the provider's four state
  cells (score, lives, level, paused) with their operations. It is a class
  whose methods overwrite the cells. A `Step`/`Run` value model sits beside
  it, so that runs of operations can be reasoned about. The `useGameContext`
  guard is included.
- **`useKeyControls`** (`key_controls.dfy`). This is the five-flag key state
  machine. Its transitions are record-to-record functions, and a `Controls`
  class holds the flags and the log of fired `onClone`/`onPause` callbacks.
- **`App`** (`navigation.dfy`). This is the three-screen switch and the
  `finalScore` cell.
- **`GameScreen`**, the largest part, split by concern:
  - `bodies.dfy`: bodies as records.
  - `input_history.dfy`: the input recorder and the one-second-delayed
    lookup.
  - `movement.dfy`: the platform-contact test, the player's key forces and
    a clone's replay.
  - `collisions.dfy`: the collision classifier, as pure functions over the
    tracked state.
  - `bounds.dfy`: `checkBounds`.
  - `spawning.dfy`: the player, the platforms, enemies and scrolls.
  - `clone_lifecycle.dfy`: clone creation and expiry.
  - `simulation.dfy`: the `GameScreen` class. It holds the refs that the
    component mutates: player, platforms, clones, enemies, scrolls, world
    membership, input history and sound cues. Its methods are the collision
    listener, the tick and its steps, clone creation and the player-control
    effect. Each method is proved against the pure definitions above, and
    each keeps the class invariant `Valid`.

`Valid` relates the world and the lists. The world holds exactly three
groups of bodies:

- the player, the platforms and the live clones;
- the tracked enemies;
- the tracked scrolls.

Every body carries its label. Each clone body is listed once and lives 5000
ms. Fresh bodies get fresh identifiers.

Bodies are modelled as records with an identifier, a kind, a shape,
position, velocity and accumulated force. The kind stands for the
substring tests on matter-js labels.

Collision pairs, the clock (`now`), the held keys and the random draws are
inputs. One `now` serves a whole tick.

Sound cues are recorded as a list of cues rather than played.

The model follows the code in five places where one might expect otherwise:

- Input recording gives left precedence when both direction keys are held,
  but the player's force gives right precedence
  (`Movement.RecordedIntentMatchesForce`).
- The contact test compares a body's bottom with the platform's centre
  minus its full height, not half. A ball resting on top of a platform
  thicker than 10 units is therefore never "on" it
  (`Movement.RestingOnTopIsNotContact`).
- Both wrap tests in `checkBounds` read the x from before either wrap.
- The collision handler classifies every pair by label and identity. It
  does not check whether a body has already been removed earlier in the
  same event. One might expect handling an already-removed body twice to
  be a no-op, and for removal it is
  (`Collisions.RemovedStaysRemoved`). Scoring is different: a scroll that
  touches both the player and a live clone in one event is removed once
  but pays 10 and then 5 (`Collisions.ScrollTouchedTwiceInOneEventPaysTwice`).
- "Play again" on the game-over screen calls `restartGame`, which only
  switches the screen back to playing. Only the start screen's button calls
  `resetGame`. The context therefore still holds no lives when the new game
  screen mounts, and its game-over effect reports the old score at once,
  which takes the app straight back to the game-over screen
  (`Simulation.RestartWithoutResetEndsAtOnce`, contrasted with
  `Simulation.MenuStartBeginsAfresh`).

## Model

| member | source | states |
|---|---|---|
| GameContext.GameState.constructor | src/context/GameContext.tsx:31-34 | a fresh provider holds score 0, lives 3, level 1, not paused |
| GameContext.GameState.AddScore | src/context/GameContext.tsx:36-38 | score grows by exactly `points`; lives, level and paused unchanged |
| GameContext.GameState.RemoveLife | src/context/GameContext.tsx:40-42 | lives become `max(0, lives - 1)`; the other cells unchanged |
| GameContext.GameState.ResetGame | src/context/GameContext.tsx:44-49 | all four cells return to the initial values from any state |
| GameContext.GameState.TogglePause | src/context/GameContext.tsx:51-53 | paused is negated; the other cells unchanged |
| GameContext.GameState.IncrementLevel | src/context/GameContext.tsx:55-57 | level grows by exactly 1; the other cells unchanged |
| GameContext.GameState.SetPaused | src/context/GameContext.tsx:34 | paused becomes the given flag; the other cells unchanged |
| GameContext.LoseLife | src/context/GameContext.tsx:41 | never negative; one less when positive; 0 at or below 0 |
| GameContext.RunKeepsLivesNonNegative | src/context/GameContext.tsx:40-42 | no sequence of operations takes lives below zero |
| GameContext.LivesNonIncreasingWithoutReset | src/context/GameContext.tsx:36-57 | lives never increase until a reset |
| GameContext.ScoreNonDecreasing | src/context/GameContext.tsx:36-38 | with non-negative points and no reset, the score never decreases |
| GameContext.RunStaysInRange | src/context/GameContext.tsx:31-57 | score >= 0, 0 <= lives <= 3 and level >= 1 are kept by every run with non-negative points |
| GameContext.ScoreOnlyFromAddScore | src/context/GameContext.tsx:36-57 | without `addScore` and reset, the score is unchanged |
| GameContext.GameOverIsSticky | src/context/GameContext.tsx:40-42 | once lives reach 0 they stay 0 until a reset |
| GameContext.RunAppend | src/context/GameContext.tsx:36-57 | running `a` then `b` equals running `a + b` |
| GameContext.ResetAfterAnything | src/context/GameContext.tsx:44-49 | any run ending in `resetGame` lands in the initial state |
| GameContext.ToggleTwice | src/context/GameContext.tsx:51-53 | toggling pause twice is the identity |
| GameContext.ResetIdempotent | src/context/GameContext.tsx:44-49 | resetting twice equals resetting once, and both give the initial state |
| GameContext.Step | src/context/GameContext.tsx:36-57 | defines the effect of each provider operation on the four cells; tied to each class method by its `Snapshot` ensures |
| GameContext.Run | src/context/GameContext.tsx:36-57 | defines a run of operations, left to right; its properties are the run lemmas above |
| GameContext.Losses | src/context/GameContext.tsx:40-42 | counts the `removeLife` calls of a run; related to lives by `LivesAfterLosses` |
| GameContext.LivesAfterLosses | src/context/GameContext.tsx:40-49 | without a reset, lives after a run are the starting lives less one per `removeLife`, floored at 0 |
| Navigation.ScreensFindTheProvider | src/App.tsx:29-43 | every screen the app renders sits inside the one `GameProvider`, so `useGameContext` (GameContext.tsx:18-24) finds its state and never throws |
| KeyControls.ControlKeysAreTheBoundKeys | src/hooks/useKeyControls.tsx:28-51 | the ten suppressed keys are exactly the keys some flag is bound to |
| KeyControls.KeyDown | src/hooks/useKeyControls.tsx:33-51 | each flag is set iff its key is pressed (or it was set); `onClone` fires iff 'c' is pressed while clone was clear; `onPause` the same for 'p'/'Escape'; at most one callback |
| KeyControls.KeyUp | src/hooks/useKeyControls.tsx:58-72 | clears exactly the flag bound to the key |
| KeyControls.TouchStart | src/hooks/useKeyControls.tsx:86-108 | left, right and jump by screen region; the clone zone sets clone and fires `onClone` with no held-guard; pause untouched |
| KeyControls.TouchEnd | src/hooks/useKeyControls.tsx:113-121 | releases left, right, jump and clone; keeps pause |
| KeyControls.UnboundKeyIsIgnored | src/hooks/useKeyControls.tsx:28-72 | a key outside the ten changes nothing and fires nothing, on press or release |
| KeyControls.RepeatedKeyDownFiresNothing | src/hooks/useKeyControls.tsx:44-51 | pressing again while held fires no callback and changes no flag |
| KeyControls.ReleaseRearms | src/hooks/useKeyControls.tsx:67-72 | after the release the next press of 'c', 'p' or 'Escape' fires again |
| KeyControls.HoldingFiresAtMostOnce | src/hooks/useKeyControls.tsx:44-51 | any number of presses without a release fire the callback at most once |
| KeyControls.HeldKeyFeed | src/hooks/useKeyControls.tsx:44-51 | from a held state, repeated presses fire nothing and change nothing |
| KeyControls.Handle | src/hooks/useKeyControls.tsx:25-121 | defines the reaction to one key or touch event, dispatching to `KeyDown`, `KeyUp`, `TouchStart` and `TouchEnd` |
| KeyControls.Feed | src/hooks/useKeyControls.tsx:25-121 | defines a sequence of events; its properties are `HoldingFiresAtMostOnce` and `HeldKeyFeed` |
| KeyControls.TouchZonesAreDisjoint | src/hooks/useKeyControls.tsx:86-105 | one touch never sets both directions, and a clone touch sets neither |
| KeyControls.Controls.constructor | src/hooks/useKeyControls.tsx:17-23 | all five flags start false |
| KeyControls.Controls.HandleKeyDown | src/hooks/useKeyControls.tsx:25-54 | default suppressed iff the key is one of the ten; flags and fired callbacks as `KeyDown` |
| KeyControls.Controls.HandleKeyUp | src/hooks/useKeyControls.tsx:56-75 | flags as `KeyUp`; no callback |
| KeyControls.Controls.HandleTouchStart | src/hooks/useKeyControls.tsx:78-111 | flags and callbacks as `TouchStart` |
| KeyControls.Controls.HandleTouchEnd | src/hooks/useKeyControls.tsx:113-121 | flags as `TouchEnd` |
| KeyControls.Controls.ClearKeys | src/hooks/useKeyControls.tsx:124-132 | all five flags false |
| Navigation.Rendered | src/App.tsx:31-40 | exactly one screen component is rendered, and it is the one for the state |
| Navigation.App.constructor | src/App.tsx:8-9 | starts on the start screen with final score 0 |
| Navigation.App.StartGame | src/App.tsx:11-13 | moves to playing; final score unchanged |
| Navigation.App.EndGame | src/App.tsx:15-18 | records the score and moves to game over |
| Navigation.App.RestartGame | src/App.tsx:20-22 | moves to playing; final score unchanged |
| Navigation.App.GoToStart | src/App.tsx:24-26 | moves to start; final score unchanged |
| Navigation.FinalScoreIsLastReported | src/App.tsx:15-26 | after any run of handlers the final score is the one reported by the last `endGame`, or the old one if none |
| Navigation.GameOverShownAfterEndGame | src/App.tsx:11-26 | the game-over screen shows iff the last handler was `endGame` |
| Navigation.ApplyAllLast | src/App.tsx:11-26 | a run of handlers ends with the effect of its last handler |
| Navigation.Apply | src/App.tsx:11-26 | defines the four handlers on the shown screen and final score; tied to each `App` method by its `Current` ensures |
| Navigation.ApplyAll | src/App.tsx:11-26 | defines a run of handlers; its properties are `FinalScoreIsLastReported` and `GameOverShownAfterEndGame` |
| InputHistory.Encode | src/components/GameScreen.tsx:119 | x = -1 iff left held (even with right); x = 1 iff only right; 0 otherwise; y = -1 iff jump held |
| InputHistory.PruneKeepsWindow | src/components/GameScreen.tsx:123-126 | pruning keeps exactly the samples newer than now - 5000, and pruning twice equals pruning once |
| InputHistory.PruneAppend | src/components/GameScreen.tsx:123-126 | pruning preserves order: pruning a concatenation concatenates the pruned parts |
| InputHistory.Closest | src/components/GameScreen.tsx:372-375 | nothing iff every sample is newer than the target; otherwise a sample at or before the target with the greatest such time, the earliest recorded of that time |
| InputHistory.Prune | src/components/GameScreen.tsx:123-126 | defines the five-second window filter; its properties are `PruneKeepsWindow` and `PruneAppend` |
| InputHistory.Record | src/components/GameScreen.tsx:116-127 | defines recording: push the current intent, then prune; its property is `RecordKeepsNewest` |
| InputHistory.Delayed | src/components/GameScreen.tsx:372-375 | defines the lookup one second back as `Closest`; its property is `NewSampleNotReplayedYet` |
| InputHistory.RecordKeepsNewest | src/components/GameScreen.tsx:116-127 | recording appends the new sample after the pruned history, and it is always kept |
| InputHistory.NewSampleNotReplayedYet | src/components/GameScreen.tsx:116-130 | the sample recorded in a tick never reaches the clones in the same tick |
| InputHistory.DelayedLookupExamples | src/components/GameScreen.tsx:372-375 | a one-second-old sample is found; a lookup before every sample finds nothing |
| InputHistory.PruneExample | src/components/GameScreen.tsx:123-126 | samples at 0, 2000, 4000, 6000 pruned at 6000 keep the last three |
| Movement.ContactLine | src/components/GameScreen.tsx:384 | defines a platform's reference line, its centre less its full height |
| Movement.Touches | src/components/GameScreen.tsx:385-393 | defines the contact test against one platform; its properties are `RestingOnTopIsNotContact` and `ContactAtReferenceLine` |
| Movement.OnPlatform | src/components/GameScreen.tsx:383-394 | true iff some platform has the body's bottom within 5 of its centre minus full height and is horizontally within half its width |
| Movement.RestingOnTopIsNotContact | src/components/GameScreen.tsx:384 | a ball resting on top of a platform thicker than 10 is not in contact |
| Movement.ContactAtReferenceLine | src/components/GameScreen.tsx:384-393 | a ball whose bottom is exactly on the reference line above a platform is in contact |
| Movement.KeyForce | src/components/GameScreen.tsx:500-503 | right gives +0.001, left alone -0.001, neither 0 |
| Movement.RecordedIntentMatchesForce | src/components/GameScreen.tsx:119 | recorded intent and force agree, except with both keys held, when they point opposite ways |
| Movement.ControlPlayer | src/components/GameScreen.tsx:500-531 | defines the player-control effect on the player's body; its property is `ControlPlayerEffect` |
| Movement.Replay | src/components/GameScreen.tsx:377-399 | defines one clone's replay of a sample; its property is `ReplayEffect` |
| Movement.ControlPlayerEffect | src/components/GameScreen.tsx:500-531 | the player gets the key force, and vertical velocity -10 exactly when jump is held on a platform; position and horizontal velocity kept |
| Movement.ReplayEffect | src/components/GameScreen.tsx:377-399 | no sample, no change; with one, force (x * 0.005, 0), and vertical velocity -7 exactly when y < 0 on a platform; position kept |
| Bodies.ApplyForce | src/components/GameScreen.tsx:506 | `Body.applyForce`: adds to the accumulated force and changes nothing else |
| Bodies.SetVelocity | src/components/GameScreen.tsx:525-528 | `Body.setVelocity`: overwrites the velocity and changes nothing else |
| Bodies.SetPosition | src/components/GameScreen.tsx:465-466 | `Body.setPosition`: overwrites the position and changes nothing else |
| Bounds.CheckBounds | src/components/GameScreen.tsx:459-480 | x < 0 wraps to width and x > width to 0 at the same y; y > height + 50 is a fall and resets to the centre at rest; afterwards 0 <= x <= width |
| Bounds.CheckBoundsIdempotent | src/components/GameScreen.tsx:459-480 | a check right after a check changes nothing and reports no fall |
| Bounds.WrapExample | src/components/GameScreen.tsx:465 | x = -1 on an 800-wide canvas wraps to 800 at the same height |
| Spawning.NewPlayer | src/components/GameScreen.tsx:234-257 | a radius-15 ball at the canvas centre, at rest |
| Spawning.InitialPlatforms | src/components/GameScreen.tsx:260-331 | four platform boxes numbered in order, the ground full-width and 20 high at height - 20 |
| Spawning.NewEnemy | src/components/GameScreen.tsx:405-432 | a triangle on the top edge within the canvas width, vx in [-2.5, 2.5), vy in [1, 3) |
| Spawning.NewScroll | src/components/GameScreen.tsx:435-456 | a radius-10 ball at rest within the width and the upper half |
| CloneLifecycle.NewClone | src/components/GameScreen.tsx:334-364 | a ball at the player's position, at rest, expiring 5000 after creation |
| CloneLifecycle.Survivors | src/components/GameScreen.tsx:493 | defines the clones kept by cleanup; its properties are `ExpiryPartitions` and `SurvivorsAppend` |
| CloneLifecycle.Expired | src/components/GameScreen.tsx:487 | defines the clones removed by cleanup; its property is `ExpiryPartitions` |
| CloneLifecycle.ExpiryPartitions | src/components/GameScreen.tsx:486-493 | every clone is either kept (expires after now) or removed (at or before now), never both, none lost; cleanup is idempotent |
| CloneLifecycle.SurvivorsAppend | src/components/GameScreen.tsx:493 | survivors keep their order: cleanup of a concatenation concatenates the cleaned parts |
| CloneLifecycle.ExpiryExample | src/components/GameScreen.tsx:483-494 | a clone made at 0 is kept at 4999 and removed at 5000 |
| CloneLifecycle.NewCloneSurvivesItsLifetime | src/components/GameScreen.tsx:334-364 | a new clone survives every cleanup before its fifth second |
| CloneLifecycle.CloneIdsPartition | src/components/GameScreen.tsx:487-493 | the world loses exactly the expired clones' bodies, and the survivors' bodies are the rest |
| Collisions.WithoutRemovesExactly | src/components/GameScreen.tsx:186 | the filter removes exactly the given body, keeps the others, and is idempotent |
| Collisions.RemovalIsIdempotent | src/components/GameScreen.tsx:176-201 | removing an already removed enemy or scroll changes nothing |
| Collisions.FindClone | src/components/GameScreen.tsx:204-206 | nothing iff neither body is a live clone; otherwise one of the two, and a live clone |
| Collisions.RemoveEnemy | src/components/GameScreen.tsx:185-186 | defines an enemy's removal from world and list; its properties are `WithoutRemovesExactly` and `RemovalIsIdempotent` |
| Collisions.RemoveScroll | src/components/GameScreen.tsx:199-200 | defines a scroll's removal from world and list; the same properties |
| Collisions.BounceTest | src/components/GameScreen.tsx:168-173 | defines the player-platform test; its property is `PlayerBouncesOnPlatform` |
| Collisions.EnemyTest | src/components/GameScreen.tsx:176-187 | defines the player-enemy test; its property is `PlayerHitsEnemy` |
| Collisions.ScrollTest | src/components/GameScreen.tsx:190-201 | defines the player-scroll test; its property is `PlayerCollectsScroll` |
| Collisions.CloneTest | src/components/GameScreen.tsx:204-228 | defines the clone test; its properties are `CloneDefeatsEnemy` and `CloneCollectsScroll` |
| Collisions.Resolve | src/components/GameScreen.tsx:165-228 | defines one pair as the four tests in order; its properties are `ResolveFollows` and `ResolveCoherent` |
| Collisions.ResolveCoherent | src/components/GameScreen.tsx:165-228 | one pair keeps the world equal to the fixed bodies plus the tracked enemy and scroll lists, each correctly labelled |
| Collisions.ResolveAll | src/components/GameScreen.tsx:161-230 | defines an event as its pairs in order; its properties are `ResolveAllFollows`, `ResolveAllCoherent` and `RemovedStaysRemoved` |
| Collisions.PlayerHitsEnemy | src/components/GameScreen.tsx:176-187 | either order: one life lost (floored at 0), the hit cue, the enemy gone from world and list |
| Collisions.PlayerCollectsScroll | src/components/GameScreen.tsx:190-201 | either order: +10, the collect cue, the scroll gone from world and list |
| Collisions.PlayerBouncesOnPlatform | src/components/GameScreen.tsx:168-173 | either order: only the bounce cue, no state change |
| Collisions.CloneDefeatsEnemy | src/components/GameScreen.tsx:204-218 | either order: +5, the defeat cue, the enemy gone |
| Collisions.CloneCollectsScroll | src/components/GameScreen.tsx:204-227 | either order: +5, the collect cue, the scroll gone |
| Collisions.UninvolvedPairIsIgnored | src/components/GameScreen.tsx:164-229 | a pair without the player or a live clone changes nothing |
| Collisions.PlayerMeetsCloneIsIgnored | src/components/GameScreen.tsx:164-229 | the player touching a live clone changes nothing |
| Collisions.ResolveFollows | src/components/GameScreen.tsx:164-229 | one pair never lowers the score, never adds a life, never takes lives below 0, and only removes bodies |
| Collisions.ResolveAllFollows | src/components/GameScreen.tsx:161-230 | the same for a whole event |
| Collisions.RemovedStaysRemoved | src/components/GameScreen.tsx:161-230 | a body already gone stays gone from world and lists through any event |
| Collisions.ScrollTouchedTwiceInOneEventPaysTwice | src/components/GameScreen.tsx:190-227 | a scroll touching the player and a clone in one event is removed once but pays 10 + 5 and plays two cues |
| Collisions.ResolveAllCoherent | src/components/GameScreen.tsx:161-230 | an event keeps the world equal to the fixed bodies plus the tracked enemy and scroll lists, each correctly labelled |
| Simulation.GameEndsOnThirdLoss | src/components/GameScreen.tsx:41-45 | from a fresh game and until a reset, the game over is reported exactly once three lives have been lost |
| Simulation.GameOverReportShowsScore | src/components/GameScreen.tsx:41-45 | the report takes the app to the game-over screen with that score |
| Simulation.RestartWithoutResetEndsAtOnce | src/App.tsx:20-22 | after a lost game, `restartGame` shows the game screen, which reports the old score at once and is sent back to game over with it |
| Simulation.MenuStartBeginsAfresh | src/components/StartScreen.tsx:12-15 | starting from the menu resets the context first, so the new game has three lives and reports nothing |
| Simulation.ReplayAll | src/components/GameScreen.tsx:370-401 | replay keeps each clone's body identity, kind, position and lifetime, and the list order |
| Simulation.ReplayEntry | src/components/GameScreen.tsx:377-399 | defines one clone's replay: only its body changes, as `Movement.Replay` |
| Simulation.SpawnsAppendNewBodies | src/components/GameScreen.tsx:136-137 | the spawns keep the old enemy and scroll lists and append exactly the tick's new bodies, the enemy first |
| Simulation.SpawnedBodiesAreFresh | src/components/GameScreen.tsx:136-137 | the new bodies are one per successful roll, numbered consecutively from the next free identifier, none already labelled; only the first can be the enemy |
| Simulation.SpawnedBodiesAreLabelled | src/components/GameScreen.tsx:405-456 | the labels gain exactly the new bodies' identifiers, each with its own kind, and keep every old label |
| Simulation.RemoveBodies | src/components/GameScreen.tsx:489-491 | removing the bodies one by one leaves the world minus exactly those bodies |
| Simulation.GameScreen.constructor | src/components/GameScreen.tsx:234-331 | the player and four platforms are the world; all lists empty; the invariant holds |
| Simulation.GameScreen.BounceCheck | src/components/GameScreen.tsx:168-173 | the tracked state evolves as the player-platform test |
| Simulation.GameScreen.EnemyCheck | src/components/GameScreen.tsx:176-187 | the tracked state evolves as the player-enemy test |
| Simulation.GameScreen.ScrollCheck | src/components/GameScreen.tsx:190-201 | the tracked state evolves as the player-scroll test |
| Simulation.GameScreen.CloneCheck | src/components/GameScreen.tsx:204-228 | the tracked state evolves as the clone test |
| Simulation.GameScreen.HandlePair | src/components/GameScreen.tsx:165-228 | one pair evolves the tracked state as `Resolve` and keeps the invariant |
| Simulation.GameScreen.OnCollisionStart | src/components/GameScreen.tsx:161-230 | an event evolves score, lives, world, lists and cues as `ResolveAll` and keeps the invariant |
| Simulation.GameScreen.UpdateClones | src/components/GameScreen.tsx:367-402 | every clone replays the sample from one second ago; nothing else changes |
| Simulation.GameScreen.CheckBounds | src/components/GameScreen.tsx:459-480 | the player as `Bounds.CheckBounds`; a fall costs exactly one life and plays the fall cue |
| Simulation.GameScreen.SpawnEnemy | src/components/GameScreen.tsx:405-432 | appends the new enemy to list and world under a fresh identifier |
| Simulation.GameScreen.SpawnChakraScroll | src/components/GameScreen.tsx:435-456 | appends the new scroll to list and world under a fresh identifier |
| Simulation.GameScreen.CreateClone | src/components/GameScreen.tsx:334-364 | the clone cue, and a new clone at the player's position appended to list and world |
| Simulation.GameScreen.CleanupExpiredClones | src/components/GameScreen.tsx:483-494 | the expired clones' bodies leave the world; only clones expiring after now stay listed, in order |
| Simulation.GameScreen.ApplyControls | src/components/GameScreen.tsx:497-532 | nothing while paused; otherwise the key force, and a jump with its cue on a platform |
| Simulation.GameScreen.RecordInput | src/components/GameScreen.tsx:116-127 | the history becomes the recorded and pruned history |
| Simulation.GameScreen.RandomSpawns | src/components/GameScreen.tsx:136-137 | an enemy under roll 0.02, then a scroll under 0.03, appended with fresh identifiers; labels and the next identifier advance by the spawns |
| Simulation.GameScreen.Tick | src/components/GameScreen.tsx:112-142 | paused: nothing changes; otherwise record, replay, bounds, spawns and cleanup in that order; no clone expiring by now survives; labels and the next identifier advance by the spawns; the score is untouched |

## Left out

- The matter-js engine is not modelled: gravity, integration of forces
  into motion, contact detection, restitution, rendering and the runner.
  Collision pairs are inputs, and forces are only accumulated on the
  bodies.
- The pause effect (GameScreen.tsx:48-58) is not modelled: it stops and
  starts the runner and toggles the background music, which is engine and
  audio only.
- Canvas resizing and the re-initialisation it triggers are not modelled,
  and neither is the teardown (GameScreen.tsx:65-73, 145-154) or listener
  registration (useKeyControls.tsx:134-148). The canvas size is a
  constructor parameter.
- The guards for a missing engine or player are not modelled. The model
  starts after initialisation, where neither is missing.
- The interval closure reads `keys` and `paused` from the render that
  created it. The model takes both as inputs to each tick instead of
  modelling that staleness.
- Each tick reads the clock several times; the model uses one `now` per
  tick. Random draws are parameters in [0, 1). Probabilities are not
  modelled.
- Positions, velocities and forces are reals. IEEE rounding is not
  modelled.
- `useGameAudio` is not part of this model. Sounds are a list of cues.
- The presentational components (the start, game-over and pause screens,
  the HUD and the entity components) are not modelled, apart from the
  start button's reset-then-start (StartScreen.tsx:12-15).
- Collisions.FindClone: does not state which clone is found when both
  bodies of a pair are live clones. The source takes the first in list
  order, and either choice has the same effect, since a clone pair changes
  nothing.
- Simulation.GameScreen.UpdateClones: does not model update in place or
  aliasing of clone bodies. Bodies are values, and the loop builds the
  updated list before storing it.
- No configuration is validated; the canvas size is taken as given.
