# PlzDontPop: a verified model of the bubble game's simulation

PlzDontPop (`BubbleGame.swiftpm`) is a SwiftUI arcade game. The player drags a
bubble around the screen to dodge spikes that stream in from the edges. Two
kinds of power-up help:

- A bomb bubble makes the player bomb-active for five seconds. While
  bomb-active, touching spikes are destroyed instead of being lethal.
- A timer bubble slows the spikes' forward speed to 40 % for five seconds.

A title screen animates decorative bubbles and spikeballs. A settings screen
holds two volume sliders, and the game's pause overlay carries the same two.

This project models three source files in Dafny.

**The game session** (`GameScreenView.swift`) has two layers:

- Module `GameRules` gives each step of a session as a pure function on a
  `Session` value. The steps are:
  - the 16 ms world tick: spawning, motion, the off-screen cull, timer pickups
    and the difficulty ramp;
  - the 16 ms collision pass;
  - one firing of the one-second bomb countdown;
  - `restartGame`;
  - the drag, tap and pause inputs.
- Class `GameScreen.GameScreenView` holds the view's `@State` fields. Its
  methods update those fields in place with the same loops the program runs.
  Each method is proved to produce exactly the state the matching function
  gives.

`GameProperties` proves what those functions guarantee:

- an invariant of every reachable session: caps of 3/2/50, spikes and bomb
  bubbles inside the cull box, speeds in range, and spike identifiers
  increasing;
- exact characterisations of the cull, the pickups and the collisions;
- the bomb's five-second lifetime;
- the Idle / Playing / Paused / Over state machine.

**The title screen** (`TitleScreenView.swift`) is module `TitleScreen`. It
covers:

- the two edge generators;
- the initial spikeballs;
- the bubble and spikeball updates;
- the tick gate;
- the menu buttons.

It proves that the decoration stays inside its 50-point box. It also proves
that no surviving bubble is within popping distance of a spikeball, measured
against the spikeballs as they stood before their own move in the same tick.
The bubbles are updated first.

**The sliders** (`SettingsView.swift`) are module `Settings`. It covers the
clamp, the volume mapping and `onAppear`. Each slider is a small class over
its audio player.

Random draws are parameters. An integer stands for a drawn case. A real in
[0, 1] stands for the fraction of its range that `CGFloat.random(in:)` picked.
The trigonometric and square-root functions are parameters too, constrained
only where a proof needs it (`SinCosBounded`, `SqrtExact`). Coordinates are
mathematical reals.

## Model

| member | source | states |
|---|---|---|
| Geometry.Between | BubbleGame.swiftpm/GameScreenView.swift:447 | a draw from `lo...hi` lies in the range and hits each end at fraction 0 and 1 |
| Geometry.Square | BubbleGame.swiftpm/GameScreenView.swift:635-648 | a square of the given side whose centre is the given point |
| Geometry.Intersects | BubbleGame.swiftpm/GameScreenView.swift:650 | `CGRect.intersects` for frames of positive size: the interiors overlap, and frames that only share an edge do not; no contract of its own, see `Geometry.SquaresIntersect` and `GameProperties.HitsAreCentreDistances` |
| GameProperties.FramesAreCentredSquares | BubbleGame.swiftpm/GameScreenView.swift:635-664 | the player's frame is a 50-point square centred where the bubble is drawn, a spike's a 50-point square and a bomb bubble's a 40-point square centred on their positions |
| GameProperties.HitsAreCentreDistances | BubbleGame.swiftpm/GameScreenView.swift:650-666 | a spike touches the player exactly when the centres are less than 50 points apart on both axes, a bomb bubble exactly when less than 45 |
| Geometry.SquaresIntersect | BubbleGame.swiftpm/GameScreenView.swift:650 | two centred squares intersect exactly when their centres are closer than the half-sides' sum on both axes |
| Sequences.Keep | BubbleGame.swiftpm/GameScreenView.swift:499-502 | the order-preserving filter behind `removeAll(where:)` never lengthens a list |
| Sequences.KeepMembers | BubbleGame.swiftpm/GameScreenView.swift:623-626 | an element survives the filter exactly when it was in the list and passes the test |
| Sequences.KeepIsSubsequence | BubbleGame.swiftpm/GameScreenView.swift:623-626 | the survivors keep their relative order |
| Sequences.KeepShrinksIff | BubbleGame.swiftpm/GameScreenView.swift:663-680 | the list shrinks exactly when some element fails the test, and is unchanged otherwise |
| Sequences.KeepConcat | BubbleGame.swiftpm/TitleScreenView.swift:164-179 | filtering a concatenation filters each part (the "append each survivor" loops) |
| Sequences.SubsequencePairwise | BubbleGame.swiftpm/GameScreenView.swift:623-626 | a pairwise ordering relation holds on any subsequence of a list it holds on |
| GameRules.EdgeLaunch | BubbleGame.swiftpm/GameScreenView.swift:441-465 | the eight-way spawn switch places the entity off screen within its inset, with a direction pointing back across the edge it is beyond |
| GameRules.LaunchMagnitude | BubbleGame.swiftpm/GameScreenView.swift:468 | every unnormalised spawn direction has length at least one, so the division by `mag` is defined |
| GameRules.Normalize | BubbleGame.swiftpm/GameScreenView.swift:467-469 | normalising keeps the sign of each component (so the direction still points inward) |
| GameRules.SpawnBomb | BubbleGame.swiftpm/GameScreenView.swift:439-480 | a new bomb bubble moves at 80, is stamped with the current time, starts off screen within 40 points and heads inward |
| GameRules.SpawnInterval | BubbleGame.swiftpm/GameScreenView.swift:553-555 | the spike interval stays in [0.02, 0.5] and reaches its floor by 24 s |
| GameRules.SpawnIntervalNonIncreasing | BubbleGame.swiftpm/GameScreenView.swift:555 | spikes never come less often as the game goes on |
| GameRules.SpeedCap | BubbleGame.swiftpm/GameScreenView.swift:591-594 | the top of the spike speed range lies in [60, 600] and is 600 from the first minute on |
| GameRules.SpeedCapNonDecreasing | BubbleGame.swiftpm/GameScreenView.swift:593 | the speed range only widens with time |
| GameRules.SpawnSpike | BubbleGame.swiftpm/GameScreenView.swift:557-604 | a new spike has the next identifier and the current time, a speed in [60, cap], and starts off screen within 50 points heading inward |
| GameRules.SpawnTimer | BubbleGame.swiftpm/GameScreenView.swift:504-527 | a new timer bubble moves at 1.5, starts 40 points beyond its edge and has an angle in that edge's range |
| GameRules.MoveBomb | BubbleGame.swiftpm/GameScreenView.swift:483-496 | a bomb bubble's step changes only its position |
| GameRules.MoveSpike | BubbleGame.swiftpm/GameScreenView.swift:609-621 | a spike's step changes only its position |
| GameRules.MoveTimer | BubbleGame.swiftpm/GameScreenView.swift:529-540 | a timer bubble's step changes only its position, by at most speed + 2 on each axis |
| GameRules.BoundedProduct | BubbleGame.swiftpm/GameScreenView.swift:532-533 | a sine or cosine times a speed is bounded by the speed |
| GameRules.SpeedMultiplier | BubbleGame.swiftpm/GameScreenView.swift:606-607 | spikes move at 0.4 exactly inside the slow window and at 1 exactly outside it |
| GameRules.WorldTick | BubbleGame.swiftpm/GameScreenView.swift:433-436 | the tick does nothing unless the game is started, unpaused and not over, and otherwise advances the clock by 0.016 |
| GameRules.BombCountdown | BubbleGame.swiftpm/GameScreenView.swift:672-678 | a firing takes a second off; the bomb stays active and the timer scheduled exactly while time remains; nothing else changes, and nothing at all when no timer is scheduled |
| GameRules.BombPhase | BubbleGame.swiftpm/GameScreenView.swift:438-502 | the bomb bubbles after spawn, move and cull; no contract of its own, see `GameProperties.CullKeepsInsideInOrder` and `GameProperties.BombPhaseKeepsInvariant` |
| GameRules.TimerPhase | BubbleGame.swiftpm/GameScreenView.swift:504-550 | the timer bubbles after spawn, move and pickup, with the slow window and sounds; no contract of its own, see `GameProperties.TimerPickupKeepsFarBubbles` and `GameProperties.TimerPickupSlowsSpikes` |
| GameRules.SpikePhase | BubbleGame.swiftpm/GameScreenView.swift:552-626 | the spikes after spawn, move and cull, with the spawn time and identifier counter; no contract of its own, see `GameProperties.SpikeSpawnCadence` and `GameProperties.CullKeepsInsideInOrder` |
| GameRules.SpikeCollisions | BubbleGame.swiftpm/GameScreenView.swift:642-662 | the spike loop of the collision pass; no contract of its own, see `GameProperties.LethalHitEndsGame`, `GameProperties.GameEndsOnlyByLethalHit` and `GameProperties.BombActiveDestroysTouchingSpikes` |
| GameRules.BombCollisions | BubbleGame.swiftpm/GameScreenView.swift:663-681 | the bomb-bubble loop of the collision pass; no contract of its own, see `GameProperties.BombCollisionsKeepMisses` and `GameProperties.BombPickupResetsCountdown` |
| GameRules.CollisionPass | BubbleGame.swiftpm/GameScreenView.swift:628-681 | the whole collision pass, a no-op once the game is over; no contract of its own, see `GameProperties.GameEndsOnlyByLethalHit` and `GameProperties.CollisionPassKeepsInvariant` |
| GameRules.Restart | BubbleGame.swiftpm/GameScreenView.swift:63-80 | `restartGame` as written; no contract of its own, see `GameProperties.RestartReturnsToIdle` |
| GameRules.DragChanged | BubbleGame.swiftpm/GameScreenView.swift:141-148 | the drag handler; no contract of its own, see `GameProperties.FirstInputStartsGame` |
| GameRules.DragEnded | BubbleGame.swiftpm/GameScreenView.swift:149-154 | the drag-end handler; no contract of its own, see `GameProperties.DragEndKeepsFrame` |
| GameRules.Tap | BubbleGame.swiftpm/GameScreenView.swift:156-161 | the tap handler; no contract of its own, see `GameProperties.FirstInputStartsGame` |
| GameRules.TogglePause | BubbleGame.swiftpm/GameScreenView.swift:282-285 | the pause button, shown only once the game has started; no contract of its own, see `GameProperties.PauseToggles` |
| GameProperties.InitialSessionInvariant | BubbleGame.swiftpm/GameScreenView.swift:26-56 | the declared field values satisfy the invariant and are Idle |
| GameProperties.KeepSpikesOk | BubbleGame.swiftpm/GameScreenView.swift:623-626 | the spike cull yields a well-formed spike list |
| GameProperties.AppendKeepsIdsIncreasing | BubbleGame.swiftpm/GameScreenView.swift:603 | appending a spike with a fresh identifier keeps identifiers increasing |
| GameProperties.SameIdsKeepIdsIncreasing | BubbleGame.swiftpm/GameScreenView.swift:609-621 | moving spikes keeps their identifier order |
| GameProperties.SpikesBeforeCullOk | BubbleGame.swiftpm/GameScreenView.swift:557-621 | after spawning and moving, spikes have distinct increasing identifiers below the counter and speeds in [60, 600] |
| GameProperties.SpikePhaseKeepsInvariant | BubbleGame.swiftpm/GameScreenView.swift:552-626 | the spike phase keeps the session invariant |
| GameProperties.BombPhaseKeepsInvariant | BubbleGame.swiftpm/GameScreenView.swift:438-502 | the bomb phase keeps the session invariant |
| GameProperties.TimersBeforePickupOk | BubbleGame.swiftpm/GameScreenView.swift:504-540 | spawned and moved timer bubbles stay within the cap of 2 and keep speed 1.5 |
| GameProperties.TimerPhaseKeepsInvariant | BubbleGame.swiftpm/GameScreenView.swift:504-550 | the timer phase keeps the session invariant |
| GameProperties.WorldTickKeepsInvariant | BubbleGame.swiftpm/GameScreenView.swift:433-627 | the whole world tick keeps the session invariant |
| GameProperties.WorldTickRespectsCaps | BubbleGame.swiftpm/GameScreenView.swift:433-627 | each spawner adds at most one entity per tick and none at its cap, so the caps 3, 2 and 50 hold |
| GameProperties.SpikeSpawnCadence | BubbleGame.swiftpm/GameScreenView.swift:553-604 | a spike is spawned exactly when the interval has passed below the cap; it gets the next identifier, the current time and a speed in [60, cap], and the spawn time is recorded |
| GameProperties.CullKeepsInsideInOrder | BubbleGame.swiftpm/GameScreenView.swift:498-626 | the culls keep exactly the spikes and bomb bubbles inside the 100-point margin box, in order |
| GameProperties.TimerPickupKeepsFarBubbles | BubbleGame.swiftpm/GameScreenView.swift:542-550 | pickup removes exactly the timer bubbles within 50 points of the player, keeping the rest in order |
| GameProperties.TimerPickupSlowsSpikes | BubbleGame.swiftpm/GameScreenView.swift:542-550 | each bubble taken plays the sound once; if any was taken the slow window ends five seconds from now, otherwise it is unchanged |
| GameProperties.TimerBubblesAreNeverCulled | BubbleGame.swiftpm/GameScreenView.swift:504-550 | a timer bubble far from the player survives the tick wherever it is |
| GameProperties.PickupIgnoresDrawShift | BubbleGame.swiftpm/GameScreenView.swift:542-550 | a timer bubble drawn over the player does not get picked up, because pickup measures from `bubblePosition`, 130 points left of where the bubble is drawn |
| GameProperties.LethalHitEndsGame | BubbleGame.swiftpm/GameScreenView.swift:650-660 | without a bomb a touching spike ends the game once: one sound, the game stops, the spikes stay |
| GameProperties.GameEndsOnlyByLethalHit | BubbleGame.swiftpm/GameScreenView.swift:650-660 | a collision pass ends the game only by a spike touching a player who is not bomb-active |
| GameProperties.PausedGameCanEnd | BubbleGame.swiftpm/GameScreenView.swift:628-660 | a paused session that satisfies the invariant, with a spike on the player, is ended by the collision pass with one sound |
| GameProperties.PausedCollisionEndsGameIff | BubbleGame.swiftpm/GameScreenView.swift:628-660 | while paused, the pass ends the game exactly when the player is not bomb-active and a spike touches the player |
| GameProperties.BombActiveDestroysTouchingSpikes | BubbleGame.swiftpm/GameScreenView.swift:650-654 | while bomb-active exactly the touching spikes are destroyed, in order, with no sound and the game going on |
| GameProperties.BombCollisionsKeepMisses | BubbleGame.swiftpm/GameScreenView.swift:663-680 | the bomb loop keeps exactly the bomb bubbles not touching the player, in order |
| GameProperties.BombPickupConsumesTouching | BubbleGame.swiftpm/GameScreenView.swift:663-680 | after a collision pass exactly the untouched bomb bubbles remain |
| GameProperties.BombPickupResetsCountdown | BubbleGame.swiftpm/GameScreenView.swift:666-678 | touching a bomb bubble makes the player bomb-active with exactly five seconds and a fresh countdown, whatever was left; otherwise the bomb state is untouched |
| GameProperties.SpikeCollisionsKeepInvariant | BubbleGame.swiftpm/GameScreenView.swift:642-662 | the spike loop keeps the invariant |
| GameProperties.BombCollisionsKeepInvariant | BubbleGame.swiftpm/GameScreenView.swift:663-680 | the bomb loop keeps the invariant |
| GameProperties.CollisionPassKeepsInvariant | BubbleGame.swiftpm/GameScreenView.swift:628-681 | the collision pass keeps the invariant |
| GameProperties.BombLastsFiveFirings | BubbleGame.swiftpm/GameScreenView.swift:668-678 | a bomb picked up stays active through four firings and ends with the timer cancelled at the fifth; later firings do nothing |
| GameProperties.RestartReturnsToIdle | BubbleGame.swiftpm/GameScreenView.swift:63-80 | restart yields an Idle session with no spikes or bomb bubbles that keeps the invariant; the timer bubbles and the slow window carry over |
| GameProperties.RestartKeepsSlowWindow | BubbleGame.swiftpm/GameScreenView.swift:63-80 | any `slowUntil` later than one tick slows the first tick of the next game, even a window that closed long before the restart, because `slowUntil` is an absolute time and the clock restarts at 0 |
| GameProperties.FirstInputStartsGame | BubbleGame.swiftpm/GameScreenView.swift:141-161 | the first drag or tap on an idle bubble starts the game and hides the prompt |
| GameProperties.PauseToggles | BubbleGame.swiftpm/GameScreenView.swift:282-285 | the pause button moves Playing to Paused and back, and pressing it twice changes nothing |
| GameProperties.DragEndKeepsFrame | BubbleGame.swiftpm/GameScreenView.swift:149-154 | ending a drag folds the offset into the position without moving the player's frame |
| GameProperties.GameOverIsTerminal | BubbleGame.swiftpm/GameScreenView.swift:433-434 | once over, the tick, the collision pass, drags and taps change nothing and the pause button and countdown keep it over; only restart leaves it, to Idle |
| GameProperties.WorldTickNeverEndsGame | BubbleGame.swiftpm/GameScreenView.swift:433-627 | the world tick never starts or ends a game |
| GameProperties.CountdownKeepsInvariant | BubbleGame.swiftpm/GameScreenView.swift:672-678 | a countdown firing keeps the invariant |
| GameProperties.DragKeepsInvariant | BubbleGame.swiftpm/GameScreenView.swift:141-154 | both halves of a drag keep the invariant |
| GameProperties.TapKeepsInvariant | BubbleGame.swiftpm/GameScreenView.swift:156-161 | a tap and the pause button keep the invariant |
| GameScreen.FirstIndexWithId | BubbleGame.swiftpm/GameScreenView.swift:652 | `firstIndex(where:)` returns the first position with that identifier, or none when there is none |
| GameScreen.RemovalFindsVisitedSpike | BubbleGame.swiftpm/GameScreenView.swift:652-653 | removing by identifier during the loop removes the spike being visited, because identifiers are distinct |
| GameScreen.GameScreenView.constructor | BubbleGame.swiftpm/GameScreenView.swift:26-56 | the fields start at their declared values, which satisfy the invariant |
| GameScreen.GameScreenView.WorldTick | BubbleGame.swiftpm/GameScreenView.swift:433-627 | the in-place tick yields exactly `GameRules.WorldTick` of the old state and keeps the invariant |
| GameScreen.GameScreenView.RunPhases | BubbleGame.swiftpm/GameScreenView.swift:436-626 | past the guard, the clock step and three phases yield exactly the running tick |
| GameScreen.GameScreenView.BombStep | BubbleGame.swiftpm/GameScreenView.swift:439-502 | the in-place bomb spawn, move loop and cull equal the bomb phase |
| GameScreen.GameScreenView.TimerStep | BubbleGame.swiftpm/GameScreenView.swift:504-550 | the in-place timer spawn, move loop and pickup equal the timer phase |
| GameScreen.GameScreenView.UpdateTimers | BubbleGame.swiftpm/GameScreenView.swift:504-550 | the timer list, the slow window and the sound count end as the timer phase gives them |
| GameScreen.GameScreenView.MoveTimerBubbles | BubbleGame.swiftpm/GameScreenView.swift:529-540 | the index loop moves every timer bubble one step |
| GameScreen.GameScreenView.PickUpTimers | BubbleGame.swiftpm/GameScreenView.swift:542-550 | the reversed removal loop keeps the far bubbles in order, plays once per bubble taken and opens the slow window if any was taken |
| GameScreen.GameScreenView.SpikeStep | BubbleGame.swiftpm/GameScreenView.swift:552-626 | the in-place spike spawn, move loop and cull equal the spike phase |
| GameScreen.GameScreenView.UpdateSpikes | BubbleGame.swiftpm/GameScreenView.swift:552-626 | the spike list, spawn time and identifier counter end as the spike phase gives them |
| GameScreen.GameScreenView.SpawnSpikeIfDue | BubbleGame.swiftpm/GameScreenView.swift:553-604 | a spike is appended and the spawn time and counter advance exactly when one is due |
| GameScreen.GameScreenView.MoveSpikeList | BubbleGame.swiftpm/GameScreenView.swift:609-621 | the index loop moves every spike one step at the given multiplier |
| GameScreen.GameScreenView.CollisionPass | BubbleGame.swiftpm/GameScreenView.swift:628-681 | the in-place collision pass yields exactly `GameRules.CollisionPass` of the old state and keeps the invariant |
| GameScreen.GameScreenView.SpikeLoop | BubbleGame.swiftpm/GameScreenView.swift:642-662 | the spike loop yields the spike collisions of the old state |
| GameScreen.GameScreenView.DestroyTouchingSpikes | BubbleGame.swiftpm/GameScreenView.swift:642-654 | while bomb-active, the loop leaves exactly the non-touching spikes in order |
| GameScreen.GameScreenView.FindLethalSpike | BubbleGame.swiftpm/GameScreenView.swift:642-662 | without a bomb, the game ends with one sound exactly when some spike touches the player |
| GameScreen.GameScreenView.RemoveSpikeWithId | BubbleGame.swiftpm/GameScreenView.swift:652-654 | removal by identifier drops the visited spike from the live list |
| GameScreen.GameScreenView.BombLoop | BubbleGame.swiftpm/GameScreenView.swift:663-680 | the reversed loop keeps the untouched bomb bubbles and, if any was touched, sets five seconds and a scheduled countdown |
| GameScreen.GameScreenView.BombTimerFired | BubbleGame.swiftpm/GameScreenView.swift:672-678 | a firing of the countdown is exactly `BombCountdown` and keeps the invariant |
| GameScreen.GameScreenView.RestartGame | BubbleGame.swiftpm/GameScreenView.swift:63-80 | `restartGame` yields exactly `Restart` of the old state and keeps the invariant |
| GameScreen.GameScreenView.ResetPlayer | BubbleGame.swiftpm/GameScreenView.swift:64-68 | the player is back at (200, 500) with no offset, not started, prompt shown |
| GameScreen.GameScreenView.ClearHazards | BubbleGame.swiftpm/GameScreenView.swift:70-75 | no spikes, no bomb bubbles, no bomb and no countdown |
| GameScreen.GameScreenView.ResetClock | BubbleGame.swiftpm/GameScreenView.swift:76-79 | clock and spawn time at zero, neither paused nor over |
| GameScreen.GameScreenView.DragChanged | BubbleGame.swiftpm/GameScreenView.swift:141-148 | the drag's change handler is exactly `GameRules.DragChanged` and keeps the invariant |
| GameScreen.GameScreenView.DragEnded | BubbleGame.swiftpm/GameScreenView.swift:149-154 | the drag's end handler is exactly `GameRules.DragEnded` and keeps the invariant |
| GameScreen.GameScreenView.Tap | BubbleGame.swiftpm/GameScreenView.swift:156-161 | the tap handler is exactly `GameRules.Tap` and keeps the invariant |
| GameScreen.GameScreenView.TogglePause | BubbleGame.swiftpm/GameScreenView.swift:282-285 | the pause button is exactly `GameRules.TogglePause` and keeps the invariant |
| TitleScreen.EdgeEntry | BubbleGame.swiftpm/TitleScreenView.swift:240-249 | the four-way generator switch starts an entity beyond its edge, within the inset, moving inward at a speed in range with bounded drift |
| TitleScreen.GenerateRandomBubble | BubbleGame.swiftpm/TitleScreenView.swift:234-251 | a new bubble starts 30 points beyond an edge, moving 0.5 to 1.5 per tick inward with drift at most 0.5 |
| TitleScreen.GenerateRandomSpikeball | BubbleGame.swiftpm/TitleScreenView.swift:253-270 | a new spikeball starts 40 points beyond an edge, moving 0.5 to 1.0 per tick inward with drift at most 0.3 |
| TitleScreen.InitialCountIsFive | BubbleGame.swiftpm/TitleScreenView.swift:213 | the 393 x 852 screen gives `Int(W * H / 60000)` = 5 spikeballs |
| TitleScreen.InitialSpikeballs | BubbleGame.swiftpm/TitleScreenView.swift:211-221 | there are 5 initial spikeballs, each 60 points inside the screen with speeds in [-0.5, 0.5] |
| TitleScreen.BubblesAfterKeepsClearBubbles | BubbleGame.swiftpm/TitleScreenView.swift:160-186 | kept bubbles are the moved ones, in order, that are inside the margin box and at least 25 points from every spikeball as it stood before its own move this tick; every such bubble is kept; at most one new bubble, last |
| TitleScreen.SpikeballsAfterKeepsInside | BubbleGame.swiftpm/TitleScreenView.swift:188-208 | kept spikeballs are exactly the moved ones inside the margin box, in order, plus at most one new one, last |
| TitleScreen.GeneratedSurviveFirstMove | BubbleGame.swiftpm/TitleScreenView.swift:234-270 | a generated bubble or spikeball is not culled by its first move |
| TitleScreen.TickGate | BubbleGame.swiftpm/TitleScreenView.swift:65-72 | off the menu the tick changes nothing; on it, only the bubbles and spikeballs |
| TitleScreen.TitleTickKeepsDecorated | BubbleGame.swiftpm/TitleScreenView.swift:65-72 | the tick keeps every decoration inside the margin box |
| TitleScreen.InitialSpikeballsDecorated | BubbleGame.swiftpm/TitleScreenView.swift:211-221 | a fresh set of initial spikeballs lies inside the margin box |
| TitleScreen.BubblesAfter | BubbleGame.swiftpm/TitleScreenView.swift:160-186 | `updateBubbles` as a list function; no contract of its own, see `TitleScreen.BubblesAfterKeepsClearBubbles` |
| TitleScreen.SpikeballsAfter | BubbleGame.swiftpm/TitleScreenView.swift:188-208 | `updateSpikeballs` as a list function; no contract of its own, see `TitleScreen.SpikeballsAfterKeepsInside` |
| TitleScreen.TitleTick | BubbleGame.swiftpm/TitleScreenView.swift:65-72 | one firing of the title timer; no contract of its own, see `TitleScreen.TickGate` and `TitleScreen.TitleTickKeepsDecorated` |
| TitleScreen.TitleScreenView.constructor | BubbleGame.swiftpm/TitleScreenView.swift:19-30 | the menu starts with no screen open, music not started and no decoration |
| TitleScreen.TitleScreenView.Appear | BubbleGame.swiftpm/TitleScreenView.swift:56-64 | the music starts on the first appearance only; the spikeballs are laid out afresh and the bubbles cleared |
| TitleScreen.TitleScreenView.Tick | BubbleGame.swiftpm/TitleScreenView.swift:65-72 | a timer firing is exactly `TitleTick` and keeps the decoration in its box |
| TitleScreen.TitleScreenView.UpdateBubbles | BubbleGame.swiftpm/TitleScreenView.swift:160-186 | the copy-and-append loop yields exactly `BubblesAfter` |
| TitleScreen.TitleScreenView.UpdateSpikeballs | BubbleGame.swiftpm/TitleScreenView.swift:188-208 | the copy-and-append loop yields exactly `SpikeballsAfter` |
| TitleScreen.TitleScreenView.SpawnInitialSpikeballs | BubbleGame.swiftpm/TitleScreenView.swift:211-221 | the spikeballs are replaced by a fresh initial set |
| TitleScreen.TitleScreenView.ClearActiveEntities | BubbleGame.swiftpm/TitleScreenView.swift:223-226 | both decoration lists are emptied |
| TitleScreen.TitleScreenView.ResetForMenu | BubbleGame.swiftpm/TitleScreenView.swift:228-231 | no bubbles and a fresh set of spikeballs |
| TitleScreen.TitleScreenView.PressStart | BubbleGame.swiftpm/TitleScreenView.swift:116-148 | two `play()` calls (the button wrapper's and the start action's own); the game screen is up and the menu stops animating, with no decoration |
| TitleScreen.TitleScreenView.PressSettings | BubbleGame.swiftpm/TitleScreenView.swift:129-132 | one sound; settings are up, the menu stops animating, no decoration |
| TitleScreen.TitleScreenView.PressHelp | BubbleGame.swiftpm/TitleScreenView.swift:134-137 | one sound; help is up, the menu stops animating, no decoration |
| TitleScreen.TitleScreenView.CloseSettings | BubbleGame.swiftpm/SettingsView.swift:26-29 | the settings back button plays one sound and closes settings |
| TitleScreen.TitleScreenView.BackToMenu | BubbleGame.swiftpm/TitleScreenView.swift:42-48 | leaving the game returns to the menu with no bubbles and a fresh set of spikeballs, decoration in its box |
| Settings.Clamp | BubbleGame.swiftpm/SettingsView.swift:65 | the knob lands in [0, 235]: unchanged inside the range, 0 below it, 235 above it |
| Settings.VolumeFor | BubbleGame.swiftpm/SettingsView.swift:67 | a knob on the track stands for a volume in [0, 0.94], and the volume times 250 is the knob position |
| Settings.KnobFor | BubbleGame.swiftpm/SettingsView.swift:113 | the position shown for a volume maps back to that volume |
| Settings.DragStaysOnTrack | BubbleGame.swiftpm/SettingsView.swift:63-68 | whatever the translation, the knob stays on the track, the volume written stays in [0, 0.94] and the locked position is untouched |
| Settings.LatestTranslationWins | BubbleGame.swiftpm/SettingsView.swift:63-68 | within one drag each change is measured from the locked position, so only the latest translation counts |
| Settings.ReleaseLocksPosition | BubbleGame.swiftpm/SettingsView.swift:63-71 | after a release the next drag starts from where the knob was left |
| Settings.AppearRestoresDraggedKnob | BubbleGame.swiftpm/SettingsView.swift:112-120 | a volume set by a drag and read back on appear puts the knob where the drag left it, locked |
| Settings.AppearedOnTrack | BubbleGame.swiftpm/SettingsView.swift:112-120 | every volume a player can have (0.7 or a slider value) appears on the track, so the missing clamp never shows |
| Settings.Dragged | BubbleGame.swiftpm/SettingsView.swift:63-66 | the knob after a drag change; no contract of its own, see `Settings.DragStaysOnTrack` and `Settings.LatestTranslationWins` |
| Settings.Released | BubbleGame.swiftpm/SettingsView.swift:69-71 | the knob after a drag end; no contract of its own, see `Settings.ReleaseLocksPosition` |
| Settings.Appeared | BubbleGame.swiftpm/SettingsView.swift:112-115 | the knob read back on appear; no contract of its own, see `Settings.AppearRestoresDraggedKnob` and `Settings.AppearedOnTrack` |
| Settings.AudioPlayer.constructor | BubbleGame.swiftpm/TitleScreenView.swift:25-26 | a player starts at the given volume (0.7 for both of the game's players) |
| Settings.VolumeSlider.constructor | BubbleGame.swiftpm/SettingsView.swift:8-9 | a knob starts at 0 before it appears |
| Settings.VolumeSlider.DragChanged | BubbleGame.swiftpm/SettingsView.swift:63-68 | the change handler moves the knob as `Dragged` says and sets the player's volume to a value in [0, 0.94] |
| Settings.VolumeSlider.DragEnded | BubbleGame.swiftpm/SettingsView.swift:69-71 | the end handler locks the position in |
| Settings.VolumeSlider.Appear | BubbleGame.swiftpm/SettingsView.swift:112-115 | both positions are read back from the player's volume |
| Settings.SettingsView.constructor | BubbleGame.swiftpm/SettingsView.swift:4-13 | the two sliders control two different players |
| Settings.SettingsView.MusicDragChanged | BubbleGame.swiftpm/SettingsView.swift:63-68 | the music slider moves and sets the music volume; the effects slider and its volume are untouched |
| Settings.SettingsView.MusicDragEnded | BubbleGame.swiftpm/SettingsView.swift:69-71 | the music knob is locked; the effects slider is untouched |
| Settings.SettingsView.FxDragChanged | BubbleGame.swiftpm/SettingsView.swift:97-102 | the effects slider moves and sets the effects volume; the music slider and its volume are untouched |
| Settings.SettingsView.FxDragEnded | BubbleGame.swiftpm/SettingsView.swift:103-105 | the effects knob is locked; the music slider is untouched |
| Settings.SettingsView.Appear | BubbleGame.swiftpm/SettingsView.swift:112-120 | both knobs are read back from their players' volumes |

The game screen's pause overlay (`GameScreenView.swift`, lines 353-412) repeats
the settings sliders on the game screen's own `dragX`/`lastDragX` fields. Its
code is the same as in `SettingsView.swift`, so `Settings.VolumeSlider` models
it as well.

Where the code and the game's design description differ, the model follows the
code:

- Timer bubbles are never culled off screen; they leave only by pickup
  (`GameProperties.TimerBubblesAreNeverCulled`).
- `restartGame` clears the spikes, bomb bubbles, clock and flags, but not the
  timer bubbles or the slow window (`GameProperties.RestartReturnsToIdle`,
  `GameProperties.RestartKeepsSlowWindow`). `slowUntil` is an absolute time
  and the clock restarts at 0, so even a window that closed long ago slows
  the next game. A pickup at 40 s and a game over at 100 s leave
  `slowUntil` at 45, which slows the first 45 s of the next game.
- The collision pass is guarded only by game over. It therefore also runs while
  the game is paused. A spike that a world tick moved onto the player just
  before the pause button was pressed ends the game during the pause
  (`GameProperties.PausedGameCanEnd`, `GameProperties.PausedCollisionEndsGameIff`).
  The pass also runs while idle. The model reaches Idle only from the initial
  state or a restart, both with no spikes and no bomb bubbles, so there it
  changes nothing.
- While bomb-active, the spike loop removes every touching spike in one pass.
  It stops early only on a lethal hit.
- The timer bubbles' angle ranges are the code's table: top 20-160, bottom
  200-340, left 110-250 and right -70-70 degrees. With y growing downward,
  the top and bottom ranges head inward. The left and right ranges head away
  from the screen. Every timer bubble that is not picked up leaves the screen:
  the left and right ones at once, the top and bottom ones across the screen
  and out by the far edge. None is culled, and `restartGame` keeps them, so
  any two missed bubbles hold the cap of 2 and stop timer spawns for as long
  as the game screen lives, across restarts. The model keeps the table as
  written and does not prove where the bubbles go, because that needs the
  signs of sine and cosine, which the model leaves abstract.
- The slider clamp is 235, though a code comment says 250.

## Left out

- Drawing, layout, fonts (`registerFont`), opacity fades and animations. None of
  these affect the simulation.
- The decorative clocks `sineTime`, `titleY`, `sineOffset` and `waveOffset`, and
  the bubbles' random opacity. They are only drawn.
- Audio internals. A player is reduced to its volume and a count of `play()`
  calls (`fxPlays`, `bgMusicPlays`).
- `HelpWindow.swift` and the help overlay (`isShowingFullHelp`). They are
  navigation only and not part of this model.
- The back and menu buttons' one-second `asyncAfter` before `onBack`, and the
  one-second delay in the start button. Each is modelled as the state after the
  delayed action.
- Timer scheduling. The 16 ms ticks, the 0.02 s title tick and the one-second
  bomb timer are methods the environment calls. `bombTimer` is a flag saying
  whether the countdown is scheduled. Invalidating and rescheduling it is
  modelled as resetting that flag.
- Floating point. Coordinates are reals, and `hypot(dx, dy) < r` is compared as
  `dx * dx + dy * dy < r * r`.
- `gameTime.truncatingRemainder(dividingBy: 2) < 0.016` is a boolean draw
  (`timerWindow`). The model does not compute it from the clock.
- UUIDs. Spikes get identifiers from a counter, which models their freshness.
  Bomb, timer and title entities carry no identifier, because nothing compares
  them.
- The screen size. The source reads `UIScreen.main.bounds` from the device;
  the model fixes it to one device, 393 x 852. `TitleScreen.InitialCountIsFive`
  is a fact about that device only; `TitleScreen.InitialSpikeballs` states the
  general count `Int(W * H / 60000)`.
- GameRules.Normalize: does not state that the result has unit length. Only the
  sign of each component is proved, which is what the inward-heading
  properties need.
- GameRules.SpawnBomb: the angle (`atan2` of the direction) is left
  unconstrained, because it only phases the wobble.
- GameRules.MoveTimer: the step bound holds only if sine and cosine are bounded
  by one (`SinCosBounded`). The exact trigonometry is not modelled.
