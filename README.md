# Ride to school, level 1: the frame update, modelled and proved in Dafny

The game is a small browser game. The player walks to a bus, boards it, drives it along
the street while traffic cars drive ahead, gets off at the stop, goes down a staircase
and reaches the school's big door. A car that touches a walking player ends the game.
Everything happens in `update()`, which the page calls once per animation frame. It is
a sequential state machine over a handful of mutable records:

- the keyboard latch;
- the player;
- the bus;
- the traffic cars;
- the phase;
- the camera;
- the `finished` flag;
- the two one-shot flags `bus.arrivalPlayed` and `trumpetPlayed`.

The project is built in two layers.

**Specification layer (pure functions):**
- `Level` holds the constants, the geometry and the records.
- `Latch` holds the keyboard handlers. Space is edge-triggered: `jumpPressed` is a
  one-shot flag that the frame loop clears.
- `Traffic` holds car spawning, car moving and wrapping, the box-overlap test and the
  "car just ahead of the bus" test.
- `Rules` writes one call of `update()` as the function `Rules.Step` on a `GameState`
  value. It is split the way the source is: collision check, traffic move, start
  prompt, door animation, one handler per phase, final clamp.
- `Rules.Inv` is the invariant every frame keeps. `Properties` proves it, together with
  the behaviour of every phase.

**Implementation layer (module `Game`):**
- The records become objects: `Input`, `Player`, `Bus`, and a `Session` that owns them,
  the traffic array, the phase, the camera and the flags.
- The methods change fields in place, as the source does. Each is proved to produce
  exactly the state its `Rules` function describes.
- `Session.Update` is proved equal to `Rules.Step`, and `Session.Loop` to `Rules.Frame`
  (update, then clear the press).
- Both keep `Session.Valid()`, which carries `Rules.Inv`.

Inputs the page supplies become parameters:
- the canvas width and height (`Level.Canvas`; the ground line is 70 above the bottom);
- the twelve `Math.random()` draws of the initial traffic (`Traffic.Draw`, each in
  [0, 1)).

Positions are exact reals: the game only adds, clamps, compares, rounds and floors them.
`Math.round` and `Math.floor` are written out (`Level.Round`, `.Floor`). Web Audio is
not modelled; the three one-shot cues are kept instead, as a log in `cues`:
- the boarding beep;
- the arrival beep;
- the trumpet.

That log lets the model state which sound plays once and when.

One behaviour worth knowing, which the model reproduces as written:
- On the frame the bus reaches its stop, the player is placed at the clamped target
  plus 40, and only afterwards does the bus snap back to the drop-off x.
- The bus moves in steps of 5 from 360, and the drop-off x is 1982. So the bus arrives
  from 1980 with target 1985, and the player ends 3 units ahead of the seat
  (`Properties.ArrivalLeavesPlayerAhead`).
- This is only visible until the exit press moves the player again, so it is not
  claimed as a defect.

## Model

| member | source | states |
|---|---|---|
| Latch.Down | js/game.js:10-14 | keydown sets the arrow flags; Space sets `jump`, and sets `jumpPressed` only if Space was not already held; other keys change nothing |
| Latch.Up | js/game.js:15-19 | keyup clears the matching arrow flag; releasing Space clears only `jump` and never the pending press |
| Latch.RepeatedKeyDownsOnePress | js/game.js:13 | any run of Space keydowns without a keyup yields exactly one rising edge (none if Space was already held), leaves `jump` set, and leaves a press pending unless Space was already held with no press pending |
| Latch.EdgesBoundedByReleases | js/game.js:13-18 | along any event sequence the rising edges of Space are at most the releases, plus one if Space starts up |
| Latch.EachPressSeenOnce | js/game.js:603-606 | because each frame clears the flag, the frames that find a pending press are at most the rising edges, plus one for a press already pending |
| Latch.HoldReleaseHoldTwoPresses | js/game.js:13-18 | pressing Space, holding it across two frames, releasing it and pressing again makes exactly two frames see a press |
| Game.Input.constructor | js/game.js:9 | the latch starts with every flag false |
| Game.Input.KeyDown | js/game.js:10-14 | the listener changes the fields exactly as `Latch.Down` says |
| Game.Input.KeyUp | js/game.js:15-19 | the listener changes the fields exactly as `Latch.Up` says |
| Game.Player.constructor | js/game.js:23 | the player starts at x 100, 30 above the ground, at rest and on the ground |
| Game.Player.Update | js/game.js:24-28 | gravity and landing, field by field, equal to `Rules.Fall` |
| Rules.Fall | js/game.js:24-28 | x is unchanged; the player never ends below the ground; when y + vy + 0.8 + 20 reaches the ground the player lands on it with vertical speed 0 and on the ground; otherwise speed grows by 0.8, y by the new speed, and the ground flag is kept |
| Game.Bus.constructor | js/game.js:67-68 | the bus starts at x 360, door closed, progress 0, no arrival beep yet, with y at the ground minus the rounded half height |
| Traffic.SpawnCar | js/game.js:86-93 | car i lies on the bus's plane, with x within 60 of busX + 360 + 260·i, width in [110, 150), height in [48, 60) and speed in [2.2, 3.4) |
| Traffic.SpawnCars | js/game.js:81-95 | three cars on the bus's plane, all at least 120 ahead of the bus's front and less than 700 past it, with sizes and speeds in the ranges above, and no two consecutive ones overlapping |
| Game.Session.SpawnTrafficCars | js/game.js:81-95 | the loop fills a fresh array with exactly the cars of `Traffic.SpawnCars` for the given draws |
| Traffic.MoveCar | js/game.js:226-228 | only x changes; past level width + 60 the car re-enters at −w − 60; otherwise it advances by its speed |
| Traffic.MoveCars | js/game.js:225-229 | every car moves as `MoveCar` says, and the count is kept |
| Game.Session.MoveTraffic | js/game.js:225-229 | the in-place loop over the array leaves exactly `Traffic.MoveCars` of the old cars |
| Traffic.MoveCarStaysInBand | js/game.js:225-229 | a car inside its band (on the bus plane, non-negative size and speed, between the wrap-in point and the threshold) stays there after a move |
| Traffic.MoveCarsStayInBand | js/game.js:225-229 | every car of the traffic stays inside its band after a move |
| Traffic.SpawnedCarsInBand | js/game.js:81-95 | the initial traffic starts inside the band |
| Game.Session.CollidesWithTraffic | js/game.js:207-222 | the loop with its early exit answers true exactly when some car's box overlaps the player's centred box |
| Game.Session.CheckCollision | js/game.js:205-223 | a walking player who touches a car ends the game with `finished` set; nothing else changes (`Rules.Collide`) |
| Game.Session.CarInFront | js/game.js:286-297 | the loop with its early exit answers true exactly when some car is in the window just ahead of the bus at its height |
| Game.Session.AnimateBusDoor | js/game.js:237-243 | the door progress moves 0.06 towards open or closed and is clamped (`Rules.AnimateDoor`) |
| Game.Session.Stride | js/game.js:249-258 | the player's new x is right-step-then-left-step applied to the old x; the same walk, with steps 1.6 and 1.0, is used at js/game.js:337-338 and 361-368 |
| Game.Session.ApproachBus | js/game.js:246-271 | walking towards the door; within 10 of the board spot the player snaps to it, the phase becomes waitingBoard and the door opens (`Rules.Approach`) |
| Game.Session.BoardBus | js/game.js:272-280 | boarding: phase inBus, press consumed, player at the bus seat, door closed, boarding beep logged (`Rules.Board`) |
| Game.Session.WalkToBusFrame | js/game.js:246-282 | the walkToBus and waitingBoard handler, equal to `Rules.WalkToBusStep` |
| Game.Session.Steer | js/game.js:286-303 | the bus's new x is the arrows' move, with right suppressed when blocked, clamped to the level (`Rules.RideTarget`) |
| Game.Session.ArriveAtStop | js/game.js:305-315 | at the stop the bus snaps to the drop-off x, opens its door, enters waitingExit and logs the arrival beep only the first time |
| Game.Session.RideFrame | js/game.js:283-323 | the inBus handler, equal to `Rules.RideStep`, with the car-ahead test on the already moved cars |
| Game.Session.ExitFrame | js/game.js:324-332 | a pending press puts the player behind the bus, closes the door, consumes the press and enters walkToSchool; otherwise nothing changes |
| Game.Session.ReachSchool | js/game.js:381-388 | enters atSchool, sets `finished`, and logs the trumpet only if it has not played; the same code appears at js/game.js:347-354 |
| Game.Session.WalkToSchoolFrame | js/game.js:333-358 | the walkToSchool handler, equal to `Rules.WalkToSchoolStep` |
| Game.Session.StairsFrame | js/game.js:359-389 | the onStairs handler with its step index and height, equal to `Rules.StairsStep` |
| Rules.StairIndex | js/game.js:369-370 | the index is a stair in [0, 5]; it is 0 left of the stairs and 5 from the last tread on; otherwise it is the tread whose run contains x |
| Game.Session.CentreOnSchool | js/game.js:390-397 | atSchool centres the camera on the school (`Level.SchoolCamera`) |
| Game.Session.FallFrame | js/game.js:398-400 | gameOver applies gravity to the player and changes nothing else |
| Game.Session.RunPhase | js/game.js:245-400 | the dispatch on the phase, equal to `Rules.PhaseStep` |
| Game.Session.ClampAndFollow | js/game.js:402-410 | clamps the player's x into [20, 2750] and then sets the camera to follow within its range (`Rules.Settle`) |
| Game.Session.AfterTraffic | js/game.js:230-410 | the start prompt returns early; every other phase animates the door, runs its handler and clamps |
| Game.Session.Update | js/game.js:204-411 | one `update()` leaves exactly `Rules.Step` of the old state, keeps the invariant, and keeps the traffic array |
| Game.Session.Loop | js/game.js:603-606 | one loop iteration is an update followed by clearing the press (`Rules.Frame`), and keeps the invariant |
| Game.Session.constructor | js/game.js:64-100 | the page's initial state, `Rules.Initial` for the given draws, satisfies the invariant |
| Game.Session.KeyDown | js/game.js:10-14 | a keydown changes only the latch, as `Latch.Down` says, and keeps the invariant |
| Game.Session.KeyUp | js/game.js:15-19 | a keyup changes only the latch, as `Latch.Up` says, and keeps the invariant |
| Properties.InitialInv | js/game.js:64-100 | the initial state satisfies `Rules.Inv` |
| Properties.StepKeepsInv | js/game.js:204-411 | every update keeps `Rules.Inv`: door progress in [0, 1]; bus in the level and never past the drop-off, at the start before the ride and at the drop-off after it; player and camera in range; `finished` exactly in atSchool or gameOver; each one-shot flag matching its cue, which is logged at most once; cars in their band |
| Properties.PreludeKeepsCore | js/game.js:205-229 | the collision check and the traffic move keep the invariant |
| Properties.PhaseKeepsCore | js/game.js:245-400 | every phase handler keeps the invariant apart from the final clamp's ranges |
| Properties.BoardingKeepsCore | js/game.js:246-282 | the walkToBus and waitingBoard handler keeps it; in particular waitingBoard always holds the player at the board spot |
| Properties.RidingKeepsCore | js/game.js:283-323 | the inBus handler keeps it; the bus stays short of the drop-off while riding and is at the drop-off once it stops |
| Properties.LeavingKeepsCore | js/game.js:324-332 | the waitingExit handler keeps it |
| Properties.WalkingToSchoolKeepsCore | js/game.js:333-358 | the walkToSchool handler keeps it, trumpet latch included |
| Properties.ClimbingKeepsCore | js/game.js:359-389 | the onStairs handler keeps it, trumpet latch included |
| Properties.SettlePlaces | js/game.js:402-410 | the final clamp puts the player and the camera back in range |
| Properties.StartPromptWaitsForPress | js/game.js:230-236 | in startPrompt only the cars move; a press moves to walkToBus and is consumed; nothing else changes |
| Properties.DoorProgress | js/game.js:237-243 | past the start prompt the door progress moves 0.06 towards open or closed, clamped; in the start prompt it is untouched; it always stays in [0, 1] |
| Properties.HandlerFacts | js/game.js:245-400 | no phase handler touches the door progress; each moves the phase forward, gameOver and atSchool to themselves |
| Properties.Boarding | js/game.js:246-282 | near the board spot without a press: snapped to it, waitingBoard, door open; with a press: boarded at the seat, door closed, press consumed, beep logged; otherwise still walking at the clamped x with the door unchanged |
| Properties.WaitingBoardBoardsOnPress | js/game.js:264-280 | in waitingBoard the phase becomes inBus exactly when a press is pending, and otherwise stays waitingBoard |
| Properties.Ride | js/game.js:283-315 | riding keeps the bus inside the level and not past the drop-off, and the player at the bus's height; the phase is still inBus or waitingExit, waitingExit exactly when the target reaches the drop-off; in inBus the player sits at bus x + 40; at the stop the door is open and the arrival is recorded |
| Properties.BlockedBusStays | js/game.js:286-301 | with right-only input and a car in the window ahead, the bus does not move and stays inBus |
| Properties.UnblockedBusAdvances | js/game.js:298-308 | with right-only input and no car ahead, the bus advances by 5, up to the drop-off |
| Properties.ArrivalLeavesPlayerAhead | js/game.js:303-308 | the arrival frame from 1980 stops the bus at 1982 but places the player at 2025, three ahead of the seat |
| Properties.LeavingTheBus | js/game.js:324-332 | in waitingExit the phase becomes walkToSchool exactly on a press, which places the player at 2142, closes the door and is consumed |
| Properties.WalkingToSchool | js/game.js:333-358 | atSchool exactly when x reaches the big door; onStairs exactly between the stairs' start and end; otherwise still walking; past the stairs the player stands on the ground |
| Properties.Stairs | js/game.js:369-388 | on the stairs the height is ground + 12·index − 20 for an index in [0, 5]; atSchool exactly on the last tread at the big door; otherwise still onStairs |
| Properties.PhaseNeverMovesBack | js/game.js:204-411 | the phase never moves backwards along the chain; gameOver is entered only from a walking phase; atSchool and gameOver are never left |
| Properties.GameOverExactlyOnCollision | js/game.js:206-223 | gameOver is newly entered exactly when a walking player's box overlaps some car |
| Properties.GameOverFalls | js/game.js:398-400 | in gameOver the player only falls under gravity |
| Properties.PositionAndCamera | js/game.js:390-410 | after every update past the start prompt, 20 ≤ player x ≤ 2750, the camera is in its range, and the camera follows the player, so the atSchool camera is always overwritten |
| Properties.CuesAtMostOnce | js/game.js:306-388 | the arrival beep and the trumpet are each logged at most once; the trumpet is logged exactly in atSchool; `finished` holds exactly in atSchool or gameOver |
| Properties.FrameClearsPress | js/game.js:605 | after any loop iteration no press is pending, nothing but the press differs from the update's result, and the keys end exactly as the latch's frame clear leaves them (`Latch.EndFrame` of the old keys), so the update itself never touches the latch except to consume a press |

## Left out

- Drawing (`draw()`, `Player.draw()`, the walking animation counter `walkAnim`) is left out: it only renders and never feeds back into the state.
- Web Audio is left out: the beeps, the engine start, tone and stop, the step sounds and `lastStepX`, which only gates step sounds. The three one-shot sounds are kept as entries of the `cues` log.
- `performance.now()` into `boardTime` and `arrivalTime` is left out: those values are never read.
- The bus's `boarding` field and its drawing-only fields (`wheelRadius`, colours) are left out: they are never read by the update.
- `requestAnimationFrame` and the `addEventListener` registration are left out: they are scheduling and DOM plumbing. One loop iteration is `Game.Session.Loop`, and the listeners are `Game.Session.KeyDown`/`KeyUp`.
- `Math.random()` is left out: its draws are inputs to the constructor.
- IEEE floating-point rounding of the 1.8, 1.6, 0.8 and 0.06 steps is left out: the model uses exact reals.
- The traffic cars are modelled as an array of immutable car values, replaced element by element. The source mutates car objects in place, but it never aliases them, so this causes no loss.
- The canvas size is a constant of a session, since the source reads `W` and `H` once at load.
