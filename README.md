# Asteroids screens: a Dafny model

This project models the game logic of a small raylib Asteroids clone.

- **Gameplay screen** (`gameplay.dfy`, module `Gameplay`):
  - the player ship's key handling, rotation, thrust and coasting deceleration;
  - the toroidal screen wrap applied after every movement step;
  - spawning of big asteroids at a random screen edge;
  - straight-line movement of every asteroid in the stage;
  - the state that screen initialisation sets up.
- **Title screen** (`title.dfy`, module `Title`): the "press enter" phase, then a three-entry menu (gameplay, options, credits) whose cursor wraps around. The logo slides down to its resting row.
- **Options screen** (`options.dfy`, module `Options`): a volume selector with steps 0 to 10, clamped at both ends. It writes the program-wide volume level every frame.
- **Ending screen** (`ending.dfy`, module `Ending`):
  - the finish code: play again, or main menu;
  - loading the best score and best time from storage slots;
  - the minutes:seconds split of the best time.

Each screen keeps its module statics in a class. Each `Update` method performs the screen's own sequence of conditional updates.
For the title and options screens, the method is proved equal to a pure step function of the old state (`TitleStep`, `OptionsStep`).
The properties live on that function and on runs of it (`RunTitle`, `RunOptions`).
The gameplay methods are proved against functions too:

- `PlayerInputs`, `PlayerMovement` and their composition `PlayerFrame` specify the player's half of a frame, on a `PlayerState` value holding the player struct's fields;
- `MoveObjectForwards`, `Decelerate`, `PlayerStepPosition`, `SpawnAsteroids` and `MoveAsteroids` specify the movement and spawning;
- the lemmas state the properties of those functions: wrap bounds, the deceleration's behaviour, on-screen preservation.

Modelling choices:

- Floating-point values are exact reals.
- `cos`/`sin` of an angle in degrees is a parameter `heading: real -> Vec`. Where a property needs it, the ghost predicate `UnitBounded` bounds its components to [-1, 1].
- Every `rand()` result is a natural-number parameter: `SpawnDraw(side, offset, angle)` per spawned asteroid, and one count draw for initialisation.
- Key and gesture queries are boolean fields of a per-frame keys value.
- The window size is fixed and positive. In the model it is a pair of constants of the gameplay screen object.
- `MoveObjectForwards` writes through a pointer in the source. Here it is a function returning the new position, and each caller stores it.
- The two sequential `if`s of the coasting deceleration are the function `Decelerate`, which `HandlePlayerMovement` calls.
- In handlePlayerMovement, the rotation, speed and position are computed into locals and then stored together. The stored values are the ones the source's successive writes produce.

The wrap tests `x > GetScreenWidth()` strictly, so a coordinate equal to W stays W. The model therefore uses the closed rectangle [0, W] x [0, H] (`OnScreen`).

## Model

| member | source | states |
|---|---|---|
| `Gameplay.WrapAxisCases` | game/src/screen_gameplay.cpp:165-168 | the wrapped coordinate differs from the input by 0, +size or -size; a coordinate already in [0, size] is untouched; a coordinate at most one screen size off [0, size] lands in the closed range [0, size]; a negative one gets +size, one above size gets -size |
| `Gameplay.WrapStepInRange` | game/src/screen_gameplay.cpp:165-168 | a coordinate in [0, size] moved by at most one screen size either way wraps back into the closed range [0, size] |
| `Gameplay.MoveWrapsEachAxis` | game/src/screen_gameplay.cpp:158-170 | each axis of a movement step is corrected on its own by 0 or plus/minus its own screen dimension, and a displaced point already on the screen is not moved by the wrap |
| `Gameplay.MoveObjectForwards` | game/src/screen_gameplay.cpp:158-170 | one movement step: displace by speed times the heading of rotation plus offset, then wrap each axis once; its properties are stated by `MoveWrapsEachAxis` and `MoveStaysOnScreen` |
| `Gameplay.MoveStaysOnScreen` | game/src/screen_gameplay.cpp:158-170 | an object on the closed screen rectangle, moved with a speed no larger than either screen dimension and a heading bounded by [-1, 1], is still on the screen after the wrap |
| `Gameplay.RotationInput` | game/src/screen_gameplay.cpp:176-188 | rotation input is -1 exactly when A or Left is held (even with D/Right), 1 exactly when only D or Right is held, 0 exactly when none of them is held |
| `Gameplay.ThrustInput` | game/src/screen_gameplay.cpp:192-207 | thrust input is 1 exactly when W or Up is held, -1 exactly when only S or Down is held, 0 exactly when none of them is held |
| `Gameplay.Decelerate` | game/src/screen_gameplay.cpp:228-229 | speed >= rate loses the rate; speed <= -rate gains it; 0 stays 0; a positive speed below the rate comes back unchanged; a negative speed above -rate becomes a positive speed below the rate; the magnitude never grows beyond max(old magnitude, rate) |
| `Gameplay.Coast` | game/src/screen_gameplay.cpp:226-229 | n frames of coasting never leave a speed larger in magnitude than max(its old magnitude, rate); `CoastFromMultipleStops`, `CoastFromRestStays` and `CoastBelowRateSticks` state where it ends |
| `Gameplay.CoastFromMultipleStops` | game/src/screen_gameplay.cpp:226-229 | coasting from m times the rate, either sign, is exactly 0 after m frames |
| `Gameplay.CoastFromRestStays` | game/src/screen_gameplay.cpp:226-229 | a speed of 0 stays 0 for any number of coasting frames |
| `Gameplay.CoastBelowRateSticks` | game/src/screen_gameplay.cpp:228-229 | a positive speed below the deceleration rate is a fixed point: it never decays to 0 |
| `Gameplay.FullThrustCoastsToRest` | game/src/screen_gameplay.cpp:134-136 | in exact real arithmetic, with speed 5 and rate 0.1, full forward or backward thrust coasts exactly to rest in 50 frames (see "## Left out" for floats) |
| `Gameplay.RandomPositionInScreen` | game/src/screen_gameplay.cpp:82-97 | a spawn point lies on the left edge (x = 0, y in [1, H]) or on the top edge (y = 0, x in [1, W]), hence on the screen; an odd first draw picks the left edge |
| `Gameplay.RandomRotationDegrees` | game/src/screen_gameplay.cpp:99-102 | the spawn angle lies in [1, 360] and is congruent to draw + 1 modulo 360 |
| `Gameplay.SpawnAsteroid` | game/src/screen_gameplay.cpp:107-113 | a spawned asteroid has size 3, speed 5 (the default asteroid speed), an edge spawn point and an angle in [1, 360] |
| `Gameplay.SpawnAsteroids` | game/src/screen_gameplay.cpp:103-117 | one asteroid per draw, each a fresh big asteroid as above |
| `Gameplay.MoveAsteroid` | game/src/screen_gameplay.cpp:240 | one asteroid's step keeps its size, speed and heading; `MoveStaysOnScreen` keeps it on the screen |
| `Gameplay.MoveAsteroids` | game/src/screen_gameplay.cpp:236-242 | the stage keeps its length, and every asteroid keeps its size, speed and heading |
| `Gameplay.MoveAsteroidsStaysOnScreen` | game/src/screen_gameplay.cpp:236-242 | asteroids on the screen, with speed no larger than either screen dimension, are all still on the screen after one movement step |
| `Gameplay.PlayerStepPosition` | game/src/screen_gameplay.cpp:222-231 | the ship's position after a frame: the thrust step, then a coasting step only without thrust; `PlayerStepStaysOnScreen` keeps it on the screen |
| `Gameplay.PlayerStepStaysOnScreen` | game/src/screen_gameplay.cpp:218-234 | the thrust step and, when coasting, the second coasting step keep the ship on the screen when neither speed exceeds either screen dimension |
| `Gameplay.PlayerInputs` | game/src/screen_gameplay.cpp:172-207 | the input becomes (thrust, rotation); forward sets the speed to the thrust speed, backward to its negation, no thrust leaves it; no other field changes |
| `Gameplay.PlayerMovement` | game/src/screen_gameplay.cpp:218-234 | rotation grows by input.y times the rotation step; the speed is decelerated exactly when the thrust input is 0; inputs and constants do not change |
| `Gameplay.PlayerMovementKeepsBounds` | game/src/screen_gameplay.cpp:218-234 | the new speed stays within the thrust speed 5; on a screen at least that large, with a bounded heading, a ship on the screen stays on it |
| `Gameplay.PlayerFrame` | game/src/screen_gameplay.cpp:172-234 | the player's half of a frame: input (thrust, rotation) from the keys; rotation grows by the rotation input times the step; speed is plus or minus the thrust speed under thrust, else the old speed decelerated; position is `PlayerStepPosition` at the new rotation and speed; rotation step, thrust speed and deceleration rate unchanged |
| `Gameplay.PlayerFrameStaysOnScreen` | game/src/screen_gameplay.cpp:172-234 | whatever the keys, a frame keeps a ship on the screen when the speeds and the deceleration rate are no larger than either screen dimension and the heading is bounded |
| `Gameplay.Player.constructor` | game/src/screen_gameplay.cpp:35-45 | the global player struct starts with every field zero |
| `Gameplay.GameplayScreen.constructor` | game/src/screen_gameplay.cpp:59-61 | the counters start at 0 and the stage empty, with a positive screen |
| `Gameplay.GameplayScreen.GenerateRandomAsteroid` | game/src/screen_gameplay.cpp:103-117 | the stage becomes the old stage followed by exactly max(instances, 0) fresh big asteroids, one per draw in order; existing entries are unchanged; the counters are unchanged; on-screen positions are preserved |
| `Gameplay.GameplayScreen.Init` | game/src/screen_gameplay.cpp:120-150 | counters reset to 0; player at (W/2, H/2) with rotation 0, input (0, 0), rotation step 10, speed 5, deceleration 0.1 and its old current speed; between 1 and 8 asteroids (count draw mod 8, plus 1) appended to the stage, which is not cleared |
| `Gameplay.GameplayScreen.HandlePlayerInputs` | game/src/screen_gameplay.cpp:172-214 | the player's fields after the call are `PlayerInputs` of those before it and the keys; Escape sets the finish code to 1, otherwise it is unchanged; the stage and the frame counter are unchanged |
| `Gameplay.GameplayScreen.HandlePlayerMovement` | game/src/screen_gameplay.cpp:218-234 | the player's fields after the call are `PlayerMovement` of those before it: the rotation and speed as above, and the position is `PlayerStepPosition` at the new rotation and speed; the ship stays on screen when it started there |
| `Gameplay.GameplayScreen.HandleAsteroidsMovement` | game/src/screen_gameplay.cpp:236-242 | every asteroid is moved in place by one step along its own heading (the stage equals `MoveAsteroids` of the old stage); the counters are unchanged; asteroids stay on screen |
| `Gameplay.GameplayScreen.UpdatePlayer` | game/src/screen_gameplay.cpp:248-249 | the player's fields after both handlers are `PlayerFrame` of those before them; finish code 1 on Escape, otherwise unchanged; stage and frame counter unchanged |
| `Gameplay.GameplayScreen.Update` | game/src/screen_gameplay.cpp:246-253 | one gameplay frame: the player's fields are `PlayerFrame` of the old ones (inputs, speed, rotation, position; rotation step, thrust speed and deceleration rate unchanged); finish code 1 on Escape, otherwise unchanged; the stage is `MoveAsteroids` of the old stage; everything on screen stays on screen |
| `Title.CursorAfterDown` | game/src/screen_title.cpp:117-118 | from an entry of the menu, "down" moves the cursor to (i + 1) mod 3 |
| `Title.CursorAfterUp` | game/src/screen_title.cpp:125-126 | from an entry of the menu, "up" moves the cursor to (i + 2) mod 3, the previous entry with wrap |
| `Title.TitleStep` | game/src/screen_title.cpp:94-142 | the frame counter grows by 1; the cursor stays in [0, 3); the menu opens exactly when it was open or Enter/tap comes; only Enter in an open menu sets the finish request, to the entry under the cursor; a closed menu keeps the cursor; in an open menu the cursor moves by down and up mod 3, and both together leave it; the logo moves down 1 while above its final row, otherwise it stays |
| `Title.RunTitle` | game/src/screen_title.cpp:94-142 | over any sequence of frames the cursor stays in [0, 3), the logo never passes its final row, and the frame counter grows by the number of frames |
| `Title.LogoStopsAtTarget` | game/src/screen_title.cpp:141 | from at or above its final row, after n frames the logo is at min(start + n, final row) |
| `Title.NothingHappensBeforeEnter` | game/src/screen_title.cpp:98-128 | while no Enter or tap comes, the menu stays closed, the cursor does not move and no screen change is requested |
| `Title.EnterTwiceSelects` | game/src/screen_title.cpp:98-111 | an Enter with no up or down press in the same frame opens the menu without a request; an Enter in the very next frame requests the entry under the cursor |
| `Title.TitleScreen.constructor` | game/src/screen_title.cpp:39-51 | the statics start at 0, with the menu closed |
| `Title.TitleScreen.Init` | game/src/screen_title.cpp:63-91 | the frame counter and request reset; menu phase and cursor survive; only while the menu was never opened is the logo moved to row -200 and its final row set to H/2 - 4 times the title image height |
| `Title.TitleScreen.Update` | game/src/screen_title.cpp:94-142 | the statics after the update are `TitleStep` of the statics before it, so the invariants above are kept |
| `Options.VolumeFraction` | game/src/screen_options.cpp:75 | a step in [0, 10] gives a level in [0, 1], and the level times 10 is the step |
| `Options.TruncateToInt` | game/src/screen_options.cpp:49 | float-to-int conversion drops the fraction toward zero |
| `Options.StepOfVolume` | game/src/screen_options.cpp:49 | a level in [0, 1] gives a step in [0, 10], the largest step whose level does not exceed it |
| `Options.StepOfVolumeRoundTrip` | game/src/screen_options.cpp:49-75 | re-entering the screen reads back exactly the step the screen last wrote as a level |
| `Options.OptionsStep` | game/src/screen_options.cpp:53-79 | Enter or tap sets the finish code to 1, otherwise it is unchanged; left lowers the step by 1 above 0 and does nothing at 0; right raises it by 1 below 10 and does nothing at 10; both together leave it unchanged for steps 1 to 10 and give 1 at 0; the step stays in [0, 10], and the volume level becomes step / 10 |
| `Options.RunOptions` | game/src/screen_options.cpp:53-79 | over any sequence of frames, the step stays in [0, 10] and the level in [0, 1]; after at least one frame, the level equals step / 10 |
| `Options.LoweringReachesSilence` | game/src/screen_options.cpp:64-67 | holding "lower" for at least as many frames as the current step brings the step to 0 |
| `Options.OptionsScreen.constructor` | game/src/screen_options.cpp:32-34 | the statics start at 0 and the program starts with a volume level in [0, 1] |
| `Options.OptionsScreen.Init` | game/src/screen_options.cpp:42-50 | the counters reset to 0, the step is taken from the current level, and the level is unchanged |
| `Options.OptionsScreen.Update` | game/src/screen_options.cpp:53-79 | the statics and level after the update are `OptionsStep` of those before it |
| `Ending.EndingFinish` | game/src/screen_ending.cpp:58-75 | Q gives 1 and wins over Enter; Enter or tap alone gives 3; with neither, the code is unchanged; the code changes to 3 only through Enter or tap |
| `Ending.MinutesSeconds` | game/src/screen_ending.cpp:95 | minutes times 60 plus seconds is the time; for a non-negative time the seconds are in [0, 60) and the minutes are at most the time; for a negative time both parts follow C's truncating division |
| `Ending.EndingScreen.constructor` | game/src/screen_ending.cpp:34-37 | the statics start at 0 |
| `Ending.EndingScreen.Init` | game/src/screen_ending.cpp:44-53 | the counters reset to 0, the best score comes from slot 1 and the best time from slot 0 |
| `Ending.EndingScreen.Update` | game/src/screen_ending.cpp:58-75 | the finish code becomes `EndingFinish` of the old code and the keys; nothing else changes |

## Left out

- Drawing, layout and sprite data are not modelled, because none of them has behaviour to state. This covers DrawTexturePro, text measuring and placement, the logo's x position, the "press enter" position, sprite centres, and the NPatch background.
- Textures, sounds and music are not modelled; they are foreign library calls with no effect on the state. This covers loading them, playing them, setting their volume, and the Unload functions.
- Float rounding is not modelled: floats are exact reals. Round-off in the movement steps and in `volumeLevel * 10` is therefore not captured. With single-precision floats, the options step read back at Init could come out one lower than the step that was written.
- cos, sin and the degree-to-radian conversion are not modelled. They are the abstract `heading` parameter; only their [-1, 1] range is used.
- rand, srand and time are not modelled. Their results are parameters, so no probability distribution is modelled.
- Keyboard and gesture queries are per-frame boolean parameters.
- The title screen's alpha fade of the "press enter" text is not modelled. It is a float colour animation that no decision reads.
- The storage file is not modelled as I/O. It is a map from slot to value.
- Integer overflow of the frame counters and the logo position is not modelled. Integers are unbounded; the counters only grow by one per frame.
- The window is not resizable in the model: the screen dimensions are fixed positive constants.
- screens.h (the GameScreen codes, the global `volumeLevel` declaration) and the screen-switching main loop are not part of this model. The title's request is a `Request` naming the entry; the options and ending codes are the integers the screens write.
- The credits screen is not modelled; it only sets a finish flag on Enter and draws.
- Shots, collisions, power-ups, lives and score are not modelled; none of them exists in the gameplay source.
- Gameplay.GameplayScreen.HandlePlayerMovement: its on-screen guarantee assumes the screen is at least 5 units in each dimension (`RoomToMove`) and that the heading is bounded. Without these, a step could move more than one screen size, and the source's single correction then does not bring the ship back onto the screen.
- Gameplay.FullThrustCoastsToRest: it holds for exact reals only. With single-precision floats and a rate of 0.1f, the backward run from -5 ends near -2.5e-6, then flips to about +0.09999748 and sticks there, the fixed point `CoastBelowRateSticks` describes. The forward run leaves a residue of about 2.5e-6.
- Options.OptionsScreen.constructor: it requires the program-wide volume level to start in [0, 1]. That global is defined outside the modelled files, so its initial value is an assumption.
- Title.TitleStep: it requires the cursor to be on a menu entry, because the source indexes the menu with it. Every reachable state keeps this (`Invariant`).
