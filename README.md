# fnaf-gl game logic in Dafny

fnaf-gl is a small OpenGL/OpenAL remake of the office screen of *Five
Nights at Freddy's*. Each pass of its frame loop (`src/main.c`) reads the
keys, the cursor and the elapsed time. It then:

- runs the space-bar switch between the title screen and the game;
- advances the fan and door animations;
- runs the once-per-sixtieth-of-a-second effects: the light flicker, the
  camera blip and the static's timer.

On the game screen it also:

- pans the office view;
- drives the camera monitor's flip state machine;
- sweeps the camera picture;
- handles a fresh click, either on the door, light and nose buttons or on
  the camera map;
- recounts the power usage meter and drains the power;
- advances the night clock, asking the window to close at 6 AM.

`src/helpers.c` supplies the branch-free `clampf`, the truncating `fmod2`,
the blink-timer phase and the cursor hit test.

This project models that update logic and proves properties of it. The
modules are:

- `Helpers` covers `src/helpers.c`.
- `Register` is the door/light byte `door_button_flags`. Light A is 0x1,
  door A 0x2, light B 0x4 and door B 0x8.
- `Doors` covers the two door animation timers and the office buttons.
- `Camera` covers the flip machine (Closed, Opening, Opened, Closing), its
  reset on entering the game, and the eleven-button camera map.
- `Look` covers the office pan and the camera sweep.
- `Clock` covers power, the night clock, the fan counter and the gated
  effects.
- `Sprites` holds the frame numbers handed to the drawing code, each
  checked against the frame count its strip is loaded with in
  `src/assets.c`.
- `Audio` is the log of sound calls, kept as cues.
- `Update` is the whole frame as a pure function on a `World` value, with
  the invariants every frame keeps.
- `Game` is the frame loop in its imperative form. `GameState` is a class
  whose fields are the loop's variables (the door timers are an array).
  Each of its methods updates those fields in place, and each is proved to
  leave exactly the state that the matching `Update` function computes.

The random draws (`rand()`) and the frame duration (`glfwGetTime`) are
inputs to each frame. Floats are Dafny reals. C's float-to-integer
conversion is `Helpers.Trunc`, which rounds toward zero.

## Model

| member | source | states |
|---|---|---|
| Helpers.Trunc | src/main.c:645 | a float converted to an integer drops its fraction toward zero: the result is within one of the input, on the same side of zero |
| Helpers.Clampf | src/helpers.c:5-17 | for a non-empty range the result lies in [min, max]; it is min at or below min, max at or above max, and x itself inside |
| Helpers.ClampfIdempotent | src/helpers.c:5-17 | clamping an already clamped value changes nothing |
| Helpers.ClampfMonotone | src/helpers.c:5-17 | clampf preserves the order of its inputs |
| Helpers.ClampfDegenerate | src/helpers.c:5-17 | when min = max = x the three guarded terms add up to 2x, not x |
| Helpers.Fmod2Formula | src/helpers.c:19-22 | fmod2 is val - trunc(val / mod) * mod |
| Helpers.Fmod2 | src/helpers.c:19-22 | for a positive modulus the result is in [0, mod) for val >= 0 and in (-mod, 0] for val <= 0 |
| Helpers.Fmod2Small | src/helpers.c:19-22 | a value in [0, mod) is its own remainder |
| Helpers.Fmod2Periodic | src/helpers.c:19-22 | adding whole periods to a non-negative value leaves the remainder unchanged |
| Helpers.Fmod2HalfPeriod | src/helpers.c:19-22 | 2.5 periods leave half a period |
| Helpers.BlinkRate | src/helpers.c:24-26 | the phase speed is percent * framerate / 200 per second |
| Helpers.BlinkTickRange | src/helpers.c:24-26 | with non-negative time and speed the phase lies in [0, modMax) |
| Helpers.GlitchFrameInStrip | src/main.c:412 | the title's glitch frame (speed 10, 60 fps, 8 frames) is always 0..7 |
| Helpers.InsideBox | src/helpers.c:35-41 | the tests are strict: a point inside is off all four edges, and a box less than 2 pixels wide or high contains no point |
| Helpers.InsideBoxShift | src/helpers.c:35-41 | the offset moves the box horizontally, the same as moving the cursor left |
| Register.LightMask | src/main.c:31-33 | side 0's light bit is 0x1 and side 1's is 0x4 |
| Register.DoorMask | src/main.c:31-33 | side 0's door bit is 0x2 and side 1's is 0x8; shifting a door bit right once gives the light bit |
| Register.SideUsage | src/main.c:708 | a side adds 1 for its light and 1 for its door |
| Register.UsageBothSides | src/main.c:706-709 | the usage loop adds both sides |
| Register.UsageIsPopCount | src/main.c:706-710 | the usage meter is the number of set bits in the register, plus 1 while the monitor is Opened |
| Register.UsageAtMostThree | src/main.c:706-710 | with at most one light on, and none while Opened, the meter reads at most 3 |
| Register.BothDoorsMask | src/main.c:612 | masking with 0xA turns both lights off, keeps both doors and leaves a well-formed register |
| Register.ToggleSideBits | src/main.c:650-658 | one side's click flips exactly the bits whose buttons acted, only on that side |
| Register.ToggleBothBits | src/main.c:649-659 | both sides' clicks, in loop order: each bit flips exactly when its own button acted |
| Register.ResolveLights | src/main.c:689-700 | the light pass never touches a door bit, turns no light on, and keeps the register well-formed |
| Register.ResolveOneLight | src/main.c:689-700 | if at most one light was on before the click and at most one light bit flipped, at most one light is on after the pass |
| Register.ResolveNewlyLit | src/main.c:689-700 | a light the click turned on stays on, and the other light goes off |
| Register.ResolveIdle | src/main.c:689-700 | when no light flipped, the pass changes nothing |
| Doors.TimerStep | src/main.c:351-358 | a timer stays in [0, 28]; it rises by the ticks (capped at 28) while its door bit is set, and falls (floored at 0) otherwise |
| Doors.TimerStepDirection | src/main.c:351-358 | a timer never moves away from the end its door bit selects |
| Doors.AtRestIff | src/main.c:651 | within the timer range, a door is at rest (clickable) exactly when its timer is below 1 or equal to 28 |
| Doors.PressSidesNext | src/main.c:649-659 | the button loop runs one side at a time: the side's toggle, plus its door sound |
| Doors.LightBoxesDisjoint | src/main.c:648 | no cursor is inside both light buttons |
| Doors.PressSidesFlags | src/main.c:649-659 | the register after the button loop is side 0's toggle followed by side 1's |
| Doors.PressSidesBits | src/main.c:649-659 | after the button loop, a door bit has flipped exactly when its button was hit at rest and a light bit exactly when its button was hit; no bit outside the register is set |
| Doors.PressOffice | src/main.c:647-665 | a click in the office flips a door bit exactly when its button is hit at rest, a light bit exactly when its button is hit, and keeps the register well-formed |
| Doors.PressOfficeDoorSounds | src/main.c:647-665 | the door sound plays once per door toggled, and at no other time |
| Doors.PressOfficeOneLight | src/main.c:647-700 | a click in the office, followed by the light pass, keeps at most one light on |
| Camera.FromCode | src/main.c:62-67 | inverts the enum numbering: the state it gives carries the number asked for |
| Camera.Advance | src/main.c:605-606 | increment modulo 4 gives Closed to Opening to Opened to Closing to Closed |
| Camera.AdvanceCycle | src/main.c:605-606 | four advances return to the start, and one or two never do |
| Camera.HoverMoves | src/main.c:571-597 | hovering changes the state exactly when the bar is hovered, the latch is clear and the state is Closed or Opened; it moves one step and leaves the timer alone |
| Camera.HoverLatch | src/main.c:571-599 | after the hover, the latch is set exactly when the cursor is on the bar, or was set with the cursor at y >= 643 |
| Camera.FlipStep | src/main.c:569-609 | a frame moves the state zero or one step round the cycle, or two only from Closed or Opened with a spent timer |
| Camera.CountdownMoves | src/main.c:601-609 | only Opening or Closing with a spent timer advances, re-arming to 0.35; otherwise the timer only counts down |
| Camera.FlipStepKeepsRest | src/main.c:569-609 | a frame keeps the timer armed in Closed and Opened |
| Camera.FlipStepNeverSkips | src/main.c:569-609 | with the timer armed at rest, a frame moves the state at most one step round the cycle |
| Camera.ResetAsWritten | src/main.c:317-334 | entering the game sets Closed but keeps the timer and the latch (as written); it agrees with the corrected reset exactly when the timer was armed |
| Camera.Reset | src/main.c:317-334 | the corrected reset: Closed with the timer armed |
| Camera.ResetAsWrittenSkipsOpening | src/main.c:317-334 | with the reset as written, the monitor can go from Closed to Opened in one frame |
| Camera.ResetKeepsSteps | src/main.c:317-334 | with the corrected reset, the first game frame leaves the monitor Closed or Opening |
| Camera.SelectUpTo | src/main.c:666-687 | if some camera button is hit, the last hit one is selected; with no hit the selection and the cues are unchanged; every cue is the blip, one per hit button |
| Camera.CameraBoxesDisjoint | src/main.c:534-546 | no two map buttons overlap |
| Camera.HitCountAtMostOne | src/main.c:666-687 | since the map buttons do not overlap, at most one of them is hit, and none exactly when no button contains the cursor |
| Camera.SelectOneBlip | src/main.c:666-687 | the camera loop plays exactly one blip when a button is hit and none otherwise |
| Camera.SelectInRange | src/main.c:666-687 | the selection stays a valid camera number |
| Look.PanSpeed | src/main.c:551-553 | the distance is within ±640; it is zero exactly inside the 128-pixel dead zone and positive exactly right of it |
| Look.RoomLookStep | src/main.c:555-556 | the office offset stays in [-320, 0] |
| Look.RoomLookDeadZone | src/main.c:549-556 | a cursor in the dead zone leaves the offset where it is |
| Look.RoomLookDirection | src/main.c:549-556 | a cursor right of the dead zone moves the offset toward -320; one left of it moves the offset toward 0 |
| Look.SweepStep | src/main.c:619-640 | the camera sweep never leaves [-320, 0] over a non-negative frame, and a turn re-arms the hold |
| Look.SweepHolds | src/main.c:621-622 | while holding, only the hold timer runs |
| Look.SweepTurns | src/main.c:623-639 | the direction flips exactly when the sweep passes an end, resting there for 1.6666667 s; otherwise it moves 60 per second |
| Clock.PowerStep | src/main.c:712 | power never rises over a non-negative frame and strictly falls over a positive one |
| Clock.PowerStepBounds | src/main.c:712 | with usage at most 3, a frame drains at most 0.4 per second |
| Clock.DrainLinear | src/main.c:712 | n equal frames drain n times one frame's drain |
| Clock.DrainHasNoFloor | src/main.c:712 | the meter goes below zero: nothing stops it at 0 |
| Clock.HourStep | src/main.c:825 | the clock never runs backwards |
| Clock.HoursLinear | src/main.c:825 | n frames of length dt advance the clock by n * dt / 90 hours |
| Clock.NightLength | src/main.c:825-829 | a night of one-second frames ends after exactly 540 frames |
| Clock.FanStep | src/main.c:347-348 | the fan counter stays in [0, 3) |
| Clock.BlipStep | src/main.c:377-378 | below 9 the blip rises by exactly 1 per animation frame; from 9 it stays put |
| Clock.StaticTick | src/main.c:385-389 | the static's byte timer stays a byte |
| Clock.StaticTickCycle | src/main.c:385-389 | the timer counts 60 down to 0, then restarts at 60 and redraws its value, which is always 0, 15 or 30 |
| Clock.Flicker | src/main.c:367 | the flicker is 0..9 |
| Clock.OfficeViewMeaning | src/main.c:365-375 | the office picture is 0..2; it shows a lit door exactly when a light is on and the flicker shows it, and then it is the lit side (the right side if both are lit); the buzz is full exactly then |
| Sprites.DoorFrame | src/main.c:737 | a door frame is within the 15-frame strip |
| Sprites.DoorButtonFrame | src/main.c:742 | a button frame is light + 2 * door, within 4 frames |
| Sprites.OfficeViewFrame | src/main.c:731-732 | the office picture's frame is within its 5-frame strip; it is a lit door only for a side whose light is on with the flicker above 1, and the dark office otherwise |
| Sprites.FanFrame | src/main.c:734 | the fan frame is within 3 frames |
| Sprites.CameraViewFrame | src/main.c:745-748 | camera 9 draws nothing; every other camera draws its offset, plus 1 for camera 3 when the flicker is at most 3, within the 85-frame strip |
| Sprites.UsageFrame | src/main.c:815 | under the register invariants the usage frame is within 4 frames |
| Sprites.HourFrame | src/main.c:832-840 | the "12" is drawn before 1 AM; after that the frame is within 6 frames for every hour below 7 |
| Sprites.ToByte | src/main.c:846 | a byte conversion gives a byte, and is exact on bytes |
| Sprites.PowerDigit | src/main.c:843-847 | a power digit is 0..9 |
| Sprites.PowerDigitsAreDecimal | src/main.c:843-847 | for power in [0, 100) the two digits are the units and tens of the whole percentage, and two are drawn exactly from 10 up |
| Sprites.NightFrame | src/main.c:821 | the night frame lies in the 7-frame strip exactly for nights 1 to 7, and is negative only for night 0 |
| Sprites.FlipFrame | src/main.c:855 | the flip animation frame is within 11 frames |
| Sprites.FlipFrameEnds | src/main.c:855 | with the timer freshly armed, Opening starts at frame 0 and Closing at frame 10 |
| Update.Initial | src/main.c:70-101 | the start-up state satisfies every frame invariant and shows the title |
| Update.EnterGame | src/main.c:317-334 | with the corrected reset: entering the game opens both doors, turns off both lights, centres the view, closes the monitor with its timer armed on camera 0, restarts the clock and the power, increments the night byte, carries the door timers over, and keeps every invariant |
| Update.ToggleScreenValid | src/main.c:301-342 | with the corrected reset, the space-bar switch keeps every invariant |
| Update.AdvanceAnimationsValid | src/main.c:347-358 | the fan and door animations keep every invariant |
| Update.AnimationGateValid | src/main.c:360-393 | the gated effects keep their invariants |
| Update.CommonValid | src/main.c:283-393 | with the corrected reset, the part of the frame shared by both screens keeps every invariant |
| Update.Common | src/main.c:283-342 | with the corrected reset, the shared part of a frame toggles the screen exactly on a fresh press of space, makes the space latch follow the key, increments the night byte exactly on entering the game, and requests closing exactly when escape is down or it already was |
| Update.FlipCameraValid | src/main.c:569-617 | the flip machine keeps every invariant, including "no light while Opened" |
| Update.ClickValid | src/main.c:643-703 | a click keeps the register well-formed with at most one light, and keeps the selection valid |
| Update.Click | src/main.c:643-703 | only a fresh press acts, and it latches the button; a click touches only the register, the selection and the blip, and the selection and blip only with the monitor Opened |
| Update.GameFrame | src/main.c:549-830 | the view pans with the cursor unless the monitor is Opened, and stays put while it is; the screen, the door timers, the night number and the fan are untouched; the click latch ends equal to the button |
| Update.Step | src/main.c:273-883 | with the corrected reset: the screen toggles exactly on a fresh press of space, the space latch follows the key, the night byte increments exactly on entering the game, and escape requests closing |
| Update.GameFrameValid | src/main.c:549-830 | the game screen's update keeps every invariant |
| Update.StepValid | src/main.c:273-883 | with the corrected reset, a whole frame keeps every invariant, from any valid state and any non-negative duration |
| Update.ClickDoors | src/main.c:643-703 | a door toggles exactly on a fresh click, with the monitor not Opened and the button hit at rest; the door sound plays once per door toggled |
| Update.ClickLights | src/main.c:643-703 | a light button toggles its light; turning it on turns the other off; a click that hits no light leaves both lights as they were |
| Update.GameFrameFlip | src/main.c:569-617 | from a state that keeps the invariants (the flip timer armed at rest, which the corrected reset guarantees), a game frame moves the monitor at most one step |
| Update.StepFlipNeverSkips | src/main.c:273-883 | with the corrected reset, every frame moves the monitor at most one step (counted from Closed on the frame that enters the game) |
| Update.StepTitleFreezes | src/main.c:301-342 | on the title screen, until space is pressed, the night, the register, the view and the monitor stand still |
| Update.GameFrameTail | src/main.c:705-830 | the power, the click latch and the clock see the register and monitor the click left |
| Update.StepPower | src/main.c:705-712 | on a game frame the meter counts the final register plus the Opened monitor, and the power drops by (usage + 1) * dt / 10, at most 0.4 per second |
| Update.StepCloses | src/main.c:288-290 | the window is asked to close exactly when it already was, when escape is down, or when a game frame reaches 6 AM |
| Update.StepEntersGame | src/main.c:317-334 | with the corrected reset, entering the game increments the night byte, restarts the clock and the meter, and leaves the monitor Closed or Opening |
| Update.StepOpensMonitor | src/main.c:611-616 | on the frame the monitor comes up, both lights go off, the doors stay, and the blip restarts with its sound |
| Update.GameFrameDoors | src/main.c:643-703 | on a game frame a door bit changes only through a fresh click with the monitor not Opened |
| Update.StepDoorsOnlyByClick | src/main.c:273-883 | outside the entry frame, a door bit changes only on a game frame with a fresh click and the monitor not Opened |
| Update.RunFrom | src/main.c:273-883 | with the corrected reset, the loop from any point keeps every invariant, only appends sounds, runs at most the remaining inputs, and stops early only when closing is requested |
| Update.Run | src/main.c:273-883 | with the corrected reset, the loop keeps every invariant, runs no more frames than there are inputs, and stops early only when closing is requested |
| Update.RunNext | src/main.c:273-883 | one pass of the loop is a frame followed by the rest of the loop |
| Update.RunDone | src/main.c:273 | the loop stops when its inputs run out or closing is requested |
| Game.GameState.constructor | src/main.c:70-101 | the variables start at their initial values, which satisfy every invariant |
| Game.GameState.ToggleScreen | src/main.c:301-342 | with the corrected reset, the in-place switch leaves the state and sounds of Update.ToggleScreen |
| Game.GameState.AdvanceDoorTimers | src/main.c:351-358 | the in-place loop over the timer array leaves each timer moved toward the end its door bit selects, clamped to [0, 28] |
| Game.GameState.LightView | src/main.c:365-375 | the view loop computes the office picture and the buzz that Clock.OfficeViewMeaning describes |
| Game.GameState.AnimationGate | src/main.c:360-393 | the gated effects, updated in place, are Update.AnimationGate's |
| Game.GameState.FlipCamera | src/main.c:569-617 | the in-place flip machine leaves the state and sounds of Update.FlipCamera |
| Game.GameState.SweepCamera | src/main.c:619-640 | the in-place sweep equals Look.SweepStep, so it stays in [-320, 0] |
| Game.GameState.ToggleButtons | src/main.c:650-658 | one side's XORs give the toggle of which Register.ToggleSideBits proves each bit |
| Game.GameState.PressButtons | src/main.c:647-665 | the button loop over both sides and the nose gives Doors.PressOffice's register and sounds |
| Game.GameState.SelectCamera | src/main.c:666-687 | the camera loop selects the last hit camera, with one blip per hit button, hence at most one blip (Camera.SelectOneBlip) |
| Game.GameState.ResolvePass | src/main.c:689-700 | the two guarded clears compute the light pass |
| Game.GameState.Click | src/main.c:643-703 | a click, updated in place, leaves the state and sounds of Update.Click |
| Game.GameState.CountUsage | src/main.c:705-710 | the usage loop computes the meter, the register's set bits plus the Opened monitor |
| Game.GameState.AccountPower | src/main.c:705-712 | the in-place meter and power equal Update.AccountPower |
| Game.GameState.GameFrame | src/main.c:549-830 | the game screen's in-place update leaves the state and sounds of Update.GameFrame |
| Game.GameState.Frame | src/main.c:283-830 | with the corrected reset, one iteration of the loop keeps every invariant and leaves the state and sounds of Update.Step |
| Game.GameState.Run | src/main.c:273-883 | with the corrected reset, the loop leaves the state, the sounds and the frame count of Update.Run |

## Left out

- Rendering, shaders, textures, fonts, the framebuffer and the drawing calls are left out. Only the frame numbers passed to the sprites are kept (module `Sprites`).
- OpenAL is left out; sound calls are a log of cues in call order.
- `glfwGetTime` and the cursor and key reads (`src/mouse.c`, `mouse_get_position`) are left out; the frame's duration, cursor, button and keys are inputs.
- `rand()` is left out; the light flicker and static redraw draws are inputs.
- The static's per-frame picture and alpha (main.c:381-390) are not modelled: they are random and feed only the drawing.
- The title screen's own animations and menu (title timers, glitch blip, face alpha, menu selector) are not modelled. Only the glitch frame's range is proved.
- The `DEBUG` time multiplier and debug overlay (main.c:292-299, 858-875) are left out. They are compiled out of normal builds.
- Floats are reals. IEEE rounding is not modelled, nor `clampf`'s reading of the sign bit, where -0.0 and NaN behave differently from a comparison.
- Helpers.Clampf: a difference of exactly zero counts as non-negative, the same as the sign bit for +0.0.
- Helpers.Fmod2Formula: a zero modulus is excluded (every caller passes a positive constant; C would give NaN); the `int32_t` cast overflowing for quotients beyond 2^31 is not modelled.
- Sprites.ToByte: a float outside the byte range is taken to wrap modulo 256. C leaves that conversion undefined.
- The frame argument's type for the sprite draws is taken from main.c's calls. The sprite module in this snapshot declares a two-argument `sprite_draw`.
- Sprites.HourFrame: the range is proved only for hours below 7. The window is asked to close at 6, but the frame at that moment still draws.
- Sprites.NightFrame: the strip has 7 frames, and the counter rises on every entry into the game. From the seventh entry on, the frame is past the strip. The model states this rather than excluding it.
- Update.StepValid and the other frame lemmas require a non-negative frame duration. The clock read is monotonic.
- Game.GameState.Click: the blip frame is reset once after the camera loop if any button was hit. The source resets it inside the loop on each hit; the resulting state is the same.
- The game-entry reset (main.c:326) is modelled by its corrected form, `Camera.Reset`, which re-arms the flip timer to 0.35; the source sets Closed and leaves the timer as it was (see "## Findings"). By Camera.ResetAsWritten's ensures the two agree exactly when the timer is armed at entry, so they can differ only when the game was left with the monitor Opening or Closing. In that case the source breaks the invariant that the timer is armed at rest, and Camera.FlipStep's ensures are all that bound the next frame: at most two steps, two only from Closed or Opened with a spent timer (Camera.ResetAsWrittenSkipsOpening exhibits one). The members below therefore describe the game with the corrected reset:
- Update.EnterGame: uses the corrected reset; the source keeps the flip timer.
- Update.Step: uses the corrected reset on the frame that enters the game.
- Update.ToggleScreenValid: holds with the corrected reset; with the source's reset the armed-timer invariant can break.
- Update.CommonValid: holds with the corrected reset; with the source's reset the armed-timer invariant can break.
- Update.StepValid: holds with the corrected reset; with the source's reset the armed-timer invariant can break.
- Update.GameFrameFlip: requires the armed-timer invariant, which the source's reset does not keep; without it a frame can move two steps.
- Update.StepFlipNeverSkips: holds with the corrected reset; with the source's reset the monitor can skip Opening.
- Update.StepEntersGame: its "Closed or Opening" holds with the corrected reset; with the source's reset the entering frame can reach Opened.
- Update.Run: its invariant holds with the corrected reset, for the same reason as Update.StepValid.
- Update.RunFrom: its invariant holds with the corrected reset, for the same reason as Update.StepValid.
- Update.Common: uses the corrected reset on the frame that enters the game.
- Game.GameState.ToggleScreen: uses the corrected reset, as Update.ToggleScreen does.
- Game.GameState.Frame: equals Update.Step, so it uses the corrected reset.
- Game.GameState.Run: equals Update.Run, so it uses the corrected reset.
- The camera-name and map drawing (main.c:750-812) are left out. They only read `camera_selected`, which stays in 0..10.
- The office pan has an alternative "custom room turning" inside a comment (main.c:557-565). It is not code and is not modelled.

## Findings

| source | as written | input that shows it | evidently intended | confidence | as-written member | corrected member |
|---|---|---|---|---|---|---|
| src/main.c:317-334 | entering the game sets `camera_state = CS_CLOSED` but leaves `camera_flip_timer` as it was | hover the bar from Closed and wait 0.4 s (Opening with the timer at -0.05), press space twice, then hover the bar again: the monitor goes Closed to Opened in one frame, skipping the Opening animation | the reset re-arms the timer to `CAM_TIMER_INIT` (0.35), as the Opening and Closing transitions do | not executed | Camera.ResetAsWritten, Camera.ResetAsWrittenSkipsOpening | Camera.Reset (used by Update.EnterGame), Camera.ResetKeepsSteps |

Two places where the behaviour is easy to misread:

- The office pan moves opposite to the cursor's distance from the centre. A cursor right of the dead zone moves the offset toward -320.
- A door counts as at rest for any timer in [0, 1), not only at 0, because the timer is truncated to a byte before the comparison.
