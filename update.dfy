/**
 * One iteration of the frame loop of src/main.c (lines 273-883) on the
 * game's state, as a function of the state before it and the frame's
 * inputs: keys, cursor, button, the frame's duration and the random draws.
 * The phases run in the source's order; the drawing in between is left out
 * and only the frame numbers it uses are kept (module Sprites).
 */
module Update {
  import opened Helpers
  import opened Register
  import opened Audio
  import opened Doors
  import opened Camera
  import opened Look
  import opened Clock

  datatype Screen = Title | Playing

  /** `space_pressed`, `mouse_has_clicked` and the window's close request. */
  datatype Latches = Latches(spaceHeld: bool, clickHeld: bool, closeRequested: bool)

  /** `door_button_flags`, `office_look_current` and `fan_animation_frame`. */
  datatype Office = Office(flags: bv8, look: real, fan: real)

  /** The flip machine, `camera_selected` and the camera picture's sweep. */
  datatype Monitor = Monitor(flip: Flip, selected: nat, sweep: Sweep)

  /** `night_current`, `hour_timer`, `power_left_value` and `power_usage_value`. */
  datatype Night = Night(number: nat, hour: real, power: real, usage: nat)

  /**
   * What the animation gate drives: `scaled_update_timer`, `light_flicker`,
   * `office_view_sprite_state`, `blip_animation_frame` and the static's timer.
   */
  datatype Effects = Effects(timer: real, flicker: nat, officeView: nat, blip: nat, noise: StaticTimer)

  /**
   * Everything the frame loop keeps from one frame to the next;
   * `doorTimers` is `door_frame_timers`, one per side.
   */
  datatype World = World(
    screen: Screen,
    latches: Latches,
    office: Office,
    doorTimers: seq<real>,
    monitor: Monitor,
    night: Night,
    effects: Effects)

  /**
   * One frame's inputs: the cursor, the left button, the space and escape
   * keys, the seconds since the last frame, and the values `rand()` gives
   * the light flicker and the static's redraw.
   */
  datatype Input = Input(
    cursor: Point,
    buttonDown: bool,
    spaceDown: bool,
    escapeDown: bool,
    dt: real,
    flickerDraw: nat,
    staticDraw: nat)

  /** The state after start-up: the static initialisers, then the title screen's set-up. */
  function Initial(): (w: World)
    ensures Valid(w) && w.screen == Title
  {
    World(Title, Latches(false, false, false),
          Office(0, 0.0, 0.0), [0.0, 0.0],
          Monitor(Flip(Closed, CAM_TIMER_INIT, false), 0, Sweep(0.0, 0.0, false)),
          Night(1, 0.0, POWER_INIT, 0),
          Effects(0.0, 0, 0, 0, StaticTimer(STATIC_PERIOD, 0)))
  }

  predicate TimersValid(timers: seq<real>)
  {
    |timers| == 2 && forall i :: 0 <= i < 2 ==> 0.0 <= timers[i] <= DOOR_TIMER_MAX
  }

  predicate OfficeValid(o: Office)
  {
    && WellFormed(o.flags)
    && AtMostOneLight(o.flags)
    && LOOK_MIN <= o.look <= LOOK_MAX
    && 0.0 <= o.fan < FAN_FRAMES
  }

  predicate MonitorValid(m: Monitor)
  {
    FlipRest(m.flip) && m.selected < CAMERA_COUNT && SweepInRange(m.sweep)
  }

  predicate NightValid(n: Night)
  {
    n.number < 256 && 0.0 <= n.hour && n.usage <= 3
  }

  predicate EffectsValid(e: Effects)
  {
    0.0 <= e.timer && e.flicker < 10 && e.officeView <= 2 && e.blip <= BLIP_END && StaticValid(e.noise)
  }

  /** The invariants every frame keeps; with the monitor Opened both lights are off. */
  predicate Valid(w: World)
  {
    && OfficeValid(w.office)
    && TimersValid(w.doorTimers)
    && MonitorValid(w.monitor)
    && (w.monitor.flip.state == Opened ==> NoLights(w.office.flags))
    && NightValid(w.night)
    && EffectsValid(w.effects)
  }

  /** Escape asks the window to close; the frame still runs to its end. */
  function Escape(l: Latches, escapeDown: bool): Latches
  {
    if escapeDown then l.(closeRequested := true) else l
  }

  /**
   * Entering the game: both doors open and both lights off, the office
   * view centred, the monitor Closed on the first camera, the clock and
   * the power restarted, and the night number one up (a byte). The flip
   * timer is re-armed as `Camera.Reset` intends; the door timers, the
   * fan and the animation effects carry over from before.
   */
  function EnterGame(w: World): (r: World)
    ensures r.screen == Playing && r.latches == w.latches
    ensures r.office.flags == 0 && NoLights(r.office.flags) && !DoorClosed(r.office.flags, 0) && !DoorClosed(r.office.flags, 1)
    ensures r.office.look == (LOOK_MIN + LOOK_MAX) / 2.0 && r.office.fan == w.office.fan
    ensures r.monitor.flip.state == Closed && FlipRest(r.monitor.flip) && r.monitor.selected == 0
    ensures r.night.hour == 0.0 && r.night.power == POWER_INIT
    ensures r.night.number == (w.night.number + 1) % 256 && r.night.number < 256
    ensures w.night.number < 255 ==> r.night.number == w.night.number + 1
    ensures r.doorTimers == w.doorTimers && r.effects == w.effects
    ensures Valid(w) ==> Valid(r)
  {
    w.(screen := Playing,
       office := w.office.(flags := 0, look := -160.0),
       monitor := Monitor(Reset(w.monitor.flip), 0, w.monitor.sweep.(look := 0.0)),
       night := Night((w.night.number + 1) % 256, 0.0, POWER_INIT, w.night.usage))
  }

  /** Going back to the title: both views are centred. */
  function EnterTitle(w: World): World
  {
    w.(screen := Title, office := w.office.(look := 0.0), monitor := w.monitor.(sweep := w.monitor.sweep.(look := 0.0)))
  }

  /** A fresh press of space swaps the screens; the latch follows the key. */
  function ToggleScreen(w: World, spaceDown: bool): (World, seq<Cue>)
  {
    var l := w.latches.(spaceHeld := spaceDown);
    if spaceDown && !w.latches.spaceHeld then
      if w.screen == Playing then
        (EnterTitle(w).(latches := l),
         [Stop(LightSound), Stop(FanSound), Play(BlipSound), Play(StaticSound), Play(TitleMusic)])
      else
        (EnterGame(w).(latches := l),
         [Stop(BlipSound), Stop(StaticSound), Play(FanSound), Play(LightSound)])
    else (w.(latches := l), [])
  }

  /** The fan counter and both door timers advance by the frame's ticks (60 per second). */
  function AdvanceAnimations(w: World, dt: real): World
    requires |w.doorTimers| == 2
  {
    var ticks := dt * 60.0;
    w.(office := w.office.(fan := FanStep(w.office.fan, ticks)), doorTimers := TimersStep(w.doorTimers, w.office.flags, ticks))
  }

  /**
   * Once the accumulated time passes one sixtieth of a second: a new
   * flicker, the office picture it gives, one blip step and one static
   * tick; then the accumulator restarts.
   */
  function AnimationGate(e: Effects, flags: bv8, dt: real, flickerDraw: nat, staticDraw: nat): Effects
    requires e.noise.timer < 256
  {
    var acc := e.timer + dt;
    if acc > ANIMATION_FRAMETIME then
      var flicker := Flicker(flickerDraw);
      Effects(0.0, flicker, OfficeView(flags, flicker), BlipStep(e.blip), StaticTick(e.noise, staticDraw))
    else e.(timer := acc)
  }

  /** The light's buzz is set on the frames the gate opens. */
  function GateCues(e: Effects, flags: bv8, dt: real, flickerDraw: nat): seq<Cue>
  {
    if e.timer + dt > ANIMATION_FRAMETIME then [SetGain(LightSound, LightGain(flags, Flicker(flickerDraw)))] else []
  }

  /** The office pan follows the cursor unless the monitor is Opened. */
  function PanRoom(o: Office, state: CamState, cursorX: int, dt: real): Office
  {
    if state != Opened then o.(look := RoomLookStep(o.look, cursorX, dt)) else o
  }

  /**
   * The flip machine's frame; on the frame it reaches Opened the lights go
   * off, the doors stay, and the blip restarts with its sound.
   */
  function FlipCamera(w: World, p: Point, dt: real): (World, seq<Cue>)
  {
    var (f, cues) := FlipStep(w.monitor.flip, p, dt);
    var m := w.monitor.(flip := f);
    if f.state == Opened && w.monitor.flip.state != Opened then
      (w.(monitor := m, office := w.office.(flags := w.office.flags & BOTH_DOORS_FLAG), effects := w.effects.(blip := 0)),
       cues + [Play(BlipSound), SetGain(FanSound, 0.1)])
    else (w.(monitor := m), cues)
  }

  /**
   * A fresh press of the button: with the monitor down, the office buttons
   * (their boxes moved by the office pan); with it up, the camera map. Then
   * the light pass, and the press is latched.
   */
  function Click(w: World, p: Point, buttonDown: bool): (r: (World, seq<Cue>))
    requires |w.doorTimers| == 2
    ensures !ClickPressed(w, buttonDown) ==> r == (w, [])
    ensures ClickPressed(w, buttonDown) ==> r.0.latches == w.latches.(clickHeld := true)
    ensures r.0.screen == w.screen && r.0.doorTimers == w.doorTimers && r.0.night == w.night
    ensures r.0.office.look == w.office.look && r.0.office.fan == w.office.fan
    ensures r.0.monitor.flip == w.monitor.flip && r.0.monitor.sweep == w.monitor.sweep
    ensures w.monitor.flip.state != Opened ==> r.0.monitor == w.monitor && r.0.effects == w.effects
    ensures WellFormed(w.office.flags) ==> WellFormed(r.0.office.flags)
  {
    if buttonDown && !w.latches.clickHeld then
      var l := w.latches.(clickHeld := true);
      var flags := w.office.flags;
      if w.monitor.flip.state != Opened then
        var (f, cues) := PressOffice(flags, w.doorTimers, p, Trunc(w.office.look));
        (w.(latches := l, office := w.office.(flags := ResolveLights(f, flags))), cues)
      else
        var (s, cues) := SelectUpTo(w.monitor.selected, p, CAMERA_COUNT);
        (w.(latches := l, office := w.office.(flags := ResolveLights(flags, flags)),
            monitor := w.monitor.(selected := s),
            effects := if cues == [] then w.effects else w.effects.(blip := 0)),
         cues)
    else (w, [])
  }

  /** The usage meter is recounted and the power drains by it. */
  function AccountPower(n: Night, flags: bv8, cameraOpen: bool, dt: real): Night
  {
    var usage := Usage(flags, cameraOpen);
    n.(usage := usage, power := PowerStep(n.power, usage, dt))
  }

  /** Letting go of the button re-arms the click. */
  function ReleaseClick(l: Latches, buttonDown: bool): Latches
  {
    if !buttonDown then l.(clickHeld := false) else l
  }

  /** The clock runs; at 6 AM the window is asked to close. */
  function AdvanceHour(w: World, dt: real): World
  {
    var h := HourStep(w.night.hour, dt);
    w.(night := w.night.(hour := h), latches := w.latches.(closeRequested := w.latches.closeRequested || NightOver(h)))
  }

  /** The game screen's update, in the source's order. */
  function GameFrame(w: World, input: Input): (r: (World, seq<Cue>))
    requires |w.doorTimers| == 2
    ensures r.0.screen == w.screen && r.0.doorTimers == w.doorTimers && r.0.night.number == w.night.number
    ensures r.0.latches.spaceHeld == w.latches.spaceHeld && r.0.latches.clickHeld == input.buttonDown
    ensures r.0.office.fan == w.office.fan && r.0.effects.noise == w.effects.noise
    ensures w.monitor.flip.state == Opened ==> r.0.office.look == w.office.look
    ensures w.monitor.flip.state != Opened ==> r.0.office.look == RoomLookStep(w.office.look, input.cursor.x, input.dt)
    ensures w.latches.closeRequested ==> r.0.latches.closeRequested
  {
    var w1 := w.(office := PanRoom(w.office, w.monitor.flip.state, input.cursor.x, input.dt));
    var (w2, flipCues) := FlipCamera(w1, input.cursor, input.dt);
    var w3 := w2.(monitor := w2.monitor.(sweep := SweepStep(w2.monitor.sweep, input.dt)));
    var (w4, clickCues) := Click(w3, input.cursor, input.buttonDown);
    var w5 := w4.(night := AccountPower(w4.night, w4.office.flags, w4.monitor.flip.state == Opened, input.dt),
                  latches := ReleaseClick(w4.latches, input.buttonDown));
    (AdvanceHour(w5, input.dt), flipCues + clickCues)
  }

  /** The part of a frame that runs on both screens: the keys, the animations and the gated effects. */
  function Common(w: World, input: Input): (r: (World, seq<Cue>))
    requires |w.doorTimers| == 2 && w.effects.noise.timer < 256
    ensures r.0.screen == (if SpacePressed(w, input) then (if w.screen == Title then Playing else Title) else w.screen)
    ensures r.0.latches.spaceHeld == input.spaceDown
    ensures r.0.night.number == (if SpacePressed(w, input) && w.screen == Title then (w.night.number + 1) % 256 else w.night.number)
    ensures r.0.latches.closeRequested == (input.escapeDown || w.latches.closeRequested)
    ensures |r.0.doorTimers| == 2
  {
    var (w1, screenCues) := ToggleScreen(w.(latches := Escape(w.latches, input.escapeDown)), input.spaceDown);
    var w2 := AdvanceAnimations(w1, input.dt);
    (w2.(effects := AnimationGate(w2.effects, w2.office.flags, input.dt, input.flickerDraw, input.staticDraw)),
     screenCues + GateCues(w2.effects, w2.office.flags, input.dt, input.flickerDraw))
  }

  /** A whole frame: the common part, then the game screen if it is showing. */
  function Step(w: World, input: Input): (r: (World, seq<Cue>))
    requires |w.doorTimers| == 2 && w.effects.noise.timer < 256
    ensures r.0.screen == (if SpacePressed(w, input) then (if w.screen == Title then Playing else Title) else w.screen)
    ensures r.0.latches.spaceHeld == input.spaceDown
    ensures r.0.night.number == (if SpacePressed(w, input) && w.screen == Title then (w.night.number + 1) % 256 else w.night.number)
    ensures input.escapeDown || w.latches.closeRequested ==> r.0.latches.closeRequested
  {
    var (w1, cues) := Common(w, input);
    if w1.screen == Playing then
      var (w2, gameCues) := GameFrame(w1, input);
      (w2, cues + gameCues)
    else (w1, cues)
  }

  /** A fresh press of space: the key is down and was not held on the frame before. */
  predicate SpacePressed(w: World, input: Input)
  {
    input.spaceDown && !w.latches.spaceHeld
  }

  /** A fresh press of the button. */
  predicate ClickPressed(w: World, buttonDown: bool)
  {
    buttonDown && !w.latches.clickHeld
  }

  lemma ToggleScreenValid(w: World, spaceDown: bool)
    requires Valid(w)
    ensures Valid(ToggleScreen(w, spaceDown).0)
  {
    var l := w.latches.(spaceHeld := spaceDown);
    if spaceDown && !w.latches.spaceHeld {
      if w.screen == Playing {
        assert ToggleScreen(w, spaceDown).0 == EnterTitle(w).(latches := l);
      } else {
        assert LightMask(0) == 1 && LightMask(1) == 4;
        assert WellFormed(0) && NoLights(0);
        assert ToggleScreen(w, spaceDown).0 == EnterGame(w).(latches := l);
      }
    }
  }

  lemma AdvanceAnimationsValid(w: World, dt: real)
    requires Valid(w) && 0.0 <= dt
    ensures Valid(AdvanceAnimations(w, dt))
  {
  }

  lemma AnimationGateValid(e: Effects, flags: bv8, dt: real, flickerDraw: nat, staticDraw: nat)
    requires EffectsValid(e) && 0.0 <= dt
    ensures EffectsValid(AnimationGate(e, flags, dt, flickerDraw, staticDraw))
  {
    StaticTickCycle(e.noise, staticDraw);
    OfficeViewMeaning(flags, Flicker(flickerDraw));
  }

  /** The part of a frame shared by both screens keeps every invariant. */
  lemma CommonValid(w: World, input: Input)
    requires Valid(w) && 0.0 <= input.dt
    ensures Valid(Common(w, input).0)
  {
    var w0 := w.(latches := Escape(w.latches, input.escapeDown));
    ToggleScreenValid(w0, input.spaceDown);
    var w1 := ToggleScreen(w0, input.spaceDown).0;
    AdvanceAnimationsValid(w1, input.dt);
    var w2 := AdvanceAnimations(w1, input.dt);
    AnimationGateValid(w2.effects, w2.office.flags, input.dt, input.flickerDraw, input.staticDraw);
  }

  lemma FlipCameraValid(w: World, p: Point, dt: real)
    requires Valid(w)
    ensures Valid(FlipCamera(w, p, dt).0)
  {
    FlipStepKeepsRest(w.monitor.flip, p, dt);
    BothDoorsMask(w.office.flags);
  }

  lemma ClickValid(w: World, p: Point, buttonDown: bool)
    requires Valid(w)
    ensures Valid(Click(w, p, buttonDown).0)
  {
    if ClickPressed(w, buttonDown) {
      var offset := Trunc(w.office.look);
      if w.monitor.flip.state != Opened {
        var f := PressOffice(w.office.flags, w.doorTimers, p, offset).0;
        PressOfficeOneLight(w.office.flags, w.doorTimers, p, offset);
      } else {
        ResolveIdle(w.office.flags, w.office.flags);
        SelectInRange(w.monitor.selected, p);
      }
    }
  }

  /** The game screen's update keeps every invariant. */
  lemma GameFrameValid(w: World, input: Input)
    requires Valid(w) && 0.0 <= input.dt
    ensures Valid(GameFrame(w, input).0)
  {
    var w1 := w.(office := PanRoom(w.office, w.monitor.flip.state, input.cursor.x, input.dt));
    FlipCameraValid(w1, input.cursor, input.dt);
    var w2 := FlipCamera(w1, input.cursor, input.dt).0;
    var w3 := w2.(monitor := w2.monitor.(sweep := SweepStep(w2.monitor.sweep, input.dt)));
    ClickValid(w3, input.cursor, input.buttonDown);
    var w4 := Click(w3, input.cursor, input.buttonDown).0;
    UsageAtMostThree(w4.office.flags, w4.monitor.flip.state == Opened);
  }

  /** A whole frame keeps every invariant, from any valid state and any input with a non-negative duration. */
  lemma StepValid(w: World, input: Input)
    requires Valid(w) && 0.0 <= input.dt
    ensures Valid(Step(w, input).0)
  {
    CommonValid(w, input);
    var w1 := Common(w, input).0;
    if w1.screen == Playing {
      GameFrameValid(w1, input);
    }
  }

  /**
   * A click toggles a door exactly when it is fresh, the monitor is not
   * Opened and that door's button is hit while the door is at rest; the
   * door sound plays once per door toggled.
   */
  lemma ClickDoors(w: World, p: Point, buttonDown: bool, side: Side)
    requires Valid(w)
    ensures DoorClosed(Click(w, p, buttonDown).0.office.flags, side)
         == (DoorClosed(w.office.flags, side)
             != (ClickPressed(w, buttonDown) && w.monitor.flip.state != Opened
                 && DoorHit(w.doorTimers[side], p, Trunc(w.office.look), side)))
    ensures ClickPressed(w, buttonDown) && w.monitor.flip.state != Opened
        ==> (Count(Click(w, p, buttonDown).1, Play(DoorSound))
             == (if DoorHit(w.doorTimers[0], p, Trunc(w.office.look), 0) then 1 else 0)
              + (if DoorHit(w.doorTimers[1], p, Trunc(w.office.look), 1) then 1 else 0))
  {
    var flags := w.office.flags;
    if ClickPressed(w, buttonDown) {
      if w.monitor.flip.state != Opened {
        var offset := Trunc(w.office.look);
        var f := PressOffice(flags, w.doorTimers, p, offset).0;
        PressOfficeDoorSounds(flags, w.doorTimers, p, offset);
      } else {
        ResolveIdle(flags, flags);
      }
    }
  }

  /**
   * A fresh click on a light button in the office switches that light: off
   * if it was on; on if it was off, and then the other light goes off. A
   * click that hits no light button leaves both lights as they were.
   */
  lemma ClickLights(w: World, p: Point, buttonDown: bool, side: Side)
    requires Valid(w)
    ensures var acts := ClickPressed(w, buttonDown) && w.monitor.flip.state != Opened;
            var offset := Trunc(w.office.look);
            var before := w.office.flags;
            var after := Click(w, p, buttonDown).0.office.flags;
      && (acts && InsideBox(p, LightBox(side), offset) && LightOn(before, side)
          ==> !LightOn(after, side))
      && (acts && InsideBox(p, LightBox(side), offset) && !LightOn(before, side)
          ==> LightOn(after, side) && !LightOn(after, 1 - side))
      && (!(acts && (InsideBox(p, LightBox(0), offset) || InsideBox(p, LightBox(1), offset)))
          ==> LightOn(after, 0) == LightOn(before, 0) && LightOn(after, 1) == LightOn(before, 1))
  {
    var flags := w.office.flags;
    var offset := Trunc(w.office.look);
    if ClickPressed(w, buttonDown) {
      if w.monitor.flip.state != Opened {
        var f := PressOffice(flags, w.doorTimers, p, offset).0;
        assert Click(w, p, buttonDown).0.office.flags == ResolveLights(f, flags);
        LightBoxesDisjoint(p, offset);
        if InsideBox(p, LightBox(side), offset) && !LightOn(flags, side) {
          ResolveNewlyLit(f, flags, side);
        }
        if !(InsideBox(p, LightBox(0), offset) || InsideBox(p, LightBox(1), offset)) {
          ResolveIdle(f, flags);
        }
      } else {
        ResolveIdle(flags, flags);
      }
    }
  }

  /** A game frame moves the monitor at most one step round its cycle. */
  lemma GameFrameFlip(w: World, input: Input)
    requires Valid(w)
    ensures GameFrame(w, input).0.monitor.flip.state == w.monitor.flip.state
         || GameFrame(w, input).0.monitor.flip.state == Advance(w.monitor.flip.state)
  {
    GameFrameTail(w, input);
    FlipStepNeverSkips(w.monitor.flip, input.cursor, input.dt);
    var w1 := w.(office := PanRoom(w.office, w.monitor.flip.state, input.cursor.x, input.dt));
    var w2 := FlipCamera(w1, input.cursor, input.dt).0;
    var w3 := w2.(monitor := w2.monitor.(sweep := SweepStep(w2.monitor.sweep, input.dt)));
    assert Click(w3, input.cursor, input.buttonDown).0.monitor.flip == w2.monitor.flip;
  }

  /**
   * The monitor moves at most one step round its cycle per frame, counted
   * from Closed on the frame that enters the game.
   */
  lemma StepFlipNeverSkips(w: World, input: Input)
    requires Valid(w) && 0.0 <= input.dt
    ensures var from := if SpacePressed(w, input) && w.screen == Title then Closed else w.monitor.flip.state;
      Step(w, input).0.monitor.flip.state == from || Step(w, input).0.monitor.flip.state == Advance(from)
  {
    CommonValid(w, input);
    var w1 := Common(w, input).0;
    if w1.screen == Playing {
      GameFrameFlip(w1, input);
    }
  }

  /** On the title screen, until space is pressed, the night, the office register and the monitor stand still. */
  lemma StepTitleFreezes(w: World, input: Input)
    requires Valid(w) && w.screen == Title && !SpacePressed(w, input)
    ensures var r := Step(w, input).0;
      && r.screen == Title
      && r.night == w.night
      && r.monitor == w.monitor
      && r.office.flags == w.office.flags
      && r.office.look == w.office.look
  {
  }

  /** The last three phases of a game frame: what the power, the click latch and the clock see. */
  lemma GameFrameTail(w: World, input: Input)
    requires |w.doorTimers| == 2
    ensures var w1 := w.(office := PanRoom(w.office, w.monitor.flip.state, input.cursor.x, input.dt));
            var w2 := FlipCamera(w1, input.cursor, input.dt).0;
            var w3 := w2.(monitor := w2.monitor.(sweep := SweepStep(w2.monitor.sweep, input.dt)));
            var w4 := Click(w3, input.cursor, input.buttonDown).0;
            var r := GameFrame(w, input).0;
      && r.office == w4.office && r.monitor == w4.monitor && r.screen == w.screen
      && r.night == w4.night.(usage := Usage(w4.office.flags, w4.monitor.flip.state == Opened),
                              power := PowerStep(w4.night.power, Usage(w4.office.flags, w4.monitor.flip.state == Opened), input.dt),
                              hour := HourStep(w4.night.hour, input.dt))
      && w4.night == w.night
      && r.latches.closeRequested == (w.latches.closeRequested || NightOver(r.night.hour))
  {
  }

  /**
   * On a game frame the usage meter counts the lights and doors of the final
   * register plus the Opened monitor, and the power drops by one tenth of a
   * percent per second per unit plus one: by at most 0.4 per second.
   */
  lemma StepPower(w: World, input: Input)
    requires Valid(w) && 0.0 <= input.dt && w.screen == Playing && !SpacePressed(w, input)
    ensures var r := Step(w, input).0;
      && r.night.usage == Usage(r.office.flags, r.monitor.flip.state == Opened)
      && r.night.power == PowerStep(w.night.power, r.night.usage, input.dt)
      && w.night.power - 0.4 * input.dt <= r.night.power <= w.night.power
  {
    var w1 := Common(w, input).0;
    assert w1.night == w.night && w1.screen == Playing;
    GameFrameTail(w1, input);
    StepValid(w, input);
    var r := Step(w, input).0;
    assert r == GameFrame(w1, input).0;
    PowerStepBounds(w.night.power, r.night.usage, input.dt);
  }

  /**
   * The window is asked to close exactly when it already was, escape is
   * down, or a game frame brings the clock to 6 AM.
   */
  lemma StepCloses(w: World, input: Input)
    requires Valid(w)
    ensures var r := Step(w, input).0;
      r.latches.closeRequested
      <==> w.latches.closeRequested || input.escapeDown || (r.screen == Playing && NightOver(r.night.hour))
  {
    var w1 := Common(w, input).0;
    assert w1.latches.closeRequested == (w.latches.closeRequested || input.escapeDown);
    if w1.screen == Playing {
      GameFrameTail(w1, input);
    }
  }

  /**
   * Entering the game starts a new night: the next night number (a byte),
   * the clock and the meter restarted and run for this one frame, and the
   * monitor Closed or just Opening.
   */
  lemma StepEntersGame(w: World, input: Input)
    requires Valid(w) && w.screen == Title && SpacePressed(w, input)
    ensures var r := Step(w, input).0;
      && r.screen == Playing
      && r.night.number == (w.night.number + 1) % 256
      && r.night.hour == HourStep(0.0, input.dt)
      && r.night.power == PowerStep(POWER_INIT, r.night.usage, input.dt)
      && (r.monitor.flip.state == Closed || r.monitor.flip.state == Opening)
  {
    ResetKeepsSteps(w.monitor.flip, input.cursor, input.dt);
  }

  /**
   * On the frame the monitor comes up, both lights are off, both doors are
   * as they were, the blip restarts at frame 0 and its sound plays.
   */
  lemma StepOpensMonitor(w: World, input: Input, side: Side)
    requires Valid(w) && w.screen == Playing && !SpacePressed(w, input)
    requires w.monitor.flip.state != Opened
    requires Step(w, input).0.monitor.flip.state == Opened
    ensures var (r, cues) := Step(w, input);
      && NoLights(r.office.flags)
      && DoorClosed(r.office.flags, side) == DoorClosed(w.office.flags, side)
      && r.effects.blip == 0
      && Play(BlipSound) in cues
  {
    var w1 := Common(w, input).0;
    assert w1.office.flags == w.office.flags;
    var p1 := w1.(office := PanRoom(w1.office, w1.monitor.flip.state, input.cursor.x, input.dt));
    var (p2, flipCues) := FlipCamera(p1, input.cursor, input.dt);
    BothDoorsMask(w.office.flags);
    assert p2.office.flags == w.office.flags & BOTH_DOORS_FLAG;
    assert Play(BlipSound) in flipCues;
    var p3 := p2.(monitor := p2.monitor.(sweep := SweepStep(p2.monitor.sweep, input.dt)));
    ResolveIdle(p3.office.flags, p3.office.flags);
    assert Click(p3, input.cursor, input.buttonDown).0.office.flags == p2.office.flags;
  }

  /** On a game frame a door bit changes only through a fresh click with the monitor not Opened. */
  lemma GameFrameDoors(w: World, input: Input, side: Side)
    requires Valid(w) && 0.0 <= input.dt
    requires DoorClosed(GameFrame(w, input).0.office.flags, side) != DoorClosed(w.office.flags, side)
    ensures ClickPressed(w, input.buttonDown) && GameFrame(w, input).0.monitor.flip.state != Opened
  {
    GameFrameTail(w, input);
    var w1 := w.(office := PanRoom(w.office, w.monitor.flip.state, input.cursor.x, input.dt));
    var w2 := FlipCamera(w1, input.cursor, input.dt).0;
    BothDoorsMask(w.office.flags);
    FlipCameraValid(w1, input.cursor, input.dt);
    var w3 := w2.(monitor := w2.monitor.(sweep := SweepStep(w2.monitor.sweep, input.dt)));
    ClickDoors(w3, input.cursor, input.buttonDown, side);
  }

  /**
   * Outside the frame that enters the game, a door bit changes only on a
   * game frame with a fresh click and the monitor not Opened.
   */
  lemma StepDoorsOnlyByClick(w: World, input: Input, side: Side)
    requires Valid(w) && 0.0 <= input.dt && !SpacePressed(w, input)
    requires DoorClosed(Step(w, input).0.office.flags, side) != DoorClosed(w.office.flags, side)
    ensures w.screen == Playing && ClickPressed(w, input.buttonDown)
    ensures Step(w, input).0.monitor.flip.state != Opened
  {
    var w1 := Common(w, input).0;
    assert w1.office.flags == w.office.flags && w1.screen == w.screen && w1.latches.clickHeld == w.latches.clickHeld;
    CommonValid(w, input);
    if w1.screen == Playing {
      GameFrameDoors(w1, input, side);
    }
  }

  /** Every frame of a run has a non-negative duration: the clock never runs backwards. */
  predicate Durations(inputs: seq<Input>)
  {
    forall i :: 0 <= i < |inputs| ==> 0.0 <= inputs[i].dt
  }

  /**
   * The frame loop from some point on, where `cues` and `frames` are the
   * sounds and the frame count so far. The loop runs every remaining input
   * unless the window is asked to close; it only appends sounds, and every
   * state it reaches keeps the invariants.
   */
  function RunFrom(w: World, inputs: seq<Input>, cues: seq<Cue>, frames: nat): (r: (World, seq<Cue>, nat))
    requires Valid(w) && Durations(inputs)
    ensures Valid(r.0)
    ensures cues <= r.1
    ensures frames <= r.2 <= frames + |inputs|
    ensures r.2 < frames + |inputs| ==> r.0.latches.closeRequested
    decreases |inputs|
  {
    if |inputs| == 0 || w.latches.closeRequested then (w, cues, frames)
    else
      StepValid(w, inputs[0]);
      var (w1, more) := Step(w, inputs[0]);
      RunFrom(w1, inputs[1..], cues + more, frames + 1)
  }

  /**
   * The frame loop over a sequence of inputs: the state, every cue in
   * order, and the number of frames run.
   */
  function Run(w: World, inputs: seq<Input>): (r: (World, seq<Cue>, nat))
    requires Valid(w) && Durations(inputs)
    ensures Valid(r.0)
    ensures r.2 <= |inputs|
    ensures r.2 < |inputs| ==> r.0.latches.closeRequested
  {
    RunFrom(w, inputs, [], 0)
  }

  /** One frame of the loop, unfolded: the frame's state and cues come first. */
  lemma RunNext(w: World, inputs: seq<Input>, cues: seq<Cue>, frames: nat)
    requires Valid(w) && Durations(inputs) && |inputs| > 0 && !w.latches.closeRequested
    ensures var (w1, more) := Step(w, inputs[0]);
      && Valid(w1) && Durations(inputs[1..])
      && RunFrom(w, inputs, cues, frames) == RunFrom(w1, inputs[1..], cues + more, frames + 1)
  {
    StepValid(w, inputs[0]);
  }

  /** The loop stops at the end of the inputs or once the window is asked to close. */
  lemma RunDone(w: World, inputs: seq<Input>, cues: seq<Cue>, frames: nat)
    requires Valid(w) && Durations(inputs) && (|inputs| == 0 || w.latches.closeRequested)
    ensures RunFrom(w, inputs, cues, frames) == (w, cues, frames)
  {
  }
}
