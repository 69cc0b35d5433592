/**
 * The frame loop of src/main.c as the source writes it: the game's state
 * lives in variables that each frame updates in place, the door timers in
 * a two-element array. The variables are grouped as module Update groups
 * them (the latches, the office, the monitor, the night and the effects),
 * and every method is proved to leave the state that the corresponding
 * function of module Update computes, so the properties proved there hold
 * of this code.
 */
module Game {
  import opened Helpers
  import opened Register
  import opened Audio
  import opened Doors
  import opened Camera
  import opened Look
  import opened Clock
  import opened Update

  class GameState {
    var screen: Screen
    var latches: Latches
    var office: Office
    /** `door_frame_timers`, one per side. */
    const doorTimers: array<real>
    var monitor: Monitor
    var night: Night
    var effects: Effects

    /** The variables read as one value of the pure model. */
    ghost function Snapshot(): World
      reads this, doorTimers
    {
      World(screen, latches, office, doorTimers[..], monitor, night, effects)
    }

    ghost predicate Valid()
      reads this, doorTimers
    {
      doorTimers.Length == 2 && Update.Valid(Snapshot())
    }

    /** Start-up: the initial values of the variables, then the title screen's set-up. */
    constructor ()
      ensures Valid() && Snapshot() == Initial()
    {
      screen := Title;
      latches := Latches(false, false, false);
      office := Office(0, 0.0, 0.0);
      doorTimers := new real[2](_ => 0.0);
      monitor := Monitor(Flip(Closed, CAM_TIMER_INIT, false), 0, Sweep(0.0, 0.0, false));
      night := Night(1, 0.0, POWER_INIT, 0);
      effects := Effects(0.0, 0, 0, 0, StaticTimer(STATIC_PERIOD, 0));
      new;
      assert doorTimers[..] == [0.0, 0.0];
    }

    /** A fresh press of space swaps the screens, resetting the night on the way into the game. */
    method ToggleScreen(spaceDown: bool) returns (cues: seq<Cue>)
      modifies this
      ensures (Snapshot(), cues) == Update.ToggleScreen(old(Snapshot()), spaceDown)
    {
      cues := [];
      if spaceDown && !latches.spaceHeld {
        if screen == Playing {
          screen := Title;
          cues := [Stop(LightSound), Stop(FanSound), Play(BlipSound), Play(StaticSound), Play(TitleMusic)];
          office := office.(look := 0.0);
          monitor := monitor.(sweep := monitor.sweep.(look := 0.0));
        } else {
          screen := Playing;
          cues := [Stop(BlipSound), Stop(StaticSound), Play(FanSound), Play(LightSound)];
          monitor := monitor.(flip := Reset(monitor.flip), selected := 0);
          office := office.(flags := 0);
          night := night.(hour := 0.0, power := POWER_INIT);
          office := office.(look := -160.0);
          monitor := monitor.(sweep := monitor.sweep.(look := 0.0));
          night := night.(number := (night.number + 1) % 256);
        }
      }
      latches := latches.(spaceHeld := spaceDown);
    }

    /** Each door timer runs toward the end its door bit selects, clamped to [0, 28]. */
    method AdvanceDoorTimers(ticks: real)
      requires doorTimers.Length == 2
      modifies doorTimers
      ensures doorTimers[..] == TimersStep(old(doorTimers[..]), office.flags, ticks)
    {
      var flags := office.flags;
      for i := 0 to 2
        invariant forall j :: 0 <= j < i ==> doorTimers[j] == TimerStep(old(doorTimers[j]), DoorClosed(flags, j), ticks)
        invariant forall j :: i <= j < 2 ==> doorTimers[j] == old(doorTimers[j])
      {
        if flags & DoorMask(i) != 0 {
          doorTimers[i] := doorTimers[i] + ticks;
        } else {
          doorTimers[i] := doorTimers[i] - ticks;
        }
        doorTimers[i] := Clampf(doorTimers[i], 0.0, DOOR_TIMER_MAX);
      }
      assert doorTimers[..] == [doorTimers[0], doorTimers[1]];
    }

    /** The office picture and the light's buzz, side by side: the last lit side wins. */
    static method LightView(flags: bv8, flicker: nat) returns (view: nat, gain: real)
      ensures view == OfficeView(flags, flicker) && gain == LightGain(flags, flicker)
    {
      view, gain := 0, 0.0;
      for i := 0 to 2
        invariant view == ViewUpTo(flags, flicker, i)
        invariant gain == (if ((i >= 1 && LightOn(flags, 0)) || (i >= 2 && LightOn(flags, 1))) && flicker > 1 then 1.0 else 0.0)
      {
        if flags & LightMask(i) != 0 {
          view := (i + 1) * (if flicker > 1 then 1 else 0);
          gain := if flicker > 1 then 1.0 else 0.0;
        }
      }
    }

    /** The once-per-sixtieth effects: the flicker, the office picture and buzz, the blip and the static. */
    method AnimationGate(dt: real, flickerDraw: nat, staticDraw: nat) returns (cues: seq<Cue>)
      requires effects.noise.timer < 256
      modifies this`effects
      ensures effects == Update.AnimationGate(old(effects), office.flags, dt, flickerDraw, staticDraw)
      ensures cues == GateCues(old(effects), office.flags, dt, flickerDraw)
    {
      cues := [];
      effects := effects.(timer := effects.timer + dt);
      if effects.timer > ANIMATION_FRAMETIME {
        var flags := office.flags;
        var flicker := flickerDraw % 10;
        var view, gain := LightView(office.flags, flicker);
        effects := effects.(flicker := flicker, officeView := view);
        if effects.blip < BLIP_END {
          effects := effects.(blip := effects.blip + 1);
        }
        var timer := (effects.noise.timer + 255) % 256;
        if timer == 0xFF {
          effects := effects.(noise := StaticTimer(STATIC_PERIOD, (staticDraw % 256 % 3) * 15));
        } else {
          effects := effects.(noise := effects.noise.(timer := timer));
        }
        cues := [SetGain(LightSound, gain)];
        effects := effects.(timer := 0.0);
      }
    }

    /** The flip machine's frame and, on reaching Opened, the lights off and the blip restarted. */
    method FlipCamera(p: Point, dt: real) returns (cues: seq<Cue>)
      modifies this
      ensures (Snapshot(), cues) == Update.FlipCamera(old(Snapshot()), p, dt)
    {
      var stateBefore := monitor.flip.state;
      var flip := monitor.flip;
      cues := [];
      if InsideBox(p, BAR_BOX, 0) && !flip.hovering {
        flip := flip.(hovering := true);
        match flip.state
        case Closed =>
          flip := flip.(state := Opening);
          cues := [Stop(CameraCloseSound), Play(CameraOpenSound), Play(CameraScanSound)];
        case Opened =>
          flip := flip.(state := Closing);
          cues := [Stop(CameraOpenSound), Stop(CameraScanSound), Play(CameraCloseSound), SetGain(FanSound, 0.25)];
        case _ =>
      }
      if p.y < BAR_RELEASE_Y {
        flip := flip.(hovering := false);
      }
      if flip.state == Opening || flip.state == Closing {
        if flip.timer > 0.0 {
          flip := flip.(timer := flip.timer - dt);
        } else {
          flip := flip.(state := Advance(flip.state), timer := CAM_TIMER_INIT);
        }
      }
      monitor := monitor.(flip := flip);
      if flip.state == Opened && stateBefore != Opened {
        office := office.(flags := office.flags & BOTH_DOORS_FLAG);
        cues := cues + [Play(BlipSound), SetGain(FanSound, 0.1)];
        effects := effects.(blip := 0);
      }
    }

    /** The camera picture's sweep between -320 and 0, resting at each end. */
    method SweepCamera(dt: real)
      modifies this`monitor
      ensures monitor == old(monitor).(sweep := SweepStep(old(monitor).sweep, dt))
    {
      var s := monitor.sweep;
      if s.hold > 0.0 {
        s := s.(hold := s.hold - dt);
      } else if s.rising {
        s := s.(look := s.look + dt * SWEEP_SPEED);
        if s.look > LOOK_MAX {
          s := Sweep(LOOK_MAX, SWEEP_HOLD, false);
        }
      } else {
        s := s.(look := s.look - dt * SWEEP_SPEED);
        if s.look < LOOK_MIN {
          s := Sweep(LOOK_MIN, SWEEP_HOLD, true);
        }
      }
      monitor := monitor.(sweep := s);
    }

    /**
     * One side's buttons: the door bit is XORed in when the door button
     * acts, then the light bit times the light button's hit flag.
     */
    static method ToggleButtons(flags: bv8, side: Side, doorHit: bool, lightHit: bool) returns (f: bv8)
      ensures f == ToggleSide(flags, side, doorHit, lightHit)
    {
      f := flags;
      var mask := DoorMask(side);
      if doorHit {
        f := f ^ mask;
      }
      var hit: bv8 := if lightHit then 1 else 0;
      var lightBits := (mask >> 1) * hit;
      f := f ^ lightBits;
    }

    /** The office buttons, side by side, then the nose. */
    static method PressButtons(flags: bv8, timers: array<real>, p: Point, offset: int) returns (f: bv8, cues: seq<Cue>)
      requires timers.Length == 2
      ensures (f, cues) == PressOffice(flags, timers[..], p, offset)
    {
      ghost var ts := timers[..];
      f, cues := flags, [];
      for i := 0 to 2
        invariant (f, cues) == PressSides(flags, ts, p, offset, i)
      {
        PressSidesNext(flags, ts, p, offset, i);
        assert timers[i] == ts[i];
        var doorHit := AtRest(timers[i]) && InsideBox(p, DoorBox(i), offset);
        if doorHit {
          cues := cues + [Play(DoorSound)];
        } else {
          assert cues + [] == cues;
        }
        f := ToggleButtons(f, i, doorHit, InsideBox(p, LightBox(i), offset));
      }
      if InsideBox(p, NOSE_BOX, offset) {
        cues := cues + [Stop(FreddyNoseSound), Play(FreddyNoseSound)];
      } else {
        assert cues + [] == cues;
      }
    }

    /** The camera map: every hit camera becomes the selected one, with a blip. */
    static method SelectCamera(selected: nat, p: Point) returns (s: nat, cues: seq<Cue>)
      ensures (s, cues) == SelectUpTo(selected, p, CAMERA_COUNT)
    {
      s, cues := selected, [];
      for i := 0 to CAMERA_COUNT
        invariant (s, cues) == SelectUpTo(selected, p, i)
      {
        if CameraHit(p, i) {
          cues := cues + [Play(BlipSound)];
          s := i;
        }
      }
    }

    /** After a click, a light switched on while the other was on before turns the other one off. */
    static method ResolvePass(flags: bv8, before: bv8) returns (f: bv8)
      ensures f == ResolveLights(flags, before)
    {
      f := flags;
      if f & LIGHT_FLAG != 0 && before & (LIGHT_FLAG << 2) != 0 {
        f := f & !(LIGHT_FLAG << 2);
      }
      if f & (LIGHT_FLAG << 2) != 0 && before & LIGHT_FLAG != 0 {
        f := f & !LIGHT_FLAG;
      }
    }

    /** A fresh click: the office buttons or the camera map, then the light pass. */
    method Click(p: Point, buttonDown: bool) returns (cues: seq<Cue>)
      requires doorTimers.Length == 2
      modifies this
      ensures (Snapshot(), cues) == Update.Click(old(Snapshot()), p, buttonDown)
    {
      cues := [];
      if buttonDown && !latches.clickHeld {
        var before := office.flags;
        var flags := before;
        if monitor.flip.state != Opened {
          flags, cues := PressButtons(before, doorTimers, p, Trunc(office.look));
        } else {
          var selected;
          selected, cues := SelectCamera(monitor.selected, p);
          monitor := monitor.(selected := selected);
          if cues != [] {
            effects := effects.(blip := 0);
          }
        }
        flags := ResolvePass(flags, before);
        office := office.(flags := flags);
        latches := latches.(clickHeld := true);
      }
    }

    /** The usage meter, counted side by side, plus one while the monitor is Opened. */
    static method CountUsage(flags: bv8, cameraOpen: bool) returns (usage: nat)
      ensures usage == Usage(flags, cameraOpen)
    {
      usage := 0;
      for i := 0 to 2
        invariant usage == UsageUpTo(flags, i)
      {
        var bits := SideBits(flags, i);
        usage := usage + (bits & 0x1) as nat + (if bits & 0x2 > 0 then 1 else 0);
      }
      usage := usage + (if cameraOpen then 1 else 0);
    }

    /** The meter is recounted and the power drains by it. */
    method AccountPower(dt: real)
      modifies this`night
      ensures night == Update.AccountPower(old(night), office.flags, monitor.flip.state == Opened, dt)
    {
      var usage := CountUsage(office.flags, monitor.flip.state == Opened);
      night := night.(usage := usage, power := night.power - ((usage as real) + 1.0) * dt * 0.1);
    }

    /** The game screen's update, in the source's order. */
    method GameFrame(input: Input) returns (cues: seq<Cue>)
      requires doorTimers.Length == 2
      modifies this
      ensures (Snapshot(), cues) == Update.GameFrame(old(Snapshot()), input)
    {
      ghost var w := Snapshot();
      if monitor.flip.state != Opened {
        office := office.(look := RoomLookStep(office.look, input.cursor.x, input.dt));
      }
      assert Snapshot() == w.(office := PanRoom(w.office, w.monitor.flip.state, input.cursor.x, input.dt));
      cues := FlipCamera(input.cursor, input.dt);
      ghost var w2 := Snapshot();
      SweepCamera(input.dt);
      assert Snapshot() == w2.(monitor := w2.monitor.(sweep := SweepStep(w2.monitor.sweep, input.dt)));
      var clickCues := Click(input.cursor, input.buttonDown);
      ghost var w4 := Snapshot();
      cues := cues + clickCues;
      AccountPower(input.dt);
      if !input.buttonDown {
        latches := latches.(clickHeld := false);
      }
      ghost var w5 := Snapshot();
      assert w5 == w4.(night := Update.AccountPower(w4.night, w4.office.flags, w4.monitor.flip.state == Opened, input.dt),
                       latches := ReleaseClick(w4.latches, input.buttonDown));
      night := night.(hour := night.hour + input.dt / SECONDS_PER_HOUR);
      if night.hour >= LAST_HOUR {
        latches := latches.(closeRequested := true);
      }
      assert Snapshot() == AdvanceHour(w5, input.dt);
    }

    /** One iteration of the frame loop. */
    method Frame(input: Input) returns (cues: seq<Cue>)
      requires Valid() && 0.0 <= input.dt
      modifies this, doorTimers
      ensures Valid()
      ensures (Snapshot(), cues) == Step(old(Snapshot()), input)
    {
      ghost var w := Snapshot();
      StepValid(w, input);
      if input.escapeDown {
        latches := latches.(closeRequested := true);
      }
      ghost var w0 := Snapshot();
      assert w0 == w.(latches := Escape(w.latches, input.escapeDown));
      cues := ToggleScreen(input.spaceDown);
      ghost var w1 := Snapshot();
      assert w1.effects == w.effects;
      var ticks := input.dt * 60.0;
      office := office.(fan := FanStep(office.fan, ticks));
      assert doorTimers[..] == w1.doorTimers;
      AdvanceDoorTimers(ticks);
      assert doorTimers[..] == TimersStep(w1.doorTimers, w1.office.flags, ticks);
      assert Snapshot() == AdvanceAnimations(w1, input.dt);
      var gateCues := AnimationGate(input.dt, input.flickerDraw, input.staticDraw);
      cues := cues + gateCues;
      assert (Snapshot(), cues) == Common(w, input);
      if screen == Playing {
        var gameCues := GameFrame(input);
        cues := cues + gameCues;
      }
    }

    /** The frame loop: one frame per input until the window is asked to close. */
    method Run(inputs: seq<Input>) returns (cues: seq<Cue>, frames: nat)
      requires Valid() && Durations(inputs)
      modifies this, doorTimers
      ensures Valid()
      ensures (Snapshot(), cues, frames) == Update.Run(old(Snapshot()), inputs)
    {
      ghost var target := Update.Run(Snapshot(), inputs);
      assert target == Update.Run(old(Snapshot()), inputs);
      cues, frames := [], 0;
      assert inputs[frames..] == inputs;
      while frames < |inputs| && !latches.closeRequested
        invariant Valid() && frames <= |inputs|
        invariant Durations(inputs[frames..])
        invariant target == RunFrom(Snapshot(), inputs[frames..], cues, frames)
        decreases |inputs| - frames
      {
        ghost var rest := inputs[frames..];
        assert rest[0] == inputs[frames] && rest[1..] == inputs[frames + 1..];
        RunNext(Snapshot(), rest, cues, frames);
        var frameCues := Frame(inputs[frames]);
        cues := cues + frameCues;
        frames := frames + 1;
      }
      RunDone(Snapshot(), inputs[frames..], cues, frames);
    }
  }
}
