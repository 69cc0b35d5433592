/**
 * The counters of src/main.c that run on time alone: the power meter
 * (lines 706-712), the night clock (lines 825-830), the fan animation
 * (lines 347-348) and the once-per-animation-frame effects (lines 360-393):
 * the light flicker, the camera blip and the static's redraw timer.
 */
module Clock {
  import opened Helpers
  import opened Register

  /** Power at the start of a night. */
  const POWER_INIT: real := 99.9

  /** One frame of drain: one tenth of a percent per second per usage unit, plus the base unit. */
  function PowerStep(power: real, usage: nat, dt: real): (r: real)
    ensures 0.0 < dt ==> r < power
    ensures 0.0 <= dt ==> r <= power
  {
    power - ((usage as real) + 1.0) * dt * 0.1
  }

  /** With at most three units in use, a frame drains at most 0.4 percent per second. */
  lemma PowerStepBounds(power: real, usage: nat, dt: real)
    requires usage <= 3 && 0.0 <= dt
    ensures power - 0.4 * dt <= PowerStep(power, usage, dt) <= power
  {
    var u := (usage as real) + 1.0;
    ProductNonNegative(4.0 - u, dt);
    assert u * dt * 0.1 <= 0.4 * dt;
  }

  /** The power after `n` frames of the same length and usage. */
  function Drain(power: real, usage: nat, dt: real, n: nat): real
  {
    if n == 0 then power else PowerStep(Drain(power, usage, dt, n - 1), usage, dt)
  }

  /** The drain is linear in the number of frames and has no floor: the meter goes below zero. */
  lemma {:induction false} DrainLinear(power: real, usage: nat, dt: real, n: nat)
    ensures Drain(power, usage, dt, n) == power - (n as real) * ((usage as real) + 1.0) * dt * 0.1
  {
    if n > 0 {
      DrainLinear(power, usage, dt, n - 1);
      var k := (n - 1) as real;
      var u := (usage as real) + 1.0;
      assert (k + 1.0) * u * dt * 0.1 == k * u * dt * 0.1 + u * dt * 0.1;
    }
  }

  /** With nothing switched on, 1000 one-second frames take a full meter below zero. */
  lemma DrainHasNoFloor()
    ensures Drain(POWER_INIT, 0, 1.0, 1000) < 0.0
  {
    DrainLinear(POWER_INIT, 0, 1.0, 1000);
  }

  /** The clock gains one hour every 90 seconds. */
  const SECONDS_PER_HOUR: real := 90.0

  /** The night ends at 6 AM. */
  const LAST_HOUR: real := 6.0

  function HourStep(hour: real, dt: real): (r: real)
    ensures 0.0 <= dt ==> hour <= r
  {
    hour + dt / SECONDS_PER_HOUR
  }

  predicate NightOver(hour: real)
  {
    hour >= LAST_HOUR
  }

  /** The clock after `n` frames of length `dt` from midnight. */
  function Hours(dt: real, n: nat): real
  {
    if n == 0 then 0.0 else HourStep(Hours(dt, n - 1), dt)
  }

  lemma {:induction false} HoursLinear(dt: real, n: nat)
    ensures Hours(dt, n) == (n as real) * dt / SECONDS_PER_HOUR
  {
    if n > 0 {
      HoursLinear(dt, n - 1);
    }
  }

  /** A night takes 540 seconds: 540 one-second frames end it and 539 do not. */
  lemma NightLength()
    ensures NightOver(Hours(1.0, 540))
    ensures !NightOver(Hours(1.0, 539))
  {
    HoursLinear(1.0, 540);
    HoursLinear(1.0, 539);
  }

  /**
   * The fan strip has three frames; the frame counter runs at 60 per second
   * modulo 3, and from a non-negative counter it stays in [0, 3).
   */
  const FAN_FRAMES: real := 3.0

  function FanStep(frame: real, ticks: real): (r: real)
    ensures 0.0 <= frame && 0.0 <= ticks ==> 0.0 <= r < FAN_FRAMES
  {
    Fmod2(frame + ticks, FAN_FRAMES)
  }

  /** Animation effects run once the accumulated time passes one sixtieth of a second. */
  const ANIMATION_FRAMETIME: real := 0.01666667

  /** The camera blip counts up once per animation frame and stops at 9, past its last frame. */
  const BLIP_END: nat := 9

  function BlipStep(blip: nat): (r: nat)
    ensures blip < BLIP_END ==> r == blip + 1
    ensures BLIP_END <= blip ==> r == blip
    ensures blip <= BLIP_END ==> r <= BLIP_END
  {
    if blip < BLIP_END then blip + 1 else blip
  }

  /** `static_animation_rand_timer` (a byte) and `static_animation_rand_value`. */
  datatype StaticTimer = StaticTimer(timer: nat, value: nat)

  const STATIC_PERIOD: nat := 60

  /**
   * The byte is decremented with wrap-around; when it wraps past zero to
   * 0xFF the static's extra value is drawn again, as 0, 15 or 30, and the
   * byte is set back to 60.
   */
  function StaticTick(s: StaticTimer, draw: nat): (r: StaticTimer)
    requires s.timer < 256
    ensures r.timer < 256
  {
    var t := (s.timer + 255) % 256;
    if t == 0xFF then StaticTimer(STATIC_PERIOD, (draw % 256 % 3) * 15) else s.(timer := t)
  }

  predicate StaticValid(s: StaticTimer)
  {
    s.timer <= STATIC_PERIOD && (s.value == 0 || s.value == 15 || s.value == 30)
  }

  /**
   * The timer counts down from 60 to 0 and then restarts at 60, redrawing
   * the value exactly then; the value is always 0, 15 or 30.
   */
  lemma StaticTickCycle(s: StaticTimer, draw: nat)
    requires StaticValid(s)
    ensures StaticValid(StaticTick(s, draw))
    ensures StaticTick(s, draw).timer == (if s.timer == 0 then STATIC_PERIOD else s.timer - 1)
    ensures s.timer != 0 ==> StaticTick(s, draw).value == s.value
  {
  }

  /** `light_flicker` is a draw modulo 10; the light shows only when it is above 1. */
  function Flicker(draw: nat): (f: nat)
    ensures f < 10
  {
    draw % 10
  }

  /** The view loop after its first `n` sides: a lit side sets the office picture to its number when the light shows. */
  function ViewUpTo(flags: bv8, flicker: nat, n: nat): nat
    requires n <= 2
  {
    if n == 0 then 0
    else if LightOn(flags, n - 1) then n * (if flicker > 1 then 1 else 0)
    else ViewUpTo(flags, flicker, n - 1)
  }

  /** `office_view_sprite_state`: 0 for the dark office, 1 or 2 for the lit left or right door. */
  function OfficeView(flags: bv8, flicker: nat): nat
  {
    ViewUpTo(flags, flicker, 2)
  }

  /** The light's buzz: full while a light is on and showing, silent otherwise. */
  function LightGain(flags: bv8, flicker: nat): real
  {
    if (LightOn(flags, 0) || LightOn(flags, 1)) && flicker > 1 then 1.0 else 0.0
  }

  /**
   * The picture is a valid office frame (0..2); it is a lit door exactly when
   * some light is on and the flicker shows it, and then it is the lit side
   * (the right one if both were on).
   */
  lemma OfficeViewMeaning(flags: bv8, flicker: nat)
    ensures OfficeView(flags, flicker) <= 2
    ensures OfficeView(flags, flicker) != 0 <==> (LightOn(flags, 0) || LightOn(flags, 1)) && flicker > 1
    ensures OfficeView(flags, flicker) != 0 ==> LightOn(flags, OfficeView(flags, flicker) - 1)
    ensures OfficeView(flags, flicker) == 1 ==> !LightOn(flags, 1)
    ensures (OfficeView(flags, flicker) != 0) == (LightGain(flags, flicker) == 1.0)
  {
    assert ViewUpTo(flags, flicker, 1) == (if LightOn(flags, 0) then (if flicker > 1 then 1 else 0) else 0);
  }
}
