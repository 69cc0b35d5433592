/**
 * The two horizontal view offsets of src/main.c: the office pan that
 * follows the cursor while the monitor is not Opened (lines 549-556) and
 * the camera picture's back-and-forth sweep (lines 619-640).
 */
module Look {
  import opened Helpers

  /** The horizontal centre of the 1280-pixel window. */
  const WINDOW_CENTER_X: real := 640.0

  /** Within this distance of the centre the cursor does not pan the office. */
  const DEAD_ZONE: real := 128.0

  const LOOK_MIN: real := -320.0
  const LOOK_MAX: real := 0.0

  function Abs(x: real): real
  {
    if x < 0.0 then -x else x
  }

  /**
   * The cursor's signed distance from the centre, clamped to the window and
   * zeroed inside the dead zone.
   */
  function PanSpeed(cursorX: int): (d: real)
    ensures -640.0 <= d <= 640.0
    ensures d == 0.0 <==> WINDOW_CENTER_X - DEAD_ZONE < cursorX as real < WINDOW_CENTER_X + DEAD_ZONE
    ensures d > 0.0 <==> cursorX as real >= WINDOW_CENTER_X + DEAD_ZONE
  {
    var d := Clampf(cursorX as real - WINDOW_CENTER_X, -640.0, 640.0);
    if Abs(d) < DEAD_ZONE then 0.0 else d
  }

  /** One frame of the office pan: the offset moves against the cursor's distance, clamped to [-320, 0]. */
  function RoomLookStep(look: real, cursorX: int, dt: real): (r: real)
    ensures LOOK_MIN <= r <= LOOK_MAX
  {
    Clampf(look + -PanSpeed(cursorX) * dt, LOOK_MIN, LOOK_MAX)
  }

  /** A cursor in the dead zone leaves an in-range offset where it is. */
  lemma RoomLookDeadZone(look: real, cursorX: int, dt: real)
    requires LOOK_MIN <= look <= LOOK_MAX
    requires WINDOW_CENTER_X - DEAD_ZONE < cursorX as real < WINDOW_CENTER_X + DEAD_ZONE
    ensures RoomLookStep(look, cursorX, dt) == look
  {
  }

  /**
   * A cursor right of the dead zone moves the offset toward -320, one left
   * of it toward 0; the step is the distance times `dt` until the clamp.
   */
  lemma RoomLookDirection(look: real, cursorX: int, dt: real)
    requires LOOK_MIN <= look <= LOOK_MAX && 0.0 <= dt
    ensures cursorX as real >= WINDOW_CENTER_X + DEAD_ZONE ==> RoomLookStep(look, cursorX, dt) <= look
    ensures cursorX as real <= WINDOW_CENTER_X - DEAD_ZONE ==> RoomLookStep(look, cursorX, dt) >= look
  {
    var d := PanSpeed(cursorX);
    if d > 0.0 {
      ProductNonNegative(d, dt);
    } else {
      ProductNonNegative(-d, dt);
    }
  }

  /** The time the sweep rests at either end. */
  const SWEEP_HOLD: real := 1.6666667

  /** The sweep speed, in offset units per second. */
  const SWEEP_SPEED: real := 60.0

  /** `camera_look_current`, `camera_look_hold_timer` and `camera_look_state` (true while moving toward 0). */
  datatype Sweep = Sweep(look: real, hold: real, rising: bool)

  predicate SweepInRange(s: Sweep)
  {
    LOOK_MIN <= s.look <= LOOK_MAX
  }

  /**
   * One frame of the sweep: while the hold timer is positive only the timer
   * runs; otherwise the offset moves, and on passing an end it stops at that
   * end, turns round and starts a new hold. The sweep never leaves [-320, 0].
   */
  function SweepStep(s: Sweep, dt: real): (r: Sweep)
    ensures SweepInRange(s) && 0.0 <= dt ==> SweepInRange(r)
    ensures r.rising != s.rising ==> r.hold == SWEEP_HOLD
  {
    if s.hold > 0.0 then s.(hold := s.hold - dt)
    else if s.rising then
      var l := s.look + dt * SWEEP_SPEED;
      if l > LOOK_MAX then Sweep(LOOK_MAX, SWEEP_HOLD, false) else s.(look := l)
    else
      var l := s.look - dt * SWEEP_SPEED;
      if l < LOOK_MIN then Sweep(LOOK_MIN, SWEEP_HOLD, true) else s.(look := l)
  }

  /** While holding, the offset and the direction do not change. */
  lemma SweepHolds(s: Sweep, dt: real)
    requires s.hold > 0.0
    ensures SweepStep(s, dt) == s.(hold := s.hold - dt)
  {
  }

  /**
   * The direction flips exactly when a moving sweep passes an end; it then
   * rests on that end with a fresh hold. Otherwise the offset moves by
   * `60 * dt` in its direction.
   */
  lemma SweepTurns(s: Sweep, dt: real)
    requires s.hold <= 0.0
    ensures SweepStep(s, dt).rising != s.rising
        <==> (if s.rising then s.look + dt * SWEEP_SPEED > LOOK_MAX else s.look - dt * SWEEP_SPEED < LOOK_MIN)
    ensures SweepStep(s, dt).rising != s.rising
        ==> (SweepStep(s, dt).hold == SWEEP_HOLD
             && SweepStep(s, dt).look == (if s.rising then LOOK_MAX else LOOK_MIN))
    ensures SweepStep(s, dt).rising == s.rising
        ==> (SweepStep(s, dt).look == (if s.rising then s.look + dt * SWEEP_SPEED else s.look - dt * SWEEP_SPEED)
             && SweepStep(s, dt).hold == s.hold)
  {
  }
}
