/**
 * The camera monitor of src/main.c: the flip state machine driven by
 * hovering the bar at the bottom of the screen (lines 62-67, 569-617), the
 * state reset on entering the game (lines 326-327), and the choice of
 * camera by clicking one of eleven map buttons (lines 534-546, 666-687).
 */
module Camera {
  import opened Helpers
  import opened Audio

  /** The four states, numbered as in the source's enum. */
  datatype CamState = Closed | Opening | Opened | Closing
  {
    function Code(): (n: nat)
      ensures n < 4
    {
      match this
      case Closed => 0
      case Opening => 1
      case Opened => 2
      case Closing => 3
    }
  }

  function FromCode(n: nat): (s: CamState)
    requires n < 4
    ensures s.Code() == n
  {
    if n == 0 then Closed else if n == 1 then Opening else if n == 2 then Opened else Closing
  }

  /** `camera_state++` then `camera_state %= 4`: the next state round the cycle. */
  function Advance(s: CamState): (r: CamState)
    ensures r == match s
      case Closed => Opening
      case Opening => Opened
      case Opened => Closing
      case Closing => Closed
  {
    FromCode((s.Code() + 1) % 4)
  }

  /** Four advances bring every state back to itself. */
  lemma AdvanceCycle(s: CamState)
    ensures Advance(Advance(Advance(Advance(s)))) == s
    ensures Advance(s) != s && Advance(Advance(s)) != s
  {
  }

  const CAM_TIMER_INIT: real := 0.35

  /** The flip bar along the bottom edge. */
  const BAR_BOX: Box := Box(75, 653, 792, 67)

  /** The hover latch is released once the cursor is above this row. */
  const BAR_RELEASE_Y: int := 643

  /** The flip machine: `camera_state`, `camera_flip_timer` and `camera_bar_hovering`. */
  datatype Flip = Flip(state: CamState, timer: real, hovering: bool)

  /**
   * Hovering the bar once (with the latch clear) sends Closed to Opening and
   * Opened to Closing, with their sounds; the latch is set by any hover and
   * cleared whenever the cursor is above BAR_RELEASE_Y.
   */
  function Hover(f: Flip, p: Point): (Flip, seq<Cue>)
  {
    var acts := InsideBox(p, BAR_BOX, 0) && !f.hovering;
    var (state, cues) :=
      if !acts then (f.state, [])
      else match f.state
        case Closed => (Opening, [Stop(CameraCloseSound), Play(CameraOpenSound), Play(CameraScanSound)])
        case Opened => (Closing, [Stop(CameraOpenSound), Stop(CameraScanSound), Play(CameraCloseSound), SetGain(FanSound, 0.25)])
        case _ => (f.state, []);
    var latch := f.hovering || acts;
    (Flip(state, f.timer, latch && !(p.y < BAR_RELEASE_Y)), cues)
  }

  /** Opening and Closing count the timer down; at or below zero they advance and re-arm it. */
  function Countdown(f: Flip, dt: real): Flip
  {
    if f.state == Opening || f.state == Closing then
      if f.timer > 0.0 then f.(timer := f.timer - dt)
      else Flip(Advance(f.state), CAM_TIMER_INIT, f.hovering)
    else f
  }

  /**
   * One frame of the flip machine: the hover, then the countdown. A frame
   * moves the state at most two steps round the cycle, and two only when a
   * hover leaves Closed or Opened while the timer is already spent.
   */
  function FlipStep(f: Flip, p: Point, dt: real): (r: (Flip, seq<Cue>))
    ensures r.0.state == f.state || r.0.state == Advance(f.state)
         || (r.0.state == Advance(Advance(f.state)) && (f.state == Closed || f.state == Opened) && f.timer <= 0.0)
  {
    var (h, cues) := Hover(f, p);
    HoverMoves(f, p);
    CountdownMoves(h, dt);
    (Countdown(h, dt), cues)
  }

  /** The hover moves the state only from Closed or Opened, only when the latch is clear, and then one step. */
  lemma HoverMoves(f: Flip, p: Point)
    ensures Hover(f, p).0.state != f.state
        <==> InsideBox(p, BAR_BOX, 0) && !f.hovering && (f.state == Closed || f.state == Opened)
    ensures Hover(f, p).0.state == f.state || Hover(f, p).0.state == Advance(f.state)
    ensures Hover(f, p).0.timer == f.timer
  {
  }

  /** After the hover the latch is set exactly when the cursor is on the bar, or it was set and the cursor stayed low. */
  lemma HoverLatch(f: Flip, p: Point)
    ensures Hover(f, p).0.hovering <==> InsideBox(p, BAR_BOX, 0) || (f.hovering && p.y >= BAR_RELEASE_Y)
  {
  }

  /**
   * The countdown moves the state only from Opening or Closing, only once
   * the timer has run out, and then one step, re-arming the timer; while
   * it runs it only subtracts `dt`.
   */
  lemma CountdownMoves(f: Flip, dt: real)
    ensures Countdown(f, dt).state != f.state
        <==> (f.state == Opening || f.state == Closing) && f.timer <= 0.0
    ensures Countdown(f, dt).state != f.state
        ==> Countdown(f, dt).state == Advance(f.state) && Countdown(f, dt).timer == CAM_TIMER_INIT
    ensures Countdown(f, dt).state == f.state && (f.state == Opening || f.state == Closing)
        ==> Countdown(f, dt).timer == f.timer - dt
    ensures Countdown(f, dt).hovering == f.hovering
  {
  }

  /** In the two resting states the timer is armed. */
  predicate FlipRest(f: Flip)
  {
    (f.state == Closed || f.state == Opened) ==> f.timer == CAM_TIMER_INIT
  }

  /** A frame keeps the timer armed in the resting states. */
  lemma FlipStepKeepsRest(f: Flip, p: Point, dt: real)
    requires FlipRest(f)
    ensures FlipRest(FlipStep(f, p, dt).0)
  {
    HoverMoves(f, p);
  }

  /**
   * With the timer armed at rest, a frame moves the state at most one step
   * round the cycle: a hover into Opening or Closing finds the timer
   * positive, so the countdown only runs it down.
   */
  lemma FlipStepNeverSkips(f: Flip, p: Point, dt: real)
    requires FlipRest(f)
    ensures FlipStep(f, p, dt).0.state == f.state || FlipStep(f, p, dt).0.state == Advance(f.state)
  {
    var h := Hover(f, p).0;
    HoverMoves(f, p);
    CountdownMoves(h, dt);
    if h.state != f.state {
      assert h.timer == CAM_TIMER_INIT;
    }
  }

  /**
   * The reset on entering the game as the source writes it: the state only.
   * It agrees with the intended reset exactly when the timer is armed.
   */
  function ResetAsWritten(f: Flip): (r: Flip)
    ensures r.state == Closed && r.timer == f.timer && r.hovering == f.hovering
    ensures r == Reset(f) <==> f.timer == CAM_TIMER_INIT
  {
    f.(state := Closed)
  }

  /** The reset as intended: Closed with the timer armed. */
  function Reset(f: Flip): (r: Flip)
    ensures r.state == Closed && r.hovering == f.hovering
    ensures FlipRest(r)
  {
    Flip(Closed, CAM_TIMER_INIT, f.hovering)
  }

  /**
   * Leaving the game while the monitor is Opening with its timer run out,
   * and coming back, leaves Closed with a spent timer; the next hover then
   * goes from Closed straight to Opened in one frame, skipping Opening.
   */
  lemma ResetAsWrittenSkipsOpening()
    ensures var f1 := FlipStep(Flip(Closed, CAM_TIMER_INIT, false), Point(400, 700), 0.4).0;
      && f1 == Flip(Opening, -0.05, true)
      && ResetAsWritten(f1) == Flip(Closed, -0.05, true)
      && FlipStep(ResetAsWritten(f1), Point(400, 600), 0.02).0 == Flip(Closed, -0.05, false)
      && FlipStep(Flip(Closed, -0.05, false), Point(400, 700), 0.02).0.state == Opened
      && Advance(Closed) != Opened
  {
    assert InsideBox(Point(400, 700), BAR_BOX, 0);
    assert !InsideBox(Point(400, 600), BAR_BOX, 0);
  }

  /** With the intended reset the same sequence opens the monitor one step at a time. */
  lemma ResetKeepsSteps(f: Flip, p: Point, dt: real)
    ensures FlipStep(Reset(f), p, dt).0.state == Closed || FlipStep(Reset(f), p, dt).0.state == Opening
  {
    FlipStepNeverSkips(Reset(f), p, dt);
  }

  /** The centres of the map buttons, in camera order. */
  const CAMERA_BUTTON_POSITIONS: seq<Point> := [
    Point(983, 353), Point(963, 409), Point(931, 487), Point(983, 603), Point(983, 643), Point(899, 585),
    Point(1089, 604), Point(1089, 644), Point(857, 436), Point(1186, 568), Point(1195, 437)]

  const CAMERA_COUNT: nat := 11

  /** A camera button's hit box: 60 by 40, its position less (29, 19). */
  function CameraBox(i: nat): Box
    requires i < CAMERA_COUNT
  {
    var c := CAMERA_BUTTON_POSITIONS[i];
    Box(c.x - 29, c.y - 19, 60, 40)
  }

  predicate CameraHit(p: Point, i: nat)
    requires i < CAMERA_COUNT
  {
    InsideBox(p, CameraBox(i), 0)
  }

  /** The number of camera buttons among the first `n` that the cursor is on. */
  function HitCount(p: Point, n: nat): nat
    requires n <= CAMERA_COUNT
  {
    if n == 0 then 0 else HitCount(p, n - 1) + (if CameraHit(p, n - 1) then 1 else 0)
  }

  /**
   * The selection loop after its first `n` buttons: each button hit selects
   * its camera and plays the blip, so the last one hit wins and there is
   * one blip per button hit.
   */
  function SelectUpTo(selected: nat, p: Point, n: nat): (r: (nat, seq<Cue>))
    requires n <= CAMERA_COUNT
    ensures (exists i :: 0 <= i < n && CameraHit(p, i))
        ==> r.0 < n && CameraHit(p, r.0) && forall j :: r.0 < j < n ==> !CameraHit(p, j)
    ensures (forall i :: 0 <= i < n ==> !CameraHit(p, i)) ==> r.0 == selected && r.1 == []
    ensures forall c :: c in r.1 ==> c == Play(BlipSound)
    ensures |r.1| == HitCount(p, n)
  {
    if n == 0 then (selected, [])
    else
      var (s, cues) := SelectUpTo(selected, p, n - 1);
      if CameraHit(p, n - 1) then (n - 1, cues + [Play(BlipSound)]) else (s, cues)
  }

  /** No two camera buttons overlap, so a click hits at most one. */
  lemma CameraBoxesDisjoint(p: Point, i: nat, j: nat)
    requires i < j < CAMERA_COUNT
    ensures !(CameraHit(p, i) && CameraHit(p, j))
  {
  }

  /** With the buttons apart, at most one is hit, and none exactly when no button below `n` is. */
  lemma {:induction false} HitCountAtMostOne(p: Point, n: nat)
    requires n <= CAMERA_COUNT
    ensures HitCount(p, n) <= 1
    ensures HitCount(p, n) == 0 <==> forall i :: 0 <= i < n ==> !CameraHit(p, i)
  {
    if n > 0 {
      HitCountAtMostOne(p, n - 1);
      if CameraHit(p, n - 1) {
        forall i | 0 <= i < n - 1
          ensures !CameraHit(p, i)
        {
          CameraBoxesDisjoint(p, i, n - 1);
        }
      }
    }
  }

  /** A click on the map plays exactly one blip if it hits a camera button and none otherwise. */
  lemma SelectOneBlip(selected: nat, p: Point)
    ensures var cues := SelectUpTo(selected, p, CAMERA_COUNT).1;
      (cues == [Play(BlipSound)] <==> exists i :: 0 <= i < CAMERA_COUNT && CameraHit(p, i))
      && (cues == [] <==> forall i :: 0 <= i < CAMERA_COUNT ==> !CameraHit(p, i))
  {
    HitCountAtMostOne(p, CAMERA_COUNT);
    var cues := SelectUpTo(selected, p, CAMERA_COUNT).1;
    if |cues| == 1 {
      assert cues[0] in cues;
    }
  }

  /** A click on the map keeps the selection a valid camera number. */
  lemma SelectInRange(selected: nat, p: Point)
    requires selected < CAMERA_COUNT
    ensures SelectUpTo(selected, p, CAMERA_COUNT).0 < CAMERA_COUNT
  {
  }
}
