/**
 * The office doors: the two door animation timers (src/main.c:351-358) and
 * the click handling on the door, light and nose buttons while the camera is
 * down (src/main.c:643-665), with the final pass that keeps at most one light
 * on (src/main.c:689-700).
 */
module Doors {
  import opened Helpers
  import opened Register
  import opened Audio

  /** The last frame of the door strip is reached at 28 ticks. */
  const DOOR_TIMER_MAX: real := 28.0

  /**
   * One side's timer for one frame: up by `ticks` while its door bit is set,
   * down otherwise, clamped to [0, 28].
   */
  function TimerStep(timer: real, doorClosed: bool, ticks: real): (r: real)
    ensures 0.0 <= r <= DOOR_TIMER_MAX
    ensures 0.0 <= timer && 0.0 <= ticks && doorClosed
         ==> r == (if timer + ticks < DOOR_TIMER_MAX then timer + ticks else DOOR_TIMER_MAX)
    ensures timer <= DOOR_TIMER_MAX && 0.0 <= ticks && !doorClosed
         ==> r == (if 0.0 < timer - ticks then timer - ticks else 0.0)
  {
    Clampf(if doorClosed then timer + ticks else timer - ticks, 0.0, DOOR_TIMER_MAX)
  }

  /** A timer moves toward the end its door bit selects, never away from it. */
  lemma TimerStepDirection(timer: real, doorClosed: bool, ticks: real)
    requires 0.0 <= timer <= DOOR_TIMER_MAX && 0.0 <= ticks
    ensures doorClosed ==> timer <= TimerStep(timer, doorClosed, ticks)
    ensures !doorClosed ==> TimerStep(timer, doorClosed, ticks) <= timer
  {
  }

  /** Both timers, each driven by its own side's door bit. */
  function TimersStep(timers: seq<real>, flags: bv8, ticks: real): seq<real>
    requires |timers| == 2
  {
    [TimerStep(timers[0], DoorClosed(flags, 0), ticks), TimerStep(timers[1], DoorClosed(flags, 1), ticks)]
  }

  /**
   * A door may be toggled only while its animation is at rest: the timer,
   * converted to a byte, is 0 or 28.
   */
  predicate AtRest(timer: real)
  {
    Trunc(timer) == 0 || Trunc(timer) == 28
  }

  /** Inside the timer range, "at rest" is the whole interval [0, 1) plus the single value 28. */
  lemma AtRestIff(timer: real)
    requires 0.0 <= timer <= DOOR_TIMER_MAX
    ensures AtRest(timer) <==> timer < 1.0 || timer == DOOR_TIMER_MAX
  {
    if timer < 1.0 {
      assert Trunc(timer) == 0;
    } else if timer < DOOR_TIMER_MAX {
      assert 1 <= Trunc(timer) < 28;
    } else {
      TruncOfInt(28);
    }
  }

  /** The four office buttons: door A, door B, light A, light B. */
  const BUTTON_BOXES: seq<Box> := [Box(27, 251, 62, 120), Box(1519, 267, 62, 120), Box(25, 393, 62, 120), Box(1519, 398, 62, 120)]

  const NOSE_BOX: Box := Box(674, 236, 8, 8)

  function DoorBox(side: Side): Box
  {
    BUTTON_BOXES[side]
  }

  function LightBox(side: Side): Box
  {
    BUTTON_BOXES[side + 2]
  }

  /** The door button of `side` is hit and may act. */
  predicate DoorHit(timer: real, p: Point, offset: int, side: Side)
  {
    AtRest(timer) && InsideBox(p, DoorBox(side), offset)
  }

  /** The door sound, once, when the door button acts. */
  function DoorCues(timer: real, p: Point, offset: int, side: Side): seq<Cue>
  {
    if DoorHit(timer, p, offset, side) then [Play(DoorSound)] else []
  }

  /** Pressing the nose restarts its squeak. */
  function NoseCues(p: Point, offset: int): seq<Cue>
  {
    if InsideBox(p, NOSE_BOX, offset) then [Stop(FreddyNoseSound), Play(FreddyNoseSound)] else []
  }

  /**
   * One iteration of the button loop: the door bit flips (with the door
   * sound) when hit at rest, then the light bit is XORed with the light mask
   * times the hit flag.
   */
  function PressSide(flags: bv8, timer: real, p: Point, offset: int, side: Side): (bv8, seq<Cue>)
  {
    (ToggleSide(flags, side, DoorHit(timer, p, offset, side), InsideBox(p, LightBox(side), offset)),
     DoorCues(timer, p, offset, side))
  }

  /** The button loop after its first `n` sides. */
  function PressSides(flags: bv8, timers: seq<real>, p: Point, offset: int, n: nat): (bv8, seq<Cue>)
    requires |timers| == 2 && n <= 2
  {
    if n == 0 then (flags, [])
    else
      var (f, cues) := PressSides(flags, timers, p, offset, n - 1);
      var (f', more) := PressSide(f, timers[n - 1], p, offset, n - 1);
      (f', cues + more)
  }

  /** One more side of the button loop. */
  lemma PressSidesNext(flags: bv8, timers: seq<real>, p: Point, offset: int, n: nat)
    requires |timers| == 2 && n < 2
    ensures PressSides(flags, timers, p, offset, n + 1)
         == (ToggleSide(PressSides(flags, timers, p, offset, n).0, n, DoorHit(timers[n], p, offset, n), InsideBox(p, LightBox(n), offset)),
             PressSides(flags, timers, p, offset, n).1 + DoorCues(timers[n], p, offset, n))
  {
  }

  /** The register after the button loop: side 0's buttons, then side 1's. */
  lemma PressSidesFlags(flags: bv8, timers: seq<real>, p: Point, offset: int)
    requires |timers| == 2
    ensures PressSides(flags, timers, p, offset, 2).0
         == ToggleSide(ToggleSide(flags, 0, DoorHit(timers[0], p, offset, 0), InsideBox(p, LightBox(0), offset)),
                       1, DoorHit(timers[1], p, offset, 1), InsideBox(p, LightBox(1), offset))
  {
    assert PressSides(flags, timers, p, offset, 1).0 == PressSide(flags, timers[0], p, offset, 0).0;
  }

  /** Each bit of the register after the button loop, side by side. */
  lemma PressSidesBits(flags: bv8, timers: seq<real>, p: Point, offset: int)
    requires |timers| == 2
    ensures var f := PressSides(flags, timers, p, offset, 2).0;
      && (forall side: Side :: DoorClosed(f, side) == (DoorClosed(flags, side) != DoorHit(timers[side], p, offset, side)))
      && (forall side: Side :: LightOn(f, side) == (LightOn(flags, side) != InsideBox(p, LightBox(side), offset)))
      && (WellFormed(flags) ==> WellFormed(f))
  {
    var d0, l0 := DoorHit(timers[0], p, offset, 0), InsideBox(p, LightBox(0), offset);
    var d1, l1 := DoorHit(timers[1], p, offset, 1), InsideBox(p, LightBox(1), offset);
    PressSidesFlags(flags, timers, p, offset);
    ToggleBothBits(flags, d0, l0, d1, l1);
    var f := PressSides(flags, timers, p, offset, 2).0;
    forall side: Side
      ensures DoorClosed(f, side) == (DoorClosed(flags, side) != DoorHit(timers[side], p, offset, side))
      ensures LightOn(f, side) == (LightOn(flags, side) != InsideBox(p, LightBox(side), offset))
    {
      if side == 0 {
      } else {
      }
    }
  }

  /**
   * Both sides, then the nose, which restarts its squeak. A click flips a
   * door bit exactly when that door's button is hit at rest, flips a light
   * bit exactly when that light's button is hit, and sets no bit outside
   * the register.
   */
  function PressOffice(flags: bv8, timers: seq<real>, p: Point, offset: int): (r: (bv8, seq<Cue>))
    requires |timers| == 2
    ensures forall side: Side :: DoorClosed(r.0, side) == (DoorClosed(flags, side) != DoorHit(timers[side], p, offset, side))
    ensures forall side: Side :: LightOn(r.0, side) == (LightOn(flags, side) != InsideBox(p, LightBox(side), offset))
    ensures WellFormed(flags) ==> WellFormed(r.0)
  {
    PressSidesBits(flags, timers, p, offset);
    var (f, cues) := PressSides(flags, timers, p, offset, 2);
    (f, cues + NoseCues(p, offset))
  }

  /** The light buttons lie far apart horizontally: no cursor is inside both. */
  lemma LightBoxesDisjoint(p: Point, offset: int)
    ensures !(InsideBox(p, LightBox(0), offset) && InsideBox(p, LightBox(1), offset))
  {
  }

  /** Each door that flips plays the door sound once, and nothing else plays it. */
  lemma PressOfficeDoorSounds(flags: bv8, timers: seq<real>, p: Point, offset: int)
    requires |timers| == 2
    ensures Count(PressOffice(flags, timers, p, offset).1, Play(DoorSound))
         == (if DoorHit(timers[0], p, offset, 0) then 1 else 0) + (if DoorHit(timers[1], p, offset, 1) then 1 else 0)
  {
    var c0, c1 := DoorCues(timers[0], p, offset, 0), DoorCues(timers[1], p, offset, 1);
    assert PressOffice(flags, timers, p, offset).1 == (c0 + c1) + NoseCues(p, offset) by {
      assert PressSides(flags, timers, p, offset, 1).1 == [] + c0;
      assert [] + c0 == c0;
    }
    CountAppend(c0, c1, Play(DoorSound));
    CountAppend(c0 + c1, NoseCues(p, offset), Play(DoorSound));
    assert Count(NoseCues(p, offset), Play(DoorSound)) == 0;
  }

  /** A click in the office keeps the at-most-one-light invariant. */
  lemma PressOfficeOneLight(flags: bv8, timers: seq<real>, p: Point, offset: int)
    requires |timers| == 2 && AtMostOneLight(flags)
    ensures AtMostOneLight(ResolveLights(PressOffice(flags, timers, p, offset).0, flags))
  {
    LightBoxesDisjoint(p, offset);
    ResolveOneLight(PressOffice(flags, timers, p, offset).0, flags);
  }
}
