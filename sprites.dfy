/**
 * The frame numbers the game screen passes to `sprite_draw` (src/main.c,
 * lines 733-855), each against the number of frames its strip is loaded
 * with in src/assets.c.
 */
module Sprites {
  import opened Helpers
  import opened Register
  import opened Camera
  import opened Clock

  const DOOR_STRIP_FRAMES: nat := 15
  const DOOR_BUTTON_FRAMES: nat := 4
  const OFFICE_VIEW_FRAMES: nat := 5
  const FAN_STRIP_FRAMES: nat := 3
  const CAMERA_VIEW_FRAMES: nat := 85
  const POWER_USAGE_FRAMES: nat := 4
  const POWER_DIGIT_FRAMES: nat := 10
  const HOUR_FRAMES: nat := 6
  const FLIP_STRIP_FRAMES: nat := 11
  const NIGHT_NUMBER_FRAMES: nat := 7

  /** A door's frame: its timer halved and converted to a byte. */
  function DoorFrame(timer: real): (n: int)
    requires 0.0 <= timer <= 28.0
    ensures 0 <= n < DOOR_STRIP_FRAMES as int
  {
    Trunc(timer / 2.0)
  }

  /** A door button's frame: the side's two bits, light as 1 and door as 2. */
  function DoorButtonFrame(flags: bv8, side: Side): (n: nat)
    ensures n < DOOR_BUTTON_FRAMES
    ensures n == (if LightOn(flags, side) then 1 else 0) + (if DoorClosed(flags, side) then 2 else 0)
  {
    (SideBits(flags, side) & 0x3) as nat
  }

  /**
   * The office picture's frame, drawn while the monitor is not Opened: the
   * dark office, or the lit door of a side whose light is on and showing.
   */
  function OfficeViewFrame(flags: bv8, flicker: nat): (n: nat)
    ensures n < OFFICE_VIEW_FRAMES
    ensures n == 0 || (n <= 2 && flicker > 1 && LightOn(flags, n - 1))
    ensures n == 0 <== flicker <= 1 || (!LightOn(flags, 0) && !LightOn(flags, 1))
  {
    assert ViewUpTo(flags, flicker, 1) == if LightOn(flags, 0) && flicker > 1 then 1 else 0;
    OfficeView(flags, flicker)
  }

  /** The fan's frame: its counter converted to a byte. */
  function FanFrame(counter: real): (n: int)
    requires 0.0 <= counter < 3.0
    ensures 0 <= n < FAN_STRIP_FRAMES as int
  {
    Trunc(counter)
  }

  /** The first frame of each camera's pictures in the camera strip. */
  const CAMERA_FRAME_OFFSETS: seq<nat> := [0, 7, 13, 18, 54, 60, 62, 68, 77, 0, 81]

  /** The camera whose picture is not drawn (its feed is shown as disabled). */
  const DISABLED_CAMERA: nat := 9

  /**
   * The camera picture's frame: the camera's offset plus one when the
   * product of the "flicker at most 3" flag and the camera number equals 3.
   * Camera 9 has no picture.
   */
  function CameraViewFrame(selected: nat, flicker: nat): (r: Option<nat>)
    requires selected < CAMERA_COUNT
    ensures r.None? <==> selected == DISABLED_CAMERA
    ensures r.Some? ==> r.value < CAMERA_VIEW_FRAMES
    ensures r.Some? ==> r.value == CAMERA_FRAME_OFFSETS[selected] + (if flicker <= 3 && selected == 3 then 1 else 0)
  {
    if selected == DISABLED_CAMERA then None
    else Some(CAMERA_FRAME_OFFSETS[selected] + (if (if flicker <= 3 then 1 else 0) * selected == 3 then 1 else 0))
  }

  /** The usage meter's frame, below four under the register invariants. */
  function UsageFrame(flags: bv8, cameraOpen: bool): (n: nat)
    requires AtMostOneLight(flags) && (cameraOpen ==> NoLights(flags))
    ensures n < POWER_USAGE_FRAMES
  {
    UsageAtMostThree(flags, cameraOpen);
    Usage(flags, cameraOpen)
  }

  /**
   * The hour's frame: before 1 AM the "12" is drawn from frames 0 and 1;
   * from then on the single frame is the hour converted to a byte, less one.
   * It stays in the six-frame strip for every hour below 7.
   */
  function HourFrame(hour: real): (r: Option<int>)
    requires 0.0 <= hour
    ensures r.None? <==> hour < 1.0
    ensures r.Some? && hour < 7.0 ==> 0 <= r.value < HOUR_FRAMES as int
  {
    if hour < 1.0 then None else Some(Trunc(hour) - 1)
  }

  /** C's conversion of a number to a byte, taken here to wrap modulo 256. */
  function ToByte(n: int): (b: nat)
    ensures b < 256
    ensures 0 <= n < 256 ==> b == n
  {
    n % 256
  }

  /** The number of power digits drawn: two from 10 up, one below. */
  function PowerDigitCount(power: real): nat
  {
    (if power >= 10.0 then 1 else 0) + 1
  }

  /** The `i`-th power digit from the right: the power over 10 to the `i`, as a byte, modulo 10. */
  function PowerDigit(power: real, i: nat): (d: nat)
    requires i < 2
    ensures d < POWER_DIGIT_FRAMES
  {
    ToByte(Trunc(power / (if i == 0 then 1.0 else 10.0))) % 10
  }

  /** On a meter in [0, 100) the two digits drawn are the units and tens of the whole percentage. */
  lemma PowerDigitsAreDecimal(power: real)
    requires 0.0 <= power < 100.0
    ensures PowerDigit(power, 0) == Trunc(power) % 10
    ensures PowerDigit(power, 1) == Trunc(power) / 10
    ensures PowerDigitCount(power) == 2 <==> Trunc(power) >= 10
  {
    var n := Trunc(power);
    var q := n / 10;
    assert 10 * q <= n < 10 * q + 10;
    assert q as real <= power / 10.0 < q as real + 1.0;
    assert Trunc(power / 10.0) == q;
  }

  /**
   * The night number's frame: the night counter less one. It lies in the
   * seven-frame strip exactly for nights 1 to 7; the counter starts at 1
   * and every entry into the game raises it, so from the seventh entry on
   * the frame is past the strip.
   */
  function NightFrame(number: nat): (n: int)
    requires number < 256
    ensures 0 <= n < NIGHT_NUMBER_FRAMES as int <==> 1 <= number <= NIGHT_NUMBER_FRAMES
    ensures n < 0 <==> number == 0
  {
    number - 1
  }

  /**
   * The flip animation's frame while Opening or Closing: ten times the
   * fraction of the timer left, counted up for Opening and down for Closing,
   * clamped to [0, 10].
   */
  function FlipFrame(state: CamState, timer: real): (n: int)
    ensures 0 <= n < FLIP_STRIP_FRAMES as int
  {
    var opening := if state == Opening then 10.0 else 0.0;
    var x := opening - (timer * (1.0 / CAM_TIMER_INIT)) * 10.0;
    var c := Clampf(if x < 0.0 then -x else x, 0.0, 10.0);
    TruncOfInt(10);
    Trunc(c)
  }

  /** Opening starts at frame 0 and Closing at frame 10 when the timer is freshly armed. */
  lemma FlipFrameEnds()
    ensures FlipFrame(Opening, CAM_TIMER_INIT) == 0
    ensures FlipFrame(Closing, CAM_TIMER_INIT) == 10
  {
    TruncOfInt(0);
    TruncOfInt(10);
  }
}
