/**
 * The door/light register `door_button_flags` of src/main.c: one byte whose
 * low four bits are light A (0x1), door A (0x2), light B (0x4) and door B
 * (0x8). Side 0 is the left side (A), side 1 the right side (B); a side's bits
 * are the side-0 bits shifted left by twice the side number.
 */
module Register {

  const LIGHT_FLAG: bv8 := 0x1
  const DOOR_FLAG: bv8 := 0x2
  const BOTH_DOORS_FLAG: bv8 := 0xA

  /** The two sides of the office; the source loops `for i < 2`. */
  type Side = s: nat | s < 2

  /** A side's bits are the side-0 bits shifted left by `2 * side`, that is by 0 or 2. */
  function LightMask(side: Side): (m: bv8)
    ensures m == (if side == 0 then 0x1 else 0x4)
  {
    if side == 0 then LIGHT_FLAG else LIGHT_FLAG << 2
  }

  function DoorMask(side: Side): (m: bv8)
    ensures m == (if side == 0 then 0x2 else 0x8)
    ensures m >> 1 == LightMask(side)
  {
    if side == 0 then DOOR_FLAG else DOOR_FLAG << 2
  }

  /** The register shifted right by `2 * side`, so that the side's bits are the two lowest. */
  function SideBits(flags: bv8, side: Side): bv8
  {
    if side == 0 then flags else flags >> 2
  }

  predicate LightOn(flags: bv8, side: Side)
  {
    flags & LightMask(side) != 0
  }

  predicate DoorClosed(flags: bv8, side: Side)
  {
    flags & DoorMask(side) != 0
  }

  /** Only the four low bits are ever set. */
  predicate WellFormed(flags: bv8)
  {
    flags & 0xF0 == 0
  }

  predicate AtMostOneLight(flags: bv8)
  {
    !(LightOn(flags, 0) && LightOn(flags, 1))
  }

  predicate NoLights(flags: bv8)
  {
    !LightOn(flags, 0) && !LightOn(flags, 1)
  }

  /** What one side adds to the usage meter: its light bit plus one if its door bit is set. */
  function SideUsage(flags: bv8, side: Side): (u: nat)
    ensures u == (if LightOn(flags, side) then 1 else 0) + (if DoorClosed(flags, side) then 1 else 0)
  {
    (SideBits(flags, side) & 0x1) as nat + (if SideBits(flags, side) & 0x2 > 0 then 1 else 0)
  }

  /** The usage loop after its first `n` sides. */
  function UsageUpTo(flags: bv8, n: nat): nat
    requires n <= 2
  {
    if n == 0 then 0 else UsageUpTo(flags, n - 1) + SideUsage(flags, n - 1)
  }

  /** power_usage_value: both sides, plus one while the camera is Opened. */
  function Usage(flags: bv8, cameraOpen: bool): nat
  {
    UsageUpTo(flags, 2) + (if cameraOpen then 1 else 0)
  }

  lemma UsageBothSides(flags: bv8)
    ensures UsageUpTo(flags, 2) == SideUsage(flags, 0) + SideUsage(flags, 1)
  {
    assert UsageUpTo(flags, 1) == SideUsage(flags, 0);
  }

  /** The number of set bits among the low `n` bits: an independent count to compare with. */
  function PopCount(flags: bv8, n: nat): nat
    requires n <= 8
  {
    if n == 0 then 0
    else PopCount(flags, n - 1) + (if flags & BITS[n - 1] != 0 then 1 else 0)
  }

  /** The eight single-bit masks, lowest first. */
  const BITS: seq<bv8> := [0x1, 0x2, 0x4, 0x8, 0x10, 0x20, 0x40, 0x80]

  /** The usage meter is the number of set bits of the register, plus one while the camera is Opened. */
  lemma UsageIsPopCount(flags: bv8, cameraOpen: bool)
    ensures Usage(flags, cameraOpen) == PopCount(flags, 4) + (if cameraOpen then 1 else 0)
  {
    UsageBothSides(flags);
    assert PopCount(flags, 1) == (if flags & 1 != 0 then 1 else 0);
    assert PopCount(flags, 2) == PopCount(flags, 1) + (if flags & 2 != 0 then 1 else 0);
    assert PopCount(flags, 3) == PopCount(flags, 2) + (if flags & 4 != 0 then 1 else 0);
    assert PopCount(flags, 4) == PopCount(flags, 3) + (if flags & 8 != 0 then 1 else 0);
  }

  /**
   * With at most one light on, and no light at all while the camera is
   * Opened, the meter reads at most 3.
   */
  lemma UsageAtMostThree(flags: bv8, cameraOpen: bool)
    requires AtMostOneLight(flags)
    requires cameraOpen ==> NoLights(flags)
    ensures Usage(flags, cameraOpen) <= 3
  {
    UsageBothSides(flags);
  }

  /** Masking with BOTH_DOORS_FLAG clears both lights and keeps both doors. */
  lemma BothDoorsMask(flags: bv8)
    ensures NoLights(flags & BOTH_DOORS_FLAG)
    ensures forall side: Side :: DoorClosed(flags & BOTH_DOORS_FLAG, side) == DoorClosed(flags, side)
    ensures WellFormed(flags & BOTH_DOORS_FLAG)
  {
  }

  /**
   * One side's click: the door bit is XORed in when the door button acts,
   * then the light mask (the door mask shifted right once) times the light
   * button's hit flag.
   */
  function ToggleSide(flags: bv8, side: Side, doorHit: bool, lightHit: bool): bv8
  {
    var withDoor := if doorHit then flags ^ DoorMask(side) else flags;
    withDoor ^ ((DoorMask(side) >> 1) * (if lightHit then 1 else 0))
  }

  /** A side's click flips exactly the bits whose buttons acted, and only on that side. */
  lemma ToggleSideBits(flags: bv8, side: Side, doorHit: bool, lightHit: bool)
    ensures DoorClosed(ToggleSide(flags, side, doorHit, lightHit), side) == (DoorClosed(flags, side) != doorHit)
    ensures LightOn(ToggleSide(flags, side, doorHit, lightHit), side) == (LightOn(flags, side) != lightHit)
    ensures DoorClosed(ToggleSide(flags, side, doorHit, lightHit), 1 - side) == DoorClosed(flags, 1 - side)
    ensures LightOn(ToggleSide(flags, side, doorHit, lightHit), 1 - side) == LightOn(flags, 1 - side)
    ensures WellFormed(flags) ==> WellFormed(ToggleSide(flags, side, doorHit, lightHit))
  {
    if side == 0 {
      assert DoorMask(0) == 2 && LightMask(0) == 1 && DoorMask(1) == 8 && LightMask(1) == 4;
    } else {
      assert DoorMask(1) == 8 && LightMask(1) == 4 && DoorMask(0) == 2 && LightMask(0) == 1;
    }
  }

  /** Both sides' clicks in loop order: each bit flips exactly when its own button acted. */
  lemma ToggleBothBits(flags: bv8, door0: bool, light0: bool, door1: bool, light1: bool)
    ensures var f := ToggleSide(ToggleSide(flags, 0, door0, light0), 1, door1, light1);
      && DoorClosed(f, 0) == (DoorClosed(flags, 0) != door0)
      && LightOn(f, 0) == (LightOn(flags, 0) != light0)
      && DoorClosed(f, 1) == (DoorClosed(flags, 1) != door1)
      && LightOn(f, 1) == (LightOn(flags, 1) != light1)
      && (WellFormed(flags) ==> WellFormed(f))
  {
    ToggleSideBits(flags, 0, door0, light0);
    ToggleSideBits(ToggleSide(flags, 0, door0, light0), 1, door1, light1);
  }

  /**
   * The pass after every fresh click: a light that is on now while the
   * other one was on before the click turns the other one off, light A
   * checked first. The pass never touches a door bit and sets no new bit.
   */
  function ResolveLights(flags: bv8, before: bv8): (r: bv8)
    ensures forall side: Side :: DoorClosed(r, side) == DoorClosed(flags, side)
    ensures forall side: Side :: LightOn(r, side) ==> LightOn(flags, side)
    ensures WellFormed(flags) ==> WellFormed(r)
  {
    assert LightMask(0) == 1 && LightMask(1) == 4 && DoorMask(0) == 2 && DoorMask(1) == 8;
    var f := if flags & LIGHT_FLAG != 0 && before & (LIGHT_FLAG << 2) != 0 then flags & !(LIGHT_FLAG << 2) else flags;
    if f & (LIGHT_FLAG << 2) != 0 && before & LIGHT_FLAG != 0 then f & !LIGHT_FLAG else f
  }

  /**
   * If at most one light was on before the click and the click flipped at
   * most one light bit, at most one light is on after the pass.
   */
  lemma ResolveOneLight(flags: bv8, before: bv8)
    requires AtMostOneLight(before)
    requires LightOn(flags, 0) == LightOn(before, 0) || LightOn(flags, 1) == LightOn(before, 1)
    ensures AtMostOneLight(ResolveLights(flags, before))
  {
    assert LightMask(0) == 1 && LightMask(1) == 4;
  }

  /** A light that the click turned on stays on, and the other one goes off. */
  lemma ResolveNewlyLit(flags: bv8, before: bv8, side: Side)
    requires AtMostOneLight(before)
    requires LightOn(flags, 1 - side) == LightOn(before, 1 - side)
    requires LightOn(flags, side) && !LightOn(before, side)
    ensures LightOn(ResolveLights(flags, before), side)
    ensures !LightOn(ResolveLights(flags, before), 1 - side)
  {
    assert LightMask(0) == 1 && LightMask(1) == 4;
    if side == 0 {
      assert flags & 1 != 0 && before & 1 == 0;
    } else {
      assert flags & 4 != 0 && before & 4 == 0;
    }
  }

  /** With no light flipped, the pass changes nothing. */
  lemma ResolveIdle(flags: bv8, before: bv8)
    requires AtMostOneLight(before)
    requires LightOn(flags, 0) == LightOn(before, 0) && LightOn(flags, 1) == LightOn(before, 1)
    ensures ResolveLights(flags, before) == flags
  {
    assert LightMask(0) == 1 && LightMask(1) == 4;
  }
}
