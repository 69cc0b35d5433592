/**
 * The numeric and hit-test helpers of src/helpers.c.
 *
 * Every float of the source is a Dafny `real`; a C conversion from float to
 * an integer type is `Trunc` (rounding toward zero).
 */
module Helpers {

  datatype Option<T> = None | Some(value: T)

  /** C's conversion of a float to an integer: the fraction is dropped, toward zero. */
  function Trunc(x: real): (n: int)
    ensures 0.0 <= x ==> 0 <= n && 0.0 <= x - n as real < 1.0
    ensures x <= 0.0 ==> n <= 0 && -1.0 < x - n as real <= 0.0
  {
    if x >= 0.0 then x.Floor else -((-x).Floor)
  }

  lemma TruncOfInt(k: int)
    ensures Trunc(k as real) == k
  {
  }

  /**
   * clampf: the branch-free clamp. Each flag is the sign bit of a difference,
   * i.e. `min - x < 0` and `x - max < 0`; the result is the sum of the three
   * guarded terms exactly as the source adds them.
   */
  function Clampf(x: real, min: real, max: real): (r: real)
    ensures min < max ==> min <= r <= max
    ensures min < max && x <= min ==> r == min
    ensures min < max && max <= x ==> r == max
    ensures min <= x <= max && min < max ==> r == x
  {
    var aboveMin := min - x < 0.0;
    var belowMax := x - max < 0.0;
    (if aboveMin && belowMax then x else 0.0)
      + (if aboveMin then 0.0 else min)
      + (if belowMax then 0.0 else max)
  }

  /** Clamping twice is clamping once. */
  lemma ClampfIdempotent(x: real, min: real, max: real)
    requires min < max
    ensures Clampf(Clampf(x, min, max), min, max) == Clampf(x, min, max)
  {
  }

  /** Clampf is monotone in its first argument. */
  lemma ClampfMonotone(x: real, y: real, min: real, max: real)
    requires min < max && x <= y
    ensures Clampf(x, min, max) <= Clampf(y, min, max)
  {
  }

  /** With an empty range that `x` sits on, the formula adds both bounds. */
  lemma ClampfDegenerate(x: real)
    ensures Clampf(x, x, x) == x + x
  {
  }

  /**
   * fmod2: the remainder through a truncating division, `val_scaled` being
   * `val / mod` and the fraction of it scaled back by `mod`. For a positive
   * modulus the result lies in [0, mod) when `val` is not negative, and in
   * (-mod, 0] when it is not positive: the division truncates, so a negative
   * `val` gives a non-positive remainder.
   */
  function Fmod2(val: real, mod: real): (r: real)
    requires mod != 0.0
    ensures 0.0 < mod && 0.0 <= val ==> 0.0 <= r < mod
    ensures 0.0 < mod && val <= 0.0 ==> -mod < r <= 0.0
  {
    var scaled := val / mod;
    var r := (scaled - Trunc(scaled) as real) * mod;
    if 0.0 < mod then
      DivSign(val, mod);
      ScaledFraction(scaled, mod, scaled - Trunc(scaled) as real, r);
      r
    else r
  }

  lemma DivSign(val: real, mod: real)
    requires 0.0 < mod
    ensures 0.0 <= val ==> 0.0 <= val / mod
    ensures val <= 0.0 ==> val / mod <= 0.0
  {
  }

  lemma DivBelowOne(val: real, mod: real)
    requires 0.0 <= val < mod
    ensures val / mod < 1.0
  {
  }

  lemma ScaleFraction(f: real, m: real)
    requires 0.0 < m
    ensures 0.0 <= f < 1.0 ==> 0.0 <= f * m < m
    ensures -1.0 < f <= 0.0 ==> -m < f * m <= 0.0
  {
  }

  /** The fraction of `q` scaled by `m` keeps the sign of `q` and stays below `m` in size. */
  lemma ScaledFraction(q: real, m: real, f: real, r: real)
    requires 0.0 < m && f == q - Trunc(q) as real && r == f * m
    ensures 0.0 <= q ==> 0.0 <= r < m
    ensures q <= 0.0 ==> -m < r <= 0.0
  {
    if 0.0 <= q {
      assert 0.0 <= f < 1.0;
      ScaleFraction(f, m);
    }
    if q <= 0.0 {
      assert -1.0 < f <= 0.0;
      ScaleFraction(f, m);
    }
  }

  /** fmod2 is `val - trunc(val / mod) * mod`. */
  lemma Fmod2Formula(val: real, mod: real)
    requires mod != 0.0
    ensures Fmod2(val, mod) == val - Trunc(val / mod) as real * mod
  {
    var q := val / mod;
    var n := Trunc(q) as real;
    assert q * mod == val;
    assert (q - n) * mod == q * mod - n * mod;
  }

  /** A value already below the modulus is its own remainder. */
  lemma Fmod2Small(val: real, mod: real)
    requires 0.0 <= val < mod
    ensures Fmod2(val, mod) == val
  {
    var q := val / mod;
    DivSign(val, mod);
    DivBelowOne(val, mod);
    assert Trunc(q) == 0;
    assert q * mod == val;
  }

  /** Adding whole multiples of the modulus to a non-negative value changes nothing. */
  lemma Fmod2Periodic(val: real, mod: real, k: nat)
    requires 0.0 <= val && 0.0 < mod
    ensures Fmod2(val + k as real * mod, mod) == Fmod2(val, mod)
  {
    var q := val / mod;
    var q' := (val + k as real * mod) / mod;
    assert q' == q + k as real;
    DivSign(val, mod);
    assert Trunc(q') == Trunc(q) + k;
    assert q' - Trunc(q') as real == q - Trunc(q) as real;
  }

  /** Two and a half periods leave half a period. */
  lemma Fmod2HalfPeriod(mod: real)
    requires 0.0 < mod
    ensures Fmod2(2.5 * mod, mod) == 0.5 * mod
  {
    var q := (2.5 * mod) / mod;
    assert q == 2.5;
    assert Trunc(q) == 2;
  }

  /** The phase advance per second of a blink timer: `percent` per frame at `framerate`, halved. */
  function Rate(percent: real, framerate: real): real
    requires framerate != 0.0
  {
    (percent / (100.0 / framerate)) / 2.0
  }

  /**
   * blink_timer_get_tick: an animation speed given as a percentage per frame
   * at a frame rate, turned into a phase in [0, modMax).
   */
  function BlinkTick(timeNow: real, percent: real, framerate: real, modMax: real): real
    requires framerate != 0.0 && modMax != 0.0
  {
    Fmod2(timeNow * Rate(percent, framerate), modMax)
  }

  /** The rate is `percent * framerate / 200`. */
  lemma BlinkRate(percent: real, framerate: real)
    requires framerate != 0.0
    ensures Rate(percent, framerate) == percent * framerate / 200.0
  {
    var step := 100.0 / framerate;
    assert step * framerate == 100.0;
    var rate := percent / step;
    assert rate * step == percent;
    assert rate * 100.0 == percent * framerate by {
      calc {
        rate * 100.0;
        rate * (step * framerate);
        (rate * step) * framerate;
        percent * framerate;
      }
    }
  }

  lemma ProductNonNegative(a: real, b: real)
    requires 0.0 <= a && 0.0 <= b
    ensures 0.0 <= a * b
  {
  }

  /** From a non-negative time and speed, the tick lies in [0, modMax). */
  lemma BlinkTickRange(timeNow: real, percent: real, framerate: real, modMax: real)
    requires 0.0 <= timeNow && 0.0 <= percent && 0.0 < framerate && 0.0 < modMax
    ensures 0.0 <= BlinkTick(timeNow, percent, framerate, modMax) < modMax
  {
    BlinkRate(percent, framerate);
    ProductNonNegative(percent, framerate);
    ProductNonNegative(timeNow, Rate(percent, framerate));
  }

  /** The title's glitch strip: speed 10 at 60 frames per second over 8 frames gives a frame in 0..7. */
  lemma GlitchFrameInStrip(timeNow: real)
    requires 0.0 <= timeNow
    ensures 0 <= Trunc(BlinkTick(timeNow, 10.0, 60.0, 8.0)) <= 7
  {
    BlinkTickRange(timeNow, 10.0, 60.0, 8.0);
  }

  /** A cursor position in window pixels. */
  datatype Point = Point(x: int, y: int)

  /** A hit box as `{x, y, w, h}`: left edge, top edge, width, height. */
  datatype Box = Box(x: int, y: int, w: int, h: int)

  /**
   * mouse_inside_box: strictly inside the box once it is moved right by
   * `offset`. The bounds are strict, so no point on an edge is inside, and a
   * box one pixel wide or high holds no point at all.
   */
  function InsideBox(p: Point, box: Box, offset: int): (inside: bool)
    ensures inside ==> 2 <= box.w && 2 <= box.h
    ensures inside ==> p.x != box.x + offset && p.x != box.x + box.w + offset && p.y != box.y && p.y != box.y + box.h
  {
    && p.x > box.x + offset
    && p.x < box.x + box.w + offset
    && p.y > box.y
    && p.y < box.y + box.h
  }

  /** The offset moves the box horizontally only: it is the same as moving the cursor left. */
  lemma InsideBoxShift(p: Point, box: Box, offset: int)
    ensures InsideBox(p, box, offset) == InsideBox(Point(p.x - offset, p.y), box, 0)
  {
  }
}
