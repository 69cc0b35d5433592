/**
 * The sound calls the frame logic makes (`sound_play`, `sound_stop`,
 * `sound_set_gain` of src/sound.c), recorded as a log of cues in the order
 * the frame issues them. OpenAL itself is not part of this model.
 */
module Audio {

  datatype Sound =
    | FanSound
    | LightSound
    | DoorSound
    | CameraOpenSound
    | CameraCloseSound
    | CameraScanSound
    | BlipSound
    | StaticSound
    | TitleMusic
    | FreddyNoseSound

  datatype Cue =
    | Play(sound: Sound)
    | Stop(sound: Sound)
    | SetGain(sound: Sound, gain: real)

  /** How many times `c` occurs in the log. */
  function Count(cues: seq<Cue>, c: Cue): (n: nat)
    ensures n <= |cues|
    ensures n == 0 <==> c !in cues
  {
    if cues == [] then 0
    else Count(cues[1..], c) + (if cues[0] == c then 1 else 0)
  }

  /** Counting over a log made of two parts adds the counts of the parts. */
  lemma {:induction false} CountAppend(a: seq<Cue>, b: seq<Cue>, c: Cue)
    ensures Count(a + b, c) == Count(a, c) + Count(b, c)
  {
    if a == [] {
      assert a + b == b;
    } else {
      assert (a + b)[1..] == a[1..] + b;
      CountAppend(a[1..], b, c);
    }
  }
}
