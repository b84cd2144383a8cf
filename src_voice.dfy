/**
  * The voice of the older revision (src/voice.hh and src/voice.cc): a
  * `used` flag instead of a state machine, and a `process` loop that keeps
  * advancing the position for the whole block even after the voice has run
  * out of sample or envelope.
  */
module SrcVoice {
  import opened SfzRegion
  import opened SampleWindow
  import opened VoicePlayback

  /** The fields of `struct Voice` that `process` and the synth use. */
  datatype Voice = Voice(
    sampleRate: int,
    channel: int, key: int, velocity: int,
    used: bool,
    ppos: real,
    leftGain: real, rightGain: real,
    region: Region)

  /** A voice as the struct's default member initialisers leave it: unused at position 0. */
  const NewVoice: Voice := Voice(44100, 0, 0, 0, false, 0.0, 0.0, 0.0, DefaultRegion)

  /** The playback a voice reads in `process`. */
  function PlaybackAt(v: Voice, step: real): Playback
    requires v.region.cachedSample.Some?
  {
    PlaybackOf(v.region, v.region.cachedSample.value, step)
  }

  /**
    * The number of envelope values consumed by the first k frames of a
    * call: a frame takes the next value only when it is played.
    */
  function Consumed(pb: Playback, p0: real, env: seq<real>, k: nat): (c: nat)
    requires ValidPlayback(pb) && p0 >= 0.0
    ensures c <= k && c <= |env|
  {
    if k == 0 then 0
    else
      var c := Consumed(pb, p0, env, k - 1);
      if InSample(pb, PposAt(pb, p0, k - 1)) && c < |env| then c + 1 else c
  }

  /** Frame k is played: its position lies inside the sample and the envelope is not done. */
  predicate Playing(pb: Playback, p0: real, env: seq<real>, k: nat)
    requires ValidPlayback(pb) && p0 >= 0.0
  {
    InSample(pb, PposAt(pb, p0, k)) && Consumed(pb, p0, env, k) < |env|
  }

  /** Every one of the first k frames is played. */
  predicate AllPlaying(pb: Playback, p0: real, env: seq<real>, k: nat)
    requires ValidPlayback(pb) && p0 >= 0.0
  {
    k == 0 || (AllPlaying(pb, p0, env, k - 1) && Playing(pb, p0, env, k - 1))
  }

  /**
    * What frame k of a call leaves in the outputs: a played frame adds its
    * interpolated window with the next envelope value, any other frame
    * leaves them as they were.
    */
  predicate FrameDone(pb: Playback, p0: real, env: seq<real>, gain: real, v: Voice, k: nat, l0: real, l: real, r0: real, r: real)
    requires ValidPlayback(pb) && p0 >= 0.0
  {
    if Playing(pb, p0, env, k) then
      var out := FrameOut(pb, PposAt(pb, p0, k), env[Consumed(pb, p0, env, k)] * gain, v.leftGain, v.rightGain);
      l == l0 + out.0 && r == r0 + out.1
    else
      l == l0 && r == r0
  }

  /** A frame at position p either mixed the envelope value env[c] into the outputs (when played) or kept them. */
  predicate MixedOrKept(pb: Playback, p: real, played: bool, env: seq<real>, c: nat, gain: real, v: Voice,
                        l0: real, l: real, r0: real, r: real)
    requires ValidPlayback(pb) && p >= 0.0
  {
    if played && c < |env| then
      var out := FrameOut(pb, p, env[c] * gain, v.leftGain, v.rightGain);
      l == l0 + out.0 && r == r0 + out.1
    else
      !played && l == l0 && r == r0
  }

  /** The frame of `PlayFrame`, seen at its index in the call. */
  lemma FrameDoneAtIndex(pb: Playback, p0: real, env: seq<real>, gain: real, v: Voice, k: nat, p: real, c: nat,
                         l0: real, l: real, r0: real, r: real)
    requires ValidPlayback(pb) && p0 >= 0.0
    requires p == PposAt(pb, p0, k) && c == Consumed(pb, p0, env, k)
    requires MixedOrKept(pb, p, Playing(pb, p0, env, k), env, c, gain, v, l0, l, r0, r)
    ensures FrameDone(pb, p0, env, gain, v, k, l0, l, r0, r)
  {
  }

  /**
    * `Voice::process` for nframes frames. `env` is the sequence of values
    * the envelope's `get_next` returns until it is done, and `consumed` how
    * many of them this call took. Unlike the later revision the loop does
    * not stop at the first silent frame: the position advances for all
    * nframes frames, and `used` is cleared by any frame that is not played.
    */
  method Process(v: Voice, step: real, gain: real, env: seq<real>, nframes: nat, outLeft: array<real>, outRight: array<real>)
    returns (v': Voice, consumed: nat)
    requires v.region.cachedSample.Some? && ValidPlayback(PlaybackAt(v, step)) && v.ppos >= 0.0
    requires outLeft != outRight && nframes <= outLeft.Length && nframes <= outRight.Length
    modifies outLeft, outRight
    ensures consumed == Consumed(PlaybackAt(v, step), v.ppos, env, nframes)
    ensures v' == v.(used := v.used && AllPlaying(PlaybackAt(v, step), v.ppos, env, nframes),
                     ppos := PposAt(PlaybackAt(v, step), v.ppos, nframes))
    ensures forall k :: 0 <= k < nframes ==>
      FrameDone(PlaybackAt(v, step), v.ppos, env, gain, v, k, old(outLeft[k]), outLeft[k], old(outRight[k]), outRight[k])
    ensures forall k :: nframes <= k < outLeft.Length ==> outLeft[k] == old(outLeft[k])
    ensures forall k :: nframes <= k < outRight.Length ==> outRight[k] == old(outRight[k])
  {
    var pb := PlaybackAt(v, step);
    var ppos := v.ppos;
    var used := v.used;
    consumed := 0;
    var i := 0;
    while i < nframes
      invariant i <= nframes
      invariant ppos == PposAt(pb, v.ppos, i) && consumed == Consumed(pb, v.ppos, env, i)
      invariant used == (v.used && AllPlaying(pb, v.ppos, env, i))
      invariant forall k :: 0 <= k < i ==>
        FrameDone(pb, v.ppos, env, gain, v, k, old(outLeft[k]), outLeft[k], old(outRight[k]), outRight[k])
      invariant forall k :: i <= k < outLeft.Length ==> outLeft[k] == old(outLeft[k])
      invariant forall k :: i <= k < outRight.Length ==> outRight[k] == old(outRight[k])
    {
      var playing;
      ghost var l0, r0 := outLeft[i], outRight[i];
      ghost var c := consumed;
      consumed, playing := PlayFrame(pb, v.ppos, env, gain, v, i, ppos, consumed, outLeft, outRight);
      FrameDoneAtIndex(pb, v.ppos, env, gain, v, i, ppos, c, l0, outLeft[i], r0, outRight[i]);
      ppos := StepPosition(pb, ppos);
      used := used && playing;
      i := i + 1;
    }
    v' := v.(used := used, ppos := ppos);
  }

  /** Frame i of `process`: mix it when it can be played, otherwise leave the outputs alone. */
  method PlayFrame(pb: Playback, p0: real, env: seq<real>, gain: real, v: Voice, i: nat, ppos: real, consumed: nat,
                   outLeft: array<real>, outRight: array<real>)
    returns (consumed': nat, playing: bool)
    requires ValidPlayback(pb) && p0 >= 0.0
    requires ppos == PposAt(pb, p0, i) && consumed == Consumed(pb, p0, env, i)
    requires outLeft != outRight && i < outLeft.Length && i < outRight.Length
    modifies outLeft, outRight
    ensures consumed' == Consumed(pb, p0, env, i + 1)
    ensures playing == Playing(pb, p0, env, i)
    ensures MixedOrKept(pb, ppos, playing, env, consumed, gain, v, old(outLeft[i]), outLeft[i], old(outRight[i]), outRight[i])
    ensures forall k :: 0 <= k < outLeft.Length && k != i ==> outLeft[k] == old(outLeft[k])
    ensures forall k :: 0 <= k < outRight.Length && k != i ==> outRight[k] == old(outRight[k])
  {
    playing := InSample(pb, ppos) && consumed < |env|;
    if playing {
      MixFrame(pb, ppos, env[consumed] * gain, v.leftGain, v.rightGain, outLeft, outRight, i);
      consumed' := consumed + 1;
    } else {
      consumed' := consumed;
    }
  }

  /**
    * While every frame so far was played, each frame took the envelope
    * value with its own index: the older revision and the later one, which
    * stops at the first silent frame, mix the same values into those frames.
    */
  lemma {:induction false} PlayingFramesConsumeInOrder(pb: Playback, p0: real, env: seq<real>, k: nat)
    requires ValidPlayback(pb) && p0 >= 0.0
    requires AllPlaying(pb, p0, env, k)
    ensures Consumed(pb, p0, env, k) == k
  {
    if k > 0 {
      PlayingFramesConsumeInOrder(pb, p0, env, k - 1);
    }
  }

  /** Every frame of a block that was played throughout is played in each shorter block too. */
  lemma {:induction false} AllPlayingPrefix(pb: Playback, p0: real, env: seq<real>, j: nat, k: nat)
    requires ValidPlayback(pb) && p0 >= 0.0
    requires j <= k && AllPlaying(pb, p0, env, k)
    ensures AllPlaying(pb, p0, env, j)
  {
    if j < k {
      AllPlayingPrefix(pb, p0, env, j, k - 1);
    }
  }

  /** Once a frame is not played the voice stays unused for the rest of the block. */
  lemma {:induction false} SilentFrameClearsUsed(pb: Playback, p0: real, env: seq<real>, j: nat, k: nat)
    requires ValidPlayback(pb) && p0 >= 0.0
    requires j < k && !Playing(pb, p0, env, j)
    ensures !AllPlaying(pb, p0, env, k)
  {
    if k > j + 1 {
      SilentFrameClearsUsed(pb, p0, env, j, k - 1);
    }
  }
}
