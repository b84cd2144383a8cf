/**
  * The frame arithmetic shared by both revisions of `Voice::process`: the
  * playback position `ppos` advances by the replay speed each frame and, in a
  * looping mode with loop_end > loop_start, is pulled back by whole loop
  * lengths until it is no longer past the loop end; the frame reads the
  * interpolation window at `uint (ppos) * channels` (an unsigned 32-bit
  * product) and mixes it with the fractional part of the position.
  */
module VoicePlayback {
  import opened SfzRegion
  import opened SampleWindow

  /**
    * What one `process` call reads: the cached sample, the region's loop
    * mode and loop points, and the replay speed `step`.
    */
  datatype Playback = Playback(data: SampleData, loopMode: LoopMode, loopStart: int, loopEnd: int, step: real)

  /** The playback of a region at a given replay speed. */
  function PlaybackOf(r: Region, data: SampleData, step: real): (pb: Playback)
    ensures pb.data == data && pb.step == step
    ensures pb.loopMode == r.loopMode && pb.loopStart == r.loopStart && pb.loopEnd == r.loopEnd
  {
    Playback(data, r.loopMode, r.loopStart, r.loopEnd, step)
  }

  /**
    * What `process` relies on: one or two channels (anything else hits an
    * assertion), interleaved stereo of even length, a non-negative speed,
    * and a loop that starts at a non-negative frame, so that the position
    * stays non-negative and its conversion to an unsigned index is defined.
    */
  predicate ValidPlayback(pb: Playback)
  {
    (pb.data.channels == 1 || pb.data.channels == 2) &&
    (pb.data.channels == 2 ==> |pb.data.samples| % 2 == 0) &&
    pb.step >= 0.0 &&
    (Wraps(pb) ==> pb.loopStart >= 0)
  }

  /**
    * A region a voice can play: its sample is loaded, and played at any
    * speed that is not negative it meets what `process` relies on.
    */
  predicate PlayableRegion(r: Region)
  {
    r.cachedSample.Some? && ValidPlayback(PlaybackOf(r, r.cachedSample.value, 0.0))
  }

  /** Every region whose sample is loaded can be played. */
  predicate RegionsPlayable(regions: seq<Region>)
  {
    forall i :: 0 <= i < |regions| ==> regions[i].cachedSample.Some? ==> PlayableRegion(regions[i])
  }

  /** The position is wrapped only in a looping mode with a non-empty loop. */
  predicate Wraps(pb: Playback)
  {
    Looping(pb.loopMode) && pb.loopEnd > pb.loopStart
  }

  /** `while (ppos_ > loop_end) ppos_ -= (loop_end - loop_start)`. */
  function Wrapped(p: real, loopStart: int, loopEnd: int): (q: real)
    requires loopEnd > loopStart
    ensures q <= loopEnd as real
    ensures q == p || loopStart as real < q
    ensures p <= loopEnd as real ==> q == p
    decreases (p - loopEnd as real).Floor
  {
    if p > loopEnd as real then Wrapped(p - (loopEnd - loopStart) as real, loopStart, loopEnd) else p
  }

  /** The position after one frame. */
  function Advance(pb: Playback, p: real): (q: real)
    ensures ValidPlayback(pb) && p >= 0.0 ==> q >= 0.0
    ensures Wraps(pb) ==> q <= pb.loopEnd as real
    ensures !Wraps(pb) ==> q == p + pb.step
  {
    if Wraps(pb) then Wrapped(p + pb.step, pb.loopStart, pb.loopEnd) else p + pb.step
  }

  /** The position after k frames from p. */
  function PposAt(pb: Playback, p: real, k: nat): (q: real)
    ensures ValidPlayback(pb) && p >= 0.0 ==> q >= 0.0
  {
    if k == 0 then p else Advance(pb, PposAt(pb, p, k - 1))
  }

  /** `uint (ppos_)`: the integer part of a non-negative position. */
  function ReadIndex(p: real): (ii: nat)
    requires p >= 0.0
    ensures ii as real <= p < ii as real + 1.0
  {
    p.Floor
  }

  /**
    * `const uint x = ii * channels`: the offset of the frame at p in the
    * interleaved samples; the unsigned product wraps modulo 2^32.
    */
  function ReadOffset(pb: Playback, p: real): (x: nat)
    requires p >= 0.0
    ensures x < U32
    ensures ReadIndex(p) * pb.data.channels < U32 ==> x == ReadIndex(p) * pb.data.channels
    ensures pb.data.channels == 2 ==> x % 2 == 0
  {
    if pb.data.channels == 2 then
      EvenWrap(ReadIndex(p));
      ToUint(ReadIndex(p) * 2)
    else
      ToUint(ReadIndex(p) * pb.data.channels)
  }

  /** `x < csample->samples.size()`: the frame at p still lies inside the sample. */
  predicate InSample(pb: Playback, p: real)
    requires p >= 0.0
  {
    ReadOffset(pb, p) < |pb.data.samples|
  }

  /** Linear interpolation between two neighbouring samples at the fractional position frac. */
  function Lerp(a: int, b: int, frac: real): (v: real)
    ensures frac == 0.0 ==> v == a as real
    ensures frac == 1.0 ==> v == b as real
    ensures a == b ==> v == a as real
  {
    a as real * (1.0 - frac) + b as real * frac
  }

  /** A value times a channel gain and the amplitude gain. */
  function Amplified(v: real, gain: real, amp: real): real
  {
    v * gain * amp
  }

  /**
    * What a frame at position p adds to the left and right outputs when the
    * amplitude gain is amp: the window at the read index, linearly
    * interpolated with the fractional part of p, times the channel gains.
    */
  function FrameOut(pb: Playback, p: real, amp: real, leftGain: real, rightGain: real): (out: (real, real))
    requires ValidPlayback(pb) && p >= 0.0
  {
    var ii := ReadIndex(p);
    var x := ReadOffset(pb, p);
    var frac := p - ii as real;
    if pb.data.channels == 1 then
      var f := MonoWindow(pb.data.samples, x, 2, pb.loopMode, pb.loopStart, pb.loopEnd);
      var interp := Lerp(f[0], f[1], frac);
      (Amplified(interp, leftGain, amp), Amplified(interp, rightGain, amp))
    else
      var f := StereoWindow(pb.data.samples, x, 2, pb.loopMode, pb.loopStart, pb.loopEnd);
      (Amplified(Lerp(f[0], f[2], frac), leftGain, amp), Amplified(Lerp(f[1], f[3], frac), rightGain, amp))
  }

  /**
    * One played frame of `process` (both revisions): the window at the read index of p,
    * interpolated with the fractional part of p and added to both outputs
    * at index i.
    */
  method MixFrame(pb: Playback, p: real, amp: real, leftGain: real, rightGain: real,
                  outLeft: array<real>, outRight: array<real>, i: nat)
    requires ValidPlayback(pb) && p >= 0.0 && InSample(pb, p)
    requires outLeft != outRight && i < outLeft.Length && i < outRight.Length
    modifies outLeft, outRight
    ensures outLeft[i] == old(outLeft[i]) + FrameOut(pb, p, amp, leftGain, rightGain).0
    ensures outRight[i] == old(outRight[i]) + FrameOut(pb, p, amp, leftGain, rightGain).1
    ensures forall k :: 0 <= k < outLeft.Length && k != i ==> outLeft[k] == old(outLeft[k])
    ensures forall k :: 0 <= k < outRight.Length && k != i ==> outRight[k] == old(outRight[k])
  {
    var samples := pb.data.samples;
    var ii := ReadIndex(p);
    var x := ToUint(ii * pb.data.channels);
    assert x == ReadOffset(pb, p);
    var frac := p - ii as real;
    var left, right;
    if pb.data.channels == 1 {
      var fsamples := new int[2];
      GetSamplesMono(samples, x, pb.loopMode, pb.loopStart, pb.loopEnd, fsamples);
      ghost var f := MonoWindow(samples, x, 2, pb.loopMode, pb.loopStart, pb.loopEnd);
      assert fsamples[0] == f[0] && fsamples[1] == f[1];
      var interp := Lerp(fsamples[0], fsamples[1], frac);
      left, right := Amplified(interp, leftGain, amp), Amplified(interp, rightGain, amp);
    } else {
      var fsamples := new int[4];
      GetSamplesStereo(samples, x, pb.loopMode, pb.loopStart, pb.loopEnd, fsamples);
      ghost var f := StereoWindow(samples, x, 2, pb.loopMode, pb.loopStart, pb.loopEnd);
      assert fsamples[0] == f[0] && fsamples[1] == f[1] && fsamples[2] == f[2] && fsamples[3] == f[3];
      left, right := Amplified(Lerp(fsamples[0], fsamples[2], frac), leftGain, amp), Amplified(Lerp(fsamples[1], fsamples[3], frac), rightGain, amp);
    }
    assert (left, right) == FrameOut(pb, p, amp, leftGain, rightGain);
    outLeft[i] := outLeft[i] + left;
    outRight[i] := outRight[i] + right;
  }

  /** The loop-wrap of `process` (both revisions): subtract the loop length while the position is past the loop end. */
  method WrapPosition(p: real, loopStart: int, loopEnd: int) returns (q: real)
    requires loopEnd > loopStart
    ensures q == Wrapped(p, loopStart, loopEnd)
  {
    q := p;
    while q > loopEnd as real
      invariant Wrapped(q, loopStart, loopEnd) == Wrapped(p, loopStart, loopEnd)
      decreases (q - loopEnd as real).Floor
    {
      q := q - (loopEnd - loopStart) as real;
    }
  }

  /** The end of a frame of `process`: `ppos += step`, then the loop-wrap in SUSTAIN and CONTINUOUS mode. */
  method StepPosition(pb: Playback, p: real) returns (q: real)
    ensures q == Advance(pb, p)
  {
    q := p + pb.step;
    if pb.loopMode == LoopMode.Sustain || pb.loopMode == Continuous {
      if pb.loopEnd > pb.loopStart {
        q := WrapPosition(q, pb.loopStart, pb.loopEnd);
      }
    }
  }

  /** After every frame step in a wrapping loop, the position is at most the loop end. */
  lemma {:induction false} PositionStaysInLoop(pb: Playback, p: real, k: nat)
    requires Wraps(pb) && k > 0
    ensures PposAt(pb, p, k) <= pb.loopEnd as real
  {
  }

  /** Outside a wrapping loop the position simply moves k steps forward. */
  lemma {:induction false} PositionWithoutLoop(pb: Playback, p: real, k: nat)
    requires !Wraps(pb)
    ensures PposAt(pb, p, k) == p + k as real * pb.step
  {
    if k > 0 {
      PositionWithoutLoop(pb, p, k - 1);
    }
  }
}
