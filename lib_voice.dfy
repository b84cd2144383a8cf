/**
  * A voice of lib/voice.hh and lib/voice.cc: its state machine, `start`,
  * the velocity curve, and the per-frame loop of `process`; and the
  * `SampleReader` bookkeeping of lib/voice.hh.
  */
module LibVoice {
  import opened SfzRegion
  import opened SampleWindow
  import opened VoicePlayback
  import opened Text

  datatype VoiceState = Active | Sustain | Released | Idle

  /**
    * The fields of a voice that the synth and `process` use. `region` is
    * the region the voice plays (a pointer into the loader's regions in the
    * source; a voice that never started holds the default region).
    */
  datatype Voice = Voice(
    state: VoiceState,
    channel: int, key: int, velocity: int,
    trigger: Trigger,
    region: Region,
    ppos: real,
    startFrameCount: nat,
    sampleRate: int,
    leftGain: real, rightGain: real)

  /** A newly constructed voice: IDLE, position 0. */
  const NewVoice: Voice := Voice(Idle, 0, 0, 0, Attack, DefaultRegion, 0.0, 0, 44100, 0.0, 0.0)

  /**
    * `velocity_track_factor`: with t = amp_veltrack / 100 and the velocity
    * curve c = vel^2 / 127^2, the gain is (1 - t) + t * c for t >= 0 and
    * -t + t * c for t < 0.
    */
  function VelocityTrackFactor(ampVeltrack: real, velocity: int): real
  {
    var curve := (velocity * velocity) as real / (127.0 * 127.0);
    var veltrack := ampVeltrack * 0.01;
    var offset := if veltrack >= 0.0 then 1.0 else 0.0;
    (offset - veltrack) + veltrack * curve
  }

  /** A MIDI velocity gives a curve value in [0, 1]. */
  lemma CurveBounds(velocity: int)
    requires 0 <= velocity <= 127
    ensures 0.0 <= (velocity * velocity) as real / (127.0 * 127.0) <= 1.0
  {
    assert velocity * velocity <= velocity * 127 <= 127 * 127;
  }

  /**
    * Full velocity gives gain 1 for a non-negative amp_veltrack, and for
    * amp_veltrack in [0, 100] and a MIDI velocity the gain lies between
    * 1 - amp_veltrack / 100 and 1.
    */
  lemma VelocityTrackBounds(ampVeltrack: real, velocity: int)
    ensures ampVeltrack >= 0.0 ==> VelocityTrackFactor(ampVeltrack, 127) == 1.0
    ensures 0.0 <= ampVeltrack <= 100.0 && 0 <= velocity <= 127 ==>
      1.0 - ampVeltrack / 100.0 <= VelocityTrackFactor(ampVeltrack, velocity) <= 1.0
  {
    if 0.0 <= ampVeltrack <= 100.0 && 0 <= velocity <= 127 {
      var curve := (velocity * velocity) as real / (127.0 * 127.0);
      CurveBounds(velocity);
      var t := ampVeltrack * 0.01;
      assert t == ampVeltrack / 100.0;
      assert VelocityTrackFactor(ampVeltrack, velocity) == (1.0 - t) + t * curve;
      ScaledBelow(t, curve);
    }
  }

  /** 0 <= t * c <= t for c in [0, 1] and t >= 0. */
  lemma ScaledBelow(t: real, c: real)
    requires t >= 0.0 && 0.0 <= c <= 1.0
    ensures 0.0 <= t * c <= t
  {
    assert t * c <= t * 1.0;
  }

  /**
    * The release-trigger damping of `start`: exactly 1 for a region that is
    * not a release region, otherwise `db_to_factor (-time * rt_decay)` (the
    * dB conversion is a parameter: it is a floating-point power).
    */
  function RtDecayGain(r: Region, timeSinceNoteOn: real, dbToFactor: real -> real): (g: real)
    ensures r.trigger != Release ==> g == 1.0
    ensures r.trigger == Release ==> g == dbToFactor(-timeSinceNoteOn * r.rtDecay)
  {
    if r.trigger == Release then dbToFactor(-timeSinceNoteOn * r.rtDecay) else 1.0
  }

  /**
    * `Voice::start`: the voice becomes ACTIVE at position 0 on the given
    * channel, key and velocity, takes the region's trigger, and remembers
    * the frame count it started at. Its gains combine velocity, volume,
    * release damping and pan; the sine pan law and the dB conversion are
    * parameters.
    */
  function Start(v: Voice, r: Region, channel: int, key: int, velocity: int, timeSinceNoteOn: real,
                 globalFrameCount: nat, sampleRate: int, dbToFactor: real -> real, panFactor: (Region, int) -> real): (v': Voice)
    ensures v'.state == Active && v'.ppos == 0.0
    ensures v'.channel == channel && v'.key == key && v'.velocity == velocity
    ensures v'.trigger == r.trigger && v'.region == r
    ensures v'.startFrameCount == globalFrameCount && v'.sampleRate == sampleRate
    ensures v'.leftGain ==
      VelocityTrackFactor(r.ampVeltrack, velocity) * dbToFactor(r.volume) * RtDecayGain(r, timeSinceNoteOn, dbToFactor) * panFactor(r, 0)
    ensures v'.rightGain ==
      VelocityTrackFactor(r.ampVeltrack, velocity) * dbToFactor(r.volume) * RtDecayGain(r, timeSinceNoteOn, dbToFactor) * panFactor(r, 1)
    ensures r.trigger != Release ==>
      v'.leftGain == VelocityTrackFactor(r.ampVeltrack, velocity) * dbToFactor(r.volume) * panFactor(r, 0) &&
      v'.rightGain == VelocityTrackFactor(r.ampVeltrack, velocity) * dbToFactor(r.volume) * panFactor(r, 1)
  {
    var gain := VelocityTrackFactor(r.ampVeltrack, velocity) * dbToFactor(r.volume) * RtDecayGain(r, timeSinceNoteOn, dbToFactor);
    Voice(Active, channel, key, velocity, r.trigger, r, 0.0, globalFrameCount, sampleRate,
          gain * panFactor(r, 0), gain * panFactor(r, 1))
  }

  /** The playback a voice reads in `process`. */
  function PlaybackAt(v: Voice, step: real): Playback
    requires v.region.cachedSample.Some?
  {
    PlaybackOf(v.region, v.region.cachedSample.value, step)
  }

  /** A voice `process` can be asked to render: its region can be played and its position is not negative. */
  predicate Playable(v: Voice)
  {
    PlayableRegion(v.region) && v.ppos >= 0.0
  }

  /** Frame k of a call is played when its position is inside the sample and the envelope is not done. */
  predicate Audible(pb: Playback, p0: real, env: seq<real>, k: nat)
    requires ValidPlayback(pb) && p0 >= 0.0
  {
    InSample(pb, PposAt(pb, p0, k)) && k < |env|
  }

  /** How many frames a call of n frames plays: those before the first one that is not audible. */
  function AudibleRun(pb: Playback, p0: real, env: seq<real>, n: nat): (m: nat)
    requires ValidPlayback(pb) && p0 >= 0.0
    ensures m <= n && m <= |env|
    ensures forall k :: 0 <= k < m ==> Audible(pb, p0, env, k)
    ensures m < n ==> !Audible(pb, p0, env, m)
  {
    if n == 0 then 0
    else
      var m := AudibleRun(pb, p0, env, n - 1);
      if m == n - 1 && Audible(pb, p0, env, n - 1) then n else m
  }

  /**
    * The voice after a call of n frames: IDLE once a frame was not
    * audible, and moved on by the frames it played; nothing else changes.
    */
  function Rendered(v: Voice, step: real, env: seq<real>, n: nat): (v': Voice)
    requires Playable(v) && step >= 0.0
    ensures Playable(v')
    ensures v'.state == Idle || v'.state == v.state
    ensures v' == v.(state := v'.state, ppos := v'.ppos)
  {
    var pb := PlaybackAt(v, step);
    var m := AudibleRun(pb, v.ppos, env, n);
    v.(state := if m < n then Idle else v.state, ppos := PposAt(pb, v.ppos, m))
  }

  /** What frame k of a call of n frames adds to the left and right outputs: its frame output while it plays, nothing after. */
  function Contribution(v: Voice, step: real, gain: real, env: seq<real>, n: nat, k: nat): (out: (real, real))
    requires Playable(v) && step >= 0.0
    ensures k >= AudibleRun(PlaybackAt(v, step), v.ppos, env, n) ==> out == (0.0, 0.0)
  {
    var pb := PlaybackAt(v, step);
    if k < AudibleRun(pb, v.ppos, env, n) then FrameOut(pb, PposAt(pb, v.ppos, k), env[k] * gain, v.leftGain, v.rightGain)
    else (0.0, 0.0)
  }

  /** Frame k of a call added its output to the left and right values l0 and r0, giving l and r. */
  predicate FrameMixed(pb: Playback, p0: real, env: seq<real>, gain: real, v: Voice, k: nat, l0: real, l: real, r0: real, r: real)
    requires ValidPlayback(pb) && p0 >= 0.0 && k < |env|
  {
    var out := FrameOut(pb, PposAt(pb, p0, k), env[k] * gain, v.leftGain, v.rightGain);
    l == l0 + out.0 && r == r0 + out.1
  }

  /**
    * `Voice::process` for nframes frames into the outputs from frame `at`
    * on (the synth passes pointers offset by `at`). The envelope is the
    * sequence of amplitudes `get_next` returns until it is done; `gain` is
    * the global gain. Each frame whose position lies inside the sample adds
    * its interpolated window to both outputs; the first frame past the end
    * (or after the envelope) makes the voice IDLE and ends the call,
    * leaving the rest of the outputs as they were.
    */
  method Process(v: Voice, step: real, gain: real, env: seq<real>, nframes: nat,
                 outLeft: array<real>, outRight: array<real>, at: nat)
    returns (v': Voice, played: nat)
    requires Playable(v) && step >= 0.0
    requires outLeft != outRight && at + nframes <= outLeft.Length && at + nframes <= outRight.Length
    modifies outLeft, outRight
    ensures played <= nframes && played <= |env|
    ensures forall k :: 0 <= k < played ==> Audible(PlaybackAt(v, step), v.ppos, env, k)
    ensures played < nframes ==> !Audible(PlaybackAt(v, step), v.ppos, env, played) && v'.state == Idle
    ensures played == nframes ==> v'.state == v.state
    ensures v' == v.(state := v'.state, ppos := PposAt(PlaybackAt(v, step), v.ppos, played))
    ensures played == AudibleRun(PlaybackAt(v, step), v.ppos, env, nframes) && v' == Rendered(v, step, env, nframes)
    ensures forall i :: at <= i < at + played ==>
      FrameMixed(PlaybackAt(v, step), v.ppos, env, gain, v, i - at, old(outLeft[i]), outLeft[i], old(outRight[i]), outRight[i])
    ensures forall k :: 0 <= k < nframes ==>
      outLeft[at + k] == old(outLeft[at + k]) + Contribution(v, step, gain, env, nframes, k).0 &&
      outRight[at + k] == old(outRight[at + k]) + Contribution(v, step, gain, env, nframes, k).1
    ensures forall k :: 0 <= k < outLeft.Length && !(at <= k < at + played) ==> outLeft[k] == old(outLeft[k])
    ensures forall k :: 0 <= k < outRight.Length && !(at <= k < at + played) ==> outRight[k] == old(outRight[k])
  {
    var pb := PlaybackAt(v, step);
    var ppos;
    played, ppos := PlayFrames(pb, v, gain, env, nframes, outLeft, outRight, at);
    v' := v.(state := if played < nframes then Idle else v.state, ppos := ppos);
    ContributionsMixed(v, step, gain, env, nframes, played, old(outLeft[..]), outLeft[..], old(outRight[..]), outRight[..], at);
  }

  /** The frame loop of `process`: it plays frames from the start while they are audible. */
  method PlayFrames(pb: Playback, v: Voice, gain: real, env: seq<real>, nframes: nat,
                    outLeft: array<real>, outRight: array<real>, at: nat)
    returns (played: nat, ppos: real)
    requires ValidPlayback(pb) && v.ppos >= 0.0
    requires outLeft != outRight && at + nframes <= outLeft.Length && at + nframes <= outRight.Length
    modifies outLeft, outRight
    ensures played == AudibleRun(pb, v.ppos, env, nframes) && ppos == PposAt(pb, v.ppos, played)
    ensures forall i :: at <= i < at + played ==>
      FrameMixed(pb, v.ppos, env, gain, v, i - at, old(outLeft[i]), outLeft[i], old(outRight[i]), outRight[i])
    ensures forall k :: 0 <= k < outLeft.Length && !(at <= k < at + played) ==> outLeft[k] == old(outLeft[k])
    ensures forall k :: 0 <= k < outRight.Length && !(at <= k < at + played) ==> outRight[k] == old(outRight[k])
  {
    ppos := v.ppos;
    played := 0;
    var stopped := false;
    while played < nframes && !stopped
      invariant played <= nframes && played <= |env|
      invariant ppos == PposAt(pb, v.ppos, played) && ppos >= 0.0
      invariant forall k :: 0 <= k < played ==> Audible(pb, v.ppos, env, k)
      invariant stopped ==> played < nframes && !Audible(pb, v.ppos, env, played)
      invariant forall i :: at <= i < at + played ==>
        FrameMixed(pb, v.ppos, env, gain, v, i - at, old(outLeft[i]), outLeft[i], old(outRight[i]), outRight[i])
      invariant forall k :: 0 <= k < outLeft.Length && !(at <= k < at + played) ==> outLeft[k] == old(outLeft[k])
      invariant forall k :: 0 <= k < outRight.Length && !(at <= k < at + played) ==> outRight[k] == old(outRight[k])
      decreases nframes - played, !stopped
    {
      if InSample(pb, ppos) && played < |env| {
        ghost var l0, r0 := outLeft[at + played], outRight[at + played];
        MixFrame(pb, ppos, env[played] * gain, v.leftGain, v.rightGain, outLeft, outRight, at + played);
        assert FrameMixed(pb, v.ppos, env, gain, v, played, l0, outLeft[at + played], r0, outRight[at + played]);
        ppos := StepPosition(pb, ppos);
        played := played + 1;
      } else {
        stopped := true;
      }
    }
  }

  /**
    * The outputs before (l0, r0) and after (l, r) a call: the frames it
    * played hold their contribution and the frames after them none.
    */
  lemma ContributionsMixed(v: Voice, step: real, gain: real, env: seq<real>, nframes: nat, played: nat,
                           l0: seq<real>, l: seq<real>, r0: seq<real>, r: seq<real>, at: nat)
    requires Playable(v) && step >= 0.0
    requires |l0| == |l| && at + nframes <= |l| && |r0| == |r| && at + nframes <= |r|
    requires played == AudibleRun(PlaybackAt(v, step), v.ppos, env, nframes)
    requires forall i :: at <= i < at + played ==>
      FrameMixed(PlaybackAt(v, step), v.ppos, env, gain, v, i - at, l0[i], l[i], r0[i], r[i])
    requires forall i :: 0 <= i < |l| && !(at <= i < at + played) ==> l[i] == l0[i]
    requires forall i :: 0 <= i < |r| && !(at <= i < at + played) ==> r[i] == r0[i]
    ensures forall k :: 0 <= k < nframes ==>
      l[at + k] == l0[at + k] + Contribution(v, step, gain, env, nframes, k).0 &&
      r[at + k] == r0[at + k] + Contribution(v, step, gain, env, nframes, k).1
  {
    forall k | 0 <= k < nframes
      ensures l[at + k] == l0[at + k] + Contribution(v, step, gain, env, nframes, k).0
      ensures r[at + k] == r0[at + k] + Contribution(v, step, gain, env, nframes, k).1
    {
      if k >= played {
        assert !(at <= at + k < at + played);
      } else {
        assert at <= at + k < at + played;
      }
    }
  }

  /**
    * `SampleReader` of lib/voice.hh: the cursor over a cached sample, the
    * loop it honours, and the 24-value window (2x upsampling, stereo,
    * 6-point interpolation) that `skip_to` fills.
    */
  class SampleReader {
    var relativePos: int
    var endPos: int
    var lastPos: int
    var channels: int
    var loopStart: int
    var loopEnd: int
    var lastIndex: int
    var cached: Option<SampleData>
    const window: array<real>

    /** Size of the interpolation window. */
    static const WindowSize: nat := 6 * 4

    constructor()
      ensures window.Length == WindowSize && fresh(window)
      ensures relativePos == 0 && endPos == 0 && lastPos == 0 && channels == 0
      ensures loopStart == -1 && loopEnd == -1 && lastIndex == -1000 && cached == None
    {
      relativePos := 0;
      endPos := 0;
      lastPos := 0;
      channels := 0;
      loopStart := -1;
      loopEnd := -1;
      lastIndex := -1000;
      cached := None;
      window := new real[WindowSize];
    }

    /**
      * `restart`: the cursor goes back to 0 with the loop disabled and the
      * window cleared; the end lies 32 frames past the sample's last frame,
      * scaled by the upsampling factor.
      */
    method Restart(data: SampleData, upsample: int)
      requires data.channels > 0
      modifies this, window
      ensures channels == data.channels && cached == Some(data)
      ensures relativePos == 0 && lastPos == 0 && lastIndex == -1000
      ensures loopStart == -1 && loopEnd == -1
      ensures endPos == (|data.samples| / data.channels + 32) * upsample
      ensures window[..] == seq(window.Length, _ => 0.0)
      ensures upsample >= 1 ==> !Done()
    {
      channels := data.channels;
      relativePos := 0;
      lastPos := 0;
      endPos := (|data.samples| / channels + 32) * upsample;
      cached := Some(data);
      loopStart := -1;
      loopEnd := -1;
      lastIndex := -1000;
      var i := 0;
      while i < window.Length
        invariant 0 <= i <= window.Length
        invariant forall j :: 0 <= j < i ==> window[j] == 0.0
        invariant channels == data.channels && relativePos == 0 && lastPos == 0
        invariant endPos == (|data.samples| / data.channels + 32) * upsample
        invariant cached == Some(data) && loopStart == -1 && loopEnd == -1 && lastIndex == -1000
      {
        window[i] := 0.0;
        i := i + 1;
      }
      if upsample >= 1 {
        assert endPos >= 32 by {
          assert |data.samples| / data.channels + 32 >= 32;
        }
      }
    }

    /** `set_loop`: stores both loop points and nothing else. */
    method SetLoop(start: int, end: int)
      modifies this
      ensures loopStart == start && loopEnd == end
      ensures relativePos == old(relativePos) && endPos == old(endPos) && lastPos == old(lastPos)
      ensures channels == old(channels) && lastIndex == old(lastIndex) && cached == old(cached)
    {
      loopStart := start;
      loopEnd := end;
    }

    /** `done`: the cursor has moved past the end. */
    predicate Done()
      reads this
    {
      relativePos > endPos
    }
  }
}
