/**
  * The voice pool of lib/synth.hh, on values: the search of `alloc_voice`,
  * the count of `active_voice_count`, what a run of `alloc_voice` plus
  * `Voice::start` does to the pool, `release` with the release-trigger
  * voices it spawns, and the sweeps over the pool that `note_on`,
  * `note_off` and `update_cc` make. The `Synth` class runs these with loops;
  * the functions here say what the loops compute.
  */
module VoicePool {
  import opened Text
  import opened SfzRegion
  import opened LibVoice
  import opened RoundRobin
  import opened VoicePlayback

  /** What `Voice::start` takes from the synth besides the voice and the region. */
  datatype StartArgs = StartArgs(channel: int, key: int, velocity: int, timeSinceNoteOn: real,
                                 globalFrameCount: nat, sampleRate: int,
                                 dbToFactor: real -> real, panFactor: (Region, int) -> real)

  /** `voice->start (region, ...)` with the arguments a. */
  function StartWith(v: Voice, r: Region, a: StartArgs): Voice
  {
    Start(v, r, a.channel, a.key, a.velocity, a.timeSinceNoteOn, a.globalFrameCount, a.sampleRate, a.dbToFactor, a.panFactor)
  }

  /** The first IDLE voice at index i or later. */
  function FirstIdleFrom(voices: seq<Voice>, i: nat): (r: Option<nat>)
    ensures r.Some? ==> i <= r.value < |voices| && voices[r.value].state == Idle
    decreases |voices| - i
  {
    if i >= |voices| then None
    else if voices[i].state == Idle then Some(i)
    else FirstIdleFrom(voices, i + 1)
  }

  /** The voice `alloc_voice` hands out: the first IDLE voice in pool order, if any. */
  function FirstIdle(voices: seq<Voice>): (r: Option<nat>)
    ensures r.Some? ==> r.value < |voices| && voices[r.value].state == Idle
  {
    FirstIdleFrom(voices, 0)
  }

  lemma {:induction false} FirstIdleFromSkipsBusy(voices: seq<Voice>, i: nat)
    ensures FirstIdleFrom(voices, i).Some? ==>
      forall j :: i <= j < FirstIdleFrom(voices, i).value ==> voices[j].state != Idle
    ensures FirstIdleFrom(voices, i).None? ==> forall j :: i <= j < |voices| ==> voices[j].state != Idle
    decreases |voices| - i
  {
    if i < |voices| && voices[i].state != Idle {
      FirstIdleFromSkipsBusy(voices, i + 1);
    }
  }

  /**
    * `alloc_voice` returns the first IDLE voice: every voice before it is
    * busy; and it returns none exactly when every voice is busy.
    */
  lemma FirstIdleIsFirst(voices: seq<Voice>)
    ensures FirstIdle(voices).Some? ==> forall j :: 0 <= j < FirstIdle(voices).value ==> voices[j].state != Idle
    ensures FirstIdle(voices).None? <==> forall j :: 0 <= j < |voices| ==> voices[j].state != Idle
  {
    FirstIdleFromSkipsBusy(voices, 0);
  }

  /** 1 for a voice that is not IDLE. */
  function Busy(v: Voice): nat
  {
    if v.state != Idle then 1 else 0
  }

  /** `active_voice_count`: the number of voices that are not IDLE. */
  function ActiveCount(voices: seq<Voice>): (c: nat)
    ensures c <= |voices|
  {
    if |voices| == 0 then 0 else ActiveCount(voices[..|voices| - 1]) + Busy(voices[|voices| - 1])
  }

  lemma {:induction false} ActiveCountAllBusy(voices: seq<Voice>)
    ensures ActiveCount(voices) == |voices| <==> forall j :: 0 <= j < |voices| ==> voices[j].state != Idle
  {
    if |voices| > 0 {
      var p := voices[..|voices| - 1];
      ActiveCountAllBusy(p);
      assert forall j :: 0 <= j < |p| ==> p[j] == voices[j];
    }
  }

  /** The pool is full (every voice counted as active) exactly when `alloc_voice` finds no voice. */
  lemma PoolFullIffNoIdle(voices: seq<Voice>)
    ensures ActiveCount(voices) == |voices| <==> FirstIdle(voices).None?
  {
    ActiveCountAllBusy(voices);
    FirstIdleIsFirst(voices);
  }

  /** Replacing one voice changes the count by what that voice contributes. */
  lemma {:induction false} ActiveCountUpdate(voices: seq<Voice>, i: nat, v: Voice)
    requires i < |voices|
    ensures ActiveCount(voices[i := v]) == ActiveCount(voices) - Busy(voices[i]) + Busy(v)
  {
    var n := |voices|;
    if i == n - 1 {
      assert voices[i := v][..n - 1] == voices[..n - 1];
    } else {
      assert voices[i := v][..n - 1] == voices[..n - 1][i := v];
      ActiveCountUpdate(voices[..n - 1], i, v);
    }
  }

  /** `alloc_voice` followed by `start`: the region takes the first IDLE voice; with none left it is not played. */
  function LaunchOne(voices: seq<Voice>, r: Region, a: StartArgs): (vs: seq<Voice>)
    ensures |vs| == |voices|
  {
    match FirstIdle(voices)
    case None => voices
    case Some(i) => voices[i := StartWith(voices[i], r, a)]
  }

  /** One `alloc_voice` and `start` per region of rs, in order. */
  function Launch(voices: seq<Voice>, rs: seq<Region>, a: StartArgs): (vs: seq<Voice>)
    ensures |vs| == |voices|
  {
    if |rs| == 0 then voices else LaunchOne(Launch(voices, rs[..|rs| - 1], a), rs[|rs| - 1], a)
  }

  /** Starting one more region after rs is one more `alloc_voice` and `start`. */
  lemma LaunchSnoc(voices: seq<Voice>, rs: seq<Region>, r: Region, a: StartArgs)
    ensures Launch(voices, rs + [r], a) == LaunchOne(Launch(voices, rs, a), r, a)
  {
    assert (rs + [r])[..|rs|] == rs;
  }

  /** A voice that `start` set up for one of the regions rs with the arguments a. */
  predicate StartedBy(v: Voice, rs: seq<Region>, a: StartArgs)
  {
    v.state == Active && v.region in rs && v.trigger == v.region.trigger &&
    v.channel == a.channel && v.key == a.key && v.velocity == a.velocity &&
    v.startFrameCount == a.globalFrameCount && v.ppos == 0.0
  }

  /** Starting voices takes only IDLE voices: a voice either stays as it was, or was IDLE and now plays one of the regions. */
  lemma {:induction false} LaunchTakesOnlyIdle(voices: seq<Voice>, rs: seq<Region>, a: StartArgs)
    ensures forall i :: 0 <= i < |voices| ==>
      Launch(voices, rs, a)[i] == voices[i] || (voices[i].state == Idle && StartedBy(Launch(voices, rs, a)[i], rs, a))
  {
    if |rs| > 0 {
      var rs' := rs[..|rs| - 1];
      LaunchTakesOnlyIdle(voices, rs', a);
      assert rs == rs' + [rs[|rs| - 1]];
    }
  }

  function Min(x: int, y: int): int
  {
    if x < y then x else y
  }

  /** Each region takes one IDLE voice until the pool is full; the rest are dropped. */
  lemma {:induction false} LaunchCount(voices: seq<Voice>, rs: seq<Region>, a: StartArgs)
    ensures ActiveCount(Launch(voices, rs, a)) == Min(|voices|, ActiveCount(voices) + |rs|)
  {
    if |rs| > 0 {
      var r := rs[|rs| - 1];
      LaunchCount(voices, rs[..|rs| - 1], a);
      var p := Launch(voices, rs[..|rs| - 1], a);
      PoolFullIffNoIdle(p);
      match FirstIdle(p)
      case None =>
      case Some(i) => ActiveCountUpdate(p, i, StartWith(p[i], r, a));
    }
  }

  /** What `release` reads from the synth. */
  datatype Ctx = Ctx(regions: seq<Region>, globalFrameCount: nat, sampleRate: nat,
                     dbToFactor: real -> real, panFactor: (Region, int) -> real)

  /** 2^64: frame counts are `uint64_t`. */
  const U64: int := 0x1_0000_0000_0000_0000

  /** `(global_frame_count - start_frame_count_) / double (sample_rate_)`, with the unsigned 64-bit difference. */
  function TimeSinceNoteOn(globalFrameCount: nat, startFrameCount: nat, sampleRate: nat): (t: real)
    requires sampleRate > 0
    ensures t >= 0.0
    ensures startFrameCount <= globalFrameCount < U64 ==>
      t == (globalFrameCount - startFrameCount) as real / sampleRate as real
  {
    ((globalFrameCount - startFrameCount) % U64) as real / sampleRate as real
  }

  /**
    * A region `release` should start a voice for: key and velocity match,
    * a release trigger, and (as `note_on` checks before it starts a voice)
    * a loaded sample.
    */
  predicate ReleaseTarget(r: Region, key: int, vel: int)
  {
    KeyVelMatch(r, key, vel) && r.trigger == Release && r.cachedSample.Some?
  }

  /** The regions `release` starts voices for, in region order. */
  function ReleaseRegions(regions: seq<Region>, key: int, vel: int): (rs: seq<Region>)
    ensures |rs| <= |regions|
  {
    if |regions| == 0 then []
    else
      var rs := ReleaseRegions(regions[..|regions| - 1], key, vel);
      var r := regions[|regions| - 1];
      if ReleaseTarget(r, key, vel) then rs + [r] else rs
  }

  lemma {:induction false} ReleaseRegionsSelect(regions: seq<Region>, key: int, vel: int)
    ensures forall r :: r in ReleaseRegions(regions, key, vel) <==> r in regions && ReleaseTarget(r, key, vel)
  {
    if |regions| > 0 {
      ReleaseRegionsSelect(regions[..|regions| - 1], key, vel);
      assert regions == regions[..|regions| - 1] + [regions[|regions| - 1]];
    }
  }

  /** Visiting one more region extends the release regions by that region when it is a target. */
  lemma ReleaseRegionsStep(regions: seq<Region>, j: nat, key: int, vel: int)
    requires j < |regions|
    ensures ReleaseRegions(regions[..j + 1], key, vel) ==
      if ReleaseTarget(regions[j], key, vel) then ReleaseRegions(regions[..j], key, vel) + [regions[j]]
      else ReleaseRegions(regions[..j], key, vel)
  {
    assert regions[..j + 1][..j] == regions[..j];
  }

  /** The regions `release` starts voices for as written: the sample check of `note_on` is missing. */
  function ReleaseRegionsAsWritten(regions: seq<Region>, key: int, vel: int): (rs: seq<Region>)
    ensures |rs| <= |regions|
  {
    if |regions| == 0 then []
    else
      var rs := ReleaseRegionsAsWritten(regions[..|regions| - 1], key, vel);
      var r := regions[|regions| - 1];
      if KeyVelMatch(r, key, vel) && r.trigger == Release then rs + [r] else rs
  }

  /**
    * As written, a release-trigger region whose sample did not load still
    * gets a voice: `start` then reads the channel count through the null
    * cached-sample pointer.
    */
  lemma ReleaseAsWrittenStartsSamplelessVoice()
    ensures var r := DefaultRegion.(sample := "release.wav", trigger := Release);
            var a := StartArgs(0, 60, 100, 0.5, 0, 44100, x => x, (r, c) => 0.5);
            var vs := Launch([NewVoice], ReleaseRegionsAsWritten([r], 60, 100), a);
            vs[0].state == Active && vs[0].region.cachedSample.None?
  {
    var r := DefaultRegion.(sample := "release.wav", trigger := Release);
    assert ReleaseRegionsAsWritten([r], 60, 100) == [r] by {
      assert [r][..0] == [];
    }
  }

  /** The arguments of the voices `release` spawns for voice v. */
  function ReleaseArgs(v: Voice, ctx: Ctx): StartArgs
    requires ctx.sampleRate > 0
  {
    StartArgs(v.channel, v.key, v.velocity, TimeSinceNoteOn(ctx.globalFrameCount, v.startFrameCount, ctx.sampleRate),
              ctx.globalFrameCount, ctx.sampleRate, ctx.dbToFactor, ctx.panFactor)
  }

  /**
    * `release (voices[i])`: a voice that is neither ACTIVE nor SUSTAIN is
    * left alone (the source only logs an error); otherwise it becomes
    * RELEASED and every release region matching its key and velocity starts
    * a voice.
    */
  function ReleaseAt(voices: seq<Voice>, i: nat, ctx: Ctx): (vs: seq<Voice>)
    requires i < |voices| && ctx.sampleRate > 0
    ensures |vs| == |voices|
  {
    var v := voices[i];
    if v.state != Active && v.state != VoiceState.Sustain then voices
    else Launch(voices[i := v.(state := Released)], ReleaseRegions(ctx.regions, v.key, v.velocity), ReleaseArgs(v, ctx))
  }

  /**
    * A voice `release` spawned: ACTIVE at position 0, playing one of the
    * synth's release-trigger regions with a loaded sample, started now.
    */
  predicate Spawned(v: Voice, ctx: Ctx)
  {
    v.state == Active && v.trigger == Release && v.region.cachedSample.Some? && v.region in ctx.regions &&
    v.startFrameCount == ctx.globalFrameCount && v.ppos == 0.0
  }

  /** `release` releases the voice and takes only IDLE voices for what it spawns. */
  lemma ReleaseAtEffect(voices: seq<Voice>, i: nat, ctx: Ctx)
    requires i < |voices| && ctx.sampleRate > 0
    ensures voices[i].state != Active && voices[i].state != VoiceState.Sustain ==> ReleaseAt(voices, i, ctx) == voices
    ensures voices[i].state == Active || voices[i].state == VoiceState.Sustain ==>
      ReleaseAt(voices, i, ctx)[i] == voices[i].(state := Released)
    ensures forall j :: 0 <= j < |voices| && j != i ==>
      ReleaseAt(voices, i, ctx)[j] == voices[j] || (voices[j].state == Idle && Spawned(ReleaseAt(voices, i, ctx)[j], ctx))
  {
    var v := voices[i];
    if v.state == Active || v.state == VoiceState.Sustain {
      var rs := ReleaseRegions(ctx.regions, v.key, v.velocity);
      LaunchTakesOnlyIdle(voices[i := v.(state := Released)], rs, ReleaseArgs(v, ctx));
      ReleaseRegionsSelect(ctx.regions, v.key, v.velocity);
    }
  }

  /** The four loops over the pool that release or sustain voices. */
  datatype Sweep =
    | ReleaseOverlapping(channel: int, key: int)  // `note_on`: kill overlapping notes
    | NoteOffRelease(channel: int, key: int)      // `note_off` with the pedal up
    | NoteOffSustain(channel: int, key: int)      // `note_off` with the pedal down
    | ReleaseSustained                            // `update_cc` lifting the pedal

  /** The voices a sweep acts on. */
  predicate Hits(s: Sweep, v: Voice)
  {
    match s
    case ReleaseOverlapping(c, k) =>
      (v.state == Active || v.state == VoiceState.Sustain) && v.trigger == Attack &&
      v.channel == c && v.key == k && v.region.loopMode != OneShot
    case NoteOffRelease(c, k) =>
      v.state == Active && v.trigger == Attack && v.channel == c && v.key == k && v.region.loopMode != OneShot
    case NoteOffSustain(c, k) =>
      v.state == Active && v.trigger == Attack && v.channel == c && v.key == k && v.region.loopMode != OneShot
    case ReleaseSustained =>
      v.state == VoiceState.Sustain
  }

  /** The state a sweep leaves the voices it hits in. */
  function Target(s: Sweep): VoiceState
  {
    if s.NoteOffSustain? then VoiceState.Sustain else Released
  }

  /** One iteration of a sweep, at voice i. */
  function SweepStep(s: Sweep, voices: seq<Voice>, i: nat, ctx: Ctx): (vs: seq<Voice>)
    requires i < |voices| && ctx.sampleRate > 0
    ensures |vs| == |voices|
  {
    if !Hits(s, voices[i]) then voices
    else if s.NoteOffSustain? then voices[i := voices[i].(state := VoiceState.Sustain)]
    else ReleaseAt(voices, i, ctx)
  }

  /** The first n iterations of a sweep, in pool order. */
  function SweepVoices(s: Sweep, voices: seq<Voice>, n: nat, ctx: Ctx): (vs: seq<Voice>)
    requires n <= |voices| && ctx.sampleRate > 0
    ensures |vs| == |voices|
  {
    if n == 0 then voices else SweepStep(s, SweepVoices(s, voices, n - 1, ctx), n - 1, ctx)
  }

  lemma SweepStepEffect(s: Sweep, voices: seq<Voice>, i: nat, ctx: Ctx)
    requires i < |voices| && ctx.sampleRate > 0
    ensures Hits(s, voices[i]) ==> SweepStep(s, voices, i, ctx)[i] == voices[i].(state := Target(s))
    ensures !Hits(s, voices[i]) ==> SweepStep(s, voices, i, ctx) == voices
    ensures forall j :: 0 <= j < |voices| && j != i ==>
      SweepStep(s, voices, i, ctx)[j] == voices[j] || (voices[j].state == Idle && Spawned(SweepStep(s, voices, i, ctx)[j], ctx))
  {
    if Hits(s, voices[i]) && !s.NoteOffSustain? {
      ReleaseAtEffect(voices, i, ctx);
    }
  }

  /** What a sweep leaves at voice i, compared with the voice before the sweep. */
  predicate SweptVoice(s: Sweep, v: Voice, w: Voice, visited: bool, ctx: Ctx)
  {
    (visited && Hits(s, v) ==> w == v.(state := Target(s))) &&
    (v.state != Idle && !(visited && Hits(s, v)) ==> w == v) &&
    (v.state == Idle ==> w == v || Spawned(w, ctx)) &&
    (visited ==> !Hits(s, w))
  }

  /**
    * After the first n iterations of a sweep, each visited voice the sweep
    * hits is in the sweep's target state, every other busy voice is as it
    * was, an IDLE voice is either still as it was or a spawned release
    * voice, and no visited voice is one the sweep would still hit.
    */
  lemma {:induction false} SweepEffect(s: Sweep, voices: seq<Voice>, n: nat, ctx: Ctx)
    requires n <= |voices| && ctx.sampleRate > 0
    ensures forall i :: 0 <= i < |voices| ==> SweptVoice(s, voices[i], SweepVoices(s, voices, n, ctx)[i], i < n, ctx)
  {
    if n > 0 {
      SweepEffect(s, voices, n - 1, ctx);
      var p := SweepVoices(s, voices, n - 1, ctx);
      SweepStepEffect(s, p, n - 1, ctx);
    }
  }

  /**
    * Every voice that is not IDLE can be played (a loaded mono or stereo
    * sample, a position that is not negative), and no voice started after
    * the frame count.
    */
  predicate PoolValid(voices: seq<Voice>, globalFrameCount: nat)
  {
    forall i :: 0 <= i < |voices| ==>
      (voices[i].state != Idle ==> Playable(voices[i])) &&
      voices[i].startFrameCount <= globalFrameCount
  }

  /** A sweep keeps the pool valid when the synth's loaded regions can be played. */
  lemma SweepKeepsPoolValid(s: Sweep, voices: seq<Voice>, ctx: Ctx)
    requires ctx.sampleRate > 0 && PoolValid(voices, ctx.globalFrameCount) && RegionsPlayable(ctx.regions)
    ensures PoolValid(SweepVoices(s, voices, |voices|, ctx), ctx.globalFrameCount)
  {
    SweepEffect(s, voices, |voices|, ctx);
  }

  /** Starting voices for regions that can be played keeps the pool valid. */
  lemma LaunchKeepsPoolValid(voices: seq<Voice>, rs: seq<Region>, a: StartArgs, globalFrameCount: nat)
    requires PoolValid(voices, globalFrameCount) && a.globalFrameCount <= globalFrameCount
    requires forall r :: r in rs ==> PlayableRegion(r)
    ensures PoolValid(Launch(voices, rs, a), globalFrameCount)
  {
    LaunchTakesOnlyIdle(voices, rs, a);
  }

  /** A region that answers the note: key, velocity and trigger match, and every constrained CC is in range. */
  predicate Selected(r: Region, ccValues: seq<int>, key: int, vel: int)
  {
    AttackMatch(r, key, vel) && WellFormed(r) && |ccValues| == CcCount && CcMatch(r, ccValues)
  }

  /** A selected region that plays: its round-robin turn, the random range, and a loaded sample. */
  predicate Plays(r: Region, ccValues: seq<int>, key: int, vel: int, random: real)
  {
    Selected(r, ccValues, key, vel) && SeqAndRandom(r, random) && r.cachedSample.Some?
  }

  /** The regions `note_on` starts voices for, in region order. */
  function PlayedRegions(regions: seq<Region>, ccValues: seq<int>, key: int, vel: int, random: real): (rs: seq<Region>)
    ensures |rs| <= |regions|
  {
    if |regions| == 0 then []
    else
      var rs := PlayedRegions(regions[..|regions| - 1], ccValues, key, vel, random);
      var r := regions[|regions| - 1];
      if Plays(r, ccValues, key, vel, random) then rs + [r] else rs
  }

  lemma {:induction false} PlayedRegionsSelect(regions: seq<Region>, ccValues: seq<int>, key: int, vel: int, random: real)
    ensures forall r :: r in PlayedRegions(regions, ccValues, key, vel, random) <==> r in regions && Plays(r, ccValues, key, vel, random)
  {
    if |regions| > 0 {
      PlayedRegionsSelect(regions[..|regions| - 1], ccValues, key, vel, random);
      assert regions == regions[..|regions| - 1] + [regions[|regions| - 1]];
    }
  }

  /** Visiting one more region extends the played regions by that region when it plays. */
  lemma PlayedRegionsStep(regions: seq<Region>, j: nat, ccValues: seq<int>, key: int, vel: int, random: real)
    requires j < |regions|
    ensures PlayedRegions(regions[..j + 1], ccValues, key, vel, random) ==
      if Plays(regions[j], ccValues, key, vel, random) then PlayedRegions(regions[..j], ccValues, key, vel, random) + [regions[j]]
      else PlayedRegions(regions[..j], ccValues, key, vel, random)
  {
    assert regions[..j + 1][..j] == regions[..j];
  }
}
