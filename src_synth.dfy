/**
  * The synth of the older revision (src/synth.hh): a growing vector of
  * voices marked `used`, note-on region selection without the CC check,
  * note-off that only releases envelopes, and a MIDI queue that `process`
  * applies in full before rendering the block.
  */
module SrcSynth {
  import opened Text
  import opened SfzRegion
  import opened RoundRobin
  import opened SrcVoice
  import opened VoicePlayback
  import LibVoice
  import LibSynth

  /**
    * The gain laws the model keeps abstract: `db_to_factor` (a power of
    * ten) and `pan_stereo_factor` (a sine).
    */
  datatype Gains = Gains(dbToFactor: real -> real, panFactor: (Region, int) -> real)

  /** What `add_voice` is given besides the region. */
  datatype VoiceArgs = VoiceArgs(sampleRate: int, channel: int, key: int, velocity: int, gains: Gains)

  /** The gain of output channel ch: velocity track factor, region volume and pan law. */
  function Gain(r: Region, a: VoiceArgs, ch: int): real
  {
    LibVoice.VelocityTrackFactor(r.ampVeltrack, a.velocity) * a.gains.dbToFactor(r.volume) * a.gains.panFactor(r, ch)
  }

  /**
    * The voice `add_voice` sets up in place of v: used, at position 0, for
    * the region, channel and key given. The velocity field is not assigned
    * and keeps whatever the reused voice held.
    */
  function Started(v: Voice, r: Region, a: VoiceArgs): Voice
  {
    v.(sampleRate := a.sampleRate, region := r, channel := a.channel, key := a.key, ppos := 0.0,
       leftGain := Gain(r, a, 0), rightGain := Gain(r, a, 1), used := true)
  }

  /** The index of the first unused voice, if any. */
  function FirstUnused(voices: seq<Voice>): (r: Option<nat>)
    ensures r.Some? ==> r.value < |voices| && !voices[r.value].used
    ensures r.Some? ==> forall j :: 0 <= j < r.value ==> voices[j].used
    ensures r.None? ==> forall j :: 0 <= j < |voices| ==> voices[j].used
  {
    if |voices| == 0 then None
    else if !voices[0].used then Some(0)
    else match FirstUnused(voices[1..])
      case None => None
      case Some(i) => Some(i + 1)
  }

  /** Where `add_voice` puts the new voice: the first unused one, or a new one at the end. */
  function Slot(voices: seq<Voice>): (i: nat)
    ensures i <= |voices|
  {
    match FirstUnused(voices)
    case Some(i) => i
    case None => |voices|
  }

  /** `add_voice`: reuse the first unused voice, otherwise append one. */
  function AddVoiceTo(voices: seq<Voice>, r: Region, a: VoiceArgs): seq<Voice>
  {
    if Slot(voices) < |voices| then voices[Slot(voices) := Started(voices[Slot(voices)], r, a)]
    else voices + [Started(NewVoice, r, a)]
  }

  /** The number of used voices. */
  function UsedCount(voices: seq<Voice>): (n: nat)
    ensures n <= |voices|
  {
    if |voices| == 0 then 0 else (if voices[0].used then 1 else 0) + UsedCount(voices[1..])
  }

  lemma {:induction false} UsedCountUpdate(voices: seq<Voice>, i: nat, v: Voice)
    requires i < |voices|
    ensures UsedCount(voices[i := v]) ==
      UsedCount(voices) - (if voices[i].used then 1 else 0) + (if v.used then 1 else 0)
  {
    if i > 0 {
      UsedCountUpdate(voices[1..], i - 1, v);
      assert voices[i := v][1..] == voices[1..][i - 1 := v];
    }
  }

  lemma {:induction false} UsedCountAppend(voices: seq<Voice>, v: Voice)
    ensures UsedCount(voices + [v]) == UsedCount(voices) + (if v.used then 1 else 0)
  {
    if |voices| > 0 {
      UsedCountAppend(voices[1..], v);
      assert (voices + [v])[1..] == voices[1..] + [v];
    }
  }

  /** All voices are used exactly when there is no unused one to reuse. */
  lemma {:induction false} AllUsedIffNoneFree(voices: seq<Voice>)
    ensures UsedCount(voices) == |voices| <==> FirstUnused(voices).None?
  {
    if |voices| > 0 {
      AllUsedIffNoneFree(voices[1..]);
    }
  }

  /**
    * `add_voice` starts the new voice at the first unused slot, or at a
    * new slot at the end when every voice is used; no other voice changes,
    * no voice is removed, and exactly one more voice is used.
    */
  lemma AddVoiceEffect(voices: seq<Voice>, r: Region, a: VoiceArgs)
    ensures var vs := AddVoiceTo(voices, r, a); var i := Slot(voices);
      (i < |voices| ==> |vs| == |voices| && !voices[i].used && vs[i] == Started(voices[i], r, a)) &&
      (i == |voices| ==> |vs| == |voices| + 1 && vs[i] == Started(NewVoice, r, a)) &&
      (forall j :: 0 <= j < i ==> voices[j].used) &&
      (forall j :: 0 <= j < |voices| && j != i ==> vs[j] == voices[j]) &&
      vs[i].used && vs[i].ppos == 0.0 && vs[i].region == r && vs[i].channel == a.channel && vs[i].key == a.key &&
      UsedCount(vs) == UsedCount(voices) + 1
  {
    var i := Slot(voices);
    if i < |voices| {
      UsedCountUpdate(voices, i, Started(voices[i], r, a));
    } else {
      UsedCountAppend(voices, Started(NewVoice, r, a));
    }
  }

  /** The voices after `add_voice` for each region of rs in turn. */
  function AddVoices(voices: seq<Voice>, rs: seq<Region>, a: VoiceArgs): seq<Voice>
  {
    if |rs| == 0 then voices
    else AddVoiceTo(AddVoices(voices, rs[..|rs| - 1], a), rs[|rs| - 1], a)
  }

  lemma AddVoicesSnoc(voices: seq<Voice>, rs: seq<Region>, r: Region, a: VoiceArgs)
    ensures AddVoices(voices, rs + [r], a) == AddVoiceTo(AddVoices(voices, rs, a), r, a)
  {
    assert (rs + [r])[..|rs|] == rs;
  }

  /** The voices after the regions up to i + 1 have been visited in `note_on`. */
  lemma AddVoicesStep(voices: seq<Voice>, rs: seq<Region>, i: nat, key: int, vel: int, random: real, a: VoiceArgs)
    requires i < |rs|
    ensures AddVoices(voices, PlayedRegions(rs[..i + 1], key, vel, random), a) ==
      if Plays(rs[i], key, vel, random) then AddVoiceTo(AddVoices(voices, PlayedRegions(rs[..i], key, vel, random), a), rs[i], a)
      else AddVoices(voices, PlayedRegions(rs[..i], key, vel, random), a)
  {
    var p := PlayedRegions(rs[..i], key, vel, random);
    PlayedRegionsStep(rs, i, key, vel, random);
    if Plays(rs[i], key, vel, random) {
      AddVoicesSnoc(voices, p, rs[i], a);
    } else {
      assert p + [] == p;
    }
  }

  function Max(a: int, b: int): int
  {
    if a >= b then a else b
  }

  /**
    * Starting voices for k regions uses k more voices; the vector grows
    * only as far as needed, to max(|voices|, used + k), and never shrinks.
    */
  lemma {:induction false} AddVoicesCount(voices: seq<Voice>, rs: seq<Region>, a: VoiceArgs)
    ensures UsedCount(AddVoices(voices, rs, a)) == UsedCount(voices) + |rs|
    ensures |AddVoices(voices, rs, a)| == Max(|voices|, UsedCount(voices) + |rs|)
  {
    if |rs| > 0 {
      var prev := AddVoices(voices, rs[..|rs| - 1], a);
      AddVoicesCount(voices, rs[..|rs| - 1], a);
      AddVoiceEffect(prev, rs[|rs| - 1], a);
      AllUsedIffNoneFree(prev);
    }
  }

  /** The regions that start a voice: attack match, round-robin and random due, and a loaded sample. */
  predicate Plays(r: Region, key: int, vel: int, random: real)
  {
    AttackMatch(r, key, vel) && SeqAndRandom(r, random) && r.cachedSample.Some?
  }

  /** The regions of rs that play, in order. */
  function PlayedRegions(rs: seq<Region>, key: int, vel: int, random: real): seq<Region>
  {
    if |rs| == 0 then []
    else
      var k := |rs| - 1;
      PlayedRegions(rs[..k], key, vel, random) + (if Plays(rs[k], key, vel, random) then [rs[k]] else [])
  }

  lemma PlayedRegionsStep(rs: seq<Region>, i: nat, key: int, vel: int, random: real)
    requires i < |rs|
    ensures PlayedRegions(rs[..i + 1], key, vel, random) ==
      PlayedRegions(rs[..i], key, vel, random) + (if Plays(rs[i], key, vel, random) then [rs[i]] else [])
  {
    assert rs[..i + 1][..i] == rs[..i];
  }

  /** A region plays exactly when it is among the played regions. */
  lemma {:induction false} PlayedRegionsSelect(rs: seq<Region>, key: int, vel: int, random: real)
    ensures forall r :: r in PlayedRegions(rs, key, vel, random) <==> r in rs && Plays(r, key, vel, random)
  {
    if |rs| > 0 {
      var k := |rs| - 1;
      PlayedRegionsSelect(rs[..k], key, vel, random);
      assert rs == rs[..k] + [rs[k]];
    }
  }

  /**
    * The CC check is compiled out: a region's locc/hicc ranges have no
    * say in whether it plays.
    */
  lemma SelectionIgnoresCcRanges(r: Region, locc: seq<int>, hicc: seq<int>, key: int, vel: int, random: real)
    ensures Plays(r.(locc := locc, hicc := hicc), key, vel, random) == Plays(r, key, vel, random)
    ensures AttackMatch(r.(locc := locc, hicc := hicc), key, vel) == AttackMatch(r, key, vel)
  {
  }

  /** Every region that matches key, velocity and trigger advances its counter. */
  function AdvanceMatching(rs: seq<Region>, key: int, vel: int): (rs': seq<Region>)
    ensures |rs'| == |rs|
  {
    seq(|rs|, i requires 0 <= i < |rs| => if AttackMatch(rs[i], key, vel) then Advanced(rs[i]) else rs[i])
  }

  /**
    * After `note_on` the counter of a region that matched is in
    * 1..max(1, seq_length) when it was not negative; a region that did not
    * match is unchanged.
    */
  lemma AdvanceMatchingCycles(rs: seq<Region>, key: int, vel: int, i: nat)
    requires i < |rs|
    ensures var r' := AdvanceMatching(rs, key, vel)[i];
      (AttackMatch(rs[i], key, vel) && rs[i].playSeq >= 0 ==> 1 <= r'.playSeq <= Max(1, rs[i].seqLength)) &&
      (!AttackMatch(rs[i], key, vel) ==> r' == rs[i]) &&
      r' == rs[i].(playSeq := r'.playSeq)
  {
  }

  /** The indices i < n of the voices `note_off` releases, in increasing order. */
  function ReleasedUpTo(voices: seq<Voice>, n: nat, chan: int, key: int): seq<nat>
    requires n <= |voices|
  {
    if n == 0 then []
    else
      var v := voices[n - 1];
      ReleasedUpTo(voices, n - 1, chan, key) +
        (if v.used && v.channel == chan && v.key == key && v.region.loopMode != OneShot then [n - 1] else [])
  }

  /** Voice i is released by a note-off on (chan, key). */
  predicate ReleasedByNoteOff(v: Voice, chan: int, key: int)
  {
    v.used && v.channel == chan && v.key == key && v.region.loopMode != OneShot
  }

  /**
    * `note_off` releases the envelope of exactly the used voices on the
    * channel and key whose region is not one_shot, once each, in pool order.
    */
  lemma {:induction false} ReleasedUpToIff(voices: seq<Voice>, n: nat, chan: int, key: int)
    requires n <= |voices|
    ensures Increasing(ReleasedUpTo(voices, n, chan, key))
    ensures forall k :: 0 <= k < |ReleasedUpTo(voices, n, chan, key)| ==> ReleasedUpTo(voices, n, chan, key)[k] < n
    ensures forall i :: i in ReleasedUpTo(voices, n, chan, key) <==> 0 <= i < n && ReleasedByNoteOff(voices[i], chan, key)
  {
    if n > 0 {
      ReleasedUpToIff(voices, n - 1, chan, key);
    }
  }

  /** What `process` reads of the queue: the three MIDI bytes. */
  datatype MidiEvent = MidiEvent(offset: nat, status: bv8, data1: bv8, data2: bv8)

  /** The high nibble of the status byte: the message type. */
  function MessageType(b: bv8): bv8
  {
    b & 0xF0
  }

  /** The low nibble of the status byte: the MIDI channel. */
  function Channel(b: bv8): bv8
  {
    b & 0x0F
  }

  /** Type and channel split the status byte: together they give it back, and each is a nibble. */
  lemma StatusSplits(b: bv8)
    ensures MessageType(b) | Channel(b) == b
    ensures MessageType(b) & 0x0F == 0 && Channel(b) < 16
  {
  }

  /** Only note-off (0x8n) and note-on (0x9n) messages are queued. */
  predicate Queued(b: bv8)
  {
    MessageType(b) == 0x80 || MessageType(b) == 0x90
  }

  /** The synth's state as events see it; `releases` logs the voices whose envelope was released. */
  datatype SrcState = SrcState(voices: seq<Voice>, regions: seq<Region>, releases: seq<nat>)

  /** `note_on`: start a voice for each region that plays, advance every matching region. */
  function NoteOnState(st: SrcState, chan: int, key: int, vel: int, random: real, sampleRate: int, gains: Gains): SrcState
  {
    var a := VoiceArgs(sampleRate, chan, key, vel, gains);
    st.(voices := AddVoices(st.voices, PlayedRegions(st.regions, key, vel, random), a),
        regions := AdvanceMatching(st.regions, key, vel))
  }

  /** `note_off`: release the envelopes of the matching voices. */
  function NoteOffState(st: SrcState, chan: int, key: int): SrcState
  {
    st.(releases := st.releases + ReleasedUpTo(st.voices, |st.voices|, chan, key))
  }

  /** One queued event: note-off for 0x8n, note-on for 0x9n, nothing otherwise. */
  function EventState(st: SrcState, e: MidiEvent, random: real, sampleRate: int, gains: Gains): SrcState
  {
    var t := MessageType(e.status);
    var chan := Channel(e.status) as int;
    if t == 0x80 then NoteOffState(st, chan, e.data1 as int)
    else if t == 0x90 then NoteOnState(st, chan, e.data1 as int, e.data2 as int, random, sampleRate, gains)
    else st
  }

  /** The queue applied in order; the event offsets play no part. */
  function Dispatched(st: SrcState, events: seq<MidiEvent>, randoms: seq<real>, sampleRate: int, gains: Gains): SrcState
    requires |randoms| == |events|
  {
    if |events| == 0 then st
    else
      var k := |events| - 1;
      EventState(Dispatched(st, events[..k], randoms[..k], sampleRate, gains), events[k], randoms[k], sampleRate, gains)
  }

  /**
    * Applying the queue never removes a voice: the vector only grows and
    * the regions keep their number.
    */
  lemma {:induction false} DispatchedKeepsVoices(st: SrcState, events: seq<MidiEvent>, randoms: seq<real>, sampleRate: int, gains: Gains)
    requires |randoms| == |events|
    ensures var st' := Dispatched(st, events, randoms, sampleRate, gains);
      |st'.voices| >= |st.voices| && |st'.regions| == |st.regions| && |st'.releases| >= |st.releases|
  {
    if |events| > 0 {
      var k := |events| - 1;
      var mid := Dispatched(st, events[..k], randoms[..k], sampleRate, gains);
      DispatchedKeepsVoices(st, events[..k], randoms[..k], sampleRate, gains);
      var e := events[k];
      if MessageType(e.status) == 0x90 {
        AddVoicesCount(mid.voices, PlayedRegions(mid.regions, e.data1 as int, e.data2 as int, randoms[k]),
                       VoiceArgs(sampleRate, Channel(e.status) as int, e.data1 as int, e.data2 as int, gains));
      }
    }
  }

  /** The indices of the used voices, which `process` asks to render. */
  function UsedIndices(voices: seq<Voice>, n: nat): (s: seq<nat>)
    requires n <= |voices|
    ensures Increasing(s) && forall k :: 0 <= k < |s| ==> s[k] < n
    ensures forall i :: i in s <==> 0 <= i < n && voices[i].used
  {
    if n == 0 then []
    else UsedIndices(voices, n - 1) + (if voices[n - 1].used then [n - 1] else [])
  }

  /** The `1 / 32768.` that scales an envelope value into the amplitude gain of a frame. */
  const AmpScale: real := 1.0 / 32768.0

  /**
    * What `process` renders with besides the voices' own fields: the
    * replay step of each voice (the ratio of the sample's rate to the
    * synth's, times the ratio of `note_to_freq` of the key and of the
    * pitch key centre), and for voice i the values its envelope's
    * `get_next` returns until it is done.
    */
  datatype Render = Render(step: Voice -> real, envelope: nat -> seq<real>)

  /**
    * A voice `process` renders: a used one with a loaded sample of one or
    * two channels, a step that is not negative and a position that is not
    * negative.
    */
  predicate Renders(v: Voice, rd: Render)
  {
    v.used && v.region.cachedSample.Some? && ValidPlayback(PlaybackAt(v, rd.step(v))) && v.ppos >= 0.0
  }

  /**
    * Voice i after a block of n frames: a rendered voice moves on n steps
    * and stays used only when it played every frame; any other voice is
    * left alone.
    */
  function RenderedVoice(v: Voice, i: nat, n: nat, rd: Render): (v': Voice)
    ensures v' == v.(used := v'.used, ppos := v'.ppos)
    ensures v'.used ==> v.used
    ensures !Renders(v, rd) ==> v' == v
  {
    if Renders(v, rd) then
      var pb := PlaybackAt(v, rd.step(v));
      v.(used := AllPlaying(pb, v.ppos, rd.envelope(i), n), ppos := PposAt(pb, v.ppos, n))
    else v
  }

  /** The pool after a block of n frames, voice by voice. */
  function RenderedVoices(voices: seq<Voice>, n: nat, rd: Render): (vs: seq<Voice>)
    ensures |vs| == |voices|
    ensures forall i :: 0 <= i < |vs| ==> vs[i] == RenderedVoice(voices[i], i, n, rd)
  {
    seq(|voices|, i requires 0 <= i < |voices| => RenderedVoice(voices[i], i, n, rd))
  }

  /**
    * What voice i adds to frame k of a block: its interpolated window at
    * the frame's position, scaled by the next envelope value, when the
    * frame is played; nothing otherwise.
    */
  function VoiceFrame(v: Voice, i: nat, k: nat, rd: Render): (real, real)
  {
    if Renders(v, rd) then PlayedFrame(PlaybackAt(v, rd.step(v)), v.ppos, rd.envelope(i), v, k) else (0.0, 0.0)
  }

  /** Frame k of a call to `Voice::process` from position p0 with envelope values env: mixed when played, silent otherwise. */
  function PlayedFrame(pb: Playback, p0: real, env: seq<real>, v: Voice, k: nat): (real, real)
    requires ValidPlayback(pb) && p0 >= 0.0
  {
    if Playing(pb, p0, env, k) then
      FrameOut(pb, PposAt(pb, p0, k), env[Consumed(pb, p0, env, k)] * AmpScale, v.leftGain, v.rightGain)
    else (0.0, 0.0)
  }

  /** Frame k of a block after the first m voices of the pool, in pool order, added to it. */
  function MixUpTo(voices: seq<Voice>, k: nat, rd: Render, m: nat): (real, real)
    requires m <= |voices|
  {
    if m == 0 then (0.0, 0.0)
    else
      var s := MixUpTo(voices, k, rd, m - 1);
      var o := VoiceFrame(voices[m - 1], m - 1, k, rd);
      (s.0 + o.0, s.1 + o.1)
  }

  /** `Voice::process` called with the model's step, scale and envelope mixes exactly `VoiceFrame` into each frame. */
  lemma FrameDoneMixes(v: Voice, i: nat, k: nat, rd: Render, l0: real, l: real, r0: real, r: real)
    requires Renders(v, rd)
    requires FrameDone(PlaybackAt(v, rd.step(v)), v.ppos, rd.envelope(i), AmpScale, v, k, l0, l, r0, r)
    ensures l == l0 + VoiceFrame(v, i, k, rd).0 && r == r0 + VoiceFrame(v, i, k, rd).1
  {
  }

  /** A pool with no used voice among its first m voices adds silence to every frame. */
  lemma {:induction false} UnusedMixIsSilent(voices: seq<Voice>, k: nat, rd: Render, m: nat)
    requires m <= |voices|
    requires forall i :: 0 <= i < m ==> !voices[i].used
    ensures MixUpTo(voices, k, rd, m) == (0.0, 0.0)
  {
    if m > 0 {
      UnusedMixIsSilent(voices, k, rd, m - 1);
    }
  }

  /**
    * A voice that is still used after a block played every frame of it,
    * and frame k took the k-th envelope value: the older `process`, which
    * never stops early, mixes the same values into those frames as the
    * later one, which stops at the first silent frame.
    */
  lemma StillUsedPlayedEveryFrame(v: Voice, i: nat, n: nat, k: nat, rd: Render)
    requires Renders(v, rd) && RenderedVoice(v, i, n, rd).used && k < n
    ensures k < |rd.envelope(i)| && Playing(PlaybackAt(v, rd.step(v)), v.ppos, rd.envelope(i), k)
    ensures Consumed(PlaybackAt(v, rd.step(v)), v.ppos, rd.envelope(i), k) == k
  {
    AllPlayedInOrder(PlaybackAt(v, rd.step(v)), v.ppos, rd.envelope(i), k, n);
  }

  /** In a block played throughout, frame k is played with the k-th envelope value. */
  lemma AllPlayedInOrder(pb: Playback, p0: real, env: seq<real>, k: nat, n: nat)
    requires ValidPlayback(pb) && p0 >= 0.0
    requires k < n && AllPlaying(pb, p0, env, n)
    ensures Playing(pb, p0, env, k) && Consumed(pb, p0, env, k) == k
  {
    AllPlayingPrefix(pb, p0, env, k + 1, n);
    PlayingFramesConsumeInOrder(pb, p0, env, k);
  }

  /**
    * A voice with a silent frame in a block is no longer used after it:
    * rendering frees the voice for `add_voice`.
    */
  lemma SilentFrameFreesVoice(v: Voice, i: nat, n: nat, k: nat, rd: Render)
    requires Renders(v, rd) && k < n
    requires !Playing(PlaybackAt(v, rd.step(v)), v.ppos, rd.envelope(i), k)
    ensures !RenderedVoice(v, i, n, rd).used
  {
    SilentFrameClearsUsed(PlaybackAt(v, rd.step(v)), v.ppos, rd.envelope(i), k, n);
  }

  /** Rendering never starts a voice: a pool whose voices are used only where another's are has no more used voices. */
  lemma {:induction false} UsedCountMonotone(a: seq<Voice>, b: seq<Voice>)
    requires |a| == |b| && forall i :: 0 <= i < |b| ==> b[i].used ==> a[i].used
    ensures UsedCount(b) <= UsedCount(a)
  {
    if |a| > 0 {
      UsedCountMonotone(a[1..], b[1..]);
    }
  }

  /** After a block the pool keeps its size and has no more used voices than before. */
  lemma RenderedVoicesUsed(voices: seq<Voice>, n: nat, rd: Render)
    ensures |RenderedVoices(voices, n, rd)| == |voices|
    ensures UsedCount(RenderedVoices(voices, n, rd)) <= UsedCount(voices)
  {
    UsedCountMonotone(voices, RenderedVoices(voices, n, rd));
  }

  class Synth {
    var sampleRate: nat
    var regions: seq<Region>
    var voices: seq<Voice>
    var midiEvents: seq<MidiEvent>
    const gains: Gains
    /** The voices whose envelope `note_off` released, in call order. */
    ghost var releases: seq<nat>
    /** For each `process` call, the voices asked to render. */
    ghost var rendered: seq<seq<nat>>

    ghost function State(): SrcState
      reads this`voices, this`regions, this`releases
    {
      SrcState(voices, regions, releases)
    }

    /** Every queued event is a note-on or note-off. */
    predicate QueueValid()
      reads this`midiEvents
    {
      forall k :: 0 <= k < |midiEvents| ==> Queued(midiEvents[k].status)
    }

    /** A synth with the loaded regions, no voices and an empty queue; the sample rate defaults to 44100. */
    constructor (regions: seq<Region>, gains: Gains)
      ensures this.regions == regions && this.gains == gains && sampleRate == 44100
      ensures voices == [] && midiEvents == [] && releases == [] && rendered == []
      ensures QueueValid()
    {
      this.regions := regions;
      this.gains := gains;
      sampleRate := 44100;
      voices := [];
      midiEvents := [];
      releases := [];
      rendered := [];
    }

    /** `set_sample_rate`. */
    method SetSampleRate(rate: nat)
      modifies this`sampleRate
      ensures sampleRate == rate
    {
      sampleRate := rate;
    }

    /** The loop of `add_voice` over the pool: the first unused voice, if any. */
    method FindUnused() returns (slot: Option<nat>)
      ensures slot == FirstUnused(voices)
    {
      var i := 0;
      while i < |voices|
        invariant i <= |voices|
        invariant forall j :: 0 <= j < i ==> voices[j].used
      {
        if !voices[i].used {
          FirstUnusedIs(voices, i);
          return Some(i);
        }
        i := i + 1;
      }
      NoneUnused(voices);
      return None;
    }

    /** `add_voice`: set up the first unused voice, or a new one at the end. */
    method AddVoice(r: Region, a: VoiceArgs)
      modifies this`voices
      ensures voices == AddVoiceTo(old(voices), r, a)
    {
      var slot := FindUnused();
      if slot.Some? {
        voices := voices[slot.value := Started(voices[slot.value], r, a)];
      } else {
        voices := voices + [Started(NewVoice, r, a)];
      }
    }

    /**
      * `note_on` with the note's random number in [0, 1): every region
      * that matches key, velocity and trigger advances its counter, and
      * those that play start a voice, in region order.
      */
    method NoteOn(chan: int, key: int, vel: int, random: real)
      modifies this`voices, this`regions
      ensures State() == NoteOnState(old(State()), chan, key, vel, random, sampleRate, gains)
    {
      var a := VoiceArgs(sampleRate, chan, key, vel, gains);
      regions := PlayRegions(key, vel, random, a);
    }

    /** The loop of `note_on` over the regions. */
    method PlayRegions(key: int, vel: int, random: real, a: VoiceArgs) returns (rs: seq<Region>)
      modifies this`voices
      ensures rs == AdvanceMatching(regions, key, vel)
      ensures voices == AddVoices(old(voices), PlayedRegions(regions, key, vel, random), a)
    {
      ghost var regs := regions;
      rs := regions;
      var i := 0;
      while i < |rs|
        invariant i <= |rs| == |regs|
        invariant forall j :: 0 <= j < i ==> rs[j] == AdvanceMatching(regs, key, vel)[j]
        invariant forall j :: i <= j < |rs| ==> rs[j] == regs[j]
        invariant voices == AddVoices(old(voices), PlayedRegions(regs[..i], key, vel, random), a)
      {
        var r := rs[i];
        AddVoicesStep(old(voices), regs, i, key, vel, random, a);
        var r' := VisitRegion(r, key, vel, random, a);
        rs := rs[i := r'];
        i := i + 1;
      }
      assert regs[..i] == regs;
    }

    /** One region of the `note_on` loop: a matching region advances its counter and, when it plays, starts a voice. */
    method VisitRegion(r: Region, key: int, vel: int, random: real, a: VoiceArgs) returns (r': Region)
      modifies this`voices
      ensures voices == if Plays(r, key, vel, random) then AddVoiceTo(old(voices), r, a) else old(voices)
      ensures r' == if AttackMatch(r, key, vel) then Advanced(r) else r
    {
      r' := r;
      if AttackMatch(r, key, vel) {
        if SeqAndRandom(r, random) && r.cachedSample.Some? {
          AddVoice(r, a);
        }
        r' := Advanced(r);
      }
    }

    /** `note_off`: release the envelope of every used voice on the channel and key, unless one_shot. */
    method NoteOff(chan: int, key: int)
      modifies this`releases
      ensures State() == NoteOffState(old(State()), chan, key)
    {
      var i := 0;
      ghost var r0 := releases;
      while i < |voices|
        invariant i <= |voices|
        invariant releases == r0 + ReleasedUpTo(voices, i, chan, key)
      {
        var v := voices[i];
        if v.used && v.channel == chan && v.key == key && v.region.loopMode != OneShot {
          releases := releases + [i];
        }
        i := i + 1;
      }
    }

    /** `add_midi_event`: queue a note-off or note-on with its three bytes, ignore any other message. */
    method AddMidiEvent(offset: nat, status: bv8, data1: bv8, data2: bv8)
      requires QueueValid()
      modifies this`midiEvents
      ensures QueueValid()
      ensures midiEvents == old(midiEvents) + (if Queued(status) then [MidiEvent(offset, status, data1, data2)] else [])
    {
      var t := status & 0xF0;
      if t == 0x80 || t == 0x90 {
        midiEvents := midiEvents + [MidiEvent(offset, status, data1, data2)];
      }
    }

    /**
      * `process`: apply the queue in order with one random number per
      * event, zero the first nframes frames of both outputs, render every
      * used voice into them in pool order, and empty the queue.
      */
    method Process(outLeft: array<real>, outRight: array<real>, nframes: nat, randoms: seq<real>, rd: Render)
      requires |randoms| == |midiEvents|
      requires outLeft != outRight && nframes <= outLeft.Length && nframes <= outRight.Length
      modifies this`voices, this`regions, this`releases, this`midiEvents, this`rendered, outLeft, outRight
      ensures var st := Dispatched(old(State()), old(midiEvents), randoms, sampleRate, gains);
        State() == st.(voices := RenderedVoices(st.voices, nframes, rd))
      ensures var st := Dispatched(old(State()), old(midiEvents), randoms, sampleRate, gains);
        forall k :: 0 <= k < nframes ==>
          outLeft[k] == MixUpTo(st.voices, k, rd, |st.voices|).0 && outRight[k] == MixUpTo(st.voices, k, rd, |st.voices|).1
      ensures var st := Dispatched(old(State()), old(midiEvents), randoms, sampleRate, gains);
        rendered == old(rendered) + [UsedIndices(st.voices, |st.voices|)]
      ensures midiEvents == [] && QueueValid()
      ensures forall k :: nframes <= k < outLeft.Length ==> outLeft[k] == old(outLeft[k])
      ensures forall k :: nframes <= k < outRight.Length ==> outRight[k] == old(outRight[k])
    {
      DispatchAll(randoms);
      LibSynth.Synth.ZeroBlock(outLeft, nframes);
      LibSynth.Synth.ZeroBlock(outRight, nframes);
      rendered := rendered + [UsedIndices(voices, |voices|)];
      RenderVoices(outLeft, outRight, nframes, rd);
      midiEvents := [];
    }

    /** The loop of `process` over the pool: every voice, in order, renders its frames into the outputs. */
    method RenderVoices(outLeft: array<real>, outRight: array<real>, nframes: nat, rd: Render)
      requires outLeft != outRight && nframes <= outLeft.Length && nframes <= outRight.Length
      modifies this`voices, outLeft, outRight
      ensures voices == RenderedVoices(old(voices), nframes, rd)
      ensures forall k :: 0 <= k < nframes ==>
        outLeft[k] == old(outLeft[k]) + MixUpTo(old(voices), k, rd, |old(voices)|).0 &&
        outRight[k] == old(outRight[k]) + MixUpTo(old(voices), k, rd, |old(voices)|).1
      ensures forall k :: nframes <= k < outLeft.Length ==> outLeft[k] == old(outLeft[k])
      ensures forall k :: nframes <= k < outRight.Length ==> outRight[k] == old(outRight[k])
    {
      ghost var v0 := voices;
      var i := 0;
      while i < |voices|
        invariant |voices| == |v0| && i <= |v0|
        invariant forall j :: 0 <= j < i ==> voices[j] == RenderedVoice(v0[j], j, nframes, rd)
        invariant forall j :: i <= j < |v0| ==> voices[j] == v0[j]
        invariant forall k :: 0 <= k < nframes ==>
          outLeft[k] == old(outLeft[k]) + MixUpTo(v0, k, rd, i).0 && outRight[k] == old(outRight[k]) + MixUpTo(v0, k, rd, i).1
        invariant forall k :: nframes <= k < outLeft.Length ==> outLeft[k] == old(outLeft[k])
        invariant forall k :: nframes <= k < outRight.Length ==> outRight[k] == old(outRight[k])
      {
        RenderVoice(outLeft, outRight, nframes, i, rd);
        i := i + 1;
      }
    }

    /** Voice i of the `process` loop: a used voice renders nframes frames into the outputs. */
    method RenderVoice(outLeft: array<real>, outRight: array<real>, nframes: nat, i: nat, rd: Render)
      requires i < |voices|
      requires outLeft != outRight && nframes <= outLeft.Length && nframes <= outRight.Length
      modifies this`voices, outLeft, outRight
      ensures voices == old(voices)[i := RenderedVoice(old(voices)[i], i, nframes, rd)]
      ensures forall k :: 0 <= k < nframes ==>
        outLeft[k] == old(outLeft[k]) + VoiceFrame(old(voices)[i], i, k, rd).0 &&
        outRight[k] == old(outRight[k]) + VoiceFrame(old(voices)[i], i, k, rd).1
      ensures forall k :: nframes <= k < outLeft.Length ==> outLeft[k] == old(outLeft[k])
      ensures forall k :: nframes <= k < outRight.Length ==> outRight[k] == old(outRight[k])
    {
      var v := voices[i];
      if Renders(v, rd) {
        ghost var l0, r0 := outLeft[..], outRight[..];
        var v', _ := SrcVoice.Process(v, rd.step(v), AmpScale, rd.envelope(i), nframes, outLeft, outRight);
        voices := voices[i := v'];
        forall k | 0 <= k < nframes
          ensures outLeft[k] == l0[k] + VoiceFrame(v, i, k, rd).0 && outRight[k] == r0[k] + VoiceFrame(v, i, k, rd).1
        {
          FrameDoneMixes(v, i, k, rd, l0[k], outLeft[k], r0[k], outRight[k]);
        }
      }
    }

    /** The loop of `process` over the queue. */
    method DispatchAll(randoms: seq<real>)
      requires |randoms| == |midiEvents|
      modifies this`voices, this`regions, this`releases
      ensures State() == Dispatched(old(State()), midiEvents, randoms, sampleRate, gains)
    {
      ghost var st0 := State();
      var evs := midiEvents;
      var i := 0;
      while i < |evs|
        invariant i <= |evs|
        invariant State() == Dispatched(st0, evs[..i], randoms[..i], sampleRate, gains)
      {
        DispatchEvent(evs[i], randoms[i]);
        assert evs[..i + 1][..i] == evs[..i] && randoms[..i + 1][..i] == randoms[..i];
        i := i + 1;
      }
      assert evs[..i] == evs && randoms[..i] == randoms;
    }

    /** One queued event: its high nibble picks note-off or note-on, its low nibble the channel. */
    method DispatchEvent(e: MidiEvent, random: real)
      modifies this`voices, this`regions, this`releases
      ensures State() == EventState(old(State()), e, random, sampleRate, gains)
    {
      var t := e.status & 0xF0;
      var chan := (e.status & 0x0F) as int;
      if t == 0x80 {
        NoteOff(chan, e.data1 as int);
      } else if t == 0x90 {
        NoteOn(chan, e.data1 as int, e.data2 as int, random);
      }
    }
  }

  lemma FirstUnusedIs(voices: seq<Voice>, i: nat)
    requires i < |voices| && !voices[i].used && forall j :: 0 <= j < i ==> voices[j].used
    ensures FirstUnused(voices) == Some(i)
  {
    match FirstUnused(voices)
    case None =>
    case Some(k) =>
  }

  lemma NoneUnused(voices: seq<Voice>)
    requires forall j :: 0 <= j < |voices| ==> voices[j].used
    ensures FirstUnused(voices) == None
  {
  }
}
