/**
  * What the events of lib/synth.hh do to the synth, as functions of its
  * state: the voice pool, the loader's regions and the per-channel CC
  * values. The `Synth` class (module LibSynth) runs the same operations
  * with loops and is proved to match these functions.
  */
module SynthSpec {
  import opened Text
  import opened SfzRegion
  import opened LibVoice
  import opened RoundRobin
  import opened VoicePool
  import opened VoicePlayback

  /** `CC_SUSTAIN`, the damper pedal of MIDI 1.0. */
  const CcSustain: int := 0x40

  /** The state note and controller events act on. */
  datatype SynthState = SynthState(voices: seq<Voice>, regions: seq<Region>, channels: seq<seq<int>>)

  /** The settings of a synth that no event changes. */
  datatype Params = Params(sampleRate: nat, maxBlockSize: nat, dbToFactor: real -> real, panFactor: (Region, int) -> real)

  /** What `release` reads, at frame count gfc. */
  function CtxOf(st: SynthState, gfc: nat, p: Params): Ctx
  {
    Ctx(st.regions, gfc, p.sampleRate, p.dbToFactor, p.panFactor)
  }

  /** A row of 128 stored CC values, each a `uint8_t`. */
  predicate CcRow(row: seq<int>)
  {
    |row| == CcCount && forall k :: 0 <= k < |row| ==> 0 <= row[k] < 256
  }

  /**
    * Regions are well formed, every channel has its 128 CC values, every
    * region with a loaded sample can be played, every voice that is not
    * IDLE can be played, and no voice started after frame gfc.
    */
  predicate StateValid(st: SynthState, gfc: nat)
  {
    (forall i :: 0 <= i < |st.regions| ==> WellFormed(st.regions[i])) &&
    (forall c :: 0 <= c < |st.channels| ==> CcRow(st.channels[c])) &&
    RegionsPlayable(st.regions) && PoolValid(st.voices, gfc)
  }

  /** Validity survives the frame counter moving on. */
  lemma StateValidLater(st: SynthState, gfc: nat, gfc': nat)
    requires StateValid(st, gfc) && gfc <= gfc'
    ensures StateValid(st, gfc')
  {
  }

  /**
    * The bounds check of `update_cc` and `get_cc` as written:
    * `x < 0 || uint (x) > size` rejects, so x == size is let through.
    */
  predicate IndexOkAsWritten(x: int, size: nat)
  {
    !(x < 0 || x > size)
  }

  /** The bounds check the code evidently intends: `x >= size` rejects too. */
  predicate IndexOk(x: int, size: nat)
  {
    0 <= x < size
  }

  /** The check as written admits the index one past the end, which the vector does not hold. */
  lemma IndexAsWrittenAdmitsSize(size: nat)
    ensures IndexOkAsWritten(size, size) && !IndexOk(size, size)
  {
  }

  /** The two checks agree on every index but the size itself; the corrected one only admits indices in bounds. */
  lemma IndexChecksDifferOnlyAtSize(x: int, size: nat)
    ensures IndexOk(x, size) ==> IndexOkAsWritten(x, size)
    ensures IndexOkAsWritten(x, size) && x != size ==> IndexOk(x, size)
    ensures IndexOk(x, size) ==> 0 <= x && x < size
  {
  }

  /** `get_cc` with the corrected bounds checks: the stored value, or 0 for a bad channel or controller. */
  function CcOf(channels: seq<seq<int>>, channel: int, controller: int): int
  {
    if !IndexOk(channel, |channels|) then 0
    else if !IndexOk(controller, |channels[channel]|) then 0
    else channels[channel][controller]
  }

  /** Every value `get_cc` returns is a byte. */
  lemma CcOfIsByte(channels: seq<seq<int>>, channel: int, controller: int)
    ensures (forall c :: 0 <= c < |channels| ==> CcRow(channels[c])) ==> 0 <= CcOf(channels, channel, controller) < 256
  {
  }

  /** The 128 values `get_cc (chan, cc)` returns for one channel. */
  function CcValues(channels: seq<seq<int>>, chan: int): (ccs: seq<int>)
    ensures |ccs| == CcCount
  {
    seq(CcCount, cc requires 0 <= cc => CcOf(channels, chan, cc))
  }

  /** The regions after a note: every selected region advances its round-robin counter. */
  function AdvanceSelected(regions: seq<Region>, ccs: seq<int>, key: int, vel: int): (rs: seq<Region>)
    ensures |rs| == |regions|
  {
    seq(|regions|, i requires 0 <= i < |regions| =>
      if Selected(regions[i], ccs, key, vel) then Advanced(regions[i]) else regions[i])
  }

  /**
    * `note_on`: release the overlapping attack voices of the same channel
    * and key, then start a voice for every region that plays, and advance
    * the counter of every selected region. `random` is the note's random
    * number.
    */
  function NoteOnState(st: SynthState, chan: int, key: int, vel: int, random: real, gfc: nat, p: Params): SynthState
    requires p.sampleRate > 0
  {
    var swept := SweepVoices(ReleaseOverlapping(chan, key), st.voices, |st.voices|, CtxOf(st, gfc, p));
    var ccs := CcValues(st.channels, chan);
    var a := StartArgs(chan, key, vel, 0.0, gfc, p.sampleRate, p.dbToFactor, p.panFactor);
    SynthState(Launch(swept, PlayedRegions(st.regions, ccs, key, vel, random), a),
               AdvanceSelected(st.regions, ccs, key, vel), st.channels)
  }

  /** `note_off`: with the pedal down (CC 64 at least 64) matching voices sustain, otherwise they are released. */
  function NoteOffState(st: SynthState, chan: int, key: int, gfc: nat, p: Params): SynthState
    requires p.sampleRate > 0
  {
    var s := if CcOf(st.channels, chan, CcSustain) >= 0x40 then NoteOffSustain(chan, key) else NoteOffRelease(chan, key);
    st.(voices := SweepVoices(s, st.voices, |st.voices|, CtxOf(st, gfc, p)))
  }

  /**
    * `update_cc` with the corrected bounds checks: a bad channel or
    * controller changes nothing; otherwise the value is stored as a
    * `uint8_t`, and lifting the pedal (CC 64 below 64) releases every
    * SUSTAIN voice of every channel.
    */
  function CcState(st: SynthState, channel: int, controller: int, value: int, gfc: nat, p: Params): SynthState
    requires p.sampleRate > 0
  {
    if !IndexOk(channel, |st.channels|) || !IndexOk(controller, |st.channels[channel]|) then st
    else
      var st' := st.(channels := st.channels[channel := st.channels[channel][controller := value % 256]]);
      if controller == CcSustain && value < 0x40 then
        st'.(voices := SweepVoices(ReleaseSustained, st'.voices, |st'.voices|, CtxOf(st', gfc, p)))
      else st'
  }

  /** A valid controller update stores exactly that byte and leaves every other CC as it was. */
  lemma CcStateStores(st: SynthState, channel: int, controller: int, value: int, gfc: nat, p: Params)
    requires p.sampleRate > 0
    ensures forall c, k :: 0 <= c < |st.channels| && 0 <= k < |st.channels[c]| ==>
      CcOf(CcState(st, channel, controller, value, gfc, p).channels, c, k) ==
        if c == channel && k == controller then value % 256 else CcOf(st.channels, c, k)
  {
  }

  /** Each operation keeps the state valid. */
  lemma NoteOnKeepsValid(st: SynthState, chan: int, key: int, vel: int, random: real, gfc: nat, p: Params)
    requires p.sampleRate > 0 && StateValid(st, gfc)
    ensures StateValid(NoteOnState(st, chan, key, vel, random, gfc, p), gfc)
  {
    var ctx := CtxOf(st, gfc, p);
    SweepKeepsPoolValid(ReleaseOverlapping(chan, key), st.voices, ctx);
    var ccs := CcValues(st.channels, chan);
    PlayedRegionsSelect(st.regions, ccs, key, vel, random);
    var swept := SweepVoices(ReleaseOverlapping(chan, key), st.voices, |st.voices|, ctx);
    LaunchKeepsPoolValid(swept, PlayedRegions(st.regions, ccs, key, vel, random),
                         StartArgs(chan, key, vel, 0.0, gfc, p.sampleRate, p.dbToFactor, p.panFactor), gfc);
  }

  lemma NoteOffKeepsValid(st: SynthState, chan: int, key: int, gfc: nat, p: Params)
    requires p.sampleRate > 0 && StateValid(st, gfc)
    ensures StateValid(NoteOffState(st, chan, key, gfc, p), gfc)
  {
    SweepKeepsPoolValid(NoteOffSustain(chan, key), st.voices, CtxOf(st, gfc, p));
    SweepKeepsPoolValid(NoteOffRelease(chan, key), st.voices, CtxOf(st, gfc, p));
  }

  lemma CcKeepsValid(st: SynthState, channel: int, controller: int, value: int, gfc: nat, p: Params)
    requires p.sampleRate > 0 && StateValid(st, gfc)
    ensures StateValid(CcState(st, channel, controller, value, gfc, p), gfc)
  {
    if IndexOk(channel, |st.channels|) && IndexOk(controller, |st.channels[channel]|) {
      var st' := st.(channels := st.channels[channel := st.channels[channel][controller := value % 256]]);
      assert StateValid(st', gfc) by {
        forall c | 0 <= c < |st'.channels|
          ensures CcRow(st'.channels[c])
        {
          assert CcRow(st.channels[c]);
        }
      }
      SweepKeepsPoolValid(ReleaseSustained, st'.voices, CtxOf(st', gfc, p));
    }
  }

  /**
    * After `note_off` no ACTIVE attack voice of that channel and key is
    * left (unless its region is one-shot): with the pedal down they all
    * sustain, otherwise they are all released.
    */
  lemma NoteOffLeavesNoActiveVoice(st: SynthState, chan: int, key: int, gfc: nat, p: Params)
    requires p.sampleRate > 0
    ensures forall i :: 0 <= i < |st.voices| ==>
      var v := NoteOffState(st, chan, key, gfc, p).voices[i];
      !(v.state == Active && v.trigger == Attack && v.channel == chan && v.key == key && v.region.loopMode != OneShot)
  {
    var s := if CcOf(st.channels, chan, CcSustain) >= 0x40 then NoteOffSustain(chan, key) else NoteOffRelease(chan, key);
    SweepEffect(s, st.voices, |st.voices|, CtxOf(st, gfc, p));
  }

  /** Lifting the pedal leaves no SUSTAIN voice. */
  lemma PedalUpLeavesNoSustain(st: SynthState, channel: int, value: int, gfc: nat, p: Params)
    requires p.sampleRate > 0 && value < 0x40
    requires IndexOk(channel, |st.channels|) && IndexOk(CcSustain, |st.channels[channel]|)
    ensures forall i :: 0 <= i < |st.voices| ==>
      CcState(st, channel, CcSustain, value, gfc, p).voices[i].state != VoiceState.Sustain
  {
    var st' := st.(channels := st.channels[channel := st.channels[channel][CcSustain := value % 256]]);
    SweepEffect(ReleaseSustained, st'.voices, |st'.voices|, CtxOf(st', gfc, p));
  }

  /**
    * `note_on` releases every overlapping voice: afterwards no voice that
    * was ACTIVE or SUSTAIN on that channel and key with an attack trigger
    * (and a region that is not one-shot) still is.
    */
  lemma NoteOnReleasesOverlapping(st: SynthState, chan: int, key: int, vel: int, random: real, gfc: nat, p: Params)
    requires p.sampleRate > 0
    ensures forall i :: 0 <= i < |st.voices| && Hits(ReleaseOverlapping(chan, key), st.voices[i]) ==>
      NoteOnState(st, chan, key, vel, random, gfc, p).voices[i].state == Released
  {
    var ctx := CtxOf(st, gfc, p);
    var swept := SweepVoices(ReleaseOverlapping(chan, key), st.voices, |st.voices|, ctx);
    SweepEffect(ReleaseOverlapping(chan, key), st.voices, |st.voices|, ctx);
    var ccs := CcValues(st.channels, chan);
    LaunchTakesOnlyIdle(swept, PlayedRegions(st.regions, ccs, key, vel, random),
                        StartArgs(chan, key, vel, 0.0, gfc, p.sampleRate, p.dbToFactor, p.panFactor));
  }

  /**
    * `note_on` starts voices only for regions that play, each at most
    * once per free voice: every voice that changed beyond the sweep was
    * IDLE and now plays a region that passed every check.
    */
  lemma NoteOnStartsOnlyPlayingRegions(st: SynthState, chan: int, key: int, vel: int, random: real, gfc: nat, p: Params)
    requires p.sampleRate > 0
    ensures var swept := SweepVoices(ReleaseOverlapping(chan, key), st.voices, |st.voices|, CtxOf(st, gfc, p));
      forall i :: 0 <= i < |st.voices| ==>
        var v := NoteOnState(st, chan, key, vel, random, gfc, p).voices[i];
        v == swept[i] ||
        (swept[i].state == Idle && v.state == Active && v.channel == chan && v.key == key && v.velocity == vel &&
         v.region in st.regions && Plays(v.region, CcValues(st.channels, chan), key, vel, random))
  {
    var ctx := CtxOf(st, gfc, p);
    var swept := SweepVoices(ReleaseOverlapping(chan, key), st.voices, |st.voices|, ctx);
    var ccs := CcValues(st.channels, chan);
    PlayedRegionsSelect(st.regions, ccs, key, vel, random);
    LaunchTakesOnlyIdle(swept, PlayedRegions(st.regions, ccs, key, vel, random),
                        StartArgs(chan, key, vel, 0.0, gfc, p.sampleRate, p.dbToFactor, p.panFactor));
  }
}
