/**
  * The SFZ region record and the pure opcode-value conversions of the
  * loader: note names, trigger and loop-mode names, the prefix test, and the
  * post-parse resolution of the DEFAULT loop mode.
  */
module SfzRegion {
  import opened Text

  datatype Trigger = Attack | Release | CcTrigger

  datatype LoopMode = NoLoop | OneShot | Continuous | Sustain | DefaultLoop

  /**
    * What a region sees of its sample-cache entry: the channel count, the
    * interleaved sample values, and the loop the sound file declares.
    */
  datatype SampleData = SampleData(channels: nat, samples: seq<int>, loop: bool, loopStart: int, loopEnd: int)

  /**
    * The opcodes a region carries, with `cachedSample` standing for the
    * pointer into the sample cache (None while no sample is loaded) and
    * `playSeq` for the round-robin playback state.
    */
  datatype Region = Region(
    sample: string,
    cachedSample: Option<SampleData>,
    lokey: int, hikey: int,
    lovel: int, hivel: int,
    lorand: real, hirand: real,
    pitchKeycenter: int, pitchKeytrack: int,
    loopStart: int, loopEnd: int, loopMode: LoopMode,
    trigger: Trigger,
    seqLength: int, seqPosition: int,
    locc: seq<int>, hicc: seq<int>,
    ampegDelay: real, ampegAttack: real, ampegDecay: real, ampegSustain: real, ampegRelease: real,
    volume: real, ampVeltrack: real, pan: real, rtDecay: real,
    playSeq: int)

  /** Number of MIDI controllers a region constrains with locc/hicc. */
  const CcCount: nat := 128

  /** n copies of x. */
  function Fill(n: nat, x: int): (s: seq<int>)
    ensures |s| == n && forall k :: 0 <= k < n ==> s[k] == x
  {
    if n == 0 then [] else Fill(n - 1, x) + [x]
  }

  /** A region as `Region()` constructs it. */
  const DefaultRegion: Region := Region(
    "", None,
    0, 127,
    0, 127,
    0.0, 1.0,
    60, 100,
    0, 0, DefaultLoop,
    Attack,
    1, 1,
    Fill(CcCount, 0), Fill(CcCount, 127),
    0.0, 0.0, 0.0, 100.0, 0.0,
    0.0, 100.0, 0.0, 0.0,
    1)

  /** Every region the loaders build has one locc and one hicc entry per controller. */
  predicate WellFormed(r: Region)
  {
    |r.locc| == CcCount && |r.hicc| == CcCount
  }

  /** `empty()`: a region without a sample. */
  predicate Empty(r: Region)
  {
    r.sample == ""
  }

  /** Key and velocity lie inside the region's ranges (both ends inclusive). */
  predicate KeyVelMatch(r: Region, key: int, vel: int)
  {
    r.lokey <= key <= r.hikey && r.lovel <= vel <= r.hivel
  }

  /**
    * The CC condition of note-on: every controller the region constrains
    * (locc != 0 or hicc != 127) has its current value, `ccValue[cc]`, inside
    * [locc, hicc].
    */
  predicate CcMatch(r: Region, ccValue: seq<int>)
    requires WellFormed(r) && |ccValue| == CcCount
  {
    forall cc :: 0 <= cc < CcCount && (r.locc[cc] != 0 || r.hicc[cc] != 127) ==>
      r.locc[cc] <= ccValue[cc] <= r.hicc[cc]
  }

  /** A default region is well formed, accepts every key and velocity of MIDI, and no CC excludes it. */
  lemma DefaultRegionMatchesEverything(key: int, vel: int, ccValue: seq<int>)
    requires 0 <= key <= 127 && 0 <= vel <= 127 && |ccValue| == CcCount
    ensures WellFormed(DefaultRegion) && Empty(DefaultRegion)
    ensures KeyVelMatch(DefaultRegion, key, vel)
    ensures CcMatch(DefaultRegion, ccValue)
    ensures DefaultRegion.trigger == Attack && DefaultRegion.loopMode == DefaultLoop
    ensures DefaultRegion.seqLength == 1 && DefaultRegion.seqPosition == 1 && DefaultRegion.playSeq == 1
  {
  }

  /** tolower for ASCII letters. */
  function ToLower(c: char): char
  {
    if 'A' <= c <= 'Z' then (c as int + 32) as char else c
  }

  /** Semitone offset of a note letter within its octave, case-insensitive. */
  function NoteOffset(c: char): (r: Option<int>)
    ensures r.Some? ==> 0 <= r.value <= 11
  {
    match ToLower(c)
    case 'c' => Some(0)
    case 'd' => Some(2)
    case 'e' => Some(4)
    case 'f' => Some(5)
    case 'g' => Some(7)
    case 'a' => Some(9)
    case 'b' => Some(11)
    case _ => None
  }

  /**
    * `convert_key`: a note name (letter, optional '#' or 'b', octave) gives
    * the MIDI note number 12 * octave + offset + 12; every other string is
    * read with atoi.
    */
  function ConvertKey(k: string): int
  {
    if |k| >= 2 && NoteOffset(k[0]).Some? then
      var offset := NoteOffset(k[0]).value;
      if k[1] == '#' then Atoi(k[2..]) * 12 + (offset + 1) + 12
      else if k[1] == 'b' then Atoi(k[2..]) * 12 + (offset - 1) + 12
      else Atoi(k[1..]) * 12 + offset + 12
    else
      Atoi(k)
  }

  /** A note letter followed by an octave number n is note 12 * n + offset + 12. */
  lemma ConvertKeyOfNoteName(letter: char, n: nat)
    requires NoteOffset(letter).Some?
    ensures ConvertKey([letter] + NatToDigits(n)) == 12 * n + NoteOffset(letter).value + 12
  {
    var k := [letter] + NatToDigits(n);
    assert k[1..] == NatToDigits(n);
    assert IsDigit(k[1]) && k[1] != '#' && k[1] != 'b';
    AtoiOfDigits(n);
    assert ConvertKey(k) == Atoi(k[1..]) * 12 + NoteOffset(letter).value + 12;
  }

  /** '#' raises a note name by one semitone and 'b' lowers it by one. */
  lemma ConvertKeyAccidentals(letter: char, n: nat)
    requires NoteOffset(letter).Some?
    ensures ConvertKey([letter, '#'] + NatToDigits(n)) == ConvertKey([letter] + NatToDigits(n)) + 1
    ensures ConvertKey([letter, 'b'] + NatToDigits(n)) == ConvertKey([letter] + NatToDigits(n)) - 1
  {
    ConvertKeyOfNoteName(letter, n);
    assert ([letter, '#'] + NatToDigits(n))[2..] == NatToDigits(n);
    assert ([letter, 'b'] + NatToDigits(n))[2..] == NatToDigits(n);
    AtoiOfDigits(n);
  }

  /** "c4" is middle C, 60. */
  lemma ConvertKeyMiddleC()
    ensures ConvertKey("c4") == 60
  {
    assert NatToDigits(4) == "4";
    assert "c4" == ['c'] + NatToDigits(4);
    ConvertKeyOfNoteName('c', 4);
  }

  /** In octave 4 every letter, with or without an accidental, lands at 60 plus its offset, in either case. */
  lemma ConvertKeyOctaveFour(letter: char)
    requires NoteOffset(letter).Some?
    ensures ConvertKey([letter, '4']) == 60 + NoteOffset(letter).value
    ensures ConvertKey([letter, '#', '4']) == 61 + NoteOffset(letter).value
    ensures ConvertKey([letter, 'b', '4']) == 59 + NoteOffset(letter).value
  {
    assert NatToDigits(4) == "4";
    ConvertKeyOfNoteName(letter, 4);
    ConvertKeyAccidentals(letter, 4);
    assert [letter] + NatToDigits(4) == [letter, '4'];
    assert [letter, '#'] + NatToDigits(4) == [letter, '#', '4'];
    assert [letter, 'b'] + NatToDigits(4) == [letter, 'b', '4'];
  }

  /** The letter table: c, d, e, f, g, a, b are 0, 2, 4, 5, 7, 9, 11 semitones, and upper case reads the same. */
  lemma NoteOffsetTable(c: char)
    requires 'a' <= c <= 'z'
    ensures NoteOffset(c) == NoteOffset((c as int - 32) as char)
    ensures NoteOffset(c).Some? <==> c in "cdefgab"
    ensures NoteOffset('c') == Some(0) && NoteOffset('d') == Some(2) && NoteOffset('e') == Some(4)
    ensures NoteOffset('f') == Some(5) && NoteOffset('g') == Some(7) && NoteOffset('a') == Some(9)
    ensures NoteOffset('b') == Some(11)
  {
  }

  /** A negative octave number is read with its sign. */
  lemma ConvertKeyOfNegativeOctave(letter: char, n: nat)
    requires NoteOffset(letter).Some?
    ensures ConvertKey([letter, '-'] + NatToDigits(n)) == 12 * (0 - n) + NoteOffset(letter).value + 12
  {
    NegativeOctaveDigits(letter, NatToDigits(n));
    DecimalValueOfDigits(n);
  }

  lemma NegativeOctaveDigits(letter: char, d: string)
    requires NoteOffset(letter).Some? && AllDigits(d)
    ensures ConvertKey([letter, '-'] + d) == 12 * (0 - DecimalValue(d)) + NoteOffset(letter).value + 12
  {
    var k := [letter, '-'] + d;
    var octave := Atoi(k[1..]);
    assert octave == 0 - DecimalValue(d) by {
      assert k[1..] == ['-'] + d;
      AtoiOfNegativeDigitString(d);
    }
    assert ConvertKey(k) == octave * 12 + NoteOffset(letter).value + 12 by {
      assert k[1] == '-';
    }
  }

  /** Octave -1 reaches note 0: "c-1" is 0. */
  lemma ConvertKeyLowestOctave()
    ensures ConvertKey("c-1") == 0
  {
    assert NatToDigits(1) == ['1'];
    assert "c-1" == ['c', '-'] + NatToDigits(1);
    ConvertKeyOfNegativeOctave('c', 1);
  }

  /** A string that does not start with a note letter, or is shorter than two characters, is read with atoi. */
  lemma ConvertKeyFallsBackToAtoi(k: string)
    requires |k| < 2 || NoteOffset(k[0]).None?
    ensures ConvertKey(k) == Atoi(k)
  {
  }

  /** Plain MIDI note numbers pass through unchanged. */
  lemma ConvertKeyOfNumber(n: nat)
    ensures ConvertKey(NatToDigits(n)) == n
  {
    var d := NatToDigits(n);
    assert IsDigit(d[0]);
    assert NoteOffset(d[0]).None?;
    AtoiOfDigits(n);
  }

  /** `convert_trigger`: only the exact word "release" selects release triggering. */
  function ConvertTrigger(t: string): (r: Trigger)
    ensures r == Release <==> t == "release"
    ensures r == Attack <==> t != "release"
  {
    if t == "release" then Release else Attack
  }

  /** `starts_with`: compares the first |start| characters of key (all of key when it is shorter) with start. */
  function StartsWith(key: string, start: string): (r: bool)
    ensures r <==> start <= key
  {
    var n := if |start| <= |key| then |start| else |key|;
    key[..n] == start
  }

  /** `convert_loop_mode`: the four SFZ loop-mode names; anything else gives DEFAULT. */
  function ConvertLoopMode(l: string): (r: LoopMode)
    ensures r == NoLoop <==> l == "no_loop"
    ensures r == OneShot <==> l == "one_shot"
    ensures r == Continuous <==> l == "loop_continuous"
    ensures r == Sustain <==> l == "loop_sustain"
    ensures r == DefaultLoop <==> l !in {"no_loop", "one_shot", "loop_continuous", "loop_sustain"}
  {
    if l == "no_loop" then NoLoop
    else if l == "one_shot" then OneShot
    else if l == "loop_continuous" then Continuous
    else if l == "loop_sustain" then Sustain
    else DefaultLoop
  }

  /**
    * The per-region step after parsing: attach the cache entry, and replace
    * a DEFAULT loop mode by CONTINUOUS with the sample's loop points when the
    * sample loops, by NONE otherwise.
    */
  function ResolveLoopMode(r: Region, cached: Option<SampleData>): (r': Region)
    ensures r'.loopMode != DefaultLoop
    ensures r'.cachedSample == cached
    ensures r.loopMode != DefaultLoop ==> r' == r.(cachedSample := cached)
    ensures r.loopMode == DefaultLoop && cached.Some? && cached.value.loop ==>
      r' == r.(cachedSample := cached, loopMode := Continuous,
               loopStart := cached.value.loopStart, loopEnd := cached.value.loopEnd)
    ensures r.loopMode == DefaultLoop && !(cached.Some? && cached.value.loop) ==>
      r' == r.(cachedSample := cached, loopMode := NoLoop)
  {
    var withSample := r.(cachedSample := cached);
    if r.loopMode != DefaultLoop then withSample
    else if cached.Some? && cached.value.loop then
      withSample.(loopMode := Continuous, loopStart := cached.value.loopStart, loopEnd := cached.value.loopEnd)
    else
      withSample.(loopMode := NoLoop)
  }
}
