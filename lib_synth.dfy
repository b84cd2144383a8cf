/**
  * `Synth` of lib/synth.hh and lib/synth.cc: the voice pool and its note
  * state machine, the per-channel controller values, the event queue, and
  * the block renderer that cuts a block at the events' frame offsets and
  * each slice into chunks of at most `MAX_BLOCK_SIZE` frames.
  */
module LibSynth {
  import opened Text
  import opened SfzRegion
  import opened LibVoice
  import opened RoundRobin
  import opened VoicePool
  import opened SynthSpec
  import opened VoicePlayback

  datatype EventType = NoEvent | NoteOnEvent | NoteOffEvent | CcEvent | PitchBendEvent

  /**
    * `Synth::Event`. `offset` is the frame of the next block the event
    * belongs to (`time_frames` in lib/synth.cc); the other fields are
    * `uint16_t`.
    */
  datatype Event = Event(offset: nat, kind: EventType, channel: nat, arg1: nat, arg2: nat)

  /** 2^16 and 2^32: the widths of the event fields. */
  const U16: int := 0x1_0000
  const U32: int := 0x1_0000_0000

  /** The conversion of an `int` argument to a `uint16_t` field. */
  function ToUint16(v: int): (u: nat)
    ensures u < U16
    ensures 0 <= v < U16 ==> u == v
  {
    v % U16
  }

  /** The severities of the log, DEBUG < INFO < WARNING < ERROR. */
  datatype LogLevel = Debug | Info | Warning | Error

  function Rank(l: LogLevel): nat
  {
    match l
    case Debug => 0
    case Info => 1
    case Warning => 2
    case Error => 3
  }

  /** `log_level_ <= level`: a message at `level` is emitted under the threshold. */
  predicate Emits(threshold: LogLevel, level: LogLevel)
  {
    Rank(threshold) <= Rank(level)
  }

  /**
    * A message that is emitted is emitted at every higher severity too;
    * ERROR is always emitted and the threshold DEBUG emits everything.
    */
  lemma EmitsIsMonotone(threshold: LogLevel, level: LogLevel, higher: LogLevel)
    ensures Emits(threshold, level) && Rank(level) <= Rank(higher) ==> Emits(threshold, higher)
    ensures Emits(threshold, Error) && Emits(Debug, level)
    ensures Emits(threshold, level) && Emits(level, threshold) ==> level == threshold
  {
  }

  /** A run of frames of an output block: `len` frames from frame `start`. */
  datatype Span = Span(start: nat, len: nat)

  /** Consecutive spans that exactly cover the frames [from, to). */
  predicate Tiles(spans: seq<Span>, from: nat, to: nat)
  {
    if |spans| == 0 then from == to
    else
      var last := spans[|spans| - 1];
      last.start + last.len == to && Tiles(spans[..|spans| - 1], from, last.start)
  }

  /** The total length of spans. */
  function TotalLen(spans: seq<Span>): nat
  {
    if |spans| == 0 then 0 else TotalLen(spans[..|spans| - 1]) + spans[|spans| - 1].len
  }

  /** Tiling spans cover exactly to - from frames. */
  lemma {:induction false} TilesLength(spans: seq<Span>, from: nat, to: nat)
    requires Tiles(spans, from, to)
    ensures from <= to && TotalLen(spans) == to - from
  {
    if |spans| > 0 {
      TilesLength(spans[..|spans| - 1], from, spans[|spans| - 1].start);
    }
  }

  /** A span that starts where a tiling ends extends it. */
  lemma TilesSnoc(spans: seq<Span>, from: nat, to: nat, len: nat)
    requires Tiles(spans, from, to)
    ensures Tiles(spans + [Span(to, len)], from, to + len)
  {
    assert (spans + [Span(to, len)])[..|spans|] == spans;
  }

  /** Two tilings that meet form one. */
  lemma {:induction false} TilesAppend(a: seq<Span>, b: seq<Span>, from: nat, mid: nat, to: nat)
    requires Tiles(a, from, mid) && Tiles(b, mid, to)
    ensures Tiles(a + b, from, to)
  {
    if |b| > 0 {
      var b' := b[..|b| - 1];
      TilesAppend(a, b', from, mid, b[|b| - 1].start);
      assert (a + b)[..|a + b| - 1] == a + b';
    } else {
      assert a + b == a;
    }
  }

  /** The indices of the voices that are not IDLE, in pool order. */
  function BusyIndices(voices: seq<Voice>): (ix: seq<nat>)
    ensures |ix| <= |voices|
    ensures forall k :: 0 <= k < |ix| ==> ix[k] < |voices|
  {
    if |voices| == 0 then []
    else
      var n := |voices| - 1;
      var ix := BusyIndices(voices[..n]);
      if voices[n].state != Idle then ix + [n] else ix
  }

  /** Exactly the voices that are not IDLE are asked to render, each once and in pool order. */
  lemma {:induction false} BusyIndicesSelect(voices: seq<Voice>)
    ensures forall i :: i in BusyIndices(voices) <==> 0 <= i < |voices| && voices[i].state != Idle
    ensures Increasing(BusyIndices(voices))
  {
    if |voices| > 0 {
      var n := |voices| - 1;
      BusyIndicesSelect(voices[..n]);
      assert forall i :: 0 <= i < n ==> voices[..n][i] == voices[i];
    }
  }

  /** The outputs after `zero_float_block` on their first n frames. */
  function Zeroed(out: seq<real>, n: nat): (z: seq<real>)
    ensures |z| == |out|
    ensures forall i :: 0 <= i < |out| ==> z[i] == if i < n then 0.0 else out[i]
  {
    seq(|out|, i requires 0 <= i < |out| => if i < n then 0.0 else out[i])
  }

  /**
    * What rendering takes as given: the playback speed of a voice
    * (`replay_speed`, a floating-point power of its pitch), the amplitudes
    * the envelope of voice i yields from absolute frame f on (`get_next`
    * until `done`), and the global gain `(1 / 32768.) * gain ()`.
    */
  datatype Render = Render(speed: Voice -> real, envelope: (nat, nat) -> seq<real>, gain: real)

  /** `replay_speed` is never negative. */
  ghost predicate RenderOk(rd: Render)
  {
    forall v :: rd.speed(v) >= 0.0
  }

  /** Every voice that is not IDLE can be played. */
  predicate BusyPlayable(voices: seq<Voice>)
  {
    forall i :: 0 <= i < |voices| ==> voices[i].state != Idle ==> Playable(voices[i])
  }

  /**
    * A voice that `process_audio` renders: one that is not IDLE. It can be
    * played and its speed is not negative whenever the pool is valid and
    * `replay_speed` behaves, so the other two conditions only keep the
    * functions below total.
    */
  predicate Renders(v: Voice, rd: Render)
  {
    v.state != Idle && Playable(v) && rd.speed(v) >= 0.0
  }

  /** Voice i after a chunk of n frames from absolute frame f: only a voice that renders changes. */
  function ChunkVoice(v: Voice, i: nat, f: nat, n: nat, rd: Render): (v': Voice)
    ensures (v.state != Idle ==> Playable(v)) ==> (v'.state != Idle ==> Playable(v'))
    ensures v.state == Idle ==> v' == v
    ensures v'.state == Idle || v'.state == v.state
    ensures v' == v.(state := v'.state, ppos := v'.ppos)
  {
    if Renders(v, rd) then Rendered(v, rd.speed(v), rd.envelope(i, f), n) else v
  }

  /** What voice i adds to frame k of that chunk: nothing when it is IDLE. */
  function VoiceOut(v: Voice, i: nat, f: nat, n: nat, k: nat, rd: Render): (real, real)
  {
    if v.state == Idle then (0.0, 0.0)
    else if Playable(v) && rd.speed(v) >= 0.0 then Contribution(v, rd.speed(v), rd.gain, rd.envelope(i, f), n, k)
    else (0.0, 0.0)
  }

  /** Frame k of that chunk after the first m voices of the pool, in pool order, added to it. */
  function MixUpTo(voices: seq<Voice>, f: nat, n: nat, k: nat, rd: Render, m: nat): (real, real)
    requires m <= |voices|
  {
    if m == 0 then (0.0, 0.0)
    else
      var s := MixUpTo(voices, f, n, k, rd, m - 1);
      var o := VoiceOut(voices[m - 1], m - 1, f, n, k, rd);
      (s.0 + o.0, s.1 + o.1)
  }

  /** A chunk of a block: the absolute frame it starts at and the pool that renders it. */
  datatype Pass = Pass(frame: nat, pool: seq<Voice>)

  /** What a chunk of n frames adds to its frame k: the sum over the whole pool. */
  function ChunkOut(p: Pass, n: nat, k: nat, rd: Render): (real, real)
  {
    MixUpTo(p.pool, p.frame, n, k, rd, |p.pool|)
  }

  /** The pool after a chunk of n frames from absolute frame f. */
  function ChunkVoices(voices: seq<Voice>, f: nat, n: nat, rd: Render): (vs: seq<Voice>)
    ensures |vs| == |voices|
  {
    seq(|voices|, i requires 0 <= i < |voices| => ChunkVoice(voices[i], i, f, n, rd))
  }

  /** The chunks of a `process_audio` call, the pool that renders each, and the pool after the last. */
  datatype Run = Run(spans: seq<Span>, passes: seq<Pass>, after: seq<Voice>)

  /**
    * `process_audio` over n frames from buffer frame `offset`, the first of
    * them at absolute frame f: chunks of at most maxBlock frames, each
    * rendered by the pool the chunks before it left.
    */
  function SliceRun(voices: seq<Voice>, f: nat, offset: nat, n: nat, maxBlock: nat, rd: Render): (run: Run)
    requires maxBlock > 0
    ensures |run.after| == |voices|
    decreases n
  {
    if n == 0 then Run([], [], voices)
    else
      var todo := Min(n, maxBlock);
      var rest := SliceRun(ChunkVoices(voices, f, todo, rd), f + todo, offset + todo, n - todo, maxBlock, rd);
      Run([Span(offset, todo)] + rest.spans, [Pass(f, voices)] + rest.passes, rest.after)
  }

  /**
    * The chunks of a `process_audio` call tile its frames, none longer
    * than the maximum block size, each starting at its absolute frame.
    */
  lemma {:induction false} SliceChunked(voices: seq<Voice>, f: nat, offset: nat, n: nat, maxBlock: nat, rd: Render)
    requires maxBlock > 0
    ensures var run := SliceRun(voices, f, offset, n, maxBlock, rd);
      Tiles(run.spans, offset, offset + n) && Chunked(run.spans, run.passes, maxBlock, f, offset)
    decreases n
  {
    if n > 0 {
      var todo := Min(n, maxBlock);
      var rest := SliceRun(ChunkVoices(voices, f, todo, rd), f + todo, offset + todo, n - todo, maxBlock, rd);
      SliceFirst(voices, f, offset, n, maxBlock, rd);
      SliceChunked(ChunkVoices(voices, f, todo, rd), f + todo, offset + todo, n - todo, maxBlock, rd);
      ChunkedCons(SliceRun(voices, f, offset, n, maxBlock, rd), rest, offset, todo, n, f, maxBlock, voices);
    }
  }

  /** A first chunk of at most maxBlock frames before a tiling run of chunks makes one run. */
  lemma ChunkedCons(run: Run, rest: Run, offset: nat, todo: nat, n: nat, f: nat, maxBlock: nat, voices: seq<Voice>)
    requires 0 < todo <= maxBlock && todo <= n
    requires run == Run([Span(offset, todo)] + rest.spans, [Pass(f, voices)] + rest.passes, rest.after)
    requires Tiles(rest.spans, offset + todo, offset + n) && Chunked(rest.spans, rest.passes, maxBlock, f + todo, offset + todo)
    ensures Tiles(run.spans, offset, offset + n) && Chunked(run.spans, run.passes, maxBlock, f, offset)
  {
    assert Chunked([Span(offset, todo)], [Pass(f, voices)], maxBlock, f, offset);
    TilesOne(offset, todo);
    TilesAppend([Span(offset, todo)], rest.spans, offset, offset + todo, offset + n);
    ChunksAppend([Span(offset, todo)], [Pass(f, voices)], rest.spans, rest.passes, maxBlock, f, offset, f + todo, offset + todo);
  }

  /**
    * A `process_audio` call of m > 0 frames renders its first chunk, of
    * `min (m, MAX_BLOCK_SIZE)` frames, with the pool it starts with, and
    * then goes on from the pool that chunk leaves.
    */
  lemma SliceFirst(voices: seq<Voice>, f: nat, offset: nat, m: nat, maxBlock: nat, rd: Render)
    requires m > 0 && maxBlock > 0
    ensures var n := Min(m, maxBlock);
      var rest := SliceRun(ChunkVoices(voices, f, n, rd), f + n, offset + n, m - n, maxBlock, rd);
      SliceRun(voices, f, offset, m, maxBlock, rd) == Run([Span(offset, n)] + rest.spans, [Pass(f, voices)] + rest.passes, rest.after)
  {
  }

  /**
    * Rendering changes no voice's start frame and leaves every voice that
    * is not IDLE playable, so the pool stays valid.
    */
  lemma {:induction false} SliceKeepsPool(voices: seq<Voice>, f: nat, offset: nat, n: nat, maxBlock: nat, rd: Render, gfc: nat)
    requires maxBlock > 0 && PoolValid(voices, gfc)
    ensures PoolValid(SliceRun(voices, f, offset, n, maxBlock, rd).after, gfc)
    decreases n
  {
    if n > 0 {
      var todo := Min(n, maxBlock);
      var vs := ChunkVoices(voices, f, todo, rd);
      assert PoolValid(vs, gfc) by {
        forall i | 0 <= i < |vs|
          ensures (vs[i].state != Idle ==> Playable(vs[i])) && vs[i].startFrameCount <= gfc
        {
          assert vs[i] == ChunkVoice(voices[i], i, f, todo, rd);
        }
      }
      SliceKeepsPool(vs, f + todo, offset + todo, n - todo, maxBlock, rd, gfc);
    }
  }

  /** Every span of a tiling of [from, to) lies inside it. */
  lemma {:induction false} TilesWithin(spans: seq<Span>, from: nat, to: nat)
    requires Tiles(spans, from, to)
    ensures forall c :: 0 <= c < |spans| ==> from <= spans[c].start && spans[c].start + spans[c].len <= to
  {
    if |spans| > 0 {
      var n := |spans| - 1;
      TilesWithin(spans[..n], from, spans[n].start);
      TilesLength(spans[..n], from, spans[n].start);
      assert forall c :: 0 <= c < n ==> spans[..n][c] == spans[c];
    }
  }

  /**
    * The chunk (span, pass) added its output to each frame it covers: the
    * outputs were l0 and r0 before and are l and r after.
    */
  predicate ChunkMixed(span: Span, pass: Pass, rd: Render, l0: seq<real>, l: seq<real>, r0: seq<real>, r: seq<real>)
  {
    span.start + span.len <= |l0| == |l| && span.start + span.len <= |r0| == |r| &&
    forall k :: 0 <= k < span.len ==>
      l[span.start + k] == l0[span.start + k] + ChunkOut(pass, span.len, k, rd).0 &&
      r[span.start + k] == r0[span.start + k] + ChunkOut(pass, span.len, k, rd).1
  }

  /** Each chunk (spans[c], passes[c]) added its output to the frames it covers. */
  predicate Mixed(spans: seq<Span>, passes: seq<Pass>, rd: Render, l0: seq<real>, l: seq<real>, r0: seq<real>, r: seq<real>)
  {
    |spans| == |passes| && |l0| == |l| && |r0| == |r| &&
    forall c {:trigger ChunkMixed(spans[c], passes[c], rd, l0, l, r0, r)} :: 0 <= c < |spans| ==> ChunkMixed(spans[c], passes[c], rd, l0, l, r0, r)
  }

  /** Outside the frames [from, to) the outputs are as they were. */
  predicate Kept(l0: seq<real>, l: seq<real>, r0: seq<real>, r: seq<real>, from: nat, to: nat)
  {
    |l0| == |l| && |r0| == |r| &&
    (forall i :: 0 <= i < |l| && !(from <= i < to) ==> l[i] == l0[i]) &&
    (forall i :: 0 <= i < |r| && !(from <= i < to) ==> r[i] == r0[i])
  }

  /** A chunk's output survives later changes that leave its frames alone, and is kept through earlier ones. */
  lemma ChunkMixedThrough(span: Span, pass: Pass, rd: Render,
                          l0: seq<real>, l1: seq<real>, l2: seq<real>, r0: seq<real>, r1: seq<real>, r2: seq<real>,
                          from: nat, to: nat, before: bool)
    requires before ==> ChunkMixed(span, pass, rd, l0, l1, r0, r1) && Kept(l1, l2, r1, r2, from, to) && span.start + span.len <= from
    requires !before ==> ChunkMixed(span, pass, rd, l1, l2, r1, r2) && Kept(l0, l1, r0, r1, from, to) && to <= span.start
    ensures ChunkMixed(span, pass, rd, l0, l2, r0, r2)
  {
  }

  /**
    * Chunks that tile [a, b) and then chunks that tile [b, c), each run
    * touching only its own frames, together added every chunk's output
    * once and touched only [a, c).
    */
  lemma {:induction false} MixedAppend(s1: seq<Span>, p1: seq<Pass>, s2: seq<Span>, p2: seq<Pass>, rd: Render,
                    l0: seq<real>, l1: seq<real>, l2: seq<real>, r0: seq<real>, r1: seq<real>, r2: seq<real>,
                    a: nat, b: nat, c: nat)
    requires Tiles(s1, a, b) && Tiles(s2, b, c)
    requires Mixed(s1, p1, rd, l0, l1, r0, r1) && Kept(l0, l1, r0, r1, a, b)
    requires Mixed(s2, p2, rd, l1, l2, r1, r2) && Kept(l1, l2, r1, r2, b, c)
    ensures Mixed(s1 + s2, p1 + p2, rd, l0, l2, r0, r2) && Kept(l0, l2, r0, r2, a, c)
  {
    TilesWithin(s1, a, b);
    TilesWithin(s2, b, c);
    var s, p := s1 + s2, p1 + p2;
    forall j | 0 <= j < |s|
      ensures ChunkMixed(s[j], p[j], rd, l0, l2, r0, r2)
    {
      if j < |s1| {
        assert s[j] == s1[j] && p[j] == p1[j];
        ChunkMixedThrough(s1[j], p1[j], rd, l0, l1, l2, r0, r1, r2, b, c, true);
      } else {
        var j2 := j - |s1|;
        assert s[j] == s2[j2] && p[j] == p2[j2];
        ChunkMixedThrough(s2[j2], p2[j2], rd, l0, l1, l2, r0, r1, r2, a, b, false);
      }
    }
  }

  /** One chunk of n frames at buffer frame `at` tiles [at, at + n). */
  lemma TilesOne(at: nat, n: nat)
    ensures Tiles([Span(at, n)], at, at + n)
  {
    TilesSnoc([], at, at, n);
    assert [] + [Span(at, n)] == [Span(at, n)];
  }

  /** A chunk whose pool is all IDLE adds nothing. */
  lemma {:induction false} IdleMixIsSilent(voices: seq<Voice>, f: nat, n: nat, k: nat, rd: Render, m: nat)
    requires m <= |voices|
    requires forall i :: 0 <= i < |voices| ==> voices[i].state == Idle
    ensures MixUpTo(voices, f, n, k, rd, m) == (0.0, 0.0)
  {
    if m > 0 {
      IdleMixIsSilent(voices, f, n, k, rd, m - 1);
    }
  }

  /** `min <uint> (event.time_frames, n_frames)`. */
  function Clamp(offset: nat, nFrames: nat): (c: nat)
    ensures c <= nFrames && c <= offset
    ensures offset <= nFrames ==> c == offset
  {
    if offset < nFrames then offset else nFrames
  }

  /** Event offsets never decrease along the queue. */
  predicate Sorted(events: seq<Event>)
  {
    forall i, j :: 0 <= i < j < |events| ==> events[i].offset <= events[j].offset
  }

  /** What one event does, at frame count gfc; pitch bend and unknown types leave the state alone. */
  function EventState(st: SynthState, e: Event, random: real, gfc: nat, p: Params): SynthState
    requires p.sampleRate > 0
  {
    match e.kind
    case NoteOnEvent => NoteOnState(st, e.channel, e.arg1, e.arg2, random, gfc, p)
    case NoteOffEvent => NoteOffState(st, e.channel, e.arg1, gfc, p)
    case CcEvent => CcState(st, e.channel, e.arg1, e.arg2, gfc, p)
    case PitchBendEvent => st
    case NoEvent => st
  }

  /**
    * The events dispatched in queue order; event k sees the frame count
    * the block has reached at its clamped offset.
    */
  function Dispatched(st: SynthState, events: seq<Event>, randoms: seq<real>, gfc: nat, nFrames: nat, p: Params): SynthState
    requires |randoms| == |events| && p.sampleRate > 0
  {
    if |events| == 0 then st
    else
      var k := |events| - 1;
      EventState(Dispatched(st, events[..k], randoms[..k], gfc, nFrames, p), events[k], randoms[k],
                 gfc + Clamp(events[k].offset, nFrames), p)
  }

  lemma EventKeepsValid(st: SynthState, e: Event, random: real, gfc: nat, p: Params)
    requires p.sampleRate > 0 && StateValid(st, gfc)
    ensures StateValid(EventState(st, e, random, gfc, p), gfc)
  {
    match e.kind
    case NoteOnEvent => NoteOnKeepsValid(st, e.channel, e.arg1, e.arg2, random, gfc, p);
    case NoteOffEvent => NoteOffKeepsValid(st, e.channel, e.arg1, gfc, p);
    case CcEvent => CcKeepsValid(st, e.channel, e.arg1, e.arg2, gfc, p);
    case PitchBendEvent =>
    case NoEvent =>
  }

  /**
    * A block in progress: the state, the buffer frame rendering has
    * reached, and the chunks rendered so far with the pool of each.
    */
  datatype Progression = Progression(state: SynthState, offset: nat, spans: seq<Span>, passes: seq<Pass>)

  /**
    * The chunks of a block that started at frame g0 so far: they tile the
    * frames up to the one reached, none is longer than the maximum block
    * size, and each starts at its absolute frame.
    */
  predicate Sound(pr: Progression, g0: nat, p: Params)
  {
    Tiles(pr.spans, 0, pr.offset) && Chunked(pr.spans, pr.passes, p.maxBlockSize, g0, 0)
  }

  /**
    * Chunks of at most maxBlock frames, each starting at absolute frame
    * base plus its buffer frame minus `offset`.
    */
  predicate Chunked(spans: seq<Span>, passes: seq<Pass>, maxBlock: nat, base: nat, offset: nat)
  {
    |spans| == |passes| &&
    forall c :: 0 <= c < |spans| ==> 0 < spans[c].len <= maxBlock && passes[c].frame + offset == base + spans[c].start
  }

  /** Two runs of chunks whose absolute frames agree make one. */
  lemma ChunksAppend(s1: seq<Span>, p1: seq<Pass>, s2: seq<Span>, p2: seq<Pass>, maxBlock: nat,
                     base1: nat, offset1: nat, base2: nat, offset2: nat)
    requires Chunked(s1, p1, maxBlock, base1, offset1) && Chunked(s2, p2, maxBlock, base2, offset2)
    requires base1 + offset2 == base2 + offset1
    ensures Chunked(s1 + s2, p1 + p2, maxBlock, base1, offset1)
  {
    var s, p := s1 + s2, p1 + p2;
    forall c | 0 <= c < |s|
      ensures 0 < s[c].len <= maxBlock && p[c].frame + offset1 == base1 + s[c].start
    {
      if c >= |s1| {
        assert s[c] == s2[c - |s1|] && p[c] == p2[c - |s1|];
      }
    }
  }

  /**
    * The block carried on to buffer frame `to`: one `process_audio` over
    * [pr.offset, to), which changes only the voices.
    */
  function RenderTo(pr: Progression, to: nat, g0: nat, p: Params, rd: Render): (pr': Progression)
    requires pr.offset <= to && p.maxBlockSize > 0
    ensures pr'.offset == to && |pr'.state.voices| == |pr.state.voices|
    ensures pr'.state == pr.state.(voices := pr'.state.voices)
  {
    var run := SliceRun(pr.state.voices, g0 + pr.offset, pr.offset, to - pr.offset, p.maxBlockSize, rd);
    Progression(pr.state.(voices := run.after), to, pr.spans + run.spans, pr.passes + run.passes)
  }

  /**
    * The block so far, pr, which started at frame g0 with the chunk
    * histories c0 and p0 and the outputs l0 and r0, has been played: the
    * synth is in pr's state at the frame pr reached, with the chunk
    * histories c and p, and exactly the chunks of pr were rendered into the
    * outputs l and r, which are untouched after that frame.
    */
  ghost predicate Reached(pr: Progression, g0: nat, c0: seq<Span>, p0: seq<Pass>, rd: Render,
                          st: SynthState, gfc: nat, c: seq<Span>, p: seq<Pass>,
                          l0: seq<real>, l: seq<real>, r0: seq<real>, r: seq<real>)
  {
    st == pr.state && gfc == g0 + pr.offset && c == c0 + pr.spans && p == p0 + pr.passes &&
    Tiles(pr.spans, 0, pr.offset) && Mixed(pr.spans, pr.passes, rd, l0, l, r0, r) && Kept(l0, l, r0, r, 0, pr.offset)
  }

  /**
    * Rendering the frames from the point pr reached up to `to` into the
    * outputs, and recording the chunks, reaches RenderTo(pr, to).
    */
  lemma ReachedStep(pr: Progression, to: nat, g0: nat, c0: seq<Span>, p0: seq<Pass>, prm: Params, rd: Render,
                    st: SynthState, c: seq<Span>, p: seq<Pass>, l0: seq<real>, l: seq<real>, r0: seq<real>, r: seq<real>,
                    st': SynthState, c': seq<Span>, p': seq<Pass>, l': seq<real>, r': seq<real>)
    requires pr.offset <= to && prm.maxBlockSize > 0
    requires Reached(pr, g0, c0, p0, rd, st, g0 + pr.offset, c, p, l0, l, r0, r)
    requires var run := SliceRun(st.voices, g0 + pr.offset, pr.offset, to - pr.offset, prm.maxBlockSize, rd);
      st' == st.(voices := run.after) && c' == c + run.spans && p' == p + run.passes &&
      Tiles(run.spans, pr.offset, to) &&
      Mixed(run.spans, run.passes, rd, l, l', r, r') && Kept(l, l', r, r', pr.offset, to)
    ensures Reached(RenderTo(pr, to, g0, prm, rd), g0, c0, p0, rd, st', g0 + to, c', p', l0, l', r0, r')
  {
    var run := SliceRun(st.voices, g0 + pr.offset, pr.offset, to - pr.offset, prm.maxBlockSize, rd);
    MixedAppend(pr.spans, pr.passes, run.spans, run.passes, rd, l0, l, l', r0, r, r', 0, pr.offset, to);
    TilesAppend(pr.spans, run.spans, 0, pr.offset, to);
    AppendAssoc(c0, pr.spans, run.spans);
    AppendAssoc(p0, pr.passes, run.passes);
  }

  /**
    * Where the chunk loop of a `process_audio` call stands: it set out to
    * render `total` from buffer frame `from`, has rendered the chunks
    * `done` with the passes `passes` (the histories went from c0 and p0 to
    * c and p, the outputs from l0 and r0 to l and r) and has m frames left
    * from buffer frame `at`, absolute frame f, with the pool `voices`.
    */
  ghost predicate Chunking(total: Run, voices: seq<Voice>, f: nat, at: nat, m: nat, maxBlock: nat, rd: Render,
                           from: nat, done: seq<Span>, passes: seq<Pass>,
                           c0: seq<Span>, c: seq<Span>, p0: seq<Pass>, p: seq<Pass>,
                           l0: seq<real>, l: seq<real>, r0: seq<real>, r: seq<real>)
  {
    maxBlock > 0 && BusyPlayable(voices) && Tiles(done, from, at) && c == c0 + done && p == p0 + passes &&
    (var rest := SliceRun(voices, f, at, m, maxBlock, rd);
     total.spans == done + rest.spans && total.passes == passes + rest.passes && total.after == rest.after) &&
    Mixed(done, passes, rd, l0, l, r0, r) && Kept(l0, l, r0, r, from, at)
  }

  /** Before the first chunk, the whole call is still to do. */
  lemma ChunkingStart(total: Run, voices: seq<Voice>, f: nat, at: nat, m: nat, maxBlock: nat, rd: Render,
                      c0: seq<Span>, p0: seq<Pass>, l0: seq<real>, r0: seq<real>)
    requires maxBlock > 0 && total == SliceRun(voices, f, at, m, maxBlock, rd) && BusyPlayable(voices)
    ensures Chunking(total, voices, f, at, m, maxBlock, rd, at, [], [], c0, c0, p0, p0, l0, l0, r0, r0)
  {
    assert c0 + [] == c0 && p0 + [] == p0;
  }

  /**
    * Rendering the next chunk of min(m, maxBlock) frames with the pool the
    * loop stands at, and adding its output, keeps the loop on course.
    */
  lemma ChunkingStep(total: Run, voices: seq<Voice>, f: nat, at: nat, m: nat, maxBlock: nat, rd: Render,
                     from: nat, done: seq<Span>, passes: seq<Pass>,
                     c0: seq<Span>, c: seq<Span>, p0: seq<Pass>, p: seq<Pass>,
                     l0: seq<real>, l: seq<real>, r0: seq<real>, r: seq<real>, l': seq<real>, r': seq<real>)
    requires m > 0
    requires Chunking(total, voices, f, at, m, maxBlock, rd, from, done, passes, c0, c, p0, p, l0, l, r0, r)
    requires var n := Min(m, maxBlock);
      BusyPlayable(ChunkVoices(voices, f, n, rd)) &&
      ChunkMixed(Span(at, n), Pass(f, voices), rd, l, l', r, r') && Kept(l, l', r, r', at, at + n)
    ensures var n := Min(m, maxBlock);
      Chunking(total, ChunkVoices(voices, f, n, rd), f + n, at + n, m - n, maxBlock, rd, from,
               done + [Span(at, n)], passes + [Pass(f, voices)],
               c0, c + [Span(at, n)], p0, p + [Pass(f, voices)], l0, l', r0, r')
  {
    var n := Min(m, maxBlock);
    var span, pass := Span(at, n), Pass(f, voices);
    var rest := SliceRun(ChunkVoices(voices, f, n, rd), f + n, at + n, m - n, maxBlock, rd);
    SliceFirst(voices, f, at, m, maxBlock, rd);
    TilesOne(at, n);
    assert Mixed([span], [pass], rd, l, l', r, r');
    MixedAppend(done, passes, [span], [pass], rd, l0, l, l', r0, r, r', from, at, at + n);
    TilesSnoc(done, from, at, n);
    AppendAssoc(c0, done, [span]);
    AppendAssoc(p0, passes, [pass]);
    AppendAssoc(done, [span], rest.spans);
    AppendAssoc(passes, [pass], rest.passes);
  }

  /** With no frames left, the loop has rendered exactly `total`. */
  lemma ChunkingDone(total: Run, voices: seq<Voice>, f: nat, at: nat, maxBlock: nat, rd: Render,
                     from: nat, done: seq<Span>, passes: seq<Pass>,
                     c0: seq<Span>, c: seq<Span>, p0: seq<Pass>, p: seq<Pass>,
                     l0: seq<real>, l: seq<real>, r0: seq<real>, r: seq<real>)
    requires Chunking(total, voices, f, at, 0, maxBlock, rd, from, done, passes, c0, c, p0, p, l0, l, r0, r)
    ensures voices == total.after && c == c0 + total.spans && p == p0 + total.passes
    ensures Mixed(total.spans, total.passes, rd, l0, l, r0, r) && Kept(l0, l, r0, r, from, at)
  {
    assert done + [] == done && passes + [] == passes;
  }

  /** Dispatching an event where the block stands keeps it where it stands. */
  lemma HandledReached(pr: Progression, e: Event, random: real, g0: nat, c0: seq<Span>, p0: seq<Pass>, prm: Params, rd: Render,
                       st: SynthState, c: seq<Span>, p: seq<Pass>, l0: seq<real>, l: seq<real>, r0: seq<real>, r: seq<real>)
    requires prm.sampleRate > 0
    requires Reached(pr, g0, c0, p0, rd, st, g0 + pr.offset, c, p, l0, l, r0, r)
    ensures Reached(Handled(pr, e, random, g0, prm), g0, c0, p0, rd, EventState(st, e, random, g0 + pr.offset, prm),
                    g0 + pr.offset, c, p, l0, l, r0, r)
  {
  }

  /** Carrying a sound block on keeps it sound. */
  lemma RenderToSound(pr: Progression, to: nat, g0: nat, p: Params, rd: Render)
    requires pr.offset <= to && p.maxBlockSize > 0 && Sound(pr, g0, p)
    ensures Sound(RenderTo(pr, to, g0, p, rd), g0, p)
  {
    var f := g0 + pr.offset;
    var run := SliceRun(pr.state.voices, f, pr.offset, to - pr.offset, p.maxBlockSize, rd);
    SliceChunked(pr.state.voices, f, pr.offset, to - pr.offset, p.maxBlockSize, rd);
    SoundAppend(pr, RenderTo(pr, to, g0, p, rd), run.spans, run.passes, to, g0, p);
  }

  /** Chunks that tile the frames from the offset reached up to `to`, appended to a sound progression, keep it sound. */
  lemma SoundAppend(pr: Progression, pr': Progression, spans: seq<Span>, passes: seq<Pass>, to: nat, g0: nat, p: Params)
    requires Sound(pr, g0, p) && pr'.offset == to && pr'.spans == pr.spans + spans && pr'.passes == pr.passes + passes
    requires Tiles(spans, pr.offset, to) && Chunked(spans, passes, p.maxBlockSize, g0 + pr.offset, pr.offset)
    ensures Sound(pr', g0, p)
  {
    TilesAppend(pr.spans, spans, 0, pr.offset, to);
    ChunksAppend(pr.spans, pr.passes, spans, passes, p.maxBlockSize, g0, 0, g0 + pr.offset, pr.offset);
  }

  /** Event e dispatched at the frame the block reached: only the state changes. */
  function Handled(pr: Progression, e: Event, random: real, g0: nat, p: Params): Progression
    requires p.sampleRate > 0
  {
    pr.(state := EventState(pr.state, e, random, g0 + pr.offset, p))
  }

  /** A prefix of a sorted queue is sorted. */
  lemma SortedPrefix(events: seq<Event>, k: nat)
    requires Sorted(events) && k <= |events|
    ensures Sorted(events[..k])
  {
    assert forall i :: 0 <= i < k ==> events[..k][i] == events[i];
  }

  /**
    * The block after the events of a sorted queue: for each event in
    * turn, the frames up to its clamped offset are rendered, and then it is
    * applied at the frame count reached there. The regions and controller
    * values are those the events alone make.
    */
  function Played(st: SynthState, events: seq<Event>, randoms: seq<real>, g0: nat, nFrames: nat, p: Params, rd: Render): (pr: Progression)
    requires |randoms| == |events| && Sorted(events) && p.sampleRate > 0 && p.maxBlockSize > 0
    ensures pr.offset <= nFrames
    ensures |events| == 0 ==> pr.offset == 0
    ensures |events| > 0 ==> pr.offset == Clamp(events[|events| - 1].offset, nFrames)
  {
    if |events| == 0 then
      Progression(st, 0, [], [])
    else
      var k := |events| - 1;
      SortedPrefix(events, k);
      var pr := Played(st, events[..k], randoms[..k], g0, nFrames, p, rd);
      var to := Clamp(events[k].offset, nFrames);
      assert pr.offset <= to by {
        if k > 0 {
          assert events[..k][k - 1] == events[k - 1];
        }
      }
      Handled(RenderTo(pr, to, g0, p, rd), events[k], randoms[k], g0, p)
  }

  /**
    * Rendering changes only the voices, so the regions and the controller
    * values a block reaches are those of dispatching its events alone.
    */
  lemma {:induction false} PlayedControllers(st: SynthState, events: seq<Event>, randoms: seq<real>, g0: nat, nFrames: nat, p: Params, rd: Render)
    requires |randoms| == |events| && Sorted(events) && p.sampleRate > 0 && p.maxBlockSize > 0
    ensures Played(st, events, randoms, g0, nFrames, p, rd).state.regions == Dispatched(st, events, randoms, g0, nFrames, p).regions
    ensures Played(st, events, randoms, g0, nFrames, p, rd).state.channels == Dispatched(st, events, randoms, g0, nFrames, p).channels
  {
    if |events| > 0 {
      var k := |events| - 1;
      SortedPrefix(events, k);
      PlayedControllers(st, events[..k], randoms[..k], g0, nFrames, p, rd);
      var pr := Played(st, events[..k], randoms[..k], g0, nFrames, p, rd);
      var to := Clamp(events[k].offset, nFrames);
      var mid := RenderTo(pr, to, g0, p, rd);
      EventControllers(mid.state, Dispatched(st, events[..k], randoms[..k], g0, nFrames, p), events[k], randoms[k], g0 + to, g0 + to, p);
    }
  }

  /** The chunks of every point a block passes through tile it, each at its absolute frame. */
  lemma {:induction false} PlayedSound(st: SynthState, events: seq<Event>, randoms: seq<real>, g0: nat, nFrames: nat, p: Params, rd: Render)
    requires |randoms| == |events| && Sorted(events) && p.sampleRate > 0 && p.maxBlockSize > 0
    ensures Sound(Played(st, events, randoms, g0, nFrames, p, rd), g0, p)
  {
    if |events| > 0 {
      var k := |events| - 1;
      SortedPrefix(events, k);
      PlayedSound(st, events[..k], randoms[..k], g0, nFrames, p, rd);
      var pr := Played(st, events[..k], randoms[..k], g0, nFrames, p, rd);
      var to := Clamp(events[k].offset, nFrames);
      assert pr.offset <= to by {
        if k > 0 {
          assert events[..k][k - 1] == events[k - 1];
        }
      }
      RenderToSound(pr, to, g0, p, rd);
    }
  }

  /**
    * One more event: the block after the first i + 1 events is the block
    * after the first i carried on to event i's clamped offset, which it
    * has not passed, with event i dispatched there.
    */
  lemma PlayedNext(st: SynthState, events: seq<Event>, randoms: seq<real>, g0: nat, nFrames: nat, p: Params, rd: Render, i: nat)
    requires |randoms| == |events| && Sorted(events) && p.sampleRate > 0 && p.maxBlockSize > 0 && i < |events|
    ensures (SortedPrefix(events, i); SortedPrefix(events, i + 1);
      var pr := Played(st, events[..i], randoms[..i], g0, nFrames, p, rd);
      var to := Clamp(events[i].offset, nFrames);
      pr.offset <= to &&
      Played(st, events[..i + 1], randoms[..i + 1], g0, nFrames, p, rd) == Handled(RenderTo(pr, to, g0, p, rd), events[i], randoms[i], g0, p))
  {
    SortedPrefix(events, i);
    SortedPrefix(events, i + 1);
    assert events[..i + 1][..i] == events[..i] && randoms[..i + 1][..i] == randoms[..i];
    assert events[..i + 1][i] == events[i];
    if i > 0 {
      assert events[..i][i - 1] == events[i - 1];
    }
  }

  /** The whole block: the events of the queue, then the frames after the last one. */
  function Block(st: SynthState, events: seq<Event>, randoms: seq<real>, g0: nat, nFrames: nat, p: Params, rd: Render): (b: Progression)
    requires |randoms| == |events| && Sorted(events) && p.sampleRate > 0 && p.maxBlockSize > 0
    ensures b.offset == nFrames
  {
    RenderTo(Played(st, events, randoms, g0, nFrames, p, rd), nFrames, g0, p, rd)
  }

  /** The regions and the controller values after a block are those of dispatching its events. */
  lemma BlockControllers(st: SynthState, events: seq<Event>, randoms: seq<real>, g0: nat, nFrames: nat, p: Params, rd: Render)
    requires |randoms| == |events| && Sorted(events) && p.sampleRate > 0 && p.maxBlockSize > 0
    ensures Block(st, events, randoms, g0, nFrames, p, rd).state.regions == Dispatched(st, events, randoms, g0, nFrames, p).regions
    ensures Block(st, events, randoms, g0, nFrames, p, rd).state.channels == Dispatched(st, events, randoms, g0, nFrames, p).channels
  {
    PlayedControllers(st, events, randoms, g0, nFrames, p, rd);
  }

  /**
    * The chunks of a whole block tile it, none longer than the maximum
    * block size, each at its absolute frame.
    */
  lemma BlockSound(st: SynthState, events: seq<Event>, randoms: seq<real>, g0: nat, nFrames: nat, p: Params, rd: Render)
    requires |randoms| == |events| && Sorted(events) && p.sampleRate > 0 && p.maxBlockSize > 0
    ensures Sound(Block(st, events, randoms, g0, nFrames, p, rd), g0, p)
  {
    PlayedSound(st, events, randoms, g0, nFrames, p, rd);
    RenderToSound(Played(st, events, randoms, g0, nFrames, p, rd), nFrames, g0, p, rd);
  }

  /**
    * What an event does to the regions and the controller values depends
    * only on the regions and the controller values, not on the voices or
    * the frame count.
    */
  lemma EventControllers(st: SynthState, st': SynthState, e: Event, random: real, gfc: nat, gfc': nat, p: Params)
    requires p.sampleRate > 0 && st.regions == st'.regions && st.channels == st'.channels
    ensures EventState(st, e, random, gfc, p).regions == EventState(st', e, random, gfc', p).regions
    ensures EventState(st, e, random, gfc, p).channels == EventState(st', e, random, gfc', p).channels
  {
  }

  /** Joining sequences does not depend on the grouping. */
  lemma AppendAssoc<T>(a: seq<T>, b: seq<T>, c: seq<T>)
    ensures (a + b) + c == a + (b + c)
  {
  }

  /** A prefix one longer is the prefix and the next element. */
  lemma PrefixSnoc<T>(s: seq<T>, i: nat)
    requires i < |s|
    ensures s[..i + 1] == s[..i] + [s[i]]
  {
  }

  /**
    * The `process_audio` calls of the first i rounds of the event loop: they
    * tile the block up to `offset`, and call k ends at event k's clamped
    * offset.
    */
  predicate SlicedBy(slices: seq<Span>, events: seq<Event>, nFrames: nat, i: nat, offset: nat)
  {
    |slices| == i <= |events| && Tiles(slices, 0, offset) &&
    forall k :: 0 <= k < i ==> slices[k].start + slices[k].len == Clamp(events[k].offset, nFrames)
  }

  /** The call of round i renders from the offset reached to event i's clamped offset. */
  lemma SlicedByNext(slices: seq<Span>, events: seq<Event>, nFrames: nat, i: nat, offset: nat, to: nat)
    requires SlicedBy(slices, events, nFrames, i, offset) && i < |events|
    requires to == Clamp(events[i].offset, nFrames) && offset <= to
    ensures SlicedBy(slices + [Span(offset, to - offset)], events, nFrames, i + 1, to)
  {
    TilesSnoc(slices, 0, offset, to - offset);
    var s := slices + [Span(offset, to - offset)];
    assert forall k :: 0 <= k < i ==> s[k] == slices[k];
  }

  /** After the last event, the final call renders the rest of the block. */
  lemma SlicedByLast(slices: seq<Span>, events: seq<Event>, nFrames: nat, offset: nat)
    requires SlicedBy(slices, events, nFrames, |events|, offset) && offset <= nFrames
    ensures var s := slices + [Span(offset, nFrames - offset)];
      |s| == |events| + 1 && Tiles(s, 0, nFrames) &&
      forall k :: 0 <= k < |events| ==> s[k].start + s[k].len == Clamp(events[k].offset, nFrames)
  {
    TilesSnoc(slices, 0, offset, nFrames - offset);
    var s := slices + [Span(offset, nFrames - offset)];
    assert forall k :: 0 <= k < |events| ==> s[k] == slices[k];
  }

  /** What `all_sound_off` and `system_reset` call, whose bodies are not part of this model. */
  datatype Call = Kill(voice: nat) | InitChannels

  class Synth {
    const params: Params
    var voices: seq<Voice>
    var regions: seq<Region>
    var channels: seq<seq<int>>
    var globalFrameCount: nat
    var events: seq<Event>
    var logLevel: LogLevel
    /** The `process_audio` calls so far, as (offset, n_frames). */
    ghost var slices: seq<Span>
    /** The chunks of at most `MAX_BLOCK_SIZE` frames rendered so far, and the pool that rendered each. */
    ghost var chunks: seq<Span>
    ghost var rendered: seq<Pass>
    /** The events dispatched so far, in order. */
    ghost var dispatched: seq<Event>
    /** The `kill` and `init_channels` calls so far. */
    ghost var calls: seq<Call>

    function State(): SynthState
      reads this`voices, this`regions, this`channels
    {
      SynthState(voices, regions, channels)
    }

    function Context(): Ctx
      reads this`voices, this`regions, this`channels, this`globalFrameCount
    {
      CtxOf(State(), globalFrameCount, params)
    }

    ghost predicate Valid()
      reads this
    {
      params.sampleRate > 0 && params.maxBlockSize > 0 &&
      StateValid(State(), globalFrameCount) && |rendered| == |chunks|
    }

    /**
      * The defaults of the constructor: 256 voices, all IDLE, and 16
      * channels with every CC at 0. `regions` are what the loader parsed.
      */
    constructor (regions: seq<Region>, params: Params, logLevel: LogLevel)
      requires params.sampleRate > 0 && params.maxBlockSize > 0
      requires forall i :: 0 <= i < |regions| ==> WellFormed(regions[i])
      requires RegionsPlayable(regions)
      ensures Valid()
      ensures voices == seq(256, _ => NewVoice) && channels == seq(16, _ => seq(CcCount, _ => 0))
      ensures this.regions == regions && this.params == params && this.logLevel == logLevel
      ensures globalFrameCount == 0 && events == [] && dispatched == [] && calls == []
      ensures slices == [] && chunks == [] && rendered == []
    {
      this.params := params;
      voices := seq(256, _ => NewVoice);
      this.regions := regions;
      channels := seq(16, _ => seq(CcCount, _ => 0));
      globalFrameCount := 0;
      events := [];
      this.logLevel := logLevel;
      slices := [];
      chunks := [];
      rendered := [];
      dispatched := [];
      calls := [];
    }

    /** `alloc_voice`: the index of the first IDLE voice, or none; no voice changes. */
    method AllocVoice() returns (r: Option<nat>)
      ensures r == FirstIdle(voices)
    {
      var i := 0;
      while i < |voices|
        invariant i <= |voices|
        invariant FirstIdleFrom(voices, i) == FirstIdle(voices)
      {
        if voices[i].state == Idle {
          return Some(i);
        }
        i := i + 1;
      }
      return None;
    }

    /** `active_voice_count`. */
    method ActiveVoiceCount() returns (c: nat)
      ensures c == ActiveCount(voices)
    {
      c := 0;
      var i := 0;
      while i < |voices|
        invariant i <= |voices|
        invariant c == ActiveCount(voices[..i])
      {
        assert voices[..i + 1][..i] == voices[..i];
        if voices[i].state != Idle {
          c := c + 1;
        }
        i := i + 1;
      }
      assert voices[..i] == voices;
    }

    /** `get_cc`, with the corrected bounds checks. */
    function GetCc(channel: int, controller: int): (v: int)
      reads this
      ensures Valid() ==> 0 <= v < 256
      ensures !IndexOk(channel, |channels|) ==> v == 0
    {
      CcOfIsByte(channels, channel, controller);
      CcOf(channels, channel, controller)
    }

    /** The CC test of `note_on`: every constrained controller of the region lies in [locc, hicc]. */
    method CcMatches(r: Region, chan: int) returns (m: bool)
      requires WellFormed(r)
      ensures m == CcMatch(r, CcValues(channels, chan))
    {
      ghost var ccs := CcValues(channels, chan);
      m := true;
      var cc := 0;
      while cc < |r.locc|
        invariant cc <= CcCount
        invariant m == forall k :: 0 <= k < cc && (r.locc[k] != 0 || r.hicc[k] != 127) ==> r.locc[k] <= ccs[k] <= r.hicc[k]
      {
        if r.locc[cc] != 0 || r.hicc[cc] != 127 {
          var val := GetCc(chan, cc);
          if val < r.locc[cc] || val > r.hicc[cc] {
            m := false;
          }
        }
        cc := cc + 1;
      }
    }

    /**
      * `release (voices_[i])`: a voice that is neither ACTIVE nor SUSTAIN
      * is left alone; otherwise it becomes RELEASED and every release
      * region matching its key and velocity that has a loaded sample
      * starts a voice.
      */
    method ReleaseVoice(i: nat)
      requires params.sampleRate > 0 && i < |voices|
      modifies this`voices
      ensures voices == ReleaseAt(old(voices), i, old(Context()))
    {
      var v := voices[i];
      if v.state != Active && v.state != VoiceState.Sustain {
        return;
      }
      var a := ReleaseArgs(v, Context());
      voices := voices[i := v.(state := Released)];
      ghost var v0 := voices;
      var regs := regions;
      var j := 0;
      while j < |regs|
        invariant j <= |regs| && regs == regions
        invariant voices == Launch(v0, ReleaseRegions(regs[..j], v.key, v.velocity), a)
      {
        var r := regs[j];
        ReleaseRegionsStep(regs, j, v.key, v.velocity);
        LaunchSnoc(v0, ReleaseRegions(regs[..j], v.key, v.velocity), r, a);
        if r.lokey <= v.key && r.hikey >= v.key && r.lovel <= v.velocity && r.hivel >= v.velocity &&
           r.trigger == Trigger.Release && r.cachedSample.Some? {
          Spawn(r, a);
        }
        j := j + 1;
      }
      assert regs[..j] == regs;
    }

    /** `alloc_voice` and, when it finds a voice, `start` on it. */
    method Spawn(r: Region, a: StartArgs)
      modifies this`voices
      ensures voices == LaunchOne(old(voices), r, a)
    {
      var slot := AllocVoice();
      if slot.Some? {
        voices := voices[slot.value := StartWith(voices[slot.value], r, a)];
      }
    }

    /** One of the loops over the pool that release or sustain the voices the sweep hits. */
    method SweepPool(s: Sweep)
      requires params.sampleRate > 0
      modifies this`voices
      ensures voices == SweepVoices(s, old(voices), |old(voices)|, old(Context()))
    {
      ghost var v0 := voices;
      var i := 0;
      while i < |voices|
        invariant |voices| == |v0| && i <= |voices|
        invariant voices == SweepVoices(s, v0, i, old(Context()))
      {
        var v := voices[i];
        if Hits(s, v) {
          if s.NoteOffSustain? {
            voices := voices[i := v.(state := VoiceState.Sustain)];
          } else {
            ReleaseVoice(i);
          }
        }
        i := i + 1;
      }
    }

    /**
      * `note_on (chan, key, vel)` with the note's random number in [0, 1):
      * the overlapping voices are released, then every region is visited
      * in order; a selected region starts a voice when it plays and
      * advances its round-robin counter either way.
      */
    method NoteOn(chan: int, key: int, vel: int, random: real)
      requires Valid()
      modifies this`voices, this`regions
      ensures State() == NoteOnState(old(State()), chan, key, vel, random, old(globalFrameCount), params)
      ensures Valid()
    {
      ghost var st0 := State();
      NoteOnKeepsValid(st0, chan, key, vel, random, globalFrameCount, params);
      SweepPool(ReleaseOverlapping(chan, key));
      var a := StartArgs(chan, key, vel, 0.0, globalFrameCount, params.sampleRate, params.dbToFactor, params.panFactor);
      regions := PlayRegions(chan, key, vel, random, a);
    }

    /**
      * The loop of `note_on` over the regions: the voices started by every
      * region that plays, and the regions with the counters of the selected
      * ones advanced.
      */
    method PlayRegions(chan: int, key: int, vel: int, random: real, a: StartArgs) returns (rs: seq<Region>)
      requires forall j :: 0 <= j < |regions| ==> WellFormed(regions[j])
      modifies this`voices
      ensures rs == AdvanceSelected(regions, CcValues(channels, chan), key, vel)
      ensures voices == Launch(old(voices), PlayedRegions(regions, CcValues(channels, chan), key, vel, random), a)
    {
      ghost var ccs := CcValues(channels, chan);
      ghost var regs := regions;
      rs := regions;
      var i := 0;
      while i < |rs|
        invariant i <= |rs| == |regs|
        invariant forall j :: 0 <= j < i ==> rs[j] == AdvanceSelected(regs, ccs, key, vel)[j]
        invariant forall j :: i <= j < |rs| ==> rs[j] == regs[j]
        invariant voices == Launch(old(voices), PlayedRegions(regs[..i], ccs, key, vel, random), a)
      {
        var r := rs[i];
        PlayedRegionsStep(regs, i, ccs, key, vel, random);
        LaunchSnoc(old(voices), PlayedRegions(regs[..i], ccs, key, vel, random), r, a);
        var r' := VisitRegion(r, chan, key, vel, random, a);
        rs := rs[i := r'];
        i := i + 1;
      }
      assert regs[..i] == regs;
    }

    /**
      * One region of the `note_on` loop: a region whose key, velocity,
      * trigger and CCs match starts a voice when it plays, and comes back
      * with its round-robin counter advanced; any other region is skipped.
      */
    method VisitRegion(r: Region, chan: int, key: int, vel: int, random: real, a: StartArgs) returns (r': Region)
      requires WellFormed(r)
      modifies this`voices
      ensures voices == if Plays(r, CcValues(channels, chan), key, vel, random) then LaunchOne(old(voices), r, a) else old(voices)
      ensures r' == if Selected(r, CcValues(channels, chan), key, vel) then Advanced(r) else r
    {
      r' := r;
      if r.lokey <= key && r.hikey >= key && r.lovel <= vel && r.hivel >= vel && r.trigger == Attack {
        var ccMatch := CcMatches(r, chan);
        if ccMatch {
          if r.playSeq == r.seqPosition && r.lorand <= random && r.hirand > random && r.cachedSample.Some? {
            Spawn(r, a);
          }
          var playSeq := r.playSeq + 1;
          if playSeq > r.seqLength {
            playSeq := 1;
          }
          r' := r.(playSeq := playSeq);
        }
      }
    }

    /** `note_off (chan, key)`: the pedal is down when CC 64 is at least 64. */
    method NoteOff(chan: int, key: int)
      requires Valid()
      modifies this`voices
      ensures State() == NoteOffState(old(State()), chan, key, old(globalFrameCount), params)
      ensures Valid()
    {
      NoteOffKeepsValid(State(), chan, key, globalFrameCount, params);
      var sustainPedal := GetCc(chan, CcSustain) >= 0x40;
      if sustainPedal {
        SweepPool(NoteOffSustain(chan, key));
      } else {
        SweepPool(NoteOffRelease(chan, key));
      }
    }

    /** `update_cc`, with the corrected bounds checks. */
    method UpdateCc(channel: int, controller: int, value: int)
      requires Valid()
      modifies this`voices, this`channels
      ensures State() == CcState(old(State()), channel, controller, value, old(globalFrameCount), params)
      ensures Valid()
    {
      CcKeepsValid(State(), channel, controller, value, globalFrameCount, params);
      if channel < 0 || channel >= |channels| {
        return;
      }
      if controller < 0 || controller >= |channels[channel]| {
        return;
      }
      channels := channels[channel := channels[channel][controller := value % 256]];
      if controller == CcSustain && value < 0x40 {
        SweepPool(ReleaseSustained);
      }
    }

    /** `add_event_note_on`: one NOTE_ON event appended. */
    method AddEventNoteOn(offset: nat, channel: int, key: int, velocity: int)
      requires offset < U32
      modifies this`events
      ensures events == old(events) + [Event(offset, NoteOnEvent, ToUint16(channel), ToUint16(key), ToUint16(velocity))]
    {
      events := events + [Event(offset, NoteOnEvent, ToUint16(channel), ToUint16(key), ToUint16(velocity))];
    }

    /** `add_event_note_off`: one NOTE_OFF event appended, with arg2 0. */
    method AddEventNoteOff(offset: nat, channel: int, key: int)
      requires offset < U32
      modifies this`events
      ensures events == old(events) + [Event(offset, NoteOffEvent, ToUint16(channel), ToUint16(key), 0)]
    {
      events := events + [Event(offset, NoteOffEvent, ToUint16(channel), ToUint16(key), 0)];
    }

    /** `add_event_cc`: one CC event appended. */
    method AddEventCc(offset: nat, channel: int, cc: int, value: int)
      requires offset < U32
      modifies this`events
      ensures events == old(events) + [Event(offset, CcEvent, ToUint16(channel), ToUint16(cc), ToUint16(value))]
    {
      events := events + [Event(offset, CcEvent, ToUint16(channel), ToUint16(cc), ToUint16(value))];
    }

    /**
      * One voice of the voice loop of `process_audio`: voice j, when it is
      * not IDLE, renders n frames into the outputs from buffer frame `at`.
      */
    method RenderVoice(outLeft: array<real>, outRight: array<real>, at: nat, n: nat, f: nat, rd: Render, j: nat)
      requires j < |voices| && BusyPlayable(voices) && RenderOk(rd)
      requires outLeft != outRight && at + n <= outLeft.Length && at + n <= outRight.Length
      modifies this`voices, outLeft, outRight
      ensures voices == old(voices)[j := ChunkVoice(old(voices)[j], j, f, n, rd)] && BusyPlayable(voices)
      ensures forall k :: 0 <= k < n ==>
        outLeft[at + k] == old(outLeft[at + k]) + VoiceOut(old(voices)[j], j, f, n, k, rd).0 &&
        outRight[at + k] == old(outRight[at + k]) + VoiceOut(old(voices)[j], j, f, n, k, rd).1
      ensures forall i :: 0 <= i < outLeft.Length && !(at <= i < at + n) ==> outLeft[i] == old(outLeft[i])
      ensures forall i :: 0 <= i < outRight.Length && !(at <= i < at + n) ==> outRight[i] == old(outRight[i])
    {
      var v := voices[j];
      if v.state != Idle {
        var v', _ := LibVoice.Process(v, rd.speed(v), rd.gain, rd.envelope(j, f), n, outLeft, outRight, at);
        voices := voices[j := v'];
      }
    }

    /**
      * The voice loop of `process_audio` for one chunk of n frames at
      * buffer frame `at`, absolute frame f: every voice that is not IDLE
      * renders into the outputs, in pool order.
      */
    method RenderChunk(outLeft: array<real>, outRight: array<real>, at: nat, n: nat, f: nat, rd: Render)
      requires BusyPlayable(voices) && RenderOk(rd)
      requires outLeft != outRight && at + n <= outLeft.Length && at + n <= outRight.Length
      modifies this`voices, outLeft, outRight
      ensures voices == ChunkVoices(old(voices), f, n, rd) && BusyPlayable(voices)
      ensures ChunkMixed(Span(at, n), Pass(f, old(voices)), rd, old(outLeft[..]), outLeft[..], old(outRight[..]), outRight[..])
      ensures Kept(old(outLeft[..]), outLeft[..], old(outRight[..]), outRight[..], at, at + n)
    {
      ghost var v0 := voices;
      RenderVoices(outLeft, outRight, at, n, f, rd);
      assert forall i :: 0 <= i < |v0| ==> ChunkVoices(v0, f, n, rd)[i] == ChunkVoice(v0[i], i, f, n, rd);
    }

    /** The loop of `RenderChunk` over the pool, voice by voice. */
    method RenderVoices(outLeft: array<real>, outRight: array<real>, at: nat, n: nat, f: nat, rd: Render)
      requires BusyPlayable(voices) && RenderOk(rd)
      requires outLeft != outRight && at + n <= outLeft.Length && at + n <= outRight.Length
      modifies this`voices, outLeft, outRight
      ensures |voices| == |old(voices)| && BusyPlayable(voices)
      ensures forall i :: 0 <= i < |voices| ==> voices[i] == ChunkVoice(old(voices)[i], i, f, n, rd)
      ensures forall k :: 0 <= k < n ==>
        outLeft[at + k] == old(outLeft[at + k]) + MixUpTo(old(voices), f, n, k, rd, |old(voices)|).0 &&
        outRight[at + k] == old(outRight[at + k]) + MixUpTo(old(voices), f, n, k, rd, |old(voices)|).1
      ensures forall i :: 0 <= i < outLeft.Length && !(at <= i < at + n) ==> outLeft[i] == old(outLeft[i])
      ensures forall i :: 0 <= i < outRight.Length && !(at <= i < at + n) ==> outRight[i] == old(outRight[i])
    {
      ghost var v0 := voices;
      var j := 0;
      while j < |voices|
        invariant |voices| == |v0| && j <= |voices| && BusyPlayable(voices)
        invariant forall i :: 0 <= i < j ==> voices[i] == ChunkVoice(v0[i], i, f, n, rd)
        invariant forall i :: j <= i < |voices| ==> voices[i] == v0[i]
        invariant forall k :: 0 <= k < n ==>
          outLeft[at + k] == old(outLeft[at + k]) + MixUpTo(v0, f, n, k, rd, j).0 &&
          outRight[at + k] == old(outRight[at + k]) + MixUpTo(v0, f, n, k, rd, j).1
        invariant forall i :: 0 <= i < outLeft.Length && !(at <= i < at + n) ==> outLeft[i] == old(outLeft[i])
        invariant forall i :: 0 <= i < outRight.Length && !(at <= i < at + n) ==> outRight[i] == old(outRight[i])
      {
        RenderVoice(outLeft, outRight, at, n, f, rd, j);
        j := j + 1;
      }
    }

    /**
      * One round of the chunk loop of a `process_audio` call with m frames
      * left from buffer frame `at`, absolute frame f: the chunk of
      * `min (m, MAX_BLOCK_SIZE)` frames is rendered and joins the chunk
      * history, and the call stays on course for `total`.
      */
    method RenderRound(outLeft: array<real>, outRight: array<real>, at: nat, m: nat, f: nat, rd: Render,
                       ghost total: Run, ghost from: nat, ghost done: seq<Span>, ghost passes: seq<Pass>,
                       ghost c0: seq<Span>, ghost p0: seq<Pass>, ghost l0: seq<real>, ghost r0: seq<real>)
      returns (n: nat)
      requires m > 0 && params.maxBlockSize > 0 && RenderOk(rd)
      requires outLeft != outRight && at + m <= outLeft.Length && at + m <= outRight.Length
      requires Chunking(total, voices, f, at, m, params.maxBlockSize, rd, from, done, passes,
                        c0, chunks, p0, rendered, l0, outLeft[..], r0, outRight[..])
      modifies this`voices, this`chunks, this`rendered, outLeft, outRight
      ensures n == Min(m, params.maxBlockSize)
      ensures Chunking(total, voices, f + n, at + n, m - n, params.maxBlockSize, rd, from,
                       done + [Span(at, n)], passes + [Pass(f, old(voices))],
                       c0, chunks, p0, rendered, l0, outLeft[..], r0, outRight[..])
    {
      n := Min(m, params.maxBlockSize);
      ghost var v, c, p, l, r := voices, chunks, rendered, outLeft[..], outRight[..];
      RenderChunk(outLeft, outRight, at, n, f, rd);
      ChunkingStep(total, v, f, at, m, params.maxBlockSize, rd, from, done, passes, c0, c, p0, p, l0, l, r0, r, outLeft[..], outRight[..]);
      chunks := chunks + [Span(at, n)];
      rendered := rendered + [Pass(f, v)];
    }

    /**
      * The chunk loop of `process_audio`: [offset, offset + nFrames) in
      * consecutive chunks of at most the maximum block size, the chunk at
      * buffer frame offset + i starting at absolute frame
      * global_frame_count + i.
      */
    method RenderChunks(outLeft: array<real>, outRight: array<real>, nFrames: nat, offset: nat, rd: Render)
      requires params.maxBlockSize > 0 && BusyPlayable(voices) && RenderOk(rd)
      requires outLeft != outRight && offset + nFrames <= outLeft.Length && offset + nFrames <= outRight.Length
      modifies this`voices, this`chunks, this`rendered, outLeft, outRight
      ensures var run := SliceRun(old(voices), globalFrameCount, offset, nFrames, params.maxBlockSize, rd);
        voices == run.after && chunks == old(chunks) + run.spans && rendered == old(rendered) + run.passes &&
        Mixed(run.spans, run.passes, rd, old(outLeft[..]), outLeft[..], old(outRight[..]), outRight[..])
      ensures Kept(old(outLeft[..]), outLeft[..], old(outRight[..]), outRight[..], offset, offset + nFrames)
    {
      ghost var total := SliceRun(voices, globalFrameCount, offset, nFrames, params.maxBlockSize, rd);
      ghost var c0, p0, l0, r0 := chunks, rendered, outLeft[..], outRight[..];
      ghost var done: seq<Span>, passes: seq<Pass> := [], [];
      ChunkingStart(total, voices, globalFrameCount, offset, nFrames, params.maxBlockSize, rd, c0, p0, l0, r0);
      var i := 0;
      while i < nFrames
        invariant i <= nFrames
        invariant Chunking(total, voices, globalFrameCount + i, offset + i, nFrames - i, params.maxBlockSize, rd, offset,
                           done, passes, c0, chunks, p0, rendered, l0, outLeft[..], r0, outRight[..])
      {
        ghost var v := voices;
        var todo := RenderRound(outLeft, outRight, offset + i, nFrames - i, globalFrameCount + i, rd,
                                total, offset, done, passes, c0, p0, l0, r0);
        done := done + [Span(offset + i, todo)];
        passes := passes + [Pass(globalFrameCount + i, v)];
        i := i + todo;
      }
      ChunkingDone(total, voices, globalFrameCount + i, offset + i, params.maxBlockSize, rd, offset,
                   done, passes, c0, chunks, p0, rendered, l0, outLeft[..], r0, outRight[..]);
    }

    /**
      * `process_audio (outputs, n_frames, offset)`: [offset, offset +
      * n_frames) is rendered in consecutive chunks of at most
      * `MAX_BLOCK_SIZE` frames, each by the voices that are not IDLE, and
      * the frame counter advances by n_frames.
      */
    method ProcessAudio(outLeft: array<real>, outRight: array<real>, nFrames: nat, offset: nat, rd: Render)
      requires Valid() && RenderOk(rd)
      requires outLeft != outRight && offset + nFrames <= outLeft.Length && offset + nFrames <= outRight.Length
      modifies this`voices, this`chunks, this`rendered, this`slices, this`globalFrameCount, outLeft, outRight
      ensures Valid()
      ensures var run := SliceRun(old(voices), old(globalFrameCount), offset, nFrames, params.maxBlockSize, rd);
        voices == run.after && chunks == old(chunks) + run.spans && rendered == old(rendered) + run.passes &&
        Mixed(run.spans, run.passes, rd, old(outLeft[..]), outLeft[..], old(outRight[..]), outRight[..])
      ensures Kept(old(outLeft[..]), outLeft[..], old(outRight[..]), outRight[..], offset, offset + nFrames)
      ensures globalFrameCount == old(globalFrameCount) + nFrames
      ensures slices == old(slices) + [Span(offset, nFrames)]
    {
      RenderChunks(outLeft, outRight, nFrames, offset, rd);
      SliceKeepsPool(old(voices), globalFrameCount, offset, nFrames, params.maxBlockSize, rd, globalFrameCount);
      StateValidLater(State(), globalFrameCount, globalFrameCount + nFrames);
      globalFrameCount := globalFrameCount + nFrames;
      slices := slices + [Span(offset, nFrames)];
    }

    /** One queued event, applied at the current frame count; `random` is used by a note-on. */
    method DispatchEvent(e: Event, random: real)
      requires Valid()
      modifies this`voices, this`regions, this`channels, this`dispatched
      ensures State() == EventState(old(State()), e, random, old(globalFrameCount), params)
      ensures Valid()
      ensures dispatched == old(dispatched) + [e]
    {
      match e.kind {
        case NoteOnEvent => NoteOn(e.channel, e.arg1, e.arg2, random);
        case NoteOffEvent => NoteOff(e.channel, e.arg1);
        case CcEvent => UpdateCc(e.channel, e.arg1, e.arg2);
        case PitchBendEvent =>
        case NoEvent =>
      }
      dispatched := dispatched + [e];
    }

    /**
      * The block so far, pr, which started at frame g0 with the chunk
      * histories c0 and p0 and the outputs l0 and r0: the synth is in pr's
      * state at the frame pr reached, and exactly the chunks of pr were
      * rendered into the outputs, which are untouched after that frame.
      */
    ghost predicate At(pr: Progression, g0: nat, c0: seq<Span>, p0: seq<Pass>, rd: Render,
                       outLeft: array<real>, outRight: array<real>, l0: seq<real>, r0: seq<real>)
      reads this, outLeft, outRight
    {
      Reached(pr, g0, c0, p0, rd, State(), globalFrameCount, chunks, rendered, l0, outLeft[..], r0, outRight[..])
    }

    /**
      * The `process_audio` call of `process` from buffer frame `offset`, the
      * one the block reached, to buffer frame `to`: the block is carried on
      * to `to`.
      */
    method RenderStep(outLeft: array<real>, outRight: array<real>, offset: nat, to: nat, rd: Render,
                      ghost pr: Progression, ghost g0: nat, ghost c0: seq<Span>, ghost p0: seq<Pass>,
                      ghost l0: seq<real>, ghost r0: seq<real>)
      requires Valid() && RenderOk(rd) && offset == pr.offset <= to
      requires outLeft != outRight && to <= outLeft.Length && to <= outRight.Length
      requires At(pr, g0, c0, p0, rd, outLeft, outRight, l0, r0)
      modifies this`voices, this`chunks, this`rendered, this`slices, this`globalFrameCount, outLeft, outRight
      ensures Valid() && At(RenderTo(pr, to, g0, params, rd), g0, c0, p0, rd, outLeft, outRight, l0, r0)
      ensures slices == old(slices) + [Span(offset, to - offset)]
    {
      ghost var st1, l1, r1, c1, p1 := State(), outLeft[..], outRight[..], chunks, rendered;
      SliceChunked(voices, globalFrameCount, offset, to - offset, params.maxBlockSize, rd);
      ProcessAudio(outLeft, outRight, to - offset, offset, rd);
      ReachedStep(pr, to, g0, c0, p0, params, rd, st1, c1, p1, l0, l1, r0, r1, State(), chunks, rendered, outLeft[..], outRight[..]);
    }

    /**
      * `process (outputs, n_frames)` with one random number per queued
      * event: both outputs are zeroed, the block is cut at each event's
      * offset (clamped to n_frames) into slices that are rendered in turn,
      * each event is dispatched once, in queue order, between the slices,
      * and the queue is emptied. Every frame of the block ends up holding
      * the output of the chunk that covers it, rendered by the pool as the
      * slices and events before it left it. The offsets must not decrease
      * along the queue: otherwise `new_offset - offset` wraps around as an
      * unsigned value.
      */
    method Process(outLeft: array<real>, outRight: array<real>, nFrames: nat, randoms: seq<real>, rd: Render)
      requires Valid() && Sorted(events) && |randoms| == |events| && RenderOk(rd)
      requires outLeft != outRight && nFrames <= outLeft.Length && nFrames <= outRight.Length
      modifies this`voices, this`regions, this`channels, this`dispatched, this`events,
               this`slices, this`chunks, this`rendered, this`globalFrameCount, outLeft, outRight
      ensures Valid()
      ensures var b := Block(old(State()), old(events), randoms, old(globalFrameCount), nFrames, params, rd);
        State() == b.state && chunks == old(chunks) + b.spans && rendered == old(rendered) + b.passes &&
        Mixed(b.spans, b.passes, rd, Zeroed(old(outLeft[..]), nFrames), outLeft[..], Zeroed(old(outRight[..]), nFrames), outRight[..])
      ensures Kept(old(outLeft[..]), outLeft[..], old(outRight[..]), outRight[..], 0, nFrames)
      ensures events == [] && dispatched == old(dispatched) + old(events)
      ensures globalFrameCount == old(globalFrameCount) + nFrames
      ensures |slices| == |old(slices)| + |old(events)| + 1 && slices[..|old(slices)|] == old(slices)
      ensures Tiles(slices[|old(slices)|..], 0, nFrames)
      ensures forall k :: 0 <= k < |old(events)| ==>
        slices[|old(slices)| + k].start + slices[|old(slices)| + k].len == Clamp(old(events)[k].offset, nFrames)
    {
      ghost var l0, r0 := outLeft[..], outRight[..];
      ZeroBlock(outLeft, nFrames);
      ZeroBlock(outRight, nFrames);
      assert outLeft[..] == Zeroed(l0, nFrames) && outRight[..] == Zeroed(r0, nFrames);
      PlayBlock(outLeft, outRight, nFrames, randoms, rd);
    }

    /** `process` after the outputs were zeroed: the events and the slices between them. */
    method PlayBlock(outLeft: array<real>, outRight: array<real>, nFrames: nat, randoms: seq<real>, rd: Render)
      requires Valid() && Sorted(events) && |randoms| == |events| && RenderOk(rd)
      requires outLeft != outRight && nFrames <= outLeft.Length && nFrames <= outRight.Length
      modifies this`voices, this`regions, this`channels, this`dispatched, this`events,
               this`slices, this`chunks, this`rendered, this`globalFrameCount, outLeft, outRight
      ensures Valid()
      ensures var b := Block(old(State()), old(events), randoms, old(globalFrameCount), nFrames, params, rd);
        State() == b.state && chunks == old(chunks) + b.spans && rendered == old(rendered) + b.passes &&
        Mixed(b.spans, b.passes, rd, old(outLeft[..]), outLeft[..], old(outRight[..]), outRight[..])
      ensures Kept(old(outLeft[..]), outLeft[..], old(outRight[..]), outRight[..], 0, nFrames)
      ensures events == [] && dispatched == old(dispatched) + old(events)
      ensures globalFrameCount == old(globalFrameCount) + nFrames
      ensures |slices| == |old(slices)| + |old(events)| + 1 && slices[..|old(slices)|] == old(slices)
      ensures Tiles(slices[|old(slices)|..], 0, nFrames)
      ensures forall k :: 0 <= k < |old(events)| ==>
        slices[|old(slices)| + k].start + slices[|old(slices)| + k].len == Clamp(old(events)[k].offset, nFrames)
    {
      ghost var z0, z1 := outLeft[..], outRight[..];
      ghost var st0, g0, s0, c0, p0 := State(), globalFrameCount, slices, chunks, rendered;
      ghost var evs := events;
      var offset;
      ghost var cuts;
      offset, cuts := DispatchAll(outLeft, outRight, nFrames, randoms, rd);
      ghost var pr := Played(st0, evs, randoms, g0, nFrames, params, rd);
      events := [];
      RenderStep(outLeft, outRight, offset, nFrames, rd, pr, g0, c0, p0, z0, z1);
      SlicedByLast(cuts, evs, nFrames, offset);
      AppendAssoc(s0, cuts, [Span(offset, nFrames - offset)]);
      ghost var ns := cuts + [Span(offset, nFrames - offset)];
      assert slices == s0 + ns;
      assert slices[..|s0|] == s0 && slices[|s0|..] == ns;
    }

    /**
      * One round of the loop of `process` over the queue: the frames from
      * `offset` up to `to`, the event's clamped offset, are rendered, then
      * the event e is dispatched.
      */
    method DispatchRound(outLeft: array<real>, outRight: array<real>, offset: nat, to: nat, e: Event, random: real, rd: Render,
                         ghost pr: Progression, ghost g0: nat, ghost c0: seq<Span>, ghost p0: seq<Pass>,
                         ghost l0: seq<real>, ghost r0: seq<real>)
      requires Valid() && RenderOk(rd) && offset == pr.offset <= to
      requires outLeft != outRight && to <= outLeft.Length && to <= outRight.Length
      requires At(pr, g0, c0, p0, rd, outLeft, outRight, l0, r0)
      modifies this`voices, this`regions, this`channels, this`dispatched,
               this`slices, this`chunks, this`rendered, this`globalFrameCount, outLeft, outRight
      ensures Valid() && At(Handled(RenderTo(pr, to, g0, params, rd), e, random, g0, params), g0, c0, p0, rd, outLeft, outRight, l0, r0)
      ensures dispatched == old(dispatched) + [e] && slices == old(slices) + [Span(offset, to - offset)]
    {
      RenderStep(outLeft, outRight, offset, to, rd, pr, g0, c0, p0, l0, r0);
      ghost var st, l, r := State(), outLeft[..], outRight[..];
      DispatchEvent(e, random);
      HandledReached(RenderTo(pr, to, g0, params, rd), e, random, g0, c0, p0, params, rd, st, chunks, rendered, l0, l, r0, r);
    }

    /**
      * Where the loop of `process` over the queue stands after i events of
      * evs: the block so far is pr, the one those events play from the state
      * st0 at frame g0 (histories s0, c0, p0, d0, outputs l0 and r0); it
      * reached buffer frame `offset`; `cuts` are the `process_audio` calls
      * made, one per event.
      */
    ghost predicate Dispatching(evs: seq<Event>, randoms: seq<real>, i: nat, pr: Progression, offset: nat, cuts: seq<Span>,
                                st0: SynthState, g0: nat, s0: seq<Span>, c0: seq<Span>, p0: seq<Pass>, d0: seq<Event>,
                                nFrames: nat, rd: Render, outLeft: array<real>, outRight: array<real>, l0: seq<real>, r0: seq<real>)
      reads this, outLeft, outRight
    {
      i <= |evs| == |randoms| && Sorted(evs) && Valid() && offset == pr.offset &&
      (SortedPrefix(evs, i); pr == Played(st0, evs[..i], randoms[..i], g0, nFrames, params, rd)) &&
      At(pr, g0, c0, p0, rd, outLeft, outRight, l0, r0) &&
      dispatched == d0 + evs[..i] && slices == s0 + cuts && SlicedBy(cuts, evs, nFrames, i, offset)
    }

    /** One round of the loop of `process` over the queue: event i is reached and dispatched. */
    method DispatchNext(outLeft: array<real>, outRight: array<real>, nFrames: nat, evs: seq<Event>, randoms: seq<real>,
                        i: nat, offset: nat, rd: Render, ghost pr: Progression, ghost cuts: seq<Span>,
                        ghost st0: SynthState, ghost g0: nat, ghost s0: seq<Span>, ghost c0: seq<Span>, ghost p0: seq<Pass>,
                        ghost d0: seq<Event>, ghost l0: seq<real>, ghost r0: seq<real>)
      returns (to: nat, ghost pr': Progression, ghost cuts': seq<Span>)
      requires i < |evs| && RenderOk(rd) && outLeft != outRight && nFrames <= outLeft.Length && nFrames <= outRight.Length
      requires Dispatching(evs, randoms, i, pr, offset, cuts, st0, g0, s0, c0, p0, d0, nFrames, rd, outLeft, outRight, l0, r0)
      modifies this`voices, this`regions, this`channels, this`dispatched,
               this`slices, this`chunks, this`rendered, this`globalFrameCount, outLeft, outRight
      ensures Dispatching(evs, randoms, i + 1, pr', to, cuts', st0, g0, s0, c0, p0, d0, nFrames, rd, outLeft, outRight, l0, r0)
    {
      to := Clamp(evs[i].offset, nFrames);
      PlayedNext(st0, evs, randoms, g0, nFrames, params, rd, i);
      DispatchRound(outLeft, outRight, offset, to, evs[i], randoms[i], rd, pr, g0, c0, p0, l0, r0);
      SlicedByNext(cuts, evs, nFrames, i, offset, to);
      AppendAssoc(s0, cuts, [Span(offset, to - offset)]);
      cuts' := cuts + [Span(offset, to - offset)];
      AppendAssoc(d0, evs[..i], [evs[i]]);
      PrefixSnoc(evs, i);
      pr' := Handled(RenderTo(pr, to, g0, params, rd), evs[i], randoms[i], g0, params);
    }

    /**
      * The loop of `process` over the queue: for each event, render the
      * frames up to its clamped offset, then dispatch it. Returns the offset
      * reached and, as `cuts`, the `process_audio` calls it made.
      */
    method DispatchAll(outLeft: array<real>, outRight: array<real>, nFrames: nat, randoms: seq<real>, rd: Render)
      returns (offset: nat, ghost cuts: seq<Span>)
      requires Valid() && Sorted(events) && |randoms| == |events| && RenderOk(rd)
      requires outLeft != outRight && nFrames <= outLeft.Length && nFrames <= outRight.Length
      modifies this`voices, this`regions, this`channels, this`dispatched,
               this`slices, this`chunks, this`rendered, this`globalFrameCount, outLeft, outRight
      ensures Valid()
      ensures var pr := Played(old(State()), events, randoms, old(globalFrameCount), nFrames, params, rd);
        offset == pr.offset &&
        At(pr, old(globalFrameCount), old(chunks), old(rendered), rd, outLeft, outRight, old(outLeft[..]), old(outRight[..]))
      ensures dispatched == old(dispatched) + events
      ensures slices == old(slices) + cuts && SlicedBy(cuts, events, nFrames, |events|, offset)
    {
      ghost var st0, g0, s0, c0, p0, d0 := State(), globalFrameCount, slices, chunks, rendered, dispatched;
      ghost var l0, r0 := outLeft[..], outRight[..];
      var evs := events;
      ghost var pr := Progression(st0, 0, [], []);
      offset := 0;
      cuts := [];
      var i := 0;
      assert evs[..0] == [] && randoms[..0] == [];
      while i < |evs|
        invariant Dispatching(evs, randoms, i, pr, offset, cuts, st0, g0, s0, c0, p0, d0, nFrames, rd, outLeft, outRight, l0, r0)
      {
        offset, pr, cuts := DispatchNext(outLeft, outRight, nFrames, evs, randoms, i, offset, rd, pr, cuts, st0, g0, s0, c0, p0, d0, l0, r0);
        i := i + 1;
      }
      assert evs[..i] == evs && randoms[..i] == randoms;
    }

    /** `zero_float_block`: the first n frames become 0. */
    static method ZeroBlock(out: array<real>, n: nat)
      requires n <= out.Length
      modifies out
      ensures forall k :: 0 <= k < n ==> out[k] == 0.0
      ensures forall k :: n <= k < out.Length ==> out[k] == old(out[k])
    {
      var k := 0;
      while k < n
        invariant k <= n
        invariant forall j :: 0 <= j < k ==> out[j] == 0.0
        invariant forall j :: k <= j < out.Length ==> out[j] == old(out[j])
      {
        out[k] := 0.0;
        k := k + 1;
      }
    }

    /** `all_sound_off`: `kill` on every voice, in pool order. */
    method AllSoundOff()
      modifies this`calls
      ensures calls == old(calls) + seq(|voices|, i requires 0 <= i => Kill(i))
    {
      var i := 0;
      while i < |voices|
        invariant i <= |voices|
        invariant calls == old(calls) + seq(i, k requires 0 <= k => Kill(k))
      {
        calls := calls + [Kill(i)];
        i := i + 1;
      }
    }

    /** `system_reset`: `all_sound_off`, then `init_channels`. */
    method SystemReset()
      modifies this`calls
      ensures calls == old(calls) + seq(|voices|, i requires 0 <= i => Kill(i)) + [InitChannels]
    {
      AllSoundOff();
      calls := calls + [InitChannels];
    }

    /** `set_log_level`. */
    method SetLogLevel(level: LogLevel)
      modifies this`logLevel
      ensures logLevel == level
    {
      logLevel := level;
    }

    /**
      * `error`, `warning`, `info` and `debug`: the message is handed to the
      * log sink exactly when its level passes the threshold.
      */
    method Log(level: LogLevel, message: string) returns (emitted: Option<(LogLevel, string)>)
      ensures emitted.Some? <==> Emits(logLevel, level)
      ensures emitted.Some? ==> emitted.value == (level, message)
    {
      if Rank(logLevel) <= Rank(level) {
        emitted := Some((level, message));
      } else {
        emitted := None;
      }
    }
  }
}
