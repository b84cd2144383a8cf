/**
  * The sample cache (lib/samplecache.hh): a decoded sample file is an Entry
  * whose samples are cut into buffers of frames_per_buffer frames; `load`
  * preloads the first buffers, a background pass fills the ones near the
  * play position, and `get` reads one interleaved sample value. The cache
  * maps file names to weak references. Sound files are abstract input
  * values (SoundFile) whose data are the interleaved sample values a read
  * returns; the weak references' liveness is a parameter (the set of
  * entries still owned elsewhere).
  *
  * Sample::PlayHandle::lookup (lib/samplecache.cc) belongs to a revision in
  * which a buffer holds an optional block of data with its own start
  * position; it is modelled by the classes Sample and PlayHandle below.
  */
module SampleCache {
  import opened Text

  /** SampleBuffer::frames_per_buffer. */
  const FramesPerBuffer: nat := 1000
  /** `load` preloads this many buffers. */
  const PreloadCount: nat := 20
  /** The background load fills buffers below max_buffer_index + this. */
  const PrefetchWindow: nat := 20

  /** A SampleBuffer: the loaded flag and the interleaved samples. */
  datatype Buffer = Buffer(loaded: bool, samples: seq<int>)

  const EmptyBuffer: Buffer := Buffer(false, [])

  /** The part of SF_INSTRUMENT that `load` reads: the loop count and the first loop. */
  datatype Instrument = Instrument(loopCount: nat, firstLoopForward: bool, loopStart: int, loopEnd: int)

  /**
    * An opened sound file: frame count, channels, rate, whether its sample
    * format is float or double, the interleaved data, and the instrument
    * chunk if the file has one.
    */
  datatype SoundFile = SoundFile(frames: nat, channels: nat, sampleRate: nat, isFloat: bool,
                                 data: seq<int>, instrument: Option<Instrument>)

  /** What libsndfile guarantees of an opened file. */
  predicate Consistent(f: SoundFile)
  {
    f.channels > 0 && |f.data| == f.frames * f.channels
  }

  function Min(x: int, y: int): int
  {
    if x < y then x else y
  }

  lemma MulLe(x: nat, y: nat, c: nat)
    requires x <= y
    ensures x * c <= y * c
  {
    assert y * c - x * c == (y - x) * c;
  }

  /** Euclidean division of a natural number by a positive one is q exactly when q * d <= a < (q + 1) * d. */
  lemma DivIs(a: nat, d: nat, q: nat)
    requires d > 0 && q * d <= a < q * d + d
    ensures a / d == q
  {
    var p, r := a / d, a % d;
    assert a == p * d + r && 0 <= r < d;
    if p < q {
      MulLe(p + 1, q, d);
      assert false;
    } else if p > q {
      MulLe(q + 1, p, d);
      assert false;
    }
  }

  /**
    * The frame count sf_readf_* delivers when asked for `want` frames at
    * frame `start`: what is left of the file, at most `want`.
    */
  function ReadCount(f: SoundFile, start: nat, want: nat): (n: nat)
    ensures n <= want
    ensures n > 0 ==> start + n <= f.frames
    ensures n == 0 <==> want == 0 || start >= f.frames
    ensures start + want <= f.frames ==> n == want
  {
    if start < f.frames then Min(want, f.frames - start) else 0
  }

  /** The interleaved values of frames [start, start + n). */
  function Frames(f: SoundFile, start: nat, n: nat): (r: seq<int>)
    requires Consistent(f) && start + n <= f.frames
    ensures |r| == n * f.channels
  {
    MulLe(start, start + n, f.channels);
    MulLe(start + n, f.frames, f.channels);
    f.data[start * f.channels .. (start + n) * f.channels]
  }

  /** The number of frames `load_buffer` reads for buffer b. */
  function BufferFrames(f: SoundFile, b: nat): nat
  {
    ReadCount(f, b * FramesPerBuffer, FramesPerBuffer)
  }

  /**
    * `load_buffer`: a buffer that is not loaded gets the frames of its range
    * (its samples stay as they were on a read of no frames) and is marked
    * loaded either way; a loaded buffer is left alone.
    */
  function LoadBufferSpec(buf: Buffer, f: SoundFile, b: nat): (r: Buffer)
    requires Consistent(f)
    ensures r.loaded
    ensures buf.loaded ==> r == buf
  {
    if buf.loaded then buf
    else
      var n := BufferFrames(f, b);
      Buffer(true, if n > 0 then Frames(f, b * FramesPerBuffer, n) else buf.samples)
  }

  /**
    * The float path of `load_buffer` as written: sf_readf_float is asked
    * for frames_per_buffer * channels FRAMES, although the float buffer
    * holds frames_per_buffer * channels VALUES. Result: the number of float
    * values the read stores.
    */
  function FloatValuesReadAsWritten(f: SoundFile, b: nat): nat
  {
    ReadCount(f, b * FramesPerBuffer, FramesPerBuffer * f.channels) * f.channels
  }

  /** With two channels and 3000 frames, the first read stores 4000 values into room for 2000. */
  lemma FloatReadAsWrittenOverruns()
    ensures var f := SoundFile(3000, 2, 44100, true, [], None);
      FloatValuesReadAsWritten(f, 0) == 4000 && FramesPerBuffer * f.channels == 2000
  {
  }

  /** The overrun happens for every multichannel file with more than one buffer of frames left. */
  lemma FloatReadAsWrittenOverrunsWhenever(f: SoundFile, b: nat)
    requires f.channels >= 2 && b * FramesPerBuffer + FramesPerBuffer < f.frames
    ensures FloatValuesReadAsWritten(f, b) > FramesPerBuffer * f.channels
  {
    var n := ReadCount(f, b * FramesPerBuffer, FramesPerBuffer * f.channels);
    assert FramesPerBuffer * f.channels >= 2 * FramesPerBuffer;
    assert n > FramesPerBuffer;
    MulLe(FramesPerBuffer + 1, n, f.channels);
  }

  /** Asking for frames_per_buffer frames, as the short path does, never stores more values than a buffer holds. */
  lemma BufferReadFits(f: SoundFile, b: nat)
    ensures BufferFrames(f, b) * f.channels <= FramesPerBuffer * f.channels
  {
    MulLe(BufferFrames(f, b), FramesPerBuffer, f.channels);
  }

  /** The buffer that holds interleaved position pos. */
  function BufferIndex(pos: nat, channels: nat): nat
    requires channels > 0
  {
    pos / (FramesPerBuffer * channels)
  }

  /** `update_max_buffer_index`: the larger of the two. */
  function Raised(m: nat, value: nat): (r: nat)
    ensures r >= m && r >= value
    ensures r == m || r == value
  {
    if m < value then value else m
  }

  /**
    * `Entry::get`: the value at interleaved position pos when its buffer
    * exists, is loaded and is long enough; 0 otherwise.
    */
  function ValueAt(bs: seq<Buffer>, channels: nat, pos: nat): int
    requires channels > 0
  {
    var b := BufferIndex(pos, channels);
    if b < |bs| && bs[b].loaded then
      var i := pos - b * (FramesPerBuffer * channels);
      if i < |bs[b].samples| then bs[b].samples[i] else 0
    else 0
  }

  /** The max_buffer_index after `get`: raised to the buffer read when that buffer is loaded. */
  function Touched(bs: seq<Buffer>, channels: nat, pos: nat, m: nat): nat
    requires channels > 0
  {
    var b := BufferIndex(pos, channels);
    if b < |bs| && bs[b].loaded then Raised(m, b) else m
  }

  /**
    * Once the buffer holding pos has been loaded from a file, `get (pos)`
    * returns the file's value at pos: buffers and in-buffer indices tile
    * the interleaved data.
    */
  lemma GetReadsFile(bs: seq<Buffer>, f: SoundFile, pos: nat)
    requires Consistent(f) && pos < |f.data|
    requires BufferIndex(pos, f.channels) < |bs|
    requires bs[BufferIndex(pos, f.channels)] == LoadBufferSpec(EmptyBuffer, f, BufferIndex(pos, f.channels))
    ensures ValueAt(bs, f.channels, pos) == f.data[pos]
  {
    var b := BufferIndex(pos, f.channels);
    PositionInBuffer(f, pos);
    assert bs[b].samples == Frames(f, b * FramesPerBuffer, BufferFrames(f, b));
  }

  /** Position pos of a file lies in the frames its buffer reads, at offset pos - b * frames_per_buffer * channels. */
  lemma PositionInBuffer(f: SoundFile, pos: nat)
    requires Consistent(f) && pos < |f.data|
    ensures var b := BufferIndex(pos, f.channels);
      b * FramesPerBuffer < f.frames &&
      pos - b * (FramesPerBuffer * f.channels) < BufferFrames(f, b) * f.channels &&
      (b * FramesPerBuffer) * f.channels + (pos - b * (FramesPerBuffer * f.channels)) == pos
  {
    var ch := f.channels;
    var k := FramesPerBuffer * ch;
    var b := BufferIndex(pos, ch);
    DivBounds(pos, k);
    var start := b * FramesPerBuffer;
    assert start * ch == b * k;
    assert start * ch < f.frames * ch;
    MulLtCancel(start, f.frames, ch);
    var n := BufferFrames(f, b);
    if n < FramesPerBuffer {
      assert n * ch == f.frames * ch - b * k;
    } else {
      assert n * ch == k;
    }
  }

  lemma DivBounds(a: nat, d: nat)
    requires d > 0
    ensures 0 <= a / d && (a / d) * d <= a < (a / d) * d + d
  {
    assert a == (a / d) * d + a % d;
  }

  lemma MulLtCancel(x: nat, y: nat, c: nat)
    requires x * c < y * c
    ensures x < y
  {
    if x >= y {
      MulLe(y, x, c);
    }
  }

  /** A `get` in an unloaded or missing buffer reads silence and leaves max_buffer_index alone. */
  lemma GetOutsideLoaded(bs: seq<Buffer>, channels: nat, pos: nat, m: nat)
    requires channels > 0
    requires BufferIndex(pos, channels) >= |bs| || !bs[BufferIndex(pos, channels)].loaded
    ensures ValueAt(bs, channels, pos) == 0 && Touched(bs, channels, pos, m) == m
  {
  }

  /** The number of buffers `load` creates: one per started frames_per_buffer frames. */
  function BufferCount(frames: nat): nat
  {
    (frames + FramesPerBuffer - 1) / FramesPerBuffer
  }

  /** The first k buffers as `load` creates them: the first 20 loaded from the file, the rest empty. */
  function Preloaded(f: SoundFile, k: nat): (bs: seq<Buffer>)
    requires Consistent(f)
    ensures |bs| == k
  {
    if k == 0 then []
    else Preloaded(f, k - 1) + [if k - 1 < PreloadCount then LoadBufferSpec(EmptyBuffer, f, k - 1) else EmptyBuffer]
  }

  /** Buffer i after preloading is loaded from the file exactly when i is below 20. */
  lemma {:induction false} PreloadedShape(f: SoundFile, k: nat, i: nat)
    requires Consistent(f) && i < k
    ensures Preloaded(f, k)[i] == if i < PreloadCount then LoadBufferSpec(EmptyBuffer, f, i) else EmptyBuffer
    ensures Preloaded(f, k)[i].loaded <==> i < PreloadCount
  {
    if i < k - 1 {
      PreloadedShape(f, k - 1, i);
    }
  }

  /** The buffers of a file fit exactly: all frames are covered and the last buffer starts inside the file. */
  lemma BufferCountCovers(frames: nat)
    ensures BufferCount(frames) * FramesPerBuffer >= frames
    ensures BufferCount(frames) > 0 ==> (BufferCount(frames) - 1) * FramesPerBuffer < frames
  {
  }

  /**
    * The background `load (entry)`: every buffer that is not loaded and lies
    * below max_buffer_index + 20 is loaded when the file opens; the others
    * stay as they are.
    */
  function Prefetched(bs: seq<Buffer>, f: Option<SoundFile>, maxIndex: nat): (r: seq<Buffer>)
    requires f.Some? ==> Consistent(f.value)
    ensures |r| == |bs|
  {
    seq(|bs|, i requires 0 <= i < |bs| =>
      if !bs[i].loaded && i < maxIndex + PrefetchWindow && f.Some? then LoadBufferSpec(bs[i], f.value, i) else bs[i])
  }

  /**
    * The background load changes only unloaded buffers inside the window,
    * loads all of them when the file opens, and is idempotent.
    */
  lemma PrefetchWindowRule(bs: seq<Buffer>, f: Option<SoundFile>, maxIndex: nat, i: nat)
    requires f.Some? ==> Consistent(f.value)
    requires i < |bs|
    ensures Prefetched(bs, f, maxIndex)[i] != bs[i] ==> !bs[i].loaded && i < maxIndex + PrefetchWindow
    ensures f.Some? && i < maxIndex + PrefetchWindow ==> Prefetched(bs, f, maxIndex)[i].loaded
    ensures Prefetched(Prefetched(bs, f, maxIndex), f, maxIndex) == Prefetched(bs, f, maxIndex)
  {
  }

  /** A cache slot holds a weak reference: null or an Entry, expired unless still owned. */
  function Unexpired(c: map<string, Entry?>, alive: set<Entry>): (r: map<string, Entry?>)
    ensures forall k :: k in r <==> k in c && c[k] != null && c[k] in alive
    ensures forall k :: k in r ==> r[k] == c[k]
  {
    map k | k in c && c[k] != null && c[k] in alive :: c[k]
  }

  /** A slot that is dead, or was just inserted as null, disappears with the other expired slots. */
  lemma UnexpiredForgetsDeadSlot(c: map<string, Entry?>, alive: set<Entry>, name: string, slot: Entry?)
    requires slot == (if name in c then c[name] else null)
    requires slot == null || slot !in alive
    ensures Unexpired(c[name := slot], alive) == Unexpired(c, alive)
  {
  }

  /** Removing expired slots twice removes nothing more. */
  lemma UnexpiredIdempotent(c: map<string, Entry?>, alive: set<Entry>)
    ensures Unexpired(Unexpired(c, alive), alive) == Unexpired(c, alive)
  {
  }

  /** SampleCache::Entry. */
  class Entry {
    var loop: bool
    var loopStart: int
    var loopEnd: int
    var buffers: seq<Buffer>
    var sampleRate: nat
    var channels: nat
    var nSamples: nat
    var playbackCount: int
    var maxBufferIndex: nat
    var loaded: bool
    var filename: string

    /** The member initialisers; sample_rate and channels start as 0. */
    constructor ()
      ensures !loop && loopStart == 0 && loopEnd == 0 && buffers == []
      ensures sampleRate == 0 && channels == 0 && nSamples == 0
      ensures playbackCount == 0 && maxBufferIndex == 0 && !loaded && filename == ""
    {
      loop, loopStart, loopEnd := false, 0, 0;
      buffers := [];
      sampleRate, channels, nSamples := 0, 0, 0;
      playbackCount, maxBufferIndex, loaded := 0, 0, false;
      filename := "";
    }

    /** The new entry `load` builds for an opened file, with its buffers preloaded. */
    constructor Open(name: string, f: SoundFile)
      requires Consistent(f)
      ensures buffers == Preloaded(f, BufferCount(f.frames))
      ensures channels == f.channels && sampleRate == f.sampleRate && nSamples == f.frames * f.channels
      ensures filename == name && playbackCount == 0 && maxBufferIndex == 0 && !loaded
      ensures loop <==> f.instrument.Some? && f.instrument.value.loopCount > 0 && f.instrument.value.firstLoopForward
      ensures loop ==> loopStart == f.instrument.value.loopStart && loopEnd == f.instrument.value.loopEnd
    {
      loop, loopStart, loopEnd := false, 0, 0;
      if f.instrument.Some? && f.instrument.value.loopCount > 0 && f.instrument.value.firstLoopForward {
        loop := true;
        loopStart := f.instrument.value.loopStart;
        loopEnd := f.instrument.value.loopEnd;
      }
      buffers := [];
      sampleRate, channels, nSamples := f.sampleRate, f.channels, f.frames * f.channels;
      playbackCount, maxBufferIndex, loaded := 0, 0, false;
      filename := name;
      new;
      Preload(f);
    }

    /** `update_max_buffer_index`: a compare-and-swap that only ever raises the value. */
    method UpdateMaxBufferIndex(value: nat)
      modifies this`maxBufferIndex
      ensures maxBufferIndex == Raised(old(maxBufferIndex), value)
    {
      var prev := maxBufferIndex;
      if prev < value {
        maxBufferIndex := value;
      }
    }

    /** `get`. */
    method Get(pos: nat) returns (s: int)
      requires channels > 0
      modifies this`maxBufferIndex
      ensures s == ValueAt(buffers, channels, pos)
      ensures maxBufferIndex == Touched(buffers, channels, pos, old(maxBufferIndex))
    {
      var b := pos / (FramesPerBuffer * channels);
      if b < |buffers| {
        var buffer := buffers[b];
        if buffer.loaded {
          UpdateMaxBufferIndex(b);
          var i := pos - b * (FramesPerBuffer * channels);
          if i < |buffer.samples| {
            return buffer.samples[i];
          }
        }
      }
      return 0;
    }

    /** `start_playback`. */
    method StartPlayback()
      modifies this`playbackCount
      ensures playbackCount == old(playbackCount) + 1
    {
      playbackCount := playbackCount + 1;
    }

    /** `end_playback`. */
    method EndPlayback()
      modifies this`playbackCount
      ensures playbackCount == old(playbackCount) - 1
    {
      playbackCount := playbackCount - 1;
    }

    /** `load_buffer`, reading frames_per_buffer frames for both sample formats. */
    method LoadBuffer(f: SoundFile, b: nat)
      requires Consistent(f) && b < |buffers|
      modifies this`buffers
      ensures buffers == old(buffers)[b := LoadBufferSpec(old(buffers)[b], f, b)]
    {
      var buffer := buffers[b];
      if !buffer.loaded {
        var count := ReadCount(f, b * FramesPerBuffer, FramesPerBuffer);
        var samples := buffer.samples;
        if count > 0 {
          samples := Frames(f, b * FramesPerBuffer, count);
        }
        buffers := buffers[b := Buffer(true, samples)];
      }
    }

    /** The preload loop of `load`: one buffer per frames_per_buffer frames, the first 20 loaded. */
    method Preload(f: SoundFile)
      requires Consistent(f) && buffers == []
      modifies this`buffers
      ensures buffers == Preloaded(f, BufferCount(f.frames))
    {
      var pos: nat := 0;
      var b: nat := 0;
      while pos < f.frames
        invariant pos == |buffers| * FramesPerBuffer
        invariant b == Min(|buffers|, PreloadCount)
        invariant buffers == Preloaded(f, |buffers|)
        invariant |buffers| == 0 || (|buffers| - 1) * FramesPerBuffer < f.frames
        decreases f.frames - pos
      {
        buffers := buffers + [EmptyBuffer];
        if b < PreloadCount {
          LoadBuffer(f, b);
          b := b + 1;
        }
        pos := pos + FramesPerBuffer;
      }
      DivIs(f.frames + FramesPerBuffer - 1, FramesPerBuffer, |buffers|);
    }

    /** The background `load (entry)`; f is None when the file does not open. */
    method LoadMissing(f: Option<SoundFile>)
      requires f.Some? ==> Consistent(f.value)
      modifies this`buffers
      ensures buffers == Prefetched(old(buffers), f, maxBufferIndex)
    {
      ghost var bs := buffers;
      for b := 0 to |buffers|
        invariant |buffers| == |bs|
        invariant forall i :: 0 <= i < b ==> buffers[i] == Prefetched(bs, f, maxBufferIndex)[i]
        invariant forall i :: b <= i < |bs| ==> buffers[i] == bs[i]
      {
        if !buffers[b].loaded && b < maxBufferIndex + PrefetchWindow {
          if f.Some? {
            LoadBuffer(f.value, b);
          }
        }
      }
    }
  }

  /** The SampleCache: file name to weak reference (null when nothing was ever stored). */
  class Cache {
    var cache: map<string, Entry?>

    constructor ()
      ensures cache == map[]
    {
      cache := map[];
    }

    /** `remove_expired_entries`: drops exactly the slots whose weak reference expired. */
    method RemoveExpiredEntries(alive: set<Entry>)
      modifies this`cache
      ensures cache == Unexpired(old(cache), alive)
    {
      ghost var c0 := cache;
      var todo := cache.Keys;
      while todo != {}
        invariant todo <= c0.Keys
        invariant cache == map k | k in c0 && (k in todo || (c0[k] != null && c0[k] in alive)) :: c0[k]
        decreases todo
      {
        var k :| k in todo;
        if cache[k] == null || cache[k] !in alive {
          cache := cache - {k};
        }
        todo := todo - {k};
      }
    }

    /**
      * `load (filename)`: a live cached entry is returned as it is;
      * otherwise the expired slots go, and an opened file becomes a new
      * entry with its buffers preloaded, cached under its name unless
      * closing the file fails. file is None when sf_open reports an error.
      */
    method Load(filename: string, alive: set<Entry>, file: Option<SoundFile>, closeOk: bool) returns (e: Entry?)
      requires file.Some? ==> Consistent(file.value)
      modifies this`cache
      ensures filename in old(cache) && old(cache)[filename] != null && old(cache)[filename] in alive ==>
        e == old(cache)[filename] && cache == old(cache)
      ensures !(filename in old(cache) && old(cache)[filename] != null && old(cache)[filename] in alive) ==>
        (e != null <==> file.Some? && closeOk) &&
        cache == (if e != null then Unexpired(old(cache), alive)[filename := e] else Unexpired(old(cache), alive))
      ensures e != null && e !in alive ==>
        fresh(e) && e.buffers == Preloaded(file.value, BufferCount(file.value.frames)) &&
        e.channels == file.value.channels && e.filename == filename && e.playbackCount == 0 &&
        e.sampleRate == file.value.sampleRate && e.nSamples == file.value.frames * file.value.channels &&
        e.maxBufferIndex == 0 && !e.loaded &&
        (e.loop <==> file.value.instrument.Some? && file.value.instrument.value.loopCount > 0 &&
                     file.value.instrument.value.firstLoopForward) &&
        (e.loop ==> e.loopStart == file.value.instrument.value.loopStart && e.loopEnd == file.value.instrument.value.loopEnd)
    {
      var slot := if filename in cache then cache[filename] else null;
      cache := cache[filename := slot];
      if slot != null && slot in alive {
        return slot;
      }
      RemoveExpiredEntries(alive);
      UnexpiredForgetsDeadSlot(old(cache), alive, filename, slot);
      if file.None? {
        return null;
      }
      var entry := new Entry.Open(filename, file.value);
      if !closeOk {
        return null;
      }
      cache := cache[filename := entry];
      return entry;
    }
  }

  /** A block of buffer data in the lookup revision: its first interleaved position and its values. */
  datatype Data = Data(startNValues: int, samples: seq<int>)

  /** The sample as Sample::PlayHandle::lookup sees it. */
  class Sample {
    var channels: nat
    var buffers: seq<Option<Data>>
    var maxBufferIndex: nat

    constructor (channels: nat, buffers: seq<Option<Data>>)
      ensures this.channels == channels && this.buffers == buffers && maxBufferIndex == 0
    {
      this.channels := channels;
      this.buffers := buffers;
      maxBufferIndex := 0;
    }
  }

  /** C++ integer division: the quotient truncated toward zero. */
  function TruncDiv(a: int, d: int): (q: int)
    requires d > 0
    ensures a >= 0 ==> q == a / d
    ensures a < 0 ==> q == -((-a) / d)
  {
    if a >= 0 then a / d else -((-a) / d)
  }

  /** The buffer index `lookup` computes for pos, shifted by frames_overlap frames. */
  function LookupIndex(pos: int, framesOverlap: nat, channels: nat): int
    requires channels > 0
  {
    TruncDiv(pos + framesOverlap * channels, FramesPerBuffer * channels)
  }

  /** The handle's window after `lookup`, and the sample's max_buffer_index. */
  datatype Window = Window(ok: bool, samples: Option<seq<int>>, startPos: int, endPos: int, maxIndex: nat)

  /**
    * `lookup`: an index inside the buffers raises max_buffer_index; when that
    * buffer has data the window becomes its values, from its start position
    * to the start plus its length; otherwise the window is empty.
    */
  function LookupSpec(pos: int, framesOverlap: nat, channels: nat, buffers: seq<Option<Data>>, maxIndex: nat): (w: Window)
    requires channels > 0
    ensures w.ok ==> w.samples.Some? && w.endPos - w.startPos == |w.samples.value|
    ensures !w.ok ==> w.samples == None && w.startPos == 0 && w.endPos == 0
    ensures var b := LookupIndex(pos, framesOverlap, channels);
      w.maxIndex == (if 0 <= b < |buffers| then Raised(maxIndex, b) else maxIndex)
    ensures w.ok <==> var b := LookupIndex(pos, framesOverlap, channels); 0 <= b < |buffers| && buffers[b].Some?
  {
    var b := LookupIndex(pos, framesOverlap, channels);
    if 0 <= b < |buffers| && buffers[b].Some? then
      var d := buffers[b].value;
      Window(true, Some(d.samples), d.startNValues, d.startNValues + |d.samples|, Raised(maxIndex, b))
    else if 0 <= b < |buffers| then Window(false, None, 0, 0, Raised(maxIndex, b))
    else Window(false, None, 0, 0, maxIndex)
  }

  /**
    * Buffer b's data starts no later than frames_overlap frames before the
    * buffer's own first position (and not before 0).
    */
  predicate StartsInOverlap(buffers: seq<Option<Data>>, framesOverlap: nat, channels: nat)
  {
    forall b :: 0 <= b < |buffers| && buffers[b].Some? ==>
      buffers[b].value.startNValues <= Max0(b * (FramesPerBuffer * channels) - framesOverlap * channels)
  }

  function Max0(x: int): int
  {
    if x < 0 then 0 else x
  }

  /**
    * The assertion in `lookup` holds for every position that is not
    * negative when the buffers keep to that layout: a successful lookup's
    * window starts at or before pos.
    */
  lemma LookupStartsAtOrBeforePos(pos: int, framesOverlap: nat, channels: nat, buffers: seq<Option<Data>>, maxIndex: nat)
    requires channels > 0 && pos >= 0
    requires StartsInOverlap(buffers, framesOverlap, channels)
    ensures var w := LookupSpec(pos, framesOverlap, channels, buffers, maxIndex);
      w.ok ==> w.startPos <= pos
  {
    var k := FramesPerBuffer * channels;
    var a := pos + framesOverlap * channels;
    var b := a / k;
    assert a == b * k + a % k;
  }

  /** A negative position can still land in buffer 0, where that assertion fails for data starting at 0. */
  lemma LookupNegativePositionHitsBufferZero()
    ensures var w := LookupSpec(-1, 0, 1, [Some(Data(0, [7]))], 0);
      w.ok && w.startPos > -1
  {
  }

  /** Sample::PlayHandle: the window over the current buffer. */
  class PlayHandle {
    const sample: Sample
    var samples: Option<seq<int>>
    var startPos: int
    var endPos: int

    constructor (sample: Sample)
      ensures this.sample == sample && samples == None && startPos == 0 && endPos == 0
    {
      this.sample := sample;
      samples := None;
      startPos, endPos := 0, 0;
    }

    /** `lookup` in live mode; framesOverlap is SampleBuffer::frames_overlap. */
    method Lookup(pos: int, framesOverlap: nat) returns (ok: bool)
      requires sample.channels > 0
      modifies this`samples, this`startPos, this`endPos, sample`maxBufferIndex
      ensures Window(ok, samples, startPos, endPos, sample.maxBufferIndex) ==
        LookupSpec(pos, framesOverlap, sample.channels, sample.buffers, old(sample.maxBufferIndex))
    {
      var b := TruncDiv(pos + framesOverlap * sample.channels, FramesPerBuffer * sample.channels);
      if 0 <= b < |sample.buffers| {
        sample.maxBufferIndex := Raised(sample.maxBufferIndex, b);
        var data := sample.buffers[b];
        if data.Some? {
          samples := Some(data.value.samples);
          startPos := data.value.startNValues;
          endPos := startPos + |data.value.samples|;
          return true;
        }
      }
      samples := None;
      startPos, endPos := 0, 0;
      return false;
    }
  }
}
