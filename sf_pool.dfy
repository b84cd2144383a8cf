/**
  * The sound-file pool (lib/sfpool.cc): open sound files are shared between
  * users by file name, memory-mapped files are read through a virtual I/O
  * table that keeps a byte offset, each Entry remembers the frame position
  * of its file so that a read at the next frame needs no seek, and
  * `cleanup` closes files the pool no longer needs.
  *
  * The clock (get_time) is a parameter `now`; sf_open's outcome is a
  * parameter; the shared pointers' use counts are the set `held` of
  * entries some user other than the pool still holds.
  */
module SfPool {

  /** The whence values of lseek. */
  const SeekSet: int := 0
  const SeekCur: int := 1
  const SeekEnd: int := 2

  /** SFPool::max_fds and SFPool::max_time (seconds). */
  const MaxFds: nat := 64
  const MaxTime: real := 30.0

  function Min(x: int, y: int): int
  {
    if x < y then x else y
  }

  function Clamp(x: int, lo: int, hi: int): (r: int)
    requires lo <= hi
    ensures lo <= r <= hi
    ensures lo <= x <= hi ==> r == x
  {
    if x < lo then lo else if x > hi then hi else x
  }

  function Abs(x: real): real
  {
    if x < 0.0 then -x else x
  }

  /** The offset a virtual seek aims at, before clamping; an unknown whence keeps the offset. */
  function SeekTarget(offset: int, size: int, delta: int, whence: int): int
  {
    if whence == SeekCur then offset + delta
    else if whence == SeekSet then delta
    else if whence == SeekEnd then size + delta
    else offset
  }

  /** The bytes a virtual read of count bytes at offset delivers: what is left of the mapping, at most count. */
  function ReadSpec(mem: seq<bv8>, offset: nat, count: nat): (r: seq<bv8>)
    requires offset <= |mem|
    ensures |r| == Min(count, |mem| - offset)
    ensures r <= mem[offset..]
  {
    mem[offset .. offset + Min(count, |mem| - offset)]
  }

  /** Two consecutive reads deliver what one read of both counts delivers. */
  lemma ReadsConcatenate(mem: seq<bv8>, offset: nat, a: nat, b: nat)
    requires offset <= |mem|
    ensures var first := ReadSpec(mem, offset, a);
      first + ReadSpec(mem, offset + |first|, b) == ReadSpec(mem, offset, a + b)
  {
    var first := ReadSpec(mem, offset, a);
    var second := ReadSpec(mem, offset + |first|, b);
    var both := ReadSpec(mem, offset, a + b);
    assert |first + second| == |both|;
    forall i | 0 <= i < |both|
      ensures (first + second)[i] == both[i]
    {
      if i < |first| {
        assert (first + second)[i] == mem[offset + i];
      } else {
        assert (first + second)[i] == second[i - |first|] == mem[offset + i];
      }
    }
  }

  /** MappedVirtualData with the seek, read, tell and get_filelen callbacks of `mmap_open`. */
  class MappedVirtualData {
    const mem: seq<bv8>
    const size: int
    var offset: int

    /** The offset never leaves the mapping. */
    predicate Valid()
      reads this`offset
    {
      size == |mem| && 0 <= offset <= size
    }

    constructor (mem: seq<bv8>)
      ensures this.mem == mem && size == |mem| && offset == 0 && Valid()
    {
      this.mem := mem;
      size := |mem|;
      offset := 0;
    }

    /** `get_filelen`. */
    method GetFilelen() returns (n: int)
      requires Valid()
      ensures n == |mem|
    {
      return size;
    }

    /** `seek`: relative to the offset, the start or the end, clamped to [0, size]. */
    method Seek(delta: int, whence: int) returns (r: int)
      requires Valid()
      modifies this`offset
      ensures Valid() && r == offset
      ensures offset == Clamp(SeekTarget(old(offset), size, delta, whence), 0, size)
    {
      if whence == SeekCur {
        offset := offset + delta;
      } else if whence == SeekSet {
        offset := delta;
      } else if whence == SeekEnd {
        offset := size + delta;
      }
      offset := Clamp(offset, 0, size);
      return offset;
    }

    /**
      * `read`: the whole count when the mapping holds it, otherwise a
      * byte-by-byte copy of what is left; the offset advances by the bytes
      * delivered.
      */
    method Read(count: int) returns (bytes: seq<bv8>, rcount: int)
      requires Valid() && count >= 0
      modifies this`offset
      ensures Valid()
      ensures bytes == ReadSpec(mem, old(offset), count) && rcount == |bytes|
      ensures offset == old(offset) + rcount
    {
      rcount := 0;
      if offset + count <= size {
        bytes := mem[offset .. offset + count];
        rcount := count;
      } else {
        bytes := [];
        var i := 0;
        while i < count
          invariant 0 <= i <= count
          invariant rcount == Min(i, size - offset)
          invariant bytes == mem[offset .. offset + rcount]
        {
          var rpos := i + offset;
          if rpos < size {
            bytes := bytes + [mem[rpos]];
            rcount := rcount + 1;
          }
          i := i + 1;
        }
      }
      offset := offset + rcount;
    }

    /** `tell`. */
    method Tell() returns (r: int)
      requires Valid()
      ensures r == offset && 0 <= r <= |mem|
    {
      return offset;
    }
  }

  /** A seek to an offset inside the mapping lands there; seeking by 0 from the current offset stays. */
  lemma SeekLands(offset: int, size: int, delta: int)
    requires 0 <= offset <= size
    ensures 0 <= delta <= size ==> Clamp(SeekTarget(offset, size, delta, SeekSet), 0, size) == delta
    ensures Clamp(SeekTarget(offset, size, 0, SeekCur), 0, size) == offset
    ensures delta <= 0 ==> Clamp(SeekTarget(offset, size, delta, SeekEnd), 0, size) == Clamp(size + delta, 0, size)
  {
  }

  /** The frame count sf_readf_float delivers at position at of a file with frames frames. */
  function FramesRead(frames: nat, at: int, count: nat): (n: nat)
    ensures n <= count
    ensures 0 <= at ==> at + n <= frames || n == 0
  {
    if 0 <= at < frames then Min(count, frames - at) else 0
  }

  /** The SF_INFO fields the pool copies. */
  datatype SfInfo = SfInfo(frames: nat, samplerate: nat, channels: nat)

  /** SFPool::Entry, with the open file's own frame position filePos. */
  class Entry {
    var position: int
    var filePos: int
    var isOpen: bool
    var sfinfo: SfInfo
    var filename: string
    var time: real

    constructor (filename: string, isOpen: bool, sfinfo: SfInfo, time: real)
      ensures this.filename == filename && this.isOpen == isOpen && this.sfinfo == sfinfo && this.time == time
      ensures position == 0 && filePos == 0
    {
      this.filename := filename;
      this.isOpen := isOpen;
      this.sfinfo := sfinfo;
      this.time := time;
      position, filePos := 0, 0;
    }

    /** The remembered position is the file's position. */
    predicate Coherent()
      reads this`position, this`filePos
    {
      position == filePos
    }

    /**
      * `seek_read_frames`: seeks only when pos is not the remembered
      * position (sf_seek moves the file only to a position inside it), then
      * reads and advances the remembered position by the frames read.
      */
    method SeekReadFrames(pos: int, frameCount: nat) returns (n: int)
      modifies this`position, this`filePos
      ensures old(position) != pos ==> position == pos + n
      ensures old(position) == pos ==> position == old(position) + n
      ensures var from := if old(position) != pos && 0 <= pos <= sfinfo.frames then pos else old(filePos);
        n == FramesRead(sfinfo.frames, from, frameCount) && filePos == from + n
      ensures old(Coherent()) && 0 <= pos <= sfinfo.frames ==> Coherent()
      ensures old(Coherent()) && pos == old(position) ==> Coherent()
    {
      if position != pos {
        if 0 <= pos <= sfinfo.frames {
          filePos := pos;
        }
        position := pos;
      }
      n := FramesRead(sfinfo.frames, filePos, frameCount);
      filePos := filePos + n;
      if n > 0 {
        position := position + n;
      }
    }
  }

  /** The entries whose file was isOpen recently enough: |time - now| <= max_time. */
  function Recent(c: map<string, Entry>, now: real): (r: map<string, Entry>)
    reads c.Values
    ensures forall k :: k in r <==> k in c && Abs(c[k].time - now) <= MaxTime
    ensures forall k :: k in r ==> r[k] == c[k]
  {
    map k | k in c && Abs(c[k].time - now) <= MaxTime :: c[k]
  }

  /** The entries some user other than the pool holds. */
  function Held(c: map<string, Entry>, held: set<Entry>): (r: map<string, Entry>)
    ensures forall k :: k in r <==> k in c && c[k] in held
    ensures forall k :: k in r ==> r[k] == c[k]
  {
    map k | k in c && c[k] in held :: c[k]
  }

  /** c keeps entries of c0 and never an entry younger than a kept one is dropped. */
  ghost predicate KeepsNewest(c0: map<string, Entry>, c: map<string, Entry>)
    reads c0.Values
  {
    (forall k :: k in c ==> k in c0 && c[k] == c0[k]) &&
    (forall k, j :: k in c0 && k !in c && j in c ==> c0[k].time <= c0[j].time)
  }

  /** SFPool. */
  class Pool {
    var cache: map<string, Entry>
    const useMmap: bool

    /** Every entry is cached under its own file name, so erasing cc->filename erases cc. */
    predicate Named()
      reads this`cache, cache.Values
    {
      forall k :: k in cache ==> cache[k].filename == k
    }

    constructor (useMmap: bool)
      ensures cache == map[] && this.useMmap == useMmap && Named()
    {
      cache := map[];
      this.useMmap := useMmap;
    }

    /**
      * `open`: a cached file is returned with its time refreshed and its
      * SF_INFO; otherwise a new entry is cached (even when the file did not
      * open) and `cleanup` runs with the new entry held by the caller.
      */
    method Open(filename: string, now: real, isOpen: bool, info: SfInfo, held: set<Entry>)
      returns (entry: Entry, sfinfo: SfInfo)
      modifies this`cache, cache.Values`time
      ensures forall e :: e in old(cache.Values) ==>
        e.filename == old(e.filename) && e.isOpen == old(e.isOpen) && e.sfinfo == old(e.sfinfo) &&
        (e != entry ==> e.time == old(e.time))
      ensures filename in old(cache) ==> sfinfo == old(cache[filename].sfinfo)
      ensures filename in old(cache) ==>
        entry == old(cache)[filename] && cache == old(cache) && entry.time == now && sfinfo == entry.sfinfo
      ensures filename !in old(cache) ==>
        fresh(entry) && entry.filename == filename && entry.isOpen == isOpen && entry.sfinfo == info &&
        sfinfo == info && entry.time == now
      ensures filename !in old(cache) && useMmap ==>
        cache == Held(old(cache), held)[filename := entry]
      ensures filename !in old(cache) && !useMmap ==>
        var r := Recent(old(cache)[filename := entry], now);
        KeepsNewest(r, cache) && |cache| == Min(|r|, MaxFds)
      ensures old(Named()) ==> Named()
    {
      if filename in cache {
        entry := cache[filename];
        entry.time := now;
        sfinfo := entry.sfinfo;
        return;
      }
      entry := new Entry(filename, isOpen, info, now);
      sfinfo := info;
      ghost var c0 := cache;
      cache := cache[filename := entry];
      Cleanup(now, held + {entry});
      if useMmap {
        assert Held(c0[filename := entry], held + {entry}) == Held(c0, held)[filename := entry];
      }
    }

    /**
      * `cleanup`: with mmap, drop exactly the entries nobody else holds;
      * otherwise drop the entries older than max_time, then the oldest until
      * at most max_fds remain.
      */
    method Cleanup(now: real, held: set<Entry>)
      modifies this`cache
      ensures useMmap ==> cache == Held(old(cache), held)
      ensures !useMmap ==> var r := Recent(old(cache), now);
        KeepsNewest(r, cache) && |cache| == Min(|r|, MaxFds)
    {
      if useMmap {
        DropUnheld(held);
      } else {
        DropStale(now);
        EnforceMaxFds();
      }
    }

    /** The mmap branch of `cleanup`. */
    method DropUnheld(held: set<Entry>)
      modifies this`cache
      ensures cache == Held(old(cache), held)
    {
      ghost var c0 := cache;
      var todo := cache.Keys;
      while todo != {}
        invariant todo <= c0.Keys
        invariant cache == map k | k in c0 && (k in todo || c0[k] in held) :: c0[k]
        decreases todo
      {
        var k :| k in todo;
        if cache[k] !in held {
          cache := cache - {k};
        }
        todo := todo - {k};
      }
    }

    /** The time limit of `cleanup`. */
    method DropStale(now: real)
      modifies this`cache
      ensures cache == Recent(old(cache), now)
    {
      ghost var c0 := cache;
      var todo := cache.Keys;
      while todo != {}
        invariant todo <= c0.Keys
        invariant cache == map k | k in c0 && (k in todo || Abs(c0[k].time - now) <= MaxTime) :: c0[k]
        decreases todo
      {
        var k :| k in todo;
        if Abs(cache[k].time - now) > MaxTime {
          cache := cache - {k};
        }
        todo := todo - {k};
      }
    }

    /** The max_fds limit of `cleanup`: the oldest entry goes while there are too many. */
    method EnforceMaxFds()
      modifies this`cache
      ensures KeepsNewest(old(cache), cache) && |cache| == Min(|old(cache)|, MaxFds)
    {
      ghost var c0 := cache;
      while |cache| > MaxFds
        invariant KeepsNewest(c0, cache)
        invariant |cache| == |c0| || |cache| >= MaxFds
        invariant |cache| <= |c0|
        decreases |cache|
      {
        var k := Oldest();
        ghost var before := cache;
        cache := cache - {k};
        assert cache.Keys == before.Keys - {k};
      }
    }

    /** The first of the close candidates sorted by time: an entry of least time. */
    method Oldest() returns (k: string)
      requires |cache| > 0
      ensures k in cache && forall j :: j in cache ==> cache[k].time <= cache[j].time
    {
      var todo := cache.Keys;
      assert |todo| > 0;
      k :| k in todo;
      todo := todo - {k};
      while todo != {}
        invariant k in cache && todo <= cache.Keys
        invariant forall j :: j in cache && j !in todo ==> cache[k].time <= cache[j].time
        decreases todo
      {
        var j :| j in todo;
        if cache[j].time < cache[k].time {
          k := j;
        }
        todo := todo - {j};
      }
    }
  }
}
