/**
  * The interpolation window of `Voice::process` (the `get_samples_mono` and
  * `get_samples_stereo` lambdas, the same in lib/voice.cc and src/voice.cc):
  * consecutive samples from a read index, wrapping back to the loop start
  * in a looping mode and padding with silence past the end of the sample.
  */
module SampleWindow {
  import opened SfzRegion

  /** 2^32: the index is an unsigned 32-bit value. */
  const U32: int := 0x1_0000_0000

  /** `uint (v)`: an int converted to unsigned wraps modulo 2^32. */
  function ToUint(v: int): (u: nat)
    ensures u < U32
    ensures 0 <= v < U32 ==> u == v
  {
    v % U32
  }

  /** The loop modes in which playback wraps at the loop end. */
  predicate Looping(mode: LoopMode)
  {
    mode == Sustain || mode == Continuous
  }

  /** The read index after one mono sample: one further, or back to the loop start once past the loop end. */
  function NextMono(x: nat, mode: LoopMode, loopStart: int, loopEnd: int): nat
  {
    if Looping(mode) && x + 1 > ToUint(loopEnd) then ToUint(loopStart) else x + 1
  }

  /** The index after one stereo frame, with loop points counted in frames. */
  function NextStereo(x: nat, mode: LoopMode, loopStart: int, loopEnd: int): nat
  {
    if Looping(mode) && x + 2 > ToUint(loopEnd * 2) then ToUint(loopStart * 2) else x + 2
  }

  /** The read index after k mono values; it stays put once it is past the end of the sample. */
  function MonoPos(samples: seq<int>, x: nat, k: nat, mode: LoopMode, loopStart: int, loopEnd: int): nat
  {
    if k == 0 then x
    else
      var p := MonoPos(samples, x, k - 1, mode, loopStart, loopEnd);
      if p >= |samples| then p else NextMono(p, mode, loopStart, loopEnd)
  }

  /** The k-th value `get_samples_mono` writes: the sample at the read index, or silence past the end. */
  function MonoAt(samples: seq<int>, x: nat, k: nat, mode: LoopMode, loopStart: int, loopEnd: int): int
  {
    var p := MonoPos(samples, x, k, mode, loopStart, loopEnd);
    if p >= |samples| then 0 else samples[p]
  }

  /** The n values `get_samples_mono` writes, starting at index x. */
  function MonoWindow(samples: seq<int>, x: nat, n: nat, mode: LoopMode, loopStart: int, loopEnd: int): (f: seq<int>)
    ensures |f| == n
  {
    seq(n, k requires 0 <= k => MonoAt(samples, x, k, mode, loopStart, loopEnd))
  }

  /** The read index after k stereo frames; it stays even, since interleaved data starts frames at even indices. */
  function StereoPos(samples: seq<int>, x: nat, k: nat, mode: LoopMode, loopStart: int, loopEnd: int): (p: nat)
    requires x % 2 == 0
    ensures p % 2 == 0
  {
    if k == 0 then x
    else
      var p := StereoPos(samples, x, k - 1, mode, loopStart, loopEnd);
      if p >= |samples| then p
      else
        EvenWrap(loopStart);
        NextStereo(p, mode, loopStart, loopEnd)
  }

  /**
    * The value `get_samples_stereo` writes for channel c (0 left, 1 right)
    * of frame k. It checks only the left index of a frame and reads the
    * right one next to it, which stays in bounds because interleaved
    * stereo data has even length.
    */
  function StereoAt(samples: seq<int>, x: nat, k: nat, c: nat, mode: LoopMode, loopStart: int, loopEnd: int): int
    requires |samples| % 2 == 0 && x % 2 == 0 && c < 2
  {
    var p := StereoPos(samples, x, k, mode, loopStart, loopEnd);
    if p >= |samples| then 0 else samples[p + c]
  }

  /** The 2n values `get_samples_stereo` writes: n interleaved frames from index x. */
  function StereoWindow(samples: seq<int>, x: nat, n: nat, mode: LoopMode, loopStart: int, loopEnd: int): (f: seq<int>)
    requires |samples| % 2 == 0 && x % 2 == 0
    ensures |f| == 2 * n
  {
    seq(2 * n, j requires 0 <= j => StereoAt(samples, x, j / 2, j % 2, mode, loopStart, loopEnd))
  }

  /** Twice any int stays even once wrapped to 32 bits. */
  lemma EvenWrap(v: int)
    ensures ToUint(v * 2) % 2 == 0
  {
    var q := (v * 2) / U32;
    var r := ToUint(v * 2);
    assert v * 2 == U32 * q + r;
    assert r == 2 * (v - 0x8000_0000 * q);
  }

  /** `get_samples_mono`: fills the whole array from index x. */
  method GetSamplesMono(samples: seq<int>, x: nat, mode: LoopMode, loopStart: int, loopEnd: int, fsamples: array<int>)
    modifies fsamples
    ensures fsamples[..] == MonoWindow(samples, x, fsamples.Length, mode, loopStart, loopEnd)
  {
    var pos: nat := x;
    var i := 0;
    while i < fsamples.Length
      invariant 0 <= i <= fsamples.Length
      invariant pos == MonoPos(samples, x, i, mode, loopStart, loopEnd)
      invariant forall k :: 0 <= k < i ==> fsamples[k] == MonoAt(samples, x, k, mode, loopStart, loopEnd)
    {
      if pos >= |samples| {
        fsamples[i] := 0;
      } else {
        fsamples[i] := samples[pos];
        pos := pos + 1;
        if mode == Sustain || mode == Continuous {
          if pos > ToUint(loopEnd) {
            pos := ToUint(loopStart);
          }
        }
      }
      i := i + 1;
    }
  }

  /** `get_samples_stereo`: fills the array frame by frame (two values at a time) from index x. */
  method GetSamplesStereo(samples: seq<int>, x: nat, mode: LoopMode, loopStart: int, loopEnd: int, fsamples: array<int>)
    requires |samples| % 2 == 0 && x % 2 == 0 && fsamples.Length % 2 == 0
    modifies fsamples
    ensures fsamples[..] == StereoWindow(samples, x, fsamples.Length / 2, mode, loopStart, loopEnd)
  {
    var pos: nat := x;
    var i := 0;
    ghost var frame := 0;
    while i < fsamples.Length
      invariant 0 <= i <= fsamples.Length && i == 2 * frame
      invariant pos == StereoPos(samples, x, frame, mode, loopStart, loopEnd)
      invariant frame <= fsamples.Length / 2
      invariant forall k :: 0 <= k < frame ==>
        fsamples[2 * k] == StereoAt(samples, x, k, 0, mode, loopStart, loopEnd) &&
        fsamples[2 * k + 1] == StereoAt(samples, x, k, 1, mode, loopStart, loopEnd)
    {
      if pos >= |samples| {
        fsamples[i] := 0;
        fsamples[i + 1] := 0;
      } else {
        fsamples[i] := samples[pos];
        fsamples[i + 1] := samples[pos + 1];
        pos := pos + 2;
        if mode == Sustain || mode == Continuous {
          if pos > ToUint(loopEnd * 2) {
            pos := ToUint(loopStart * 2);
          }
        }
      }
      assert fsamples[i] == StereoAt(samples, x, frame, 0, mode, loopStart, loopEnd);
      assert fsamples[i + 1] == StereoAt(samples, x, frame, 1, mode, loopStart, loopEnd);
      i := i + 2;
      frame := frame + 1;
    }
    StereoWindowOfFrames(fsamples[..], samples, x, mode, loopStart, loopEnd);
  }

  /** Values written frame by frame, left then right, form the stereo window. */
  lemma StereoWindowOfFrames(a: seq<int>, samples: seq<int>, x: nat, mode: LoopMode, loopStart: int, loopEnd: int)
    requires |samples| % 2 == 0 && x % 2 == 0 && |a| % 2 == 0
    requires forall k :: 0 <= k < |a| / 2 ==>
      a[2 * k] == StereoAt(samples, x, k, 0, mode, loopStart, loopEnd) &&
      a[2 * k + 1] == StereoAt(samples, x, k, 1, mode, loopStart, loopEnd)
    ensures a == StereoWindow(samples, x, |a| / 2, mode, loopStart, loopEnd)
  {
    forall j | 0 <= j < |a|
      ensures a[j] == StereoAt(samples, x, j / 2, j % 2, mode, loopStart, loopEnd)
    {
      assert j == 2 * (j / 2) + j % 2;
    }
  }

  /** In a looping mode the mono index never passes a loop end that lies before it. */
  lemma NextMonoStaysInLoop(x: nat, mode: LoopMode, loopStart: int, loopEnd: int)
    requires Looping(mode) && 0 <= loopStart <= loopEnd < U32 && x <= loopEnd
    ensures NextMono(x, mode, loopStart, loopEnd) <= loopEnd
  {
  }

  /** Inside a loop that lies within the sample, the mono read index never passes the loop end. */
  lemma {:induction false} LoopedMonoPosStaysInLoop(samples: seq<int>, x: nat, k: nat, mode: LoopMode, loopStart: int, loopEnd: int)
    requires Looping(mode) && 0 <= loopStart <= loopEnd < |samples| && loopEnd < U32 && x <= loopEnd
    ensures MonoPos(samples, x, k, mode, loopStart, loopEnd) <= loopEnd
  {
    if k > 0 {
      LoopedMonoPosStaysInLoop(samples, x, k - 1, mode, loopStart, loopEnd);
      NextMonoStaysInLoop(MonoPos(samples, x, k - 1, mode, loopStart, loopEnd), mode, loopStart, loopEnd);
    }
  }

  /**
    * Inside a loop that lies within the sample, the mono window holds only
    * samples up to the loop end: the reader wraps to the loop start instead
    * of running into the silence past the end.
    */
  lemma LoopedMonoWindowHasNoSilence(samples: seq<int>, x: nat, n: nat, mode: LoopMode, loopStart: int, loopEnd: int)
    requires Looping(mode) && 0 <= loopStart <= loopEnd < |samples| && loopEnd < U32 && x <= loopEnd
    ensures forall k :: 0 <= k < n ==> MonoWindow(samples, x, n, mode, loopStart, loopEnd)[k] in samples[..loopEnd + 1]
  {
    forall k | 0 <= k < n
      ensures MonoWindow(samples, x, n, mode, loopStart, loopEnd)[k] in samples[..loopEnd + 1]
    {
      var p := MonoPos(samples, x, k, mode, loopStart, loopEnd);
      LoopedMonoPosStaysInLoop(samples, x, k, mode, loopStart, loopEnd);
      assert samples[p] == samples[..loopEnd + 1][p];
    }
  }

  /** Once the read index is past the end of the sample it stays there. */
  lemma {:induction false} PosPastEndStays(samples: seq<int>, x: nat, k: nat, mode: LoopMode, loopStart: int, loopEnd: int)
    requires x >= |samples|
    ensures MonoPos(samples, x, k, mode, loopStart, loopEnd) == x
    ensures x % 2 == 0 ==> StereoPos(samples, x, k, mode, loopStart, loopEnd) == x
  {
    if k > 0 {
      PosPastEndStays(samples, x, k - 1, mode, loopStart, loopEnd);
    }
  }

  /** Past the end of the sample the windows are silence. */
  lemma WindowPastEndIsSilent(samples: seq<int>, x: nat, n: nat, mode: LoopMode, loopStart: int, loopEnd: int)
    requires x >= |samples|
    ensures MonoWindow(samples, x, n, mode, loopStart, loopEnd) == seq(n, _ => 0)
    ensures |samples| % 2 == 0 && x % 2 == 0 ==> StereoWindow(samples, x, n, mode, loopStart, loopEnd) == seq(2 * n, _ => 0)
  {
    forall k | 0 <= k < 2 * n
      ensures MonoPos(samples, x, k, mode, loopStart, loopEnd) == x
      ensures x % 2 == 0 ==> StereoPos(samples, x, k, mode, loopStart, loopEnd) == x
    {
      PosPastEndStays(samples, x, k, mode, loopStart, loopEnd);
    }
  }
}
