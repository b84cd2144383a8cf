/**
  * The Hydrogen drum-kit importer (lib/hydrogenimport.cc). Each instrument
  * of a kit becomes an SFZ group on its own key; its layers become regions
  * whose velocity ranges `cleanup_regions` repairs so that every MIDI
  * velocity 1..127 plays exactly one layer.
  *
  * The XML document is an abstract list of Instrument values (its layers'
  * min/max already scaled to velocities), and the SFZ text is a list of
  * Piece values, one per printed block.
  */
module Hydrogen {
  import opened Text
  import Smoothing

  /** A layer turned region: sample name and velocity range. */
  datatype HRegion = HRegion(sample: string, lovel: int, hivel: int)

  predicate InRange(r: HRegion, note: int)
  {
    r.lovel <= note <= r.hivel
  }

  function Dist(note: int, lovel: int): nat
  {
    if note >= lovel then note - lovel else lovel - note
  }

  /** The first region from index i on whose range holds note. */
  function FirstInRange(rs: seq<HRegion>, note: int, i: nat): Option<nat>
    requires i <= |rs|
    decreases |rs| - i
  {
    if i == |rs| then None
    else if InRange(rs[i], note) then Some(i)
    else FirstInRange(rs, note, i + 1)
  }

  /**
    * The search for the closest lovel over the first k regions: the best
    * distance so far (starting at 128) and its region; only a strictly
    * smaller distance replaces the best.
    */
  function ClosestUpTo(rs: seq<HRegion>, note: int, k: nat): (r: (int, Option<nat>))
    requires k <= |rs|
  {
    if k == 0 then (128, None)
    else
      var prev := ClosestUpTo(rs, note, k - 1);
      var d := Dist(note, rs[k - 1].lovel);
      if d < prev.0 then (d, Some(k - 1)) else prev
  }

  /** The region `cleanup_regions` assigns to note: the first in range, else the closest. */
  function Assign(rs: seq<HRegion>, note: int): Option<nat>
  {
    var first := FirstInRange(rs, note, 0);
    if first.Some? then first else ClosestUpTo(rs, note, |rs|).1
  }

  /** note_region after the first step: index 0 is never assigned. */
  function NoteRegions(rs: seq<HRegion>): (nr: seq<Option<nat>>)
    ensures |nr| == 128
  {
    seq(128, n requires 0 <= n < 128 => if n == 0 then None else Assign(rs, n))
  }

  /** The smallest note below u assigned to region i, or 128. */
  function LoUpTo(nr: seq<Option<nat>>, i: nat, u: nat): int
    requires 1 <= u <= |nr|
  {
    if u == 1 then 128
    else
      var lo := LoUpTo(nr, i, u - 1);
      if nr[u - 1] == Some(i) && u - 1 < lo then u - 1 else lo
  }

  /** The largest note below u assigned to region i, or 0. */
  function HiUpTo(nr: seq<Option<nat>>, i: nat, u: nat): int
    requires 1 <= u <= |nr|
  {
    if u == 1 then 0
    else
      var hi := HiUpTo(nr, i, u - 1);
      if nr[u - 1] == Some(i) && u - 1 > hi then u - 1 else hi
  }

  /** `cleanup_regions`: every region's range becomes the span of the notes assigned to it. */
  function Cleaned(rs: seq<HRegion>): (c: seq<HRegion>)
    ensures |c| == |rs|
  {
    var nr := NoteRegions(rs);
    seq(|rs|, i requires 0 <= i < |rs| => rs[i].(lovel := LoUpTo(nr, i, 128), hivel := HiUpTo(nr, i, 128)))
  }

  /** The first region in range is in range, and none before it is. */
  lemma {:induction false} FirstInRangeIsFirst(rs: seq<HRegion>, note: int, i: nat)
    requires i <= |rs|
    ensures var f := FirstInRange(rs, note, i);
      (f.Some? ==>
        i <= f.value < |rs| && InRange(rs[f.value], note) && forall j :: i <= j < f.value ==> !InRange(rs[j], note)) &&
      (f.None? ==> forall j :: i <= j < |rs| ==> !InRange(rs[j], note))
    decreases |rs| - i
  {
    if i < |rs| && !InRange(rs[i], note) {
      FirstInRangeIsFirst(rs, note, i + 1);
    }
  }

  /**
    * The closest search picks a region of strictly smallest distance, below
    * 128, the earliest among equals; it picks none when every distance is
    * 128 or more.
    */
  lemma {:induction false} ClosestIsNearest(rs: seq<HRegion>, note: int, k: nat)
    requires k <= |rs|
    ensures var (best, idx) := ClosestUpTo(rs, note, k);
      (idx.None? <==> forall j :: 0 <= j < k ==> Dist(note, rs[j].lovel) >= 128) &&
      (idx.None? ==> best == 128) &&
      (idx.Some? ==>
        idx.value < k && best == Dist(note, rs[idx.value].lovel) && best < 128 &&
        (forall j :: 0 <= j < k ==> Dist(note, rs[j].lovel) >= best) &&
        (forall j :: 0 <= j < idx.value ==> Dist(note, rs[j].lovel) > best))
  {
    if k > 0 {
      ClosestIsNearest(rs, note, k - 1);
    }
  }

  /**
    * A note gets a region whenever some region's lovel lies in [0, 128]
    * (for a note in 1..127 that lovel is less than 128 away); in particular
    * a region in range always wins.
    */
  lemma AssignFindsRegion(rs: seq<HRegion>, note: int, j: nat)
    requires 1 <= note <= 127 && j < |rs| && 0 <= rs[j].lovel <= 128
    ensures Assign(rs, note).Some? && Assign(rs, note).value < |rs|
  {
    FirstInRangeIsFirst(rs, note, 0);
    ClosestIsNearest(rs, note, |rs|);
  }

  /** The assigned region: the first one in range, or failing that the nearest lovel, earliest among equals. */
  lemma AssignRule(rs: seq<HRegion>, note: int)
    ensures var a := Assign(rs, note);
      ((exists j :: 0 <= j < |rs| && InRange(rs[j], note)) ==>
        a.Some? && a.value < |rs| && InRange(rs[a.value], note) &&
        forall j :: 0 <= j < a.value ==> !InRange(rs[j], note)) &&
      ((forall j :: 0 <= j < |rs| ==> !InRange(rs[j], note)) && a.Some? ==>
        a.value < |rs| && Dist(note, rs[a.value].lovel) < 128 &&
        (forall j :: 0 <= j < |rs| ==> Dist(note, rs[j].lovel) >= Dist(note, rs[a.value].lovel)) &&
        (forall j :: 0 <= j < a.value ==> Dist(note, rs[j].lovel) > Dist(note, rs[a.value].lovel)))
  {
    FirstInRangeIsFirst(rs, note, 0);
    ClosestIsNearest(rs, note, |rs|);
  }

  /**
    * LoUpTo and HiUpTo are the least and greatest assigned note in [1, u),
    * and 128 and 0 when there is none.
    */
  lemma {:induction false} SpanBounds(nr: seq<Option<nat>>, i: nat, u: nat)
    requires 1 <= u <= |nr|
    ensures forall n :: 1 <= n < u && nr[n] == Some(i) ==> LoUpTo(nr, i, u) <= n <= HiUpTo(nr, i, u)
    ensures LoUpTo(nr, i, u) == 128 || (1 <= LoUpTo(nr, i, u) < u && nr[LoUpTo(nr, i, u)] == Some(i))
    ensures HiUpTo(nr, i, u) == 0 || (1 <= HiUpTo(nr, i, u) < u && nr[HiUpTo(nr, i, u)] == Some(i))
    ensures (forall n :: 1 <= n < u ==> nr[n] != Some(i)) ==> LoUpTo(nr, i, u) == 128 && HiUpTo(nr, i, u) == 0
  {
    if u > 1 {
      SpanBounds(nr, i, u - 1);
    }
  }

  /**
    * After `cleanup_regions`: the count, order and samples are kept; each
    * region's new range holds exactly its assigned notes at its ends and
    * all of them inside, and starts no lower than 1; a region with no note
    * gets lovel 128 and hivel 0.
    */
  lemma CleanedRanges(rs: seq<HRegion>, i: nat)
    requires i < |rs|
    ensures var c := Cleaned(rs);
      c[i].sample == rs[i].sample &&
      (forall n :: 1 <= n <= 127 && Assign(rs, n) == Some(i) ==> c[i].lovel <= n <= c[i].hivel) &&
      (c[i].lovel == 128 || (1 <= c[i].lovel <= 127 && Assign(rs, c[i].lovel) == Some(i))) &&
      (c[i].hivel == 0 || (1 <= c[i].hivel <= 127 && Assign(rs, c[i].hivel) == Some(i))) &&
      ((forall n :: 1 <= n <= 127 ==> Assign(rs, n) != Some(i)) ==> c[i].lovel == 128 && c[i].hivel == 0)
  {
    var nr := NoteRegions(rs);
    SpanBounds(nr, i, 128);
    assert forall n :: 1 <= n <= 127 ==> nr[n] == Assign(rs, n);
  }

  /**
    * When some region's lovel lies in [0, 128], every note 1..127 lies in
    * the new range of exactly the region it was assigned to.
    */
  lemma CleanedCoversEveryNote(rs: seq<HRegion>, note: int, j: nat)
    requires 1 <= note <= 127 && j < |rs| && 0 <= rs[j].lovel <= 128
    ensures var a := Assign(rs, note);
      a.Some? && a.value < |rs| && Cleaned(rs)[a.value].lovel <= note <= Cleaned(rs)[a.value].hivel
  {
    AssignFindsRegion(rs, note, j);
    CleanedRanges(rs, Assign(rs, note).value);
  }

  /** The in-range search of the first step, with its `break`. */
  method FindInRange(rs: seq<HRegion>, note: int) returns (r: Option<nat>)
    ensures r == FirstInRange(rs, note, 0)
  {
    var i := 0;
    while i < |rs|
      invariant i <= |rs|
      invariant FirstInRange(rs, note, 0) == FirstInRange(rs, note, i)
    {
      if InRange(rs[i], note) {
        return Some(i);
      }
      i := i + 1;
    }
    return None;
  }

  /** The closest-lovel search of the first step. */
  method FindClosest(rs: seq<HRegion>, note: int) returns (r: Option<nat>)
    ensures r == ClosestUpTo(rs, note, |rs|).1
  {
    var bestDist := 128;
    r := None;
    for i := 0 to |rs|
      invariant (bestDist, r) == ClosestUpTo(rs, note, i)
    {
      var dist := Dist(note, rs[i].lovel);
      if dist < bestDist {
        bestDist := dist;
        r := Some(i);
      }
    }
  }

  /** The first step of `cleanup_regions`: note_region for notes 1..127. */
  method AssignNotes(rs: seq<HRegion>) returns (nr: seq<Option<nat>>)
    ensures nr == NoteRegions(rs)
  {
    var noteRegion := new Option<nat>[128](_ => None);
    for note := 1 to 128
      invariant forall n :: 0 <= n < 128 ==> noteRegion[n] == if 1 <= n < note then Assign(rs, n) else None
    {
      noteRegion[note] := FindInRange(rs, note);
      if noteRegion[note] == None {
        noteRegion[note] := FindClosest(rs, note);
      }
    }
    nr := noteRegion[..];
  }

  /** The second step for one region: the least and greatest note assigned to it. */
  method NoteSpan(nr: seq<Option<nat>>, i: nat) returns (lo: int, hi: int)
    requires |nr| == 128
    ensures lo == LoUpTo(nr, i, 128) && hi == HiUpTo(nr, i, 128)
  {
    lo, hi := 128, 0;
    for note := 1 to 128
      invariant lo == LoUpTo(nr, i, note) && hi == HiUpTo(nr, i, note)
    {
      if nr[note] == Some(i) {
        if note < lo {
          lo := note;
        }
        if note > hi {
          hi := note;
        }
      }
    }
  }

  /** `cleanup_regions`, rewriting the regions in place. */
  method CleanupRegions(regions: array<HRegion>)
    modifies regions
    ensures regions[..] == Cleaned(old(regions[..]))
  {
    ghost var rs := regions[..];
    ghost var c := Cleaned(rs);
    var nr := AssignNotes(regions[..]);
    for ri := 0 to regions.Length
      invariant forall k :: 0 <= k < ri ==> regions[k] == c[k]
      invariant forall k :: ri <= k < regions.Length ==> regions[k] == rs[k]
    {
      var lo, hi := NoteSpan(nr, ri);
      assert c[ri] == rs[ri].(lovel := lo, hivel := hi);
      regions[ri] := regions[ri].(lovel := lo, hivel := hi);
    }
    assert regions[..] == c;
  }

  /**
    * An instrument of the kit: name, volume factor, the layers of its
    * instrumentComponent, its own (older style) layers, and the filename
    * child of the oldest style.
    */
  datatype Instrument = Instrument(name: string, volume: real, componentLayers: seq<HRegion>,
                                   layers: seq<HRegion>, filename: Option<string>)

  /** The printed blocks of the SFZ text. */
  datatype Piece =
    | Comment(text: string)
    | Group(key: int, group: int, offBy: int, volumeDb: real)
    | Region(lovel: int, hivel: int, sample: string)
    | SampleRegion(sample: string)
    | Blank

  /** The regions printed for an instrument: its layers' regions, repaired. */
  function RegionPieces(rs: seq<HRegion>): (ps: seq<Piece>)
    ensures |ps| == |rs|
  {
    if rs == [] then [] else RegionPieces(rs[..|rs| - 1]) + [Region(rs[|rs| - 1].lovel, rs[|rs| - 1].hivel, rs[|rs| - 1].sample)]
  }

  /** The comment and group header `parse` prints for instrument number index (0-based). */
  function Header(inst: Instrument, index: nat, log10: real -> real): seq<Piece>
  {
    [Comment(inst.name), Group(36 + index, index + 1, index + 1, Smoothing.DbFromFactor(inst.volume, -144.0, log10))]
  }

  /** The regions and closing blank `parse` prints for an instrument. */
  function Body(inst: Instrument): seq<Piece>
  {
    RegionPieces(Cleaned(inst.componentLayers + inst.layers))
    + (if inst.filename.Some? then [SampleRegion(inst.filename.value)] else [])
    + [Blank]
  }

  /** The blocks `parse` prints for instrument number index. */
  function InstrumentPieces(inst: Instrument, index: nat, log10: real -> real): seq<Piece>
  {
    Header(inst, index, log10) + Body(inst)
  }

  /** The number of regions `parse` emits for an instrument. */
  function RegionCount(inst: Instrument): nat
  {
    |inst.componentLayers| + |inst.layers| + (if inst.filename.Some? then 1 else 0)
  }

  /** The blocks for the first k instruments. */
  function PiecesUpTo(insts: seq<Instrument>, k: nat, log10: real -> real): seq<Piece>
    requires k <= |insts|
  {
    if k == 0 then [] else PiecesUpTo(insts, k - 1, log10) + InstrumentPieces(insts[k - 1], k - 1, log10)
  }

  function RegionsUpTo(insts: seq<Instrument>, k: nat): nat
    requires k <= |insts|
  {
    if k == 0 then 0 else RegionsUpTo(insts, k - 1) + RegionCount(insts[k - 1])
  }

  /** The group headers among the blocks, in order. */
  function Groups(ps: seq<Piece>): seq<Piece>
  {
    if ps == [] then [] else Groups(ps[..|ps| - 1]) + (if ps[|ps| - 1].Group? then [ps[|ps| - 1]] else [])
  }

  lemma {:induction false} GroupsAppend(a: seq<Piece>, b: seq<Piece>)
    ensures Groups(a + b) == Groups(a) + Groups(b)
    decreases |b|
  {
    if b == [] {
      assert a + b == a;
    } else {
      assert (a + b)[..|a + b| - 1] == a + b[..|b| - 1];
      GroupsAppend(a, b[..|b| - 1]);
    }
  }

  lemma {:induction false} RegionPiecesHaveNoGroup(rs: seq<HRegion>)
    ensures Groups(RegionPieces(rs)) == []
  {
    if rs != [] {
      RegionPiecesHaveNoGroup(rs[..|rs| - 1]);
      GroupsAppend(RegionPieces(rs[..|rs| - 1]), [Region(rs[|rs| - 1].lovel, rs[|rs| - 1].hivel, rs[|rs| - 1].sample)]);
    }
  }

  lemma BodyHasNoGroup(inst: Instrument)
    ensures Groups(Body(inst)) == []
  {
    var rs := Cleaned(inst.componentLayers + inst.layers);
    var tail := if inst.filename.Some? then [SampleRegion(inst.filename.value)] else [];
    RegionPiecesHaveNoGroup(rs);
    GroupsAppend(RegionPieces(rs), tail);
    GroupsAppend(RegionPieces(rs) + tail, [Blank]);
    if inst.filename.Some? {
      assert Groups(tail) == Groups([]) + [];
    }
  }

  /** Instrument i prints one group, on key 36 + i, with group and off_by both i + 1. */
  lemma InstrumentGroup(inst: Instrument, index: nat, log10: real -> real)
    ensures Groups(InstrumentPieces(inst, index, log10)) ==
      [Group(36 + index, index + 1, index + 1, Smoothing.DbFromFactor(inst.volume, -144.0, log10))]
  {
    var h := Header(inst, index, log10);
    GroupsAppend(h, Body(inst));
    BodyHasNoGroup(inst);
    assert h[..1] == [Comment(inst.name)];
    assert Groups(h[..1]) == Groups([]) + [];
  }

  /** The k-th group header printed is instrument k's: key 36 + k, group = off_by = k + 1. */
  lemma {:induction false} GroupsNumbered(insts: seq<Instrument>, k: nat, log10: real -> real)
    requires k <= |insts|
    ensures var gs := Groups(PiecesUpTo(insts, k, log10));
      |gs| == k && forall i :: 0 <= i < k ==> gs[i].Group? && gs[i].key == 36 + i && gs[i].group == i + 1 && gs[i].offBy == i + 1
  {
    if k > 0 {
      GroupsNumbered(insts, k - 1, log10);
      InstrumentGroup(insts[k - 1], k - 1, log10);
      GroupsNumberedSnoc(PiecesUpTo(insts, k - 1, log10), InstrumentPieces(insts[k - 1], k - 1, log10), k,
        Group(36 + k - 1, k, k, Smoothing.DbFromFactor(insts[k - 1].volume, -144.0, log10)));
    }
  }

  /** Pieces printing k - 1 numbered group headers, then pieces printing the k-th, print k numbered headers. */
  lemma GroupsNumberedSnoc(ps: seq<Piece>, qs: seq<Piece>, k: nat, g: Piece)
    requires k > 0 && Groups(qs) == [g] && g.Group? && g.key == 36 + k - 1 && g.group == k && g.offBy == k
    requires var gs := Groups(ps);
      |gs| == k - 1 && forall i :: 0 <= i < k - 1 ==> gs[i].Group? && gs[i].key == 36 + i && gs[i].group == i + 1 && gs[i].offBy == i + 1
    ensures var gs := Groups(ps + qs);
      |gs| == k && forall i :: 0 <= i < k ==> gs[i].Group? && gs[i].key == 36 + i && gs[i].group == i + 1 && gs[i].offBy == i + 1
  {
    GroupsAppend(ps, qs);
  }

  /** No region is emitted exactly when no instrument has a layer or a filename. */
  lemma {:induction false} NoRegionsIff(insts: seq<Instrument>, k: nat)
    requires k <= |insts|
    ensures RegionsUpTo(insts, k) == 0 <==> forall i :: 0 <= i < k ==> RegionCount(insts[i]) == 0
  {
    if k > 0 {
      NoRegionsIff(insts, k - 1);
    }
  }

  /** The body of `parse`'s instrument loop: the blocks of one instrument and its region count. */
  method EmitInstrument(inst: Instrument, index: nat, log10: real -> real) returns (ps: seq<Piece>, count: nat)
    ensures ps == InstrumentPieces(inst, index, log10) && count == RegionCount(inst)
  {
    var key := index + 36;
    var group := index + 1;
    ps := [Comment(inst.name), Group(key, group, group, Smoothing.DbFromFactor(inst.volume, -144.0, log10))];
    var layers := inst.componentLayers + inst.layers;
    var regions := new HRegion[|layers|](i requires 0 <= i < |layers| => layers[i]);
    assert regions[..] == layers;
    CleanupRegions(regions);
    ps := ps + RegionPieces(regions[..]);
    count := regions.Length;
    if inst.filename.Some? {
      ps := ps + [SampleRegion(inst.filename.value)];
      count := count + 1;
    }
    ps := ps + [Blank];
  }

  /**
    * `parse` after the document has been read: the blocks of every
    * instrument are appended to the text, and the import fails when no region
    * was emitted at all.
    */
  method Parse(insts: seq<Instrument>, prefix: seq<Piece>, log10: real -> real) returns (imported: bool, text: seq<Piece>)
    ensures text == prefix + PiecesUpTo(insts, |insts|, log10)
    ensures imported <==> exists i :: 0 <= i < |insts| && RegionCount(insts[i]) > 0
  {
    var regionCount;
    text, regionCount := EmitInstruments(insts, prefix, log10);
    NoRegionsIff(insts, |insts|);
    imported := regionCount != 0;
  }

  /** The instrument loop of `parse`: every instrument's blocks appended in order, and the regions counted. */
  method EmitInstruments(insts: seq<Instrument>, prefix: seq<Piece>, log10: real -> real) returns (text: seq<Piece>, regionCount: nat)
    ensures text == prefix + PiecesUpTo(insts, |insts|, log10)
    ensures regionCount == RegionsUpTo(insts, |insts|)
  {
    text := prefix;
    regionCount := 0;
    var group := 1;
    var instrumentIndex := 0;
    while instrumentIndex < |insts|
      invariant instrumentIndex <= |insts| && group == instrumentIndex + 1
      invariant text == prefix + PiecesUpTo(insts, instrumentIndex, log10)
      invariant regionCount == RegionsUpTo(insts, instrumentIndex)
    {
      var ps, count := EmitInstrument(insts[instrumentIndex], instrumentIndex, log10);
      PiecesStep(insts, instrumentIndex, log10, prefix, text, ps);
      text := text + ps;
      regionCount := regionCount + count;
      group := group + 1;
      instrumentIndex := instrumentIndex + 1;
    }
  }

  /** Appending the blocks of instrument k to the text of the first k instruments gives the text of the first k + 1. */
  lemma PiecesStep(insts: seq<Instrument>, k: nat, log10: real -> real, prefix: seq<Piece>, text: seq<Piece>, ps: seq<Piece>)
    requires k < |insts| && text == prefix + PiecesUpTo(insts, k, log10) && ps == InstrumentPieces(insts[k], k, log10)
    ensures text + ps == prefix + PiecesUpTo(insts, k + 1, log10)
  {
    assert PiecesUpTo(insts, k + 1, log10) == PiecesUpTo(insts, k, log10) + ps;
  }
}
