/**
  * The header state machine of the SFZ loaders: which region an opcode
  * writes to, how <global>, <group> and <region> hand their opcodes down,
  * when a finished region is stored, and the pass over the stored regions
  * once the file is parsed.
  */
module SfzLoader {
  import opened Text
  import opened SfzRegion
  import opened Opcodes

  /** The header the parser is inside; MASTER is declared but no tag selects it. */
  datatype RegionType = NoHeader | GlobalHeader | MasterHeader | GroupHeader | RegionHeader

  /** `sample_cache.load`: the cache entry of a sample file, if it could be loaded. */
  function CacheLookup(cache: map<string, SampleData>, sample: string): (e: Option<SampleData>)
    ensures e.Some? <==> sample in cache
    ensures e.Some? ==> e.value == cache[sample]
  {
    if sample in cache then Some(cache[sample]) else None
  }

  /** The loader of lib/loader.cc with its three inheritance levels. */
  class LibLoader {
    var regionType: RegionType
    var activeGlobal: Region
    var activeGroup: Region
    var activeRegion: Region
    var regions: seq<Region>

    /** Active regions have all their CC entries, and no stored region lacks a sample. */
    predicate Valid()
      reads this
    {
      WellFormed(activeGlobal) && WellFormed(activeGroup) && WellFormed(activeRegion) &&
      forall i :: 0 <= i < |regions| ==> !Empty(regions[i]) && WellFormed(regions[i])
    }

    constructor()
      ensures Valid()
      ensures regionType == NoHeader && regions == []
      ensures activeGlobal == DefaultRegion && activeGroup == DefaultRegion && activeRegion == DefaultRegion
    {
      regionType := NoHeader;
      activeGlobal := DefaultRegion;
      activeGroup := DefaultRegion;
      activeRegion := DefaultRegion;
      regions := [];
    }

    /**
      * `set_key_value`: the opcode goes to the active global, group or
      * region; before the first header (and under MASTER) it is dropped.
      */
    method SetKeyValue(key: string, value: string)
      requires Valid()
      modifies this
      ensures Valid()
      ensures regionType == old(regionType) && regions == old(regions)
      ensures activeGlobal == (if regionType == GlobalHeader then ApplyOpcode(Lib, old(activeGlobal), key, value) else old(activeGlobal))
      ensures activeGroup == (if regionType == GroupHeader then ApplyOpcode(Lib, old(activeGroup), key, value) else old(activeGroup))
      ensures activeRegion == (if regionType == RegionHeader then ApplyOpcode(Lib, old(activeRegion), key, value) else old(activeRegion))
    {
      match regionType
      case GlobalHeader => activeGlobal := ApplyOpcode(Lib, activeGlobal, key, value);
      case GroupHeader => activeGroup := ApplyOpcode(Lib, activeGroup, key, value);
      case RegionHeader => activeRegion := ApplyOpcode(Lib, activeRegion, key, value);
      case _ =>
    }

    /**
      * `handle_tag`: a <region>, <group> or <global> first stores the region
      * being built when it has a sample. <region> starts from the group (from
      * the global when directly under <global>), <group> from the global, and
      * <global> from the defaults. Any other tag only warns.
      */
    method HandleTag(tag: string)
      requires Valid()
      modifies this
      ensures Valid()
      ensures var header := tag == "region" || tag == "group" || tag == "global";
        regions == old(regions) + (if header && !Empty(old(activeRegion)) then [old(activeRegion)] else [])
      ensures tag == "region" ==>
        regionType == RegionHeader && activeGlobal == old(activeGlobal) &&
        activeGroup == (if old(regionType) == GlobalHeader then old(activeGlobal) else old(activeGroup)) &&
        activeRegion == activeGroup
      ensures tag == "group" ==>
        regionType == GroupHeader && activeGlobal == old(activeGlobal) && activeGroup == old(activeGlobal) &&
        activeRegion == (if Empty(old(activeRegion)) then old(activeRegion) else DefaultRegion)
      ensures tag == "global" ==>
        regionType == GlobalHeader && activeGlobal == DefaultRegion && activeGroup == old(activeGroup) &&
        activeRegion == (if Empty(old(activeRegion)) then old(activeRegion) else DefaultRegion)
      ensures tag != "region" && tag != "group" && tag != "global" ==>
        regionType == old(regionType) && activeGlobal == old(activeGlobal) &&
        activeGroup == old(activeGroup) && activeRegion == old(activeRegion)
    {
      if tag == "region" || tag == "group" || tag == "global" {
        if !Empty(activeRegion) {
          regions := regions + [activeRegion];
          activeRegion := DefaultRegion;
        }
      }
      if tag == "region" {
        if regionType == GlobalHeader {
          activeGroup := activeGlobal;
        }
        regionType := RegionHeader;
        activeRegion := activeGroup;
      } else if tag == "group" {
        regionType := GroupHeader;
        activeGroup := activeGlobal;
      } else if tag == "global" {
        regionType := GlobalHeader;
        activeGlobal := DefaultRegion;
      }
    }

    /**
      * The end of `parse`: store the last region when it has a sample, then
      * attach each region's cache entry and resolve its DEFAULT loop mode.
      */
    method Finish(cache: map<string, SampleData>)
      requires Valid()
      modifies this
      ensures Valid()
      ensures var stored := old(regions) + (if Empty(old(activeRegion)) then [] else [old(activeRegion)]);
        |regions| == |stored| &&
        forall i :: 0 <= i < |regions| ==> regions[i] == ResolveLoopMode(stored[i], CacheLookup(cache, stored[i].sample))
      ensures forall i :: 0 <= i < |regions| ==> regions[i].loopMode != DefaultLoop
      ensures regionType == old(regionType) && activeRegion == old(activeRegion)
      ensures activeGlobal == old(activeGlobal) && activeGroup == old(activeGroup)
    {
      if !Empty(activeRegion) {
        regions := regions + [activeRegion];
      }
      ghost var stored := regions;
      var rs := regions;
      var i := 0;
      while i < |rs|
        invariant 0 <= i <= |rs| == |stored|
        invariant forall j :: 0 <= j < |rs| ==> !Empty(rs[j]) && WellFormed(rs[j])
        invariant forall j :: 0 <= j < i ==> rs[j] == ResolveLoopMode(stored[j], CacheLookup(cache, stored[j].sample))
        invariant forall j :: i <= j < |rs| ==> rs[j] == stored[j]
      {
        rs := rs[i := ResolveLoopMode(rs[i], CacheLookup(cache, rs[i].sample))];
        i := i + 1;
      }
      regions := rs;
    }
  }

  /**
   * The two-level loader shared by src/loader.hh with src/loader.cc and by
   * the prototype loader of src/liquidsfz.cc: there is no <global>, and a
   * <group> starts from the defaults.
   */
  class GroupLoader {
    const dialect: Dialect
    var regionType: RegionType
    var activeGroup: Region
    var activeRegion: Region
    var regions: seq<Region>

    /** Active regions have all their CC entries, and no stored region lacks a sample. */
    predicate Valid()
      reads this
    {
      (dialect == Src || dialect == Proto) &&
      (regionType == NoHeader || regionType == GroupHeader || regionType == RegionHeader) &&
      WellFormed(activeGroup) && WellFormed(activeRegion) &&
      forall i :: 0 <= i < |regions| ==> !Empty(regions[i]) && WellFormed(regions[i])
    }

    constructor(dialect: Dialect)
      requires dialect == Src || dialect == Proto
      ensures Valid() && this.dialect == dialect
      ensures regionType == NoHeader && regions == []
      ensures activeGroup == DefaultRegion && activeRegion == DefaultRegion
    {
      this.dialect := dialect;
      regionType := NoHeader;
      activeGroup := DefaultRegion;
      activeRegion := DefaultRegion;
      regions := [];
    }

    /** `set_key_value`: dropped before the first header, written to the region inside <region>, else to the group. */
    method SetKeyValue(key: string, value: string)
      requires Valid()
      modifies this
      ensures Valid()
      ensures regionType == old(regionType) && regions == old(regions)
      ensures regionType == NoHeader ==> activeGroup == old(activeGroup) && activeRegion == old(activeRegion)
      ensures regionType == RegionHeader ==>
        activeGroup == old(activeGroup) && activeRegion == ApplyOpcode(dialect, old(activeRegion), key, value)
      ensures regionType == GroupHeader ==>
        activeGroup == ApplyOpcode(dialect, old(activeGroup), key, value) && activeRegion == old(activeRegion)
    {
      if regionType == NoHeader {
        return;
      }
      if regionType == RegionHeader {
        activeRegion := ApplyOpcode(dialect, activeRegion, key, value);
      } else {
        activeGroup := ApplyOpcode(dialect, activeGroup, key, value);
      }
    }

    /**
      * `handle_tag`: <region> or <group> first stores the region being built
      * when it has a sample; <region> starts from the group and <group>
      * resets the group to the defaults. Any other tag only warns.
      */
    method HandleTag(tag: string)
      requires Valid()
      modifies this
      ensures Valid()
      ensures var header := tag == "region" || tag == "group";
        regions == old(regions) + (if header && !Empty(old(activeRegion)) then [old(activeRegion)] else [])
      ensures tag == "region" ==>
        regionType == RegionHeader && activeGroup == old(activeGroup) && activeRegion == old(activeGroup)
      ensures tag == "group" ==>
        regionType == GroupHeader && activeGroup == DefaultRegion &&
        activeRegion == (if Empty(old(activeRegion)) then old(activeRegion) else DefaultRegion)
      ensures tag != "region" && tag != "group" ==>
        regionType == old(regionType) && activeGroup == old(activeGroup) && activeRegion == old(activeRegion)
    {
      if tag == "region" || tag == "group" {
        if !Empty(activeRegion) {
          regions := regions + [activeRegion];
          activeRegion := DefaultRegion;
        }
      }
      if tag == "region" {
        regionType := RegionHeader;
        activeRegion := activeGroup;
      } else if tag == "group" {
        regionType := GroupHeader;
        activeGroup := DefaultRegion;
      }
    }

    /**
      * The end of parsing: store the last region when it has a sample and
      * attach each region's cache entry. src/loader.cc also resolves DEFAULT
      * loop modes; the prototype's `finish` leaves them as they are.
      */
    method Finish(cache: map<string, SampleData>)
      requires Valid()
      modifies this
      ensures Valid()
      ensures var stored := old(regions) + (if Empty(old(activeRegion)) then [] else [old(activeRegion)]);
        |regions| == |stored| &&
        forall i :: 0 <= i < |regions| ==>
          regions[i] == (if dialect == Src then ResolveLoopMode(stored[i], CacheLookup(cache, stored[i].sample))
                         else stored[i].(cachedSample := CacheLookup(cache, stored[i].sample)))
      ensures dialect == Src ==> forall i :: 0 <= i < |regions| ==> regions[i].loopMode != DefaultLoop
      ensures regionType == old(regionType) && activeGroup == old(activeGroup) && activeRegion == old(activeRegion)
    {
      if !Empty(activeRegion) {
        regions := regions + [activeRegion];
      }
      ghost var stored := regions;
      var rs := regions;
      var i := 0;
      while i < |rs|
        invariant 0 <= i <= |rs| == |stored|
        invariant forall j :: 0 <= j < |rs| ==> !Empty(rs[j]) && WellFormed(rs[j])
        invariant forall j :: 0 <= j < i ==>
          rs[j] == (if dialect == Src then ResolveLoopMode(stored[j], CacheLookup(cache, stored[j].sample))
                         else stored[j].(cachedSample := CacheLookup(cache, stored[j].sample)))
        invariant forall j :: i <= j < |rs| ==> rs[j] == stored[j]
      {
        var entry := CacheLookup(cache, rs[i].sample);
        if dialect == Src {
          rs := rs[i := ResolveLoopMode(rs[i], entry)];
        } else {
          rs := rs[i := rs[i].(cachedSample := entry)];
        }
        i := i + 1;
      }
      regions := rs;
    }
  }
}
