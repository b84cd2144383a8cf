/**
  * Region selection on note-on, common to the three synth revisions: a
  * region answers a note when key and velocity lie in its ranges and it is
  * an attack region; such a region then advances its round-robin counter
  * `play_seq`, and plays only when the counter was at its `seq_position`
  * and the note's random number falls in [lorand, hirand).
  */
module RoundRobin {
  import opened Text
  import opened SfzRegion
  import opened SfzLoader

  /** `play_seq++`, wrapping back to 1 once it passes `seq_length`. */
  function NextPlaySeq(playSeq: int, seqLength: int): (n: int)
    ensures playSeq >= 0 ==> 1 <= n <= (if seqLength < 1 then 1 else seqLength)
  {
    if playSeq + 1 > seqLength then 1 else playSeq + 1
  }

  /** The counter after k matching notes. */
  function AdvanceBy(playSeq: int, seqLength: int, k: nat): int
  {
    if k == 0 then playSeq else NextPlaySeq(AdvanceBy(playSeq, seqLength, k - 1), seqLength)
  }

  /** Below `seq_length` the counter simply counts up. */
  lemma {:induction false} PlaySeqCountsUp(p: int, seqLength: int, k: nat)
    requires 1 <= p && p + k <= seqLength
    ensures AdvanceBy(p, seqLength, k) == p + k
  {
    if k > 0 {
      PlaySeqCountsUp(p, seqLength, k - 1);
    }
  }

  /**
    * Starting at 1, the counter takes the values 1, 2, ..., seq_length and
    * is back at 1 after seq_length notes: each position of a round-robin
    * group gets its turn once per cycle.
    */
  lemma PlaySeqCycles(seqLength: int, k: nat)
    requires seqLength >= 1
    ensures k < seqLength ==> AdvanceBy(1, seqLength, k) == k + 1
    ensures AdvanceBy(1, seqLength, seqLength as nat) == 1
  {
    if k < seqLength {
      PlaySeqCountsUp(1, seqLength, k);
    }
    PlaySeqCountsUp(1, seqLength, (seqLength - 1) as nat);
  }

  /** Key and velocity inside the ranges, and an attack region. */
  predicate AttackMatch(r: Region, key: int, vel: int)
  {
    KeyVelMatch(r, key, vel) && r.trigger == Attack
  }

  /** The round-robin position is due and the random number lies in [lorand, hirand). */
  predicate SeqAndRandom(r: Region, random: real)
  {
    r.playSeq == r.seqPosition && r.lorand <= random < r.hirand
  }

  /** A region that answered a note, with its counter advanced. */
  function Advanced(r: Region): (r': Region)
    ensures r' == r.(playSeq := r'.playSeq)
    ensures r.playSeq >= 0 ==> 1 <= r'.playSeq <= (if r.seqLength < 1 then 1 else r.seqLength)
  {
    r.(playSeq := NextPlaySeq(r.playSeq, r.seqLength))
  }

  /** Strictly increasing indices: regions are visited once each, in order. */
  predicate Increasing(s: seq<nat>)
  {
    forall i, j :: 0 <= i < j < |s| ==> s[i] < s[j]
  }

  /**
    * `SFZSynth::note_on` of the prototype: every region is visited in
    * order; a matching region with a loaded sample that is due plays (one
    * fluidsynth voice per sample channel, left out here), and every
    * matching region advances its counter. `random` is the note's random
    * number in [0, 1). The result lists the indices of the regions that play.
    */
  method ProtoNoteOn(loader: GroupLoader, key: int, vel: int, random: real) returns (played: seq<nat>)
    requires 0.0 <= random < 1.0
    modifies loader
    ensures |loader.regions| == |old(loader.regions)|
    ensures forall i :: 0 <= i < |loader.regions| ==>
      loader.regions[i] == if AttackMatch(old(loader.regions[i]), key, vel) then Advanced(old(loader.regions[i])) else old(loader.regions[i])
    ensures Increasing(played)
    ensures forall i :: i in played <==>
      0 <= i < |old(loader.regions)| && AttackMatch(old(loader.regions[i]), key, vel) &&
      SeqAndRandom(old(loader.regions[i]), random) && old(loader.regions[i]).cachedSample.Some?
    ensures loader.regionType == old(loader.regionType)
    ensures loader.activeGroup == old(loader.activeGroup) && loader.activeRegion == old(loader.activeRegion)
    ensures old(loader.Valid()) ==> loader.Valid()
  {
    var rs := loader.regions;
    ghost var regs := rs;
    played := [];
    var i := 0;
    while i < |rs|
      invariant 0 <= i <= |rs| == |regs|
      invariant forall j :: 0 <= j < i ==>
        rs[j] == if AttackMatch(regs[j], key, vel) then Advanced(regs[j]) else regs[j]
      invariant forall j :: i <= j < |rs| ==> rs[j] == regs[j]
      invariant Increasing(played) && forall k :: 0 <= k < |played| ==> played[k] < i
      invariant forall j :: j in played <==>
        0 <= j < i && AttackMatch(regs[j], key, vel) && SeqAndRandom(regs[j], random) && regs[j].cachedSample.Some?
    {
      var r := rs[i];
      if AttackMatch(r, key, vel) {
        if SeqAndRandom(r, random) && r.cachedSample.Some? {
          played := played + [i];
        }
        rs := rs[i := Advanced(r)];
      }
      i := i + 1;
    }
    loader.regions := rs;
  }
}
