/**
  * The opcode table of `set_key_value`, shared by the three loader
  * revisions. Each revision knows a different set of opcodes; an opcode it
  * does not know only produces a warning and leaves the region as it was.
  */
module Opcodes {
  import opened Text
  import opened SfzRegion

  /** lib/loader.cc, src/loader.cc, or the prototype loader of src/liquidsfz.cc. */
  datatype Dialect = Lib | Src | Proto

  /** The sample opcode turns every '\' of the file name into '/'. */
  function NativeFilename(v: string): (r: string)
    ensures |r| == |v| && '\\' !in r
    ensures forall i :: 0 <= i < |v| && v[i] != '\\' ==> r[i] == v[i]
    ensures forall i :: 0 <= i < |v| && v[i] == '\\' ==> r[i] == '/'
  {
    if v == [] then [] else [if v[0] == '\\' then '/' else v[0]] + NativeFilename(v[1..])
  }

  /** What `set_key_value` does with an opcode name. */
  datatype Opcode =
    | SampleOp | LokeyOp | HikeyOp | KeyOp | LovelOp | HivelOp
    | PitchKeycenterOp | PitchKeytrackOp | LorandOp | HirandOp
    | LoopModeOp | LoopStartOp | LoopEndOp | LoccOp | HiccOp | OnCcOp
    | TriggerOp | SeqLengthOp | SeqPositionOp
    | AmpegDelayOp | AmpegAttackOp | AmpegDecayOp | AmpegSustainOp | AmpegReleaseOp
    | VolumeOp | AmpVeltrackOp | PanOp | RtDecayOp
    | Unsupported

  /**
    * The opcodes known by their exact name. The source's if-chain compares
    * the name with each literal in turn; grouping the literals by their first
    * character picks the same branch, since equal strings start alike.
    */
  function OpcodeByName(key: string): (op: Opcode)
    ensures op != LoccOp && op != HiccOp && op != OnCcOp
  {
    if |key| == 0 then Unsupported
    else match key[0]
      case 's' => if key == "sample" then SampleOp
        else if key == "seq_length" then SeqLengthOp
        else if key == "seq_position" then SeqPositionOp
        else Unsupported
      case 'l' => if key == "lokey" then LokeyOp
        else if key == "lovel" then LovelOp
        else if key == "lorand" then LorandOp
        else if key == "loop_mode" then LoopModeOp
        else if key == "loop_start" then LoopStartOp
        else if key == "loop_end" then LoopEndOp
        else Unsupported
      case 'h' => if key == "hikey" then HikeyOp
        else if key == "hivel" then HivelOp
        else if key == "hirand" then HirandOp
        else Unsupported
      case 'k' => if key == "key" then KeyOp else Unsupported
      case 'p' => if key == "pitch_keycenter" then PitchKeycenterOp
        else if key == "pitch_keytrack" then PitchKeytrackOp
        else if key == "pan" then PanOp
        else Unsupported
      case 't' => if key == "trigger" then TriggerOp else Unsupported
      case 'a' => if key == "ampeg_delay" then AmpegDelayOp
        else if key == "ampeg_attack" then AmpegAttackOp
        else if key == "ampeg_decay" then AmpegDecayOp
        else if key == "ampeg_sustain" then AmpegSustainOp
        else if key == "ampeg_release" then AmpegReleaseOp
        else if key == "amp_veltrack" then AmpVeltrackOp
        else Unsupported
      case 'v' => if key == "volume" then VolumeOp else Unsupported
      case 'r' => if key == "rt_decay" then RtDecayOp else Unsupported
      case _ => Unsupported
  }

  /**
    * Which opcodes a revision's if-chain contains: src/loader.cc lacks
    * pitch_keytrack and rt_decay; the prototype loader also lacks
    * loop_mode, locc/hicc and the envelope, volume, veltrack and pan opcodes.
    */
  predicate Supports(d: Dialect, op: Opcode)
  {
    match d
    case Lib => true
    case Src => !op.PitchKeytrackOp? && !op.RtDecayOp?
    case Proto => !ProtoLacks(op)
  }

  /** The opcodes missing from the prototype loader's if-chain. */
  predicate ProtoLacks(op: Opcode)
  {
    op.PitchKeytrackOp? || op.RtDecayOp? || op.LoopModeOp? || op.LoccOp? || op.HiccOp?
    || op.AmpegDelayOp? || op.AmpegAttackOp? || op.AmpegDecayOp? || op.AmpegSustainOp?
    || op.AmpegReleaseOp? || op.VolumeOp? || op.AmpVeltrackOp? || op.PanOp?
  }

  /**
    * The revision's if-chain over the opcode name. No exact opcode name
    * starts with locc, hicc, on_locc or on_hicc, so testing these prefixes
    * first selects the same branch as the source's order does, and an
    * opcode missing from a revision's chain falls through to the warning.
    */
  function Classify(d: Dialect, key: string): (op: Opcode)
    ensures op == LoccOp ==> StartsWith(key, "locc") && |key| >= 4
    ensures op == HiccOp ==> StartsWith(key, "hicc") && |key| >= 4
    ensures op != Unsupported ==> Supports(d, op)
  {
    var op :=
      if StartsWith(key, "locc") then LoccOp
      else if StartsWith(key, "hicc") then HiccOp
      else if StartsWith(key, "on_locc") || StartsWith(key, "on_hicc") then OnCcOp
      else OpcodeByName(key);
    if Supports(d, op) then op else Unsupported
  }

  /** locc<N> / hicc<N>: N is read with atoi and only 0..127 are stored. */
  function SetCcBound(r: Region, key: string, value: string, low: bool): (r': Region)
    requires WellFormed(r) && |key| >= 4
    ensures WellFormed(r')
  {
    var cc := Atoi(key[4..]);
    if 0 <= cc <= 127 then
      if low then r.(locc := r.locc[cc := Atoi(value)]) else r.(hicc := r.hicc[cc := Atoi(value)])
    else r
  }

  /** The effect of one classified opcode on a region. */
  function Apply(r: Region, op: Opcode, key: string, value: string): (r': Region)
    requires WellFormed(r)
    requires op == LoccOp || op == HiccOp ==> |key| >= 4
    ensures WellFormed(r')
    ensures op == Unsupported ==> r' == r
    ensures r'.playSeq == r.playSeq && r'.cachedSample == r.cachedSample
  {
    match op
    case SampleOp => r.(sample := NativeFilename(value))
    case LokeyOp => r.(lokey := ConvertKey(value))
    case HikeyOp => r.(hikey := ConvertKey(value))
    case KeyOp =>
      var k := ConvertKey(value);
      r.(lokey := k, hikey := k, pitchKeycenter := k)
    case LovelOp => r.(lovel := ConvertKey(value))
    case HivelOp => r.(hivel := ConvertKey(value))
    case PitchKeycenterOp => r.(pitchKeycenter := ConvertKey(value))
    case PitchKeytrackOp => r.(pitchKeytrack := Atoi(value))
    case LorandOp => r.(lorand := Atof(value))
    case HirandOp => r.(hirand := Atof(value))
    case LoopModeOp => r.(loopMode := ConvertLoopMode(value))
    case LoopStartOp => r.(loopStart := Atoi(value))
    case LoopEndOp => r.(loopEnd := Atoi(value))
    case LoccOp => SetCcBound(r, key, value, true)
    case HiccOp => SetCcBound(r, key, value, false)
    case OnCcOp => r.(trigger := CcTrigger)
    case TriggerOp => r.(trigger := ConvertTrigger(value))
    case SeqLengthOp => r.(seqLength := Atoi(value))
    case SeqPositionOp => r.(seqPosition := Atoi(value))
    case AmpegDelayOp => r.(ampegDelay := Atof(value))
    case AmpegAttackOp => r.(ampegAttack := Atof(value))
    case AmpegDecayOp => r.(ampegDecay := Atof(value))
    case AmpegSustainOp => r.(ampegSustain := Atof(value))
    case AmpegReleaseOp => r.(ampegRelease := Atof(value))
    case VolumeOp => r.(volume := Atof(value))
    case AmpVeltrackOp => r.(ampVeltrack := Atof(value))
    case PanOp => r.(pan := Atof(value))
    case RtDecayOp => r.(rtDecay := Atof(value))
    case Unsupported => r
  }

  /** `set_key_value` on the region it writes to: classify the opcode name, then apply it. */
  function ApplyOpcode(d: Dialect, r: Region, key: string, value: string): (r': Region)
    requires WellFormed(r)
    ensures WellFormed(r')
    ensures Classify(d, key) == Unsupported ==> r' == r
    ensures r'.playSeq == r.playSeq && r'.cachedSample == r.cachedSample
  {
    Apply(r, Classify(d, key), key, value)
  }

  /** "key=" writes the same note to lokey, hikey and pitch_keycenter and nothing else, in every revision. */
  lemma KeyOpcodeSetsRangeAndCenter(d: Dialect, r: Region, value: string)
    requires WellFormed(r)
    ensures var r' := ApplyOpcode(d, r, "key", value);
      r'.lokey == r'.hikey == r'.pitchKeycenter == ConvertKey(value) &&
      r'.(lokey := r.lokey, hikey := r.hikey, pitchKeycenter := r.pitchKeycenter) == r
  {
  }

  /**
    * locc<N>=v stores atoi(v) in entry N when 0 <= N <= 127 and changes
    * nothing else; any other N leaves the region unchanged.
    */
  lemma LoccOpcodeStoresOneEntry(d: Dialect, r: Region, suffix: string, value: string)
    requires WellFormed(r) && d != Proto
    ensures var r' := ApplyOpcode(d, r, "locc" + suffix, value);
      var cc := Atoi(suffix);
      if 0 <= cc <= 127 then r' == r.(locc := r.locc[cc := Atoi(value)]) else r' == r
  {
    var key := "locc" + suffix;
    assert key[..4] == "locc" && key[4..] == suffix;
    assert Classify(d, key) == LoccOp;
  }

  /** hicc<N>=v is the same for the upper bounds. */
  lemma HiccOpcodeStoresOneEntry(d: Dialect, r: Region, suffix: string, value: string)
    requires WellFormed(r) && d != Proto
    ensures var r' := ApplyOpcode(d, r, "hicc" + suffix, value);
      var cc := Atoi(suffix);
      if 0 <= cc <= 127 then r' == r.(hicc := r.hicc[cc := Atoi(value)]) else r' == r
  {
    var key := "hicc" + suffix;
    assert key[..4] == "hicc" && key[4..] == suffix;
    assert key[0] == 'h';
    assert Classify(d, key) == HiccOp;
  }

  /** The exact name of an opcode; the prefix opcodes and Unsupported have none and get "". */
  function Name(op: Opcode): string
  {
    match op
    case SampleOp => "sample"
    case LokeyOp => "lokey"
    case HikeyOp => "hikey"
    case KeyOp => "key"
    case LovelOp => "lovel"
    case HivelOp => "hivel"
    case PitchKeycenterOp => "pitch_keycenter"
    case PitchKeytrackOp => "pitch_keytrack"
    case LorandOp => "lorand"
    case HirandOp => "hirand"
    case LoopModeOp => "loop_mode"
    case LoopStartOp => "loop_start"
    case LoopEndOp => "loop_end"
    case TriggerOp => "trigger"
    case SeqLengthOp => "seq_length"
    case SeqPositionOp => "seq_position"
    case AmpegDelayOp => "ampeg_delay"
    case AmpegAttackOp => "ampeg_attack"
    case AmpegDecayOp => "ampeg_decay"
    case AmpegSustainOp => "ampeg_sustain"
    case AmpegReleaseOp => "ampeg_release"
    case VolumeOp => "volume"
    case AmpVeltrackOp => "amp_veltrack"
    case PanOp => "pan"
    case RtDecayOp => "rt_decay"
    case LoccOp => ""
    case HiccOp => ""
    case OnCcOp => ""
    case Unsupported => ""
  }

  /** Every opcode with an exact name is found under that name. */
  lemma NameRoundTrip(op: Opcode)
    requires Name(op) != ""
    ensures OpcodeByName(Name(op)) == op
  {
    match op
    case SampleOp =>
    case LokeyOp =>
    case HikeyOp =>
    case KeyOp =>
    case LovelOp =>
    case HivelOp =>
    case PitchKeycenterOp =>
    case PitchKeytrackOp =>
    case LorandOp =>
    case HirandOp =>
    case LoopModeOp =>
    case LoopStartOp =>
    case LoopEndOp =>
    case TriggerOp =>
    case SeqLengthOp =>
    case SeqPositionOp =>
    case AmpegDelayOp =>
    case AmpegAttackOp =>
    case AmpegDecayOp =>
    case AmpegSustainOp =>
    case AmpegReleaseOp =>
    case VolumeOp =>
    case AmpVeltrackOp =>
    case PanOp =>
    case RtDecayOp =>
    case _ =>
  }

  /** A name the table knows is the name of the opcode it gives. */
  lemma OpcodeByNameIsExact(key: string)
    requires OpcodeByName(key) != Unsupported
    ensures key == Name(OpcodeByName(key)) && key != ""
  {
    match key[0]
    case 's' =>
    case 'l' =>
    case 'h' =>
    case 'k' =>
    case 'p' =>
    case 't' =>
    case 'a' =>
    case 'v' =>
    case 'r' =>
    case _ =>
  }

  /** No exact opcode name starts with one of the CC prefixes, so the order of the tests does not matter. */
  lemma NamesAvoidCcPrefixes(key: string)
    requires OpcodeByName(key) != Unsupported
    ensures !StartsWith(key, "locc") && !StartsWith(key, "hicc")
    ensures !StartsWith(key, "on_locc") && !StartsWith(key, "on_hicc")
  {
    OpcodeByNameIsExact(key);
    NameAvoidsCcPrefixes(OpcodeByName(key));
  }

  lemma NameAvoidsCcPrefixes(op: Opcode)
    ensures |Name(op)| < 4 || Name(op)[..4] != "locc"
    ensures |Name(op)| < 4 || Name(op)[..4] != "hicc"
    ensures |Name(op)| < 7 || Name(op)[..7] != "on_locc"
    ensures |Name(op)| < 7 || Name(op)[..7] != "on_hicc"
  {
    var n := Name(op);
    assert |n| >= 4 ==> n[0] != 'o' && n[2] != 'c';
  }

  /** The prototype loader ignores loop_mode, locc/hicc, the envelope, volume, veltrack and pan opcodes, and lib's extras. */
  lemma ProtoIgnoresLaterOpcodes(r: Region, key: string, value: string)
    requires WellFormed(r)
    requires StartsWith(key, "locc") || StartsWith(key, "hicc") || ProtoLacks(OpcodeByName(key))
    ensures ApplyOpcode(Proto, r, key, value) == r
  {
    if ProtoLacks(OpcodeByName(key)) {
      NamesAvoidCcPrefixes(key);
    }
    assert Classify(Proto, key) == Unsupported;
  }

  /** pitch_keytrack and rt_decay exist only in lib/loader.cc. */
  lemma LibOnlyOpcodes(r: Region, key: string, value: string)
    requires WellFormed(r)
    requires !StartsWith(key, "locc") && !StartsWith(key, "hicc")
    requires !StartsWith(key, "on_locc") && !StartsWith(key, "on_hicc")
    ensures OpcodeByName(key) == PitchKeytrackOp ==>
      ApplyOpcode(Src, r, key, value) == r && ApplyOpcode(Lib, r, key, value) == r.(pitchKeytrack := Atoi(value))
    ensures OpcodeByName(key) == RtDecayOp ==>
      ApplyOpcode(Src, r, key, value) == r && ApplyOpcode(Lib, r, key, value) == r.(rtDecay := Atof(value))
  {
  }

  /** on_locc<N> / on_hicc<N> make the region CC-triggered whatever the value. */
  lemma OnCcOpcodeSetsCcTrigger(d: Dialect, r: Region, suffix: string, value: string)
    requires WellFormed(r)
    ensures ApplyOpcode(d, r, "on_locc" + suffix, value) == r.(trigger := CcTrigger)
    ensures ApplyOpcode(d, r, "on_hicc" + suffix, value) == r.(trigger := CcTrigger)
  {
    OnCcKeySetsCcTrigger(d, r, "on_locc", suffix, value);
    OnCcKeySetsCcTrigger(d, r, "on_hicc", suffix, value);
  }

  /** One of the two `on_` prefixes followed by any suffix sets the cc trigger. */
  lemma OnCcKeySetsCcTrigger(d: Dialect, r: Region, prefix: string, suffix: string, value: string)
    requires WellFormed(r) && (prefix == "on_locc" || prefix == "on_hicc")
    ensures ApplyOpcode(d, r, prefix + suffix, value) == r.(trigger := CcTrigger)
  {
    var key := prefix + suffix;
    assert key[..7] == prefix;
    assert key[0] == 'o';
  }
}
