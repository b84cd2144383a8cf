/**
  * The LFO generator (lib/lfogen.cc): per-voice low frequency oscillators
  * with a start delay, a fade-in and a phase in [0, 1], evaluated once per
  * block of at most 32 values and routed to the pitch, volume and cutoff
  * outputs and to the frequency of other LFOs through modulation links.
  * Values are reals; the sine wave, the output post functions and the
  * exponential smoothing of `write_output` are left abstract.
  */
module LfoGenerator {
  import opened Text
  import opened Smoothing
  import opened LibSynth

  /** The waves `get_wave` knows. */
  datatype Wave = Triangle | Sine | Pulse75 | Square | Pulse25 | Pulse125 | SawUp | SawDown | SampleHold

  /** `get_wave`: the wave for ids 0 to 7 and 12, none for any other id. */
  function GetWave(id: int): (w: Option<Wave>)
  {
    if id == 0 then Some(Triangle)
    else if id == 1 then Some(Sine)
    else if id == 2 then Some(Pulse75)
    else if id == 3 then Some(Square)
    else if id == 4 then Some(Pulse25)
    else if id == 5 then Some(Pulse125)
    else if id == 6 then Some(SawUp)
    else if id == 7 then Some(SawDown)
    else if id == 12 then Some(SampleHold)
    else None
  }

  /** `supports_wave`: get_wave finds a wave. */
  predicate SupportsWave(id: int)
  {
    GetWave(id).Some?
  }

  /** The id under which `get_wave` returns a wave. */
  function WaveId(w: Wave): int
  {
    match w
    case Triangle => 0
    case Sine => 1
    case Pulse75 => 2
    case Square => 3
    case Pulse25 => 4
    case Pulse125 => 5
    case SawUp => 6
    case SawDown => 7
    case SampleHold => 12
  }

  /** Exactly the ids 0 to 7 and 12 are supported, and each wave is found under its own id. */
  lemma SupportedWaves(id: int, w: Wave)
    ensures SupportsWave(id) <==> 0 <= id <= 7 || id == 12
    ensures GetWave(WaveId(w)) == Some(w)
    ensures GetWave(id) == Some(w) ==> id == WaveId(w)
  {
  }

  /** The shapes of the waves that depend on the phase alone (all but sine and sample-and-hold). */
  function Shape(w: Wave, p: real): real
    requires w != Sine && w != SampleHold
  {
    match w
    case Triangle => if p < 0.25 then p * 4.0 else if p < 0.75 then 2.0 - p * 4.0 else -4.0 + p * 4.0
    case Pulse75 => if p < 0.75 then 0.5 else -0.5
    case Square => if p < 0.5 then 0.5 else -0.5
    case Pulse25 => if p < 0.25 then 0.5 else -0.5
    case Pulse125 => if p < 0.125 then 0.5 else -0.5
    case SawUp => p * 2.0 - 1.0
    case SawDown => 1.0 - p * 2.0
  }

  /** The duty threshold of a pulse wave: it is +0.5 below it and -0.5 from it on. */
  function Duty(w: Wave): real
    requires w in {Pulse75, Square, Pulse25, Pulse125}
  {
    match w
    case Pulse75 => 0.75
    case Square => 0.5
    case Pulse25 => 0.25
    case Pulse125 => 0.125
  }

  /** The pulse waves take only the values +0.5 and -0.5, and +0.5 for a fraction Duty of each cycle. */
  lemma PulseShapes(w: Wave, p: real)
    requires w in {Pulse75, Square, Pulse25, Pulse125}
    ensures Shape(w, p) == 0.5 || Shape(w, p) == -0.5
    ensures Shape(w, p) == 0.5 <==> p < Duty(w)
  {
  }

  /**
    * On [0, 1] the triangle stays in [-1, 1], rises from 0 to 1 at a
    * quarter cycle, falls to -1 at three quarters, and is continuous at
    * both breakpoints; its second half mirrors the first.
    */
  lemma TriangleShape(p: real)
    requires 0.0 <= p <= 1.0
    ensures -1.0 <= Shape(Triangle, p) <= 1.0
    ensures Shape(Triangle, 0.0) == 0.0 && Shape(Triangle, 0.25) == 1.0
    ensures Shape(Triangle, 0.75) == -1.0 && Shape(Triangle, 1.0) == 0.0
    ensures p <= 0.5 ==> Shape(Triangle, p + 0.5) == -Shape(Triangle, p)
  {
  }

  /** The saws are mirror images, each a line from -1 to 1 (or 1 to -1) over a cycle. */
  lemma SawShapes(p: real)
    ensures Shape(SawDown, p) == -Shape(SawUp, p)
    ensures 0.0 <= p <= 1.0 ==> -1.0 <= Shape(SawUp, p) <= 1.0
    ensures Shape(SawUp, 0.0) == -1.0 && Shape(SawUp, 1.0) == 1.0
  {
  }

  /** A CC vector of a modulation parameter: which CCs scale it, and by how much. */
  datatype CcParam = CcParam(cc: int, value: real)

  /** A link that adds an LFO's value into the frequency of another LFO. */
  datatype LfoMod = LfoMod(toIndex: int, lfoFreq: real, lfoFreqCc: seq<CcParam>)

  /** The parameters of one LFO of a region. */
  datatype LfoParams = LfoParams(
    wave: int, freq: real, freqCc: seq<CcParam>,
    phase: real, phaseCc: seq<CcParam>,
    delay: real, delayCc: seq<CcParam>,
    fade: real, fadeCc: seq<CcParam>,
    pitch: real, pitchCc: seq<CcParam>,
    volume: real, volumeCc: seq<CcParam>,
    cutoff: real, cutoffCc: seq<CcParam>,
    lfoMods: seq<LfoMod>)

  /** The running state of one LFO. */
  datatype LfoState = LfoState(
    params: LfoParams, wave: Option<Wave>,
    phase: real, freq: real, freqMod: real, nextFreqMod: real,
    toPitch: real, toVolume: real, toCutoff: real,
    delayLen: nat, fadeLen: nat, fadePos: nat,
    value: real, lastShState: int, shValue: real)

  /** The three outputs, in the order of the `outputs` array. */
  datatype OutputType = Pitch | Volume | Cutoff

  function OutputIndex(t: OutputType): nat
  {
    match t
    case Pitch => 0
    case Volume => 1
    case Cutoff => 2
  }

  /** One output; `buffer` is its offset into the LFO buffer, once assigned. */
  datatype Output = Output(active: bool, value: real, lastValue: real, buffer: Option<nat>)

  const NoOutput: Output := Output(false, 0.0, 0.0, None)

  /** Where a modulation link adds its value: an output, or the next frequency modulation of an LFO. */
  datatype Dest = ToOutput(t: OutputType) | ToFreqMod(lfo: int)

  /** `*dest += *source * factor`, with source the value of LFO `source`. */
  datatype ModLink = ModLink(source: nat, factor: real, dest: Dest)

  /** The outside inputs: the synth's CC vector values (`get_cc_vec_value`), the sine, and the synth's random numbers. */
  datatype Env = Env(ccVec: (int, seq<CcParam>) -> real, sin: real -> real, randomAt: nat -> real)

  /** The LFO state a new `LFO` gets from `start`, before the CCs are applied. */
  function StartLfo(p: LfoParams, channel: int, sampleRate: int, env: Env): (l: LfoState)
    ensures 0.0 <= l.phase <= 1.0 && l.fadePos == 0
    ensures l.wave == GetWave(p.wave) && l.params == p
  {
    var phase := p.phase + env.ccVec(channel, p.phaseCc);
    var delay := p.delay + env.ccVec(channel, p.delayCc);
    var fade := p.fade + env.ccVec(channel, p.fadeCc);
    var delaySamples := delay * sampleRate as real;
    var fadeSamples := fade * sampleRate as real;
    LfoState(p, GetWave(p.wave),
      if phase < 0.0 then 0.0 else if phase > 1.0 then 1.0 else phase,
      0.0, 0.0, 0.0, 0.0, 0.0, 0.0,
      if delaySamples > 0.0 then Trunc(delaySamples) else 0,
      if fadeSamples > 0.0 then Trunc(fadeSamples) else 0,
      0, 0.0, 0, 0.0)
  }

  /** `start` clamps the phase into [0, 1] and never yields a negative delay or fade length. */
  lemma StartClamps(p: LfoParams, channel: int, sampleRate: int, env: Env)
    requires sampleRate > 0
    ensures var l := StartLfo(p, channel, sampleRate, env);
      var phase := p.phase + env.ccVec(channel, p.phaseCc);
      (0.0 <= phase <= 1.0 ==> l.phase == phase) &&
      (phase < 0.0 ==> l.phase == 0.0) && (phase > 1.0 ==> l.phase == 1.0) &&
      ((p.delay + env.ccVec(channel, p.delayCc)) * sampleRate as real <= 0.0 ==> l.delayLen == 0)
  {
  }

  /** An output is switched on by an LFO that has a pitch (volume, cutoff) amount or CCs for it. */
  predicate Drives(p: LfoParams, t: OutputType)
  {
    match t
    case Pitch => p.pitch != 0.0 || |p.pitchCc| > 0
    case Volume => p.volume != 0.0 || |p.volumeCc| > 0
    case Cutoff => p.cutoff != 0.0 || |p.cutoffCc| > 0
  }

  /** Some LFO among the first k drives output t. */
  predicate AnyDrives(ps: seq<LfoParams>, k: nat, t: OutputType)
    requires k <= |ps|
  {
    exists i :: 0 <= i < k && Drives(ps[i], t)
  }

  /** `update_ccs` for one LFO: the amounts and the frequency with their CC parts. */
  function WithCcs(l: LfoState, channel: int, env: Env): (l': LfoState)
    ensures l'.params == l.params && l'.wave == l.wave
  {
    var p := l.params;
    l.(toPitch := (env.ccVec(channel, p.pitchCc) + p.pitch) / 1200.0,
       toVolume := env.ccVec(channel, p.volumeCc) + p.volume,
       toCutoff := (env.ccVec(channel, p.cutoffCc) + p.cutoff) / 1200.0,
       freq := env.ccVec(channel, p.freqCc) + p.freq)
  }

  /** The links of the first k lfo_mods of LFO i with a non-zero amount, in order. */
  function ModLinks(mods: seq<LfoMod>, k: nat, i: nat, channel: int, env: Env): seq<ModLink>
    requires k <= |mods|
  {
    if k == 0 then []
    else
      var amount := env.ccVec(channel, mods[k - 1].lfoFreqCc) + mods[k - 1].lfoFreq;
      ModLinks(mods, k - 1, i, channel, env) + (if amount != 0.0 then [ModLink(i, amount, ToFreqMod(mods[k - 1].toIndex))] else [])
  }

  /** The links of LFO i (already updated by WithCcs): pitch, volume, cutoff, then its lfo_mods. */
  function LinksOf(l: LfoState, i: nat, channel: int, env: Env): seq<ModLink>
  {
    (if l.toPitch != 0.0 then [ModLink(i, l.toPitch, ToOutput(Pitch))] else []) +
    (if l.toVolume != 0.0 then [ModLink(i, l.toVolume, ToOutput(Volume))] else []) +
    (if l.toCutoff != 0.0 then [ModLink(i, l.toCutoff, ToOutput(Cutoff))] else []) +
    ModLinks(l.params.lfoMods, |l.params.lfoMods|, i, channel, env)
  }

  /** The links of the LFOs ls, in order. */
  function AllLinks(ls: seq<LfoState>, channel: int, env: Env): seq<ModLink>
  {
    if |ls| == 0 then [] else AllLinks(ls[..|ls| - 1], channel, env) + LinksOf(ls[|ls| - 1], |ls| - 1, channel, env)
  }

  /** Every link reads an existing LFO and writes an output or an existing LFO. */
  predicate LinkValid(m: ModLink, nLfos: nat)
  {
    m.source < nLfos && (m.dest.ToFreqMod? ==> 0 <= m.dest.lfo < nLfos)
  }

  /** The lfo_mods of every LFO name an existing LFO. */
  predicate ModTargetsValid(ps: seq<LfoParams>)
  {
    forall i, j :: 0 <= i < |ps| && 0 <= j < |ps[i].lfoMods| ==> 0 <= ps[i].lfoMods[j].toIndex < |ps|
  }

  lemma {:induction false} ModLinksValid(mods: seq<LfoMod>, k: nat, i: nat, channel: int, env: Env, n: nat)
    requires k <= |mods| && i < n && forall j :: 0 <= j < |mods| ==> 0 <= mods[j].toIndex < n
    ensures forall m :: m in ModLinks(mods, k, i, channel, env) ==> LinkValid(m, n) && m.source == i
  {
    if k > 0 {
      ModLinksValid(mods, k - 1, i, channel, env, n);
    }
  }

  /** The links of LFO i read LFO i and write an output or an LFO its lfo_mods name. */
  lemma LinksOfValid(l: LfoState, i: nat, channel: int, env: Env, n: nat)
    requires i < n && forall j :: 0 <= j < |l.params.lfoMods| ==> 0 <= l.params.lfoMods[j].toIndex < n
    ensures forall m :: m in LinksOf(l, i, channel, env) ==> LinkValid(m, n) && m.source == i
  {
    var mods := ModLinks(l.params.lfoMods, |l.params.lfoMods|, i, channel, env);
    ModLinksValid(l.params.lfoMods, |l.params.lfoMods|, i, channel, env, n);
    forall m | m in LinksOf(l, i, channel, env)
      ensures LinkValid(m, n) && m.source == i
    {
      if m in mods {
      } else {
        assert m.dest.ToOutput?;
      }
    }
  }

  /** The links of LFOs whose lfo_mods name one of n LFOs (n at least their number) read and write only existing LFOs. */
  lemma {:induction false} AllLinksValid(ls: seq<LfoState>, n: nat, channel: int, env: Env)
    requires |ls| <= n
    requires forall i, j :: 0 <= i < |ls| && 0 <= j < |ls[i].params.lfoMods| ==> 0 <= ls[i].params.lfoMods[j].toIndex < n
    ensures forall m :: m in AllLinks(ls, channel, env) ==> LinkValid(m, n) && m.source < |ls|
  {
    if |ls| > 0 {
      var k := |ls| - 1;
      var front, last := AllLinks(ls[..k], channel, env), LinksOf(ls[k], k, channel, env);
      assert forall i :: 0 <= i < k ==> ls[..k][i] == ls[i];
      AllLinksValid(ls[..k], n, channel, env);
      LinksOfValid(ls[k], k, channel, env, n);
      assert AllLinks(ls, channel, env) == front + last;
    }
  }

  /** The sample-and-hold state: a new random value each time the phase crosses a half cycle. */
  function SampleHoldEval(l: LfoState, random: real): (LfoState, real, bool)
  {
    var shState := if l.phase < 0.5 then 1 else 0;
    if l.lastShState != shState then
      var v := random * 2.0 - 1.0;
      (l.(shValue := v, lastShState := shState), v, true)
    else (l, l.shValue, false)
  }

  /** `wave->eval (lfo)`: the value, the updated LFO and whether a random number was drawn. */
  function Eval(l: LfoState, env: Env, random: real): (LfoState, real, bool)
    requires l.wave.Some?
  {
    match l.wave.value
    case Sine => (l, env.sin(l.phase * 2.0 * 3.141592653589793), false)
    case SampleHold => SampleHoldEval(l, random)
    case w => (l, Shape(w, l.phase), false)
  }

  /** `while (phase > 1) phase -= 1`. */
  function Wrap(p: real): (q: real)
    ensures q <= 1.0
    ensures p <= 1.0 ==> q == p
    ensures p > 1.0 ==> 0.0 < q < p
    decreases if p > 1.0 then p.Floor else 0
  {
    if p > 1.0 then Wrap(p - 1.0) else p
  }

  /** `float (fade_pos) / fade_len`: the fade-in gain, in [0, 1). */
  function FadeGain(pos: nat, len: nat): (g: real)
    requires pos < len
    ensures 0.0 <= g < 1.0
  {
    pos as real / len as real
  }

  /** The phase advance of n frames at frequency freq (Hz). */
  function PhaseStep(n: nat, freq: real, sampleRate: int): real
    requires sampleRate > 0
  {
    n as real * freq / sampleRate as real
  }

  /** The frames left for fade and phase once the delay has taken its part. */
  function AfterDelay(delayLen: nat, n: nat): (nat, nat)
  {
    if delayLen > 0 then (if delayLen >= n then (delayLen - n, 0) else (0, n - delayLen)) else (0, n)
  }

  /**
    * `process_lfo (lfo, n)`: once the delay is over the value is the wave
    * scaled by the fade position; the delay takes its frames first, the
    * rest advance the fade and the phase. The second result tells whether
    * a random number was drawn.
    */
  function ProcessLfoSpec(l: LfoState, n: nat, sampleRate: int, env: Env, random: real): (LfoState, bool)
    requires sampleRate > 0 && l.wave.Some?
  {
    var e := if l.delayLen == 0 then Eval(l, env, random) else (l, l.value, false);
    var value := if l.delayLen == 0 && l.fadePos < l.fadeLen then e.1 * FadeGain(l.fadePos, l.fadeLen) else e.1;
    var (delay, rest) := AfterDelay(l.delayLen, n);
    var fadePos := if l.fadePos < l.fadeLen then Min(l.fadeLen, l.fadePos + rest) as nat else l.fadePos;
    var phase := Wrap(l.phase + PhaseStep(rest, l.freq + l.freqMod, sampleRate));
    (e.0.(value := value, delayLen := delay, fadePos := fadePos, phase := phase), e.2)
  }

  function Min(x: int, y: int): int
  {
    if x < y then x else y
  }

  /**
    * The counters of `process_lfo`: the frames the delay takes plus the
    * frames that advance fade and phase are exactly n; the delay never
    * grows; the fade position never decreases and, once in range, never
    * passes the fade length; the phase ends at most 1.
    */
  lemma ProcessLfoCounters(l: LfoState, n: nat, sampleRate: int, env: Env, random: real)
    requires sampleRate > 0 && l.wave.Some?
    ensures var l' := ProcessLfoSpec(l, n, sampleRate, env, random).0;
      var rest := AfterDelay(l.delayLen, n).1;
      (l.delayLen - l'.delayLen) + rest == n &&
      l'.delayLen <= l.delayLen &&
      l'.fadePos >= l.fadePos &&
      (l.fadePos <= l.fadeLen ==> l'.fadePos <= l.fadeLen) &&
      l'.phase <= 1.0 && l'.fadeLen == l.fadeLen
  {
  }

  /** The LFOs after the first k of them ran for n frames, and the random numbers drawn so far. */
  function ProcessUpTo(ls: seq<LfoState>, k: nat, n: nat, sampleRate: int, env: Env, draws: nat): (r: (seq<LfoState>, nat))
    requires k <= |ls| && sampleRate > 0
    requires forall i :: 0 <= i < |ls| ==> ls[i].wave.Some?
    ensures |r.0| == |ls| && r.1 >= draws
    ensures forall i :: 0 <= i < |ls| ==> r.0[i].wave == ls[i].wave
  {
    if k == 0 then (ls, draws)
    else
      var prev := ProcessUpTo(ls, k - 1, n, sampleRate, env, draws);
      var step := ProcessLfoSpec(prev.0[k - 1], n, sampleRate, env, env.randomAt(prev.1));
      (prev.0[k - 1 := step.0], if step.1 then prev.1 + 1 else prev.1)
  }

  /** `*ml.source * ml.factor`: what a link adds to its destination. */
  function Contribution(ls: seq<LfoState>, m: ModLink): real
    requires m.source < |ls|
  {
    ls[m.source].value * m.factor
  }

  /** `*ml.dest += *ml.source * ml.factor`: only the destination changes. */
  function ApplyLink(outs: seq<Output>, ls: seq<LfoState>, m: ModLink): (r: (seq<Output>, seq<LfoState>))
    requires |outs| == 3 && LinkValid(m, |ls|)
    ensures |r.0| == 3 && |r.1| == |ls|
    ensures m.dest.ToOutput? ==> r.1 == ls && forall i :: 0 <= i < 3 && i != OutputIndex(m.dest.t) ==> r.0[i] == outs[i]
    ensures m.dest.ToFreqMod? ==> r.0 == outs && forall i :: 0 <= i < |ls| && i != m.dest.lfo ==> r.1[i] == ls[i]
  {
    var add := Contribution(ls, m);
    match m.dest
    case ToOutput(t) =>
      var o := outs[OutputIndex(t)];
      (outs[OutputIndex(t) := o.(value := o.value + add)], ls)
    case ToFreqMod(j) =>
      var l := ls[j];
      (outs, ls[j := l.(nextFreqMod := l.nextFreqMod + add)])
  }

  /** The first k links applied in order. */
  function LinkUpTo(outs: seq<Output>, ls: seq<LfoState>, links: seq<ModLink>, k: nat): (r: (seq<Output>, seq<LfoState>))
    requires k <= |links| && |outs| == 3
    requires forall j :: 0 <= j < |links| ==> LinkValid(links[j], |ls|)
    ensures |r.0| == 3 && |r.1| == |ls|
  {
    if k == 0 then (outs, ls)
    else
      var prev := LinkUpTo(outs, ls, links, k - 1);
      ApplyLink(prev.0, prev.1, links[k - 1])
  }

  /** Linking changes only values and frequency modulations: the wave, the LFO values, which outputs are active and their buffers stay. */
  lemma {:induction false} LinkUpToKeeps(outs: seq<Output>, ls: seq<LfoState>, links: seq<ModLink>, k: nat)
    requires k <= |links| && |outs| == 3
    requires forall j :: 0 <= j < |links| ==> LinkValid(links[j], |ls|)
    ensures var r := LinkUpTo(outs, ls, links, k);
      (forall i :: 0 <= i < 3 ==> r.0[i].active == outs[i].active && r.0[i].buffer == outs[i].buffer) &&
      (forall i :: 0 <= i < |ls| ==> r.1[i].wave == ls[i].wave && r.1[i].value == ls[i].value)
  {
    if k > 0 {
      LinkUpToKeeps(outs, ls, links, k - 1);
    }
  }

  /** The number of active outputs among the first k. */
  function ActiveBefore(outs: seq<Output>, k: nat): (n: nat)
    requires k <= |outs|
    ensures n <= k
  {
    if k == 0 then 0 else ActiveBefore(outs, k - 1) + (if outs[k - 1].active then 1 else 0)
  }

  /** The buffer assignment of `process`: active output k gets the slice after those of the active outputs before it. */
  function AssignBuffers(outs: seq<Output>, n: nat): (r: seq<Output>)
    ensures |r| == |outs|
  {
    seq(|outs|, k requires 0 <= k < |outs| =>
      if outs[k].active then outs[k].(buffer := Some(ActiveBefore(outs, k) * n)) else outs[k])
  }

  lemma {:induction false} ActiveBeforeGrows(outs: seq<Output>, a: nat, b: nat)
    requires a < b <= |outs| && outs[a].active
    ensures ActiveBefore(outs, a) + 1 <= ActiveBefore(outs, b)
  {
    if b > a + 1 {
      ActiveBeforeGrows(outs, a, b - 1);
    }
  }

  /**
    * The active outputs get consecutive slices of n values of the LFO
    * buffer, in output order, that do not overlap.
    */
  lemma BuffersDisjoint(outs: seq<Output>, n: nat, a: nat, b: nat)
    requires a < b < |outs| && outs[a].active && outs[b].active
    ensures AssignBuffers(outs, n)[a].buffer.value + n <= AssignBuffers(outs, n)[b].buffer.value
  {
    ActiveBeforeGrows(outs, a, b);
    var r := AssignBuffers(outs, n);
    var x, y := ActiveBefore(outs, a), ActiveBefore(outs, b);
    assert r[a].buffer.value == x * n && r[b].buffer.value == y * n;
    SliceAfter(x, y, n);
  }

  /** A slice of n values that starts before a later one ends before it starts. */
  lemma SliceAfter(x: nat, y: nat, n: nat)
    requires x < y
    ensures x * n + n <= y * n
  {
    assert y * n == (x + 1) * n + (y - x - 1) * n;
  }

  /** `output.value = 0` for every output. */
  function Cleared(outs: seq<Output>): (r: seq<Output>)
    ensures |r| == |outs|
  {
    seq(|outs|, k requires 0 <= k < |outs| => outs[k].(value := 0.0))
  }

  /** `freq_mod = next_freq_mod; next_freq_mod = 0` for every LFO. */
  function Shifted(ls: seq<LfoState>): (r: seq<LfoState>)
    ensures |r| == |ls|
  {
    seq(|ls|, k requires 0 <= k < |ls| => ls[k].(freqMod := ls[k].nextFreqMod, nextFreqMod := 0.0))
  }

  /** The state `process` works on. */
  datatype GenState = GenState(outputs: seq<Output>, lfos: seq<LfoState>, first: bool, draws: nat)

  /** The part of every state that is fixed between `start` calls: three outputs, every LFO with a wave, links in range. */
  predicate Ready(outputs: seq<Output>, lfos: seq<LfoState>, links: seq<ModLink>)
  {
    |outputs| == 3 &&
    (forall i :: 0 <= i < |lfos| ==> lfos[i].wave.Some?) &&
    (forall j :: 0 <= j < |links| ==> LinkValid(links[j], |lfos|))
  }

  /**
    * One block of `process`: outputs cleared, pending frequency
    * modulations taken over, every LFO run for todo values, the links
    * applied; `first` is cleared.
    */
  function BlockSpec(st: GenState, links: seq<ModLink>, todo: nat, sampleRate: int, env: Env): (st': GenState)
    requires sampleRate > 0 && Ready(st.outputs, st.lfos, links)
    ensures Ready(st'.outputs, st'.lfos, links) && |st'.lfos| == |st.lfos|
    ensures forall i :: 0 <= i < 3 ==> st'.outputs[i].active == st.outputs[i].active && st'.outputs[i].buffer == st.outputs[i].buffer
  {
    var shifted := Shifted(st.lfos);
    var run := ProcessUpTo(shifted, |shifted|, todo, sampleRate, env, st.draws);
    var linked := LinkUpTo(Cleared(st.outputs), run.0, links, |links|);
    LinkUpToKeeps(Cleared(st.outputs), run.0, links, |links|);
    GenState(linked.0, linked.1, false, run.1)
  }

  /** The state after the blocks of spans, in order. */
  function Blocks(st: GenState, links: seq<ModLink>, spans: seq<Span>, sampleRate: int, env: Env): (st': GenState)
    requires sampleRate > 0 && Ready(st.outputs, st.lfos, links)
    ensures Ready(st'.outputs, st'.lfos, links)
  {
    if |spans| == 0 then st
    else BlockSpec(Blocks(st, links, spans[..|spans| - 1], sampleRate, env), links, spans[|spans| - 1].len, sampleRate, env)
  }

  /** The blocks `process` computes from value i on: at most 32 values each. */
  function BlockSpans(i: nat, n: nat): seq<Span>
    decreases n - i
  {
    if i >= n then [] else [Span(i, Min(32, n - i) as nat)] + BlockSpans(i + Min(32, n - i) as nat, n)
  }

  lemma BlockSpansStep(done: seq<Span>, i: nat, n: nat)
    requires i < n && done + BlockSpans(i, n) == BlockSpans(0, n)
    ensures var todo := Min(32, n - i) as nat;
      (done + [Span(i, todo)]) + BlockSpans(i + todo, n) == BlockSpans(0, n)
  {
    var todo := Min(32, n - i) as nat;
    var rest := BlockSpans(i + todo, n);
    assert BlockSpans(i, n) == [Span(i, todo)] + rest;
    SpansAssoc(done, [Span(i, todo)], rest);
  }

  lemma SpansAssoc(a: seq<Span>, b: seq<Span>, c: seq<Span>)
    ensures a + (b + c) == (a + b) + c
  {
  }

  lemma BlocksSnoc(st: GenState, links: seq<ModLink>, done: seq<Span>, span: Span, sampleRate: int, env: Env)
    requires sampleRate > 0 && Ready(st.outputs, st.lfos, links)
    ensures Blocks(st, links, done + [span], sampleRate, env) == BlockSpec(Blocks(st, links, done, sampleRate, env), links, span.len, sampleRate, env)
  {
    assert (done + [span])[..|done|] == done;
  }

  /** The blocks of `process` cover [i, n) in order without gaps or overlaps, each 1 to 32 values long. */
  lemma {:induction false} BlockSpansTile(i: nat, n: nat)
    requires i <= n
    ensures Tiles(BlockSpans(i, n), i, n)
    ensures forall k :: 0 <= k < |BlockSpans(i, n)| ==> 0 < BlockSpans(i, n)[k].len <= 32
    decreases n - i
  {
    if i < n {
      var todo := Min(32, n - i) as nat;
      BlockSpansTile(i + todo, n);
      TilesSnoc([], i, i, todo);
      assert [Span(i, todo)] == [] + [Span(i, todo)];
      TilesAppend([Span(i, todo)], BlockSpans(i + todo, n), i, i + todo, n);
    }
  }

  class LfoGen {
    var channel: int
    var sampleRate: int
    var first: bool
    var outputs: seq<Output>
    var lfos: seq<LfoState>
    var modLinks: seq<ModLink>
    /** The random numbers taken from the synth so far. */
    var draws: nat
    const env: Env

    function State(): GenState
      reads this`outputs, this`lfos, this`first, this`draws
    {
      GenState(outputs, lfos, first, draws)
    }

    predicate Valid()
      reads this`outputs, this`lfos, this`modLinks, this`sampleRate
    {
      sampleRate > 0 && Ready(outputs, lfos, modLinks)
    }

    constructor (env: Env)
      ensures this.env == env && outputs == [NoOutput, NoOutput, NoOutput] && lfos == [] && modLinks == []
      ensures draws == 0 && !first
    {
      this.env := env;
      channel, sampleRate, first := 0, 0, false;
      outputs := [NoOutput, NoOutput, NoOutput];
      lfos, modLinks, draws := [], [], 0;
    }

    /**
      * `start`: fresh outputs, one LFO per parameter set with its phase,
      * delay and fade from the parameters and CCs, each output switched on
      * when some LFO drives it, then `update_ccs`. The waves must be
      * supported and the lfo_mods must name existing LFOs: for an
      * unsupported wave the source stores a null wave that `process_lfo`
      * dereferences (lib/lfogen.cc:57, the default case of `get_wave`),
      * and it indexes `lfos[lm.to_index]` unchecked (lib/lfogen.cc:251).
      */
    method Start(params: seq<LfoParams>, channel: int, sampleRate: int)
      requires sampleRate > 0 && ModTargetsValid(params)
      requires forall i :: 0 <= i < |params| ==> SupportsWave(params[i].wave)
      modifies this`channel, this`sampleRate, this`first, this`outputs, this`lfos, this`modLinks
      ensures Valid() && first && this.channel == channel && this.sampleRate == sampleRate
      ensures |lfos| == |params|
      ensures forall i :: 0 <= i < |params| ==> lfos[i] == WithCcs(StartLfo(params[i], channel, sampleRate, env), channel, env)
      ensures forall t :: outputs[OutputIndex(t)] == NoOutput.(active := AnyDrives(params, |params|, t))
      ensures modLinks == AllLinks(lfos, channel, env)
    {
      this.channel := channel;
      this.sampleRate := sampleRate;
      first := true;
      outputs, lfos := StartAll(params, channel, sampleRate);
      UpdateCcs();
    }

    /** The loop of `start` over the region's LFOs. */
    method StartAll(params: seq<LfoParams>, channel: int, sampleRate: int) returns (outs: seq<Output>, ls: seq<LfoState>)
      ensures |outs| == 3 && |ls| == |params|
      ensures forall i :: 0 <= i < |params| ==> ls[i] == StartLfo(params[i], channel, sampleRate, env)
      ensures forall t :: outs[OutputIndex(t)] == NoOutput.(active := AnyDrives(params, |params|, t))
    {
      outs := [NoOutput, NoOutput, NoOutput];
      ls := [];
      var i := 0;
      while i < |params|
        invariant i <= |params| && |ls| == i && |outs| == 3
        invariant forall j :: 0 <= j < i ==> ls[j] == StartLfo(params[j], channel, sampleRate, env)
        invariant forall t :: outs[OutputIndex(t)] == NoOutput.(active := AnyDrives(params, i, t))
      {
        ls := ls + [StartLfo(params[i], channel, sampleRate, env)];
        SwitchOnStep(outs, params, i);
        outs := SwitchOn(outs, params, i);
        i := i + 1;
      }
    }

    /** `update_ccs`: the CC parts of every LFO's amounts and frequency, and the links they give. */
    method UpdateCcs()
      requires forall i, j :: 0 <= i < |lfos| && 0 <= j < |lfos[i].params.lfoMods| ==> 0 <= lfos[i].params.lfoMods[j].toIndex < |lfos|
      modifies this`lfos, this`modLinks
      ensures |lfos| == |old(lfos)|
      ensures forall i :: 0 <= i < |lfos| ==> lfos[i] == WithCcs(old(lfos)[i], channel, env)
      ensures modLinks == AllLinks(lfos, channel, env)
      ensures forall j :: 0 <= j < |modLinks| ==> LinkValid(modLinks[j], |lfos|)
    {
      var ls, links := UpdateAll(lfos);
      AllLinksValid(ls, |ls|, channel, env);
      lfos := ls;
      modLinks := links;
    }

    /** The loop of `update_ccs` over the LFOs ls0. */
    method UpdateAll(ls0: seq<LfoState>) returns (ls: seq<LfoState>, links: seq<ModLink>)
      ensures |ls| == |ls0|
      ensures forall i :: 0 <= i < |ls| ==> ls[i] == WithCcs(ls0[i], channel, env)
      ensures links == AllLinks(ls, channel, env)
    {
      ls, links := [], [];
      var i := 0;
      while i < |ls0|
        invariant 0 <= i <= |ls0| && |ls| == i
        invariant forall j :: 0 <= j < i ==> ls[j] == WithCcs(ls0[j], channel, env)
        invariant links == AllLinks(ls, channel, env)
      {
        var l := WithCcs(ls0[i], channel, env);
        var mods := LinksFor(l, i);
        assert (ls + [l])[..i] == ls;
        ls := ls + [l];
        links := links + mods;
        i := i + 1;
      }
    }

    /** The links of LFO i: its three output amounts when non-zero, then the loop over its lfo_mods. */
    method LinksFor(l: LfoState, i: nat) returns (links: seq<ModLink>)
      ensures links == LinksOf(l, i, channel, env)
    {
      links := [];
      if l.toPitch != 0.0 {
        links := links + [ModLink(i, l.toPitch, ToOutput(Pitch))];
      }
      if l.toVolume != 0.0 {
        links := links + [ModLink(i, l.toVolume, ToOutput(Volume))];
      }
      if l.toCutoff != 0.0 {
        links := links + [ModLink(i, l.toCutoff, ToOutput(Cutoff))];
      }
      links := AppendModLinks(links, l.params.lfoMods, i);
    }

    /** The lfo_mod loop of update_ccs: the links of LFO i's frequency modulations, appended in order. */
    method AppendModLinks(head: seq<ModLink>, mods: seq<LfoMod>, i: nat) returns (links: seq<ModLink>)
      ensures links == head + ModLinks(mods, |mods|, i, channel, env)
    {
      links := head;
      var k := 0;
      while k < |mods|
        invariant k <= |mods|
        invariant links == head + ModLinks(mods, k, i, channel, env)
      {
        var amount := env.ccVec(channel, mods[k].lfoFreqCc) + mods[k].lfoFreq;
        if amount != 0.0 {
          links := links + [ModLink(i, amount, ToFreqMod(mods[k].toIndex))];
        }
        k := k + 1;
      }
    }

    /**
      * `process (lfo_buffer, n_values)`: with no LFO nothing happens;
      * otherwise the active outputs get consecutive slices of the buffer
      * and the values are computed in blocks of at most 32.
      */
    method Process(nValues: nat)
      requires Valid()
      modifies this`outputs, this`lfos, this`first, this`draws
      ensures Valid()
      ensures |old(lfos)| == 0 ==> State() == old(State())
      ensures |old(lfos)| > 0 ==>
        State() == Blocks(old(State()).(outputs := AssignBuffers(old(outputs), nValues)), modLinks, BlockSpans(0, nValues), sampleRate, env)
    {
      if |lfos| == 0 {
        return;
      }
      outputs := AssignBuffers(outputs, nValues);
      RunBlocks(nValues);
    }

    /** The block loop of `process`: the blocks of BlockSpans(0, nValues), in order. */
    method RunBlocks(nValues: nat)
      requires Valid()
      modifies this`outputs, this`lfos, this`first, this`draws
      ensures Valid() && State() == Blocks(old(State()), modLinks, BlockSpans(0, nValues), sampleRate, env)
    {
      ghost var st0 := State();
      ghost var done: seq<Span> := [];
      var i := 0;
      while i < nValues
        invariant i <= nValues && Valid()
        invariant State() == Blocks(st0, modLinks, done, sampleRate, env)
        invariant done + BlockSpans(i, nValues) == BlockSpans(0, nValues)
      {
        var todo := Min(32, nValues - i) as nat;
        Block(todo);
        BlockSpansStep(done, i, nValues);
        BlocksSnoc(st0, modLinks, done, Span(i, todo), sampleRate, env);
        done := done + [Span(i, todo)];
        i := i + todo;
      }
      assert done == BlockSpans(0, nValues);
    }

    /** One block of `process` (everything but the output writes). */
    method Block(todo: nat)
      requires Valid()
      modifies this`outputs, this`lfos, this`first, this`draws
      ensures Valid() && State() == BlockSpec(old(State()), modLinks, todo, sampleRate, env)
    {
      var outs := ClearOutputs(outputs);
      var ls := ShiftFreqMods(lfos);
      var d;
      ls, d := RunLfos(ls, todo, draws);
      LinkUpToKeeps(outs, ls, modLinks, |modLinks|);
      outputs, lfos := ApplyLinks(outs, ls, modLinks);
      draws := d;
      first := false;
    }

    /** `output.value = 0` for every output. */
    static method ClearOutputs(outputs: seq<Output>) returns (outs: seq<Output>)
      ensures outs == Cleared(outputs)
    {
      outs := outputs;
      var k := 0;
      while k < |outs|
        invariant k <= |outs| == |outputs|
        invariant forall j :: 0 <= j < k ==> outs[j] == outputs[j].(value := 0.0)
        invariant forall j :: k <= j < |outs| ==> outs[j] == outputs[j]
      {
        outs := outs[k := outs[k].(value := 0.0)];
        k := k + 1;
      }
    }

    /** `freq_mod = next_freq_mod; next_freq_mod = 0` for every LFO. */
    static method ShiftFreqMods(lfos: seq<LfoState>) returns (ls: seq<LfoState>)
      ensures ls == Shifted(lfos)
    {
      ls := lfos;
      var k := 0;
      while k < |ls|
        invariant k <= |ls| == |lfos|
        invariant forall j :: 0 <= j < k ==> ls[j] == lfos[j].(freqMod := lfos[j].nextFreqMod, nextFreqMod := 0.0)
        invariant forall j :: k <= j < |ls| ==> ls[j] == lfos[j]
      {
        ls := ls[k := ls[k].(freqMod := ls[k].nextFreqMod, nextFreqMod := 0.0)];
        k := k + 1;
      }
    }

    /** `process_lfo (lfo, todo)` for every LFO in order; d counts the random numbers taken. */
    method RunLfos(lfos: seq<LfoState>, todo: nat, draws: nat) returns (ls: seq<LfoState>, d: nat)
      requires sampleRate > 0 && forall i :: 0 <= i < |lfos| ==> lfos[i].wave.Some?
      ensures (ls, d) == ProcessUpTo(lfos, |lfos|, todo, sampleRate, env, draws)
    {
      ls, d := lfos, draws;
      var k := 0;
      while k < |ls|
        invariant k <= |ls| == |lfos|
        invariant (ls, d) == ProcessUpTo(lfos, k, todo, sampleRate, env, draws)
      {
        var l, drew := ProcessLfo(ls[k], todo, sampleRate, env, env.randomAt(d));
        ls := ls[k := l];
        if drew {
          d := d + 1;
        }
        k := k + 1;
      }
    }

    /** `process_lfo`: the value, then the delay, the fade and the phase of one LFO; drew tells whether the random number was taken. */
    static method ProcessLfo(l: LfoState, n: nat, sampleRate: int, env: Env, random: real) returns (l': LfoState, drew: bool)
      requires sampleRate > 0 && l.wave.Some?
      ensures (l', drew) == ProcessLfoSpec(l, n, sampleRate, env, random)
    {
      var e := if l.delayLen == 0 then Eval(l, env, random) else (l, l.value, false);
      var lfo := e.0;
      var value := e.1;
      if l.delayLen == 0 && l.fadePos < l.fadeLen {
        value := value * FadeGain(l.fadePos, l.fadeLen);
      }
      var rest := n;
      var delay := l.delayLen;
      if delay > 0 {
        if delay >= rest {
          delay := delay - rest;
          rest := 0;
        } else {
          rest := rest - delay;
          delay := 0;
        }
      }
      var fadePos := l.fadePos;
      if fadePos < l.fadeLen {
        fadePos := Min(l.fadeLen, fadePos + rest) as nat;
      }
      var phase := WrapPhase(l.phase + PhaseStep(rest, l.freq + l.freqMod, sampleRate));
      l' := lfo.(value := value, delayLen := delay, fadePos := fadePos, phase := phase);
      drew := e.2;
      ghost var r := ProcessLfoSpec(l, n, sampleRate, env, random);
      assert (delay, rest) == AfterDelay(l.delayLen, n);
      assert r.0.value == value && r.0.phase == phase && r.0.fadePos == fadePos;
    }

    /** `while (lfo.phase > 1) lfo.phase -= 1`. */
    static method WrapPhase(p: real) returns (q: real)
      ensures q == Wrap(p)
    {
      q := p;
      while q > 1.0
        invariant Wrap(q) == Wrap(p)
        decreases if q > 1.0 then q.Floor else 0
      {
        q := q - 1.0;
      }
    }

    /** `*ml.dest += *ml.source * ml.factor` for every link in order. */
    static method ApplyLinks(outputs: seq<Output>, lfos: seq<LfoState>, links: seq<ModLink>) returns (outs: seq<Output>, ls: seq<LfoState>)
      requires |outputs| == 3 && forall j :: 0 <= j < |links| ==> LinkValid(links[j], |lfos|)
      ensures (outs, ls) == LinkUpTo(outputs, lfos, links, |links|)
    {
      outs, ls := outputs, lfos;
      var k := 0;
      while k < |links|
        invariant 0 <= k <= |links|
        invariant (outs, ls) == LinkUpTo(outputs, lfos, links, k)
      {
        var m := links[k];
        var add := Contribution(ls, m);
        match m.dest {
          case ToOutput(t) =>
            var o := outs[OutputIndex(t)];
            outs := outs[OutputIndex(t) := o.(value := o.value + add)];
          case ToFreqMod(j) =>
            var l := ls[j];
            ls := ls[j := l.(nextFreqMod := l.nextFreqMod + add)];
        }
        k := k + 1;
      }
    }
  }

  /** The outputs after LFO i of `start` switched on the ones it drives. */
  function SwitchOn(outs: seq<Output>, params: seq<LfoParams>, i: nat): (r: seq<Output>)
    requires |outs| == 3 && i < |params|
  {
    outs[0 := if Drives(params[i], Pitch) then outs[0].(active := true) else outs[0]]
        [1 := if Drives(params[i], Volume) then outs[1].(active := true) else outs[1]]
        [2 := if Drives(params[i], Cutoff) then outs[2].(active := true) else outs[2]]
  }

  /** LFO i of `start` switches on exactly the outputs it drives. */
  lemma SwitchOnStep(outs: seq<Output>, params: seq<LfoParams>, i: nat)
    requires |outs| == 3 && i < |params|
    requires forall t :: outs[OutputIndex(t)] == NoOutput.(active := AnyDrives(params, i, t))
    ensures forall t :: SwitchOn(outs, params, i)[OutputIndex(t)] == NoOutput.(active := AnyDrives(params, i + 1, t))
  {
    forall t
      ensures SwitchOn(outs, params, i)[OutputIndex(t)] == NoOutput.(active := AnyDrives(params, i + 1, t))
    {
      if AnyDrives(params, i + 1, t) && !Drives(params[i], t) {
        var j :| 0 <= j < i + 1 && Drives(params[j], t);
        assert j < i;
      }
    }
  }
}
