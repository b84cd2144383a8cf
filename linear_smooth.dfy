/**
  * `LinearSmooth` and `db_from_factor` (lib/utils.hh). A LinearSmooth
  * follows a target value; a new target is reached by a linear ramp of
  * `total_steps_` steps, one per `get_next`. Floats are modelled as reals.
  */
module Smoothing {

  /** The fields of a LinearSmooth. */
  datatype Smooth = Smooth(value: real, linearValue: real, linearStep: real, totalSteps: nat, steps: nat)

  /** A LinearSmooth as its member initialisers leave it. */
  const Initial: Smooth := Smooth(0.0, 0.0, 0.0, 1, 0)

  /** Conversion of a float to int: truncation toward zero. */
  function Trunc(x: real): (n: int)
    ensures x >= 0.0 ==> n as real <= x < n as real + 1.0
    ensures x < 0.0 ==> n as real - 1.0 < x <= n as real
  {
    if x >= 0.0 then x.Floor else -((-x).Floor)
  }

  /** `reset (rate, time)`: the ramp length becomes rate * time frames, at least one. */
  function ResetSpec(s: Smooth, rate: nat, time: real): (s': Smooth)
    ensures s'.totalSteps >= 1
    ensures s' == s.(totalSteps := s'.totalSteps)
    ensures Trunc(rate as real * time) >= 1 ==> s'.totalSteps == Trunc(rate as real * time)
  {
    var t := Trunc(rate as real * time);
    s.(totalSteps := if t >= 1 then t else 1)
  }

  /**
    * `set (new_value, now)`: with now the value jumps; otherwise a new
    * target starts a ramp of total_steps steps from the current ramp
    * position (the old value when no ramp is running), and the same target
    * changes nothing.
    */
  function SetSpec(s: Smooth, newValue: real, now: bool): Smooth
    requires s.totalSteps >= 1
  {
    if now then s.(steps := 0, value := newValue)
    else if newValue != s.value then
      var lv := if s.steps == 0 then s.value else s.linearValue;
      s.(linearValue := lv, linearStep := (newValue - lv) / s.totalSteps as real,
         steps := s.totalSteps, value := newValue)
    else s
  }

  /** `get_next`: the next ramp value, or the value once the ramp is over. */
  function NextSpec(s: Smooth): (Smooth, real)
  {
    if s.steps == 0 then (s, s.value)
    else
      var lv := s.linearValue + s.linearStep;
      (s.(steps := s.steps - 1, linearValue := lv), lv)
  }

  /** The smoother after k calls of `get_next`. */
  function After(s: Smooth, k: nat): Smooth
  {
    if k == 0 then s else NextSpec(After(s, k - 1)).0
  }

  /** `set (v, true)` stops any ramp: the next `get_next` returns v, and the smoother is constant. */
  lemma SetNowThenNext(s: Smooth, v: real)
    requires s.totalSteps >= 1
    ensures NextSpec(SetSpec(s, v, true)).1 == v
    ensures SetSpec(s, v, true).steps == 0
  {
  }

  /** Setting the current target again without `now` changes nothing. */
  lemma SetSameIsNoOp(s: Smooth)
    requires s.totalSteps >= 1
    ensures SetSpec(s, s.value, false) == s
  {
  }

  /** With no ramp running, `get_next` returns the value and changes nothing. */
  lemma IdleNextKeepsValue(s: Smooth, k: nat)
    requires s.steps == 0
    ensures NextSpec(s) == (s, s.value)
    ensures After(s, k) == s
  {
  }

  /**
    * While a ramp runs, each `get_next` adds the same step: after k of the
    * remaining calls the ramp value has moved by k steps.
    */
  lemma {:induction false} RampIsLinear(s: Smooth, k: nat)
    requires k <= s.steps
    ensures After(s, k) == s.(steps := s.steps - k, linearValue := s.linearValue + k as real * s.linearStep)
  {
    if k > 0 {
      RampIsLinear(s, k - 1);
    }
  }

  /**
    * A new target set without `now` is reached exactly after total_steps
    * calls of `get_next` (in real arithmetic), after which the smoother is
    * constant at the target.
    */
  lemma RampReachesTarget(s: Smooth, v: real)
    requires s.totalSteps >= 1 && v != s.value
    ensures var s1 := SetSpec(s, v, false);
      s1.steps == s.totalSteps && s1.value == v &&
      After(s1, s.totalSteps).linearValue == v && After(s1, s.totalSteps).steps == 0 &&
      NextSpec(After(s1, s.totalSteps)).1 == v
  {
    var s1 := SetSpec(s, v, false);
    var lv := if s.steps == 0 then s.value else s.linearValue;
    var n := s.totalSteps as real;
    RampIsLinear(s1, s.totalSteps);
    assert n * ((v - lv) / n) == v - lv;
  }

  /** `db_from_factor`: a factor in dB, or min_dB for a factor that is not positive; log10 is a parameter. */
  function DbFromFactor(factor: real, minDb: real, log10: real -> real): (db: real)
    ensures factor <= 0.0 ==> db == minDb
    ensures factor > 0.0 ==> db == 20.0 * log10(factor)
  {
    if factor > 0.0 then 20.0 * log10(factor) else minDb
  }

  class LinearSmooth {
    var value: real
    var linearValue: real
    var linearStep: real
    var totalSteps: nat
    var steps: nat

    function State(): Smooth
      reads this
    {
      Smooth(value, linearValue, linearStep, totalSteps, steps)
    }

    predicate Valid()
      reads this
    {
      totalSteps >= 1
    }

    constructor ()
      ensures State() == Initial && Valid()
    {
      value, linearValue, linearStep := 0.0, 0.0, 0.0;
      totalSteps, steps := 1, 0;
    }

    /** `reset`. */
    method Reset(rate: nat, time: real)
      modifies this
      ensures State() == ResetSpec(old(State()), rate, time) && Valid()
    {
      var t := Trunc(rate as real * time);
      totalSteps := if t >= 1 then t else 1;
    }

    /** `set`. */
    method Set(newValue: real, now: bool)
      requires Valid()
      modifies this
      ensures State() == SetSpec(old(State()), newValue, now) && Valid()
    {
      if now {
        steps := 0;
        value := newValue;
      } else if newValue != value {
        if steps == 0 {
          linearValue := value;
        }
        linearStep := (newValue - linearValue) / totalSteps as real;
        steps := totalSteps;
        value := newValue;
      }
    }

    /** `get_next`. */
    method GetNext() returns (x: real)
      modifies this
      ensures (State(), x) == NextSpec(old(State()))
    {
      if steps == 0 {
        return value;
      }
      steps := steps - 1;
      linearValue := linearValue + linearStep;
      return linearValue;
    }

    /** `is_constant`: no ramp is running. */
    method IsConstant() returns (b: bool)
      ensures b <==> steps == 0
      ensures b ==> NextSpec(State()) == (State(), value)
    {
      return steps == 0;
    }
  }
}
