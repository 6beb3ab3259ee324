/**
  Driving the sampler over a sequence of units (matrix columns or runs of a
  vector) in order, as both loops of src/downsample_counts.cpp do (lines
  156-177 and 227-236): in global mode one sampler state carries over from
  unit to unit; in per-unit mode every unit is sampled on its own with its
  own proportion.
 */
module Sweep {
  import opened WideSum
  import opened Proportions
  import opened Sampling

  /** Which of the two `downsampler` call forms the loop uses. */
  datatype Mode = Global | PerUnit(props: seq<real>)

  /** Sampler state, kept events per unit and next unused draw after the units. */
  datatype Batch = Batch(state: Sampler, picked: seq<seq<nat>>, next: nat)

  /** In per-unit mode there is a valid proportion for each of the first `n` units. */
  predicate Covers(mode: Mode, n: nat)
  {
    mode.PerUnit? ==> |mode.props| >= n && AllValid(mode.props)
  }

  /**
    Unit `j` of the loop: the resumable call in global mode, the
    single-vector call with the unit's own proportion in per-unit mode.
   */
  function UnitStep(s: Sampler, unit: seq<nat>, mode: Mode, j: nat, draws: seq<real>, at: nat): (r: Scan)
    requires at + Sum(unit) <= |draws|
    requires Covers(mode, j + 1)
    ensures Below(r.picked, unit)
    ensures at <= r.next <= at + Sum(unit)
  {
    match mode
    case Global => Apply(s, unit, draws, at)
    case PerUnit(props) => ApplySingle(unit, props[j], draws, at)
  }

  /**
    Global mode: all units in order through one resumable sampler, each
    unit starting with the state and draws where the previous one left off.
   */
  function RunGlobal(s: Sampler, units: seq<seq<nat>>, draws: seq<real>, at: nat): (r: Batch)
    requires at + SumAll(units) <= |draws|
    ensures |r.picked| == |units|
    ensures forall i :: 0 <= i < |units| ==> Below(r.picked[i], units[i])
    ensures at <= r.next <= at + SumAll(units)
  {
    if |units| == 0 then Batch(s, [], at)
    else
      var n := |units| - 1;
      var b := RunGlobal(s, units[..n], draws, at);
      var t := Apply(b.state, units[n], draws, b.next);
      Batch(t.state, b.picked + [t.picked], t.next)
  }

  /**
    Per-unit mode: every unit sampled on its own with its own proportion;
    only the draws carry over from one unit to the next.
   */
  function RunEach(s: Sampler, units: seq<seq<nat>>, props: seq<real>, draws: seq<real>, at: nat): (r: Batch)
    requires at + SumAll(units) <= |draws|
    requires Covers(PerUnit(props), |units|)
    ensures |r.picked| == |units|
    ensures at <= r.next <= at + SumAll(units)
  {
    if |units| == 0 then Batch(s, [], at)
    else Extend(RunEach(s, units[..|units| - 1], props, draws, at), units[|units| - 1], PerUnit(props), |units| - 1, draws)
  }

  /**
    Per-unit mode keeps, in every unit, what a single-vector call with that
    unit's proportion promises: the unit's own budget exactly when the draws
    are valid, nothing at proportion zero, everything at proportion one.
   */
  lemma {:induction false} EachSampledAlone(s: Sampler, units: seq<seq<nat>>, props: seq<real>, draws: seq<real>, at: nat)
    requires at + SumAll(units) <= |draws|
    requires Covers(PerUnit(props), |units|)
    ensures forall i :: 0 <= i < |units| ==>
              SampledAlone(units[i], props[i], RunEach(s, units, props, draws, at).picked[i], ValidDraws(draws))
  {
    if |units| > 0 {
      var n := |units| - 1;
      EachSampledAlone(s, units[..n], props, draws, at);
      var b := RunEach(s, units[..n], props, draws, at);
      assert b.next + Sum(units[n]) <= |draws|;
      var t := ApplySingle(units[n], props[n], draws, b.next);
      var p := RunEach(s, units, props, draws, at).picked;
      assert p == b.picked + [t.picked];
      forall i | 0 <= i < |units|
        ensures SampledAlone(units[i], props[i], p[i], ValidDraws(draws))
      {
        if i == n {
          assert p[i] == t.picked;
        } else {
          assert p[i] == b.picked[i] && units[i] == units[..n][i];
        }
      }
    }
  }

  /**
    What a single-vector call promises of the events `picked` it keeps from
    `unit`: no position gains more than it had, the exact budget is kept
    when the draws are valid, proportion zero keeps nothing and proportion
    one keeps everything.
   */
  predicate SampledAlone(unit: seq<nat>, prop: real, picked: seq<nat>, validDraws: bool)
    requires ValidProp(prop)
  {
    && Below(picked, unit)
    && (validDraws ==> Sum(picked) == Budget(prop, Sum(unit)))
    && (prop == 0.0 ==> picked == Zeros(|unit|))
    && (validDraws && prop == 1.0 ==> picked == unit)
  }

  /** The loop over units in either mode. */
  function RunUnits(s: Sampler, units: seq<seq<nat>>, mode: Mode, draws: seq<real>, at: nat): (r: Batch)
    requires at + SumAll(units) <= |draws|
    requires Covers(mode, |units|)
  {
    match mode
    case Global => RunGlobal(s, units, draws, at)
    case PerUnit(props) => RunEach(s, units, props, draws, at)
  }

  /** The loop after one more unit: that unit's `UnitStep` appended to the batch so far. */
  function Extend(b: Batch, unit: seq<nat>, mode: Mode, j: nat, draws: seq<real>): (r: Batch)
    requires b.next + Sum(unit) <= |draws| && Covers(mode, j + 1)
    ensures |r.picked| == |b.picked| + 1
  {
    var t := UnitStep(b.state, unit, mode, j, draws, b.next);
    Batch(t.state, b.picked + [t.picked], t.next)
  }

  /** One more unit extends the loop by exactly one `UnitStep`. */
  lemma RunUnitsStep(s: Sampler, units: seq<seq<nat>>, mode: Mode, draws: seq<real>, at: nat, j: nat)
    requires j < |units| && at + SumAll(units) <= |draws| && Covers(mode, |units|)
    ensures at + SumAll(units[..j]) <= at + SumAll(units[..j + 1]) <= |draws|
    ensures RunUnits(s, units[..j], mode, draws, at).next + Sum(units[j]) <= |draws|
    ensures RunUnits(s, units[..j + 1], mode, draws, at)
         == Extend(RunUnits(s, units[..j], mode, draws, at), units[j], mode, j, draws)
  {
    SumAllPrefixStep(units, j);
    SumAllPrefixMono(units, j + 1);
    assert units[..j + 1][..j] == units[..j];
  }

  /**
    Global mode over units is one resumable scan over the units laid end to
    end: the split into units changes neither the state reached, nor the
    draws consumed, nor which events are kept.
   */
  lemma {:induction false} GlobalIsOneScan(s: Sampler, units: seq<seq<nat>>, draws: seq<real>, at: nat)
    requires at + SumAll(units) <= |draws|
    ensures at + Sum(Flatten(units)) <= |draws|
    ensures RunGlobal(s, units, draws, at).state == Apply(s, Flatten(units), draws, at).state
    ensures RunGlobal(s, units, draws, at).next == Apply(s, Flatten(units), draws, at).next
    ensures Flatten(RunGlobal(s, units, draws, at).picked) == Apply(s, Flatten(units), draws, at).picked
  {
    SumFlatten(units);
    if |units| > 0 {
      var n := |units| - 1;
      GlobalIsOneScan(s, units[..n], draws, at);
      SumFlatten(units[..n]);
      ApplyConcat(s, Flatten(units[..n]), units[n], draws, at);
      var b := RunGlobal(s, units[..n], draws, at);
      assert (b.picked + [Apply(b.state, units[n], draws, b.next).picked])[..n] == b.picked;
    }
  }

  /**
    Global-mode budget across units: a consistent sampler whose remaining
    events are all supplied by the units ends with exactly its budget
    selected, and the units together keep exactly what was left to select.
   */
  lemma GlobalExact(s: Sampler, units: seq<seq<nat>>, draws: seq<real>, at: nat)
    requires at + SumAll(units) <= |draws| && ValidDraws(draws) && Consistent(s)
    requires ToProcess(s) <= SumAll(units)
    ensures RunGlobal(s, units, draws, at).state.selected == s.sample
    ensures SumAll(RunGlobal(s, units, draws, at).picked) == s.sample - s.selected
  {
    GlobalIsOneScan(s, units, draws, at);
    SumFlatten(units);
    SumFlatten(RunGlobal(s, units, draws, at).picked);
    ApplyExact(s, Flatten(units), draws, at);
  }

  /** Global mode never selects more than the budget, whatever the draws. */
  lemma GlobalWithinBudget(s: Sampler, units: seq<seq<nat>>, draws: seq<real>, at: nat)
    requires at + SumAll(units) <= |draws| && s.selected <= s.sample
    ensures RunGlobal(s, units, draws, at).state.selected <= s.sample
    ensures SumAll(RunGlobal(s, units, draws, at).picked) <= s.sample - s.selected
  {
    GlobalIsOneScan(s, units, draws, at);
    SumFlatten(RunGlobal(s, units, draws, at).picked);
  }

  /**
    Global mode with what remains to select equal to what remains to
    process, and no more events supplied than remain: every event is kept.
   */
  lemma GlobalTakesAll(s: Sampler, units: seq<seq<nat>>, draws: seq<real>, at: nat)
    requires at + SumAll(units) <= |draws| && ValidDraws(draws)
    requires s.selected <= s.sample && ToSelect(s) == ToProcess(s) && SumAll(units) <= ToProcess(s)
    ensures RunGlobal(s, units, draws, at).picked == units
  {
    GlobalIsOneScan(s, units, draws, at);
    SumFlatten(units);
    ApplyTakesAll(s, Flatten(units), draws, at);
    FlattenInjective(RunGlobal(s, units, draws, at).picked, units);
  }

  /** Global mode with the budget already met keeps nothing in any unit. */
  lemma GlobalTakesNone(s: Sampler, units: seq<seq<nat>>, draws: seq<real>, at: nat)
    requires at + SumAll(units) <= |draws| && s.sample <= s.selected
    ensures RunGlobal(s, units, draws, at).state == s
    ensures forall i :: 0 <= i < |units| ==> RunGlobal(s, units, draws, at).picked[i] == Zeros(|units[i]|)
  {
    GlobalIsOneScan(s, units, draws, at);
    ApplyTakesNone(s, Flatten(units), draws, at);
    var p := RunGlobal(s, units, draws, at).picked;
    SumZeros(|Flatten(units)|);
    SumFlatten(p);
    SumAllZero(p);
  }

  /** The call form both drivers pick from the outcome of the mode check. */
  function ModeOf(prop: seq<real>, byUnit: bool): Mode
  {
    if byUnit then PerUnit(prop) else Global
  }

  /**
    The sampler before the first unit: freshly constructed, and in global
    mode given the grand total of all units and its budget
    (lines 135-145 and 213-218).
   */
  function Start(total: nat, prop: seq<real>, byUnit: bool): (s: Sampler)
    requires byUnit || (|prop| == 1 && ValidProp(prop[0]))
    ensures s.processed == 0 && s.selected == 0
    ensures !byUnit ==> s.total == total && s.sample == Budget(prop[0], total)
    ensures !byUnit ==> Consistent(s) && ToProcess(s) == total
  {
    if byUnit then Fresh else SetGlobal(Fresh, total, prop[0])
  }

  /**
    Reference for both drivers once the mode check has passed: the units in
    order from the starting sampler, the draws read from their beginning.
   */
  function Drive(units: seq<seq<nat>>, prop: seq<real>, byUnit: bool, draws: seq<real>): (r: Batch)
    requires SumAll(units) <= |draws|
    requires CheckMode(|units|, prop, byUnit).Ok?
    ensures |r.picked| == |units|
  {
    RunUnits(Start(SumAll(units), prop, byUnit), units, ModeOf(prop, byUnit), draws, 0)
  }

  /** Every unit of the output is within the corresponding input unit, in either mode. */
  lemma DriveBelow(units: seq<seq<nat>>, prop: seq<real>, byUnit: bool, draws: seq<real>)
    requires SumAll(units) <= |draws| && CheckMode(|units|, prop, byUnit).Ok?
    ensures forall i :: 0 <= i < |units| ==> Below(Drive(units, prop, byUnit, draws).picked[i], units[i])
  {
    if byUnit {
      EachSampledAlone(Start(SumAll(units), prop, byUnit), units, prop, draws, 0);
    }
  }

  /** In global mode the drivers' loop is one resumable sampler over all units. */
  lemma DriveIsGlobal(units: seq<seq<nat>>, prop: seq<real>, draws: seq<real>)
    requires SumAll(units) <= |draws| && CheckMode(|units|, prop, false).Ok?
    ensures Drive(units, prop, false, draws) == RunGlobal(Start(SumAll(units), prop, false), units, draws, 0)
  {
  }

  /** Global mode keeps exactly `round(prop * grand total)` events over all units together. */
  lemma DriveGlobalExact(units: seq<seq<nat>>, prop: seq<real>, draws: seq<real>)
    requires SumAll(units) <= |draws| && CheckMode(|units|, prop, false).Ok? && ValidDraws(draws)
    ensures SumAll(Drive(units, prop, false, draws).picked) == Budget(prop[0], SumAll(units))
  {
    DriveIsGlobal(units, prop, draws);
    StartExact(units, prop, draws);
  }

  /** The global starting sampler over the units keeps exactly its budget. */
  lemma StartExact(units: seq<seq<nat>>, prop: seq<real>, draws: seq<real>)
    requires SumAll(units) <= |draws| && CheckMode(|units|, prop, false).Ok? && ValidDraws(draws)
    ensures SumAll(RunGlobal(Start(SumAll(units), prop, false), units, draws, 0).picked) == Budget(prop[0], SumAll(units))
  {
    GlobalExact(Start(SumAll(units), prop, false), units, draws, 0);
  }

  /** Global mode at proportion zero keeps nothing in any unit. */
  lemma DriveGlobalNone(units: seq<seq<nat>>, prop: seq<real>, draws: seq<real>)
    requires SumAll(units) <= |draws| && CheckMode(|units|, prop, false).Ok? && prop[0] == 0.0
    ensures forall i :: 0 <= i < |units| ==> Drive(units, prop, false, draws).picked[i] == Zeros(|units[i]|)
  {
    DriveIsGlobal(units, prop, draws);
    GlobalTakesNone(Start(SumAll(units), prop, false), units, draws, 0);
  }

  /** Global mode at proportion one keeps every unit whole. */
  lemma DriveGlobalAll(units: seq<seq<nat>>, prop: seq<real>, draws: seq<real>)
    requires SumAll(units) <= |draws| && CheckMode(|units|, prop, false).Ok?
    requires ValidDraws(draws) && prop[0] == 1.0
    ensures Drive(units, prop, false, draws).picked == units
  {
    DriveIsGlobal(units, prop, draws);
    StartTakesAll(units, prop, draws);
  }

  /** The global starting sampler at proportion one keeps every unit whole. */
  lemma StartTakesAll(units: seq<seq<nat>>, prop: seq<real>, draws: seq<real>)
    requires SumAll(units) <= |draws| && CheckMode(|units|, prop, false).Ok?
    requires ValidDraws(draws) && prop[0] == 1.0
    ensures RunGlobal(Start(SumAll(units), prop, false), units, draws, 0).picked == units
  {
    var s := Start(SumAll(units), prop, false);
    assert s.sample == SumAll(units);
    GlobalTakesAll(s, units, draws, 0);
  }

  /** Per-unit mode samples every unit on its own, with its own proportion. */
  lemma DriveEach(units: seq<seq<nat>>, prop: seq<real>, draws: seq<real>)
    requires SumAll(units) <= |draws| && CheckMode(|units|, prop, true).Ok?
    ensures forall i :: 0 <= i < |units| ==>
              SampledAlone(units[i], prop[i], Drive(units, prop, true, draws).picked[i], ValidDraws(draws))
  {
    EachSampledAlone(Start(SumAll(units), prop, true), units, prop, draws, 0);
  }

  /**
    The output buffer after the sampler has incremented position `off + k`
    once per event kept at position `k` of the unit (`++(*freqOut)`, line 59).
   */
  function Increment(buf: seq<nat>, off: nat, picked: seq<nat>): (r: seq<nat>)
    requires off + |picked| <= |buf|
    ensures |r| == |buf|
  {
    seq(|buf|, k requires 0 <= k < |buf| => if off <= k < off + |picked| then buf[k] + picked[k - off] else buf[k])
  }

  /**
    Incrementing touches only the `|picked|` slots from `off` on, each
    raised by the count kept at its position; nothing else changes.
   */
  lemma IncrementLocal(buf: seq<nat>, off: nat, picked: seq<nat>)
    requires off + |picked| <= |buf|
    ensures Increment(buf, off, picked)[..off] == buf[..off]
    ensures Increment(buf, off, picked)[off + |picked|..] == buf[off + |picked|..]
    ensures forall k :: 0 <= k < |picked| ==> Increment(buf, off, picked)[off + k] == buf[off + k] + picked[k]
  {
    var r := Increment(buf, off, picked);
    assert r[..off] == buf[..off];
    assert r[off + |picked|..] == buf[off + |picked|..];
  }

  /**
    Incrementing the zeroed stretch after `done` leaves exactly `done`
    followed by the kept counts, and the rest of the buffer still zeroed.
   */
  lemma IncrementZeros(buf: seq<nat>, done: seq<nat>, rest: nat, picked: seq<nat>)
    requires |picked| <= rest && buf == done + Zeros(rest)
    ensures Increment(buf, |done|, picked) == (done + picked) + Zeros(rest - |picked|)
  {
    var a, b := Increment(buf, |done|, picked), (done + picked) + Zeros(rest - |picked|);
    forall k | 0 <= k < |a|
      ensures a[k] == b[k]
    {
      if k < |done| {
        assert a[k] == done[k] == b[k];
      } else if k < |done| + |picked| {
        assert a[k] == picked[k - |done|] == b[k];
      } else {
        assert a[k] == 0 == b[k];
      }
    }
  }

  /**
    The loop over `units` has visited the first `j` of them and reached
    batch `r`, exactly as the reference `RunUnits` over those units does.
   */
  predicate Swept(s: Sampler, units: seq<seq<nat>>, m: Mode, draws: seq<real>, j: nat, r: Batch)
  {
    && j <= |units|
    && SumAll(units[..j]) <= |draws|
    && Covers(m, j)
    && r == RunUnits(s, units[..j], m, draws, 0)
  }

  /** Visiting unit `j` keeps `Swept`, once its draws are known to be there. */
  lemma SweptStep(s: Sampler, units: seq<seq<nat>>, m: Mode, draws: seq<real>, j: nat, r: Batch)
    requires j < |units| && SumAll(units) <= |draws| && Covers(m, |units|)
    requires Swept(s, units, m, draws, j, r)
    ensures r.next + Sum(units[j]) <= |draws| && Covers(m, j + 1)
    ensures Swept(s, units, m, draws, j + 1, Extend(r, units[j], m, j, draws))
  {
    RunUnitsStep(s, units, m, draws, 0, j);
  }
}
