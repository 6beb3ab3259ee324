/**
  `downsample_runs` (src/downsample_counts.cpp:202-240): a flat vector `counts` of
  read counts, one per molecule, is cut into consecutive runs, one per cell,
  whose lengths are given by `cells`. Each run is downsampled in turn, with
  one budget over all reads in global mode or with the cell's own
  proportion in per-cell mode, and the kept counts are written back at the
  run's own positions.
 */
module RunDriver {
  import opened WideSum
  import opened Proportions
  import opened Sampling
  import opened Sweep

  /** `counts` cut into consecutive runs of lengths `cells`, the first starting at position zero. */
  function Runs(counts: seq<nat>, cells: seq<nat>): (r: seq<seq<nat>>)
    requires Sum(cells) <= |counts|
    ensures |r| == |cells|
    ensures forall i :: 0 <= i < |cells| ==> |r[i]| == cells[i]
  {
    if |cells| == 0 then []
    else Runs(counts, cells[..|cells| - 1]) + [counts[Sum(cells[..|cells| - 1])..Sum(cells)]]
  }

  /** Run `i` is the slice of length `cells[i]` at cursor `off`, just after all earlier runs. */
  lemma {:induction false} RunsSlice(counts: seq<nat>, cells: seq<nat>, i: nat, off: nat)
    requires Sum(cells) <= |counts| && i < |cells| && off == Sum(cells[..i])
    ensures off + cells[i] == Sum(cells[..i + 1]) <= |counts|
    ensures Runs(counts, cells)[i] == counts[off..off + cells[i]]
  {
    var n := |cells| - 1;
    SumPrefixStep(cells, i);
    SumPrefixMono(cells, i + 1, |cells|);
    if i < n {
      assert cells[..n][..i] == cells[..i];
      RunsSlice(counts, cells[..n], i, off);
    } else {
      assert cells[..n + 1] == cells;
    }
  }

  /** Laying the runs back end to end gives the part of `counts` they cover. */
  lemma {:induction false} FlattenRuns(counts: seq<nat>, cells: seq<nat>)
    requires Sum(cells) <= |counts|
    ensures Flatten(Runs(counts, cells)) == counts[..Sum(cells)]
  {
    if |cells| > 0 {
      var n := |cells| - 1;
      FlattenRuns(counts, cells[..n]);
      var r := Runs(counts, cells);
      assert r[..n] == Runs(counts, cells[..n]);
      assert counts[..Sum(cells)] == counts[..Sum(cells[..n])] + counts[Sum(cells[..n])..Sum(cells)];
    }
  }

  /** Runs only look at the positions they cover. */
  lemma {:induction false} RunsExtend(counts: seq<nat>, extra: seq<nat>, cells: seq<nat>)
    requires Sum(cells) <= |counts|
    ensures Runs(counts + extra, cells) == Runs(counts, cells)
  {
    if |cells| > 0 {
      var n := |cells| - 1;
      RunsExtend(counts, extra, cells[..n]);
      assert (counts + extra)[Sum(cells[..n])..Sum(cells)] == counts[Sum(cells[..n])..Sum(cells)];
    }
  }

  /** Cutting laid-out units at their own lengths gives the units back. */
  lemma {:induction false} RunsOfFlatten(units: seq<seq<nat>>, cells: seq<nat>)
    requires |units| == |cells|
    requires forall i :: 0 <= i < |units| ==> |units[i]| == cells[i]
    ensures Sum(cells) == |Flatten(units)|
    ensures Runs(Flatten(units), cells) == units
  {
    FlattenLength(units, cells);
    if |units| > 0 {
      var n := |units| - 1;
      RunsOfFlatten(units[..n], cells[..n]);
      RunsExtend(Flatten(units[..n]), units[n], cells[..n]);
      assert Flatten(units)[Sum(cells[..n])..Sum(cells)] == units[n];
      assert units == units[..n] + [units[n]];
    }
  }

  /** The runs hold exactly the reads they cover. */
  lemma RunsSum(counts: seq<nat>, cells: seq<nat>)
    requires Sum(cells) <= |counts|
    ensures SumAll(Runs(counts, cells)) == Sum(counts[..Sum(cells)])
    ensures Sum(cells) == |counts| ==> SumAll(Runs(counts, cells)) == Sum(counts)
  {
    FlattenRuns(counts, cells);
    SumFlatten(Runs(counts, cells));
    assert counts[..|counts|] == counts;
  }

  /** Every run of the kept counts is as long as its cell says, in either mode. */
  lemma DriveFits(cells: seq<nat>, counts: seq<nat>, prop: seq<real>, byUnit: bool, draws: seq<real>)
    requires Sum(cells) == |counts| && SumAll(Runs(counts, cells)) <= |draws| && CheckMode(|cells|, prop, byUnit).Ok?
    ensures forall i :: 0 <= i < |cells| ==> |Drive(Runs(counts, cells), prop, byUnit, draws).picked[i]| == cells[i]
    ensures |Flatten(Drive(Runs(counts, cells), prop, byUnit, draws).picked)| == |counts|
  {
    DriveBelow(Runs(counts, cells), prop, byUnit, draws);
    FlattenLength(Drive(Runs(counts, cells), prop, byUnit, draws).picked, cells);
  }

  /** Laying out one more run appends its kept counts. */
  lemma FlattenStep(units: seq<seq<nat>>, last: seq<nat>)
    ensures Flatten(units + [last]) == Flatten(units) + last
  {
    assert (units + [last])[..|units|] == units;
  }

  /**
    Reference outcome of `downsample_runs`: the length check, then the mode
    check, then every run through the sampler, laid back end to end.
   */
  function RunsOutcome(cells: seq<nat>, counts: seq<nat>, prop: seq<real>, byUnit: bool, draws: seq<real>): (r: Result<seq<nat>>)
    requires Sum(counts) <= |draws|
    ensures r.Ok? ==> Sum(cells) == |counts| && CheckMode(|cells|, prop, byUnit).Ok? && |r.value| == |counts|
    ensures r.Ok? ==> Sum(cells) == |counts| && SumAll(Runs(counts, cells)) <= |draws|
  {
    if Sum(cells) != |counts| then Err(ReadsLength)
    else
      match CheckMode(|cells|, prop, byUnit)
      case Err(e) => Err(e)
      case Ok(_) =>
        RunsSum(counts, cells);
        DriveFits(cells, counts, prop, byUnit, draws);
        Ok(Flatten(Drive(Runs(counts, cells), prop, byUnit, draws).picked))
  }

  /**
    `downsample_runs` (lines 202-240): the run lengths must add up to the
    number of reads and the proportions must fit the mode before any
    sampling; in global mode the sampler is then given the total of all
    reads and its budget.
   */
  method DownsampleRuns(cells: seq<nat>, counts: seq<nat>, prop: seq<real>, byUnit: bool, draws: seq<real>)
    returns (r: Result<seq<nat>>)
    requires Sum(counts) <= |draws|
    ensures r == RunsOutcome(cells, counts, prop, byUnit, draws)
    ensures r.Ok? ==> |r.value| == |counts|
  {
    var molecules := BigSum(cells);
    if molecules != |counts| {
      return Err(ReadsLength);
    }
    var checked := CheckMode(|cells|, prop, byUnit);
    if checked.Err? {
      return Err(checked.error);
    }
    var percol := checked.value;
    RunsSum(counts, cells);
    var state := Fresh;
    if !percol {
      var total := BigSum(counts);
      state := SetGlobal(state, total, prop[0]);
    }
    assert state == Start(SumAll(Runs(counts, cells)), prop, byUnit);
    var out := RunsLoop(cells, counts, state, ModeOf(prop, percol), draws);
    r := Ok(out);
  }

  /**
    What the loop of lines 221-236 keeps after `j` runs: the read and
    output cursor `off` is where run `j` starts, the sampler and the draws
    are where the reference loop over the first `j` runs leaves them, and
    the output holds those runs' kept counts followed by zeros.
   */
  predicate Written(counts: seq<nat>, cells: seq<nat>, s: Sampler, m: Mode, draws: seq<real>,
                    j: nat, off: nat, b: Batch, out: seq<nat>)
  {
    && Sum(cells) == |counts|
    && SumAll(Runs(counts, cells)) <= |draws|
    && Covers(m, |cells|)
    && Swept(s, Runs(counts, cells), m, draws, j, b)
    && off == Sum(cells[..j]) <= |counts|
    && |Flatten(b.picked)| == off
    && out == Flatten(b.picked) + Zeros(|counts| - off)
  }

  /**
    One pass of the loop keeps `Written`: adding the kept counts of run `j`
    at the cursor extends the output by exactly that run.
   */
  lemma RunWritten(counts: seq<nat>, cells: seq<nat>, s: Sampler, m: Mode, draws: seq<real>,
                   j: nat, off: nat, b: Batch, out: seq<nat>)
    requires Written(counts, cells, s, m, draws, j, off, b, out) && j < |cells|
    ensures off + cells[j] <= |counts|
    ensures b.next + Sum(counts[off..off + cells[j]]) <= |draws| && Covers(m, j + 1)
    ensures |UnitStep(b.state, counts[off..off + cells[j]], m, j, draws, b.next).picked| == cells[j]
    ensures Written(counts, cells, s, m, draws, j + 1, off + cells[j],
                    Extend(b, counts[off..off + cells[j]], m, j, draws),
                    Increment(out, off, UnitStep(b.state, counts[off..off + cells[j]], m, j, draws, b.next).picked))
  {
    RunsSlice(counts, cells, j, off);
    SweptStep(s, Runs(counts, cells), m, draws, j, b);
    FlattenStep(b.picked, UnitStep(b.state, counts[off..off + cells[j]], m, j, draws, b.next).picked);
    IncrementZeros(out, Flatten(b.picked), |counts| - off, UnitStep(b.state, counts[off..off + cells[j]], m, j, draws, b.next).picked);
  }

  /**
    The loop of lines 221-236. The output starts zeroed, each run's kept
    counts are added at the run's offset, and the read and output cursors
    advance by the run length after every run.
   */
  method RunsLoop(cells: seq<nat>, counts: seq<nat>, s: Sampler, m: Mode, draws: seq<real>) returns (out: seq<nat>)
    requires Sum(cells) == |counts|
    requires SumAll(Runs(counts, cells)) <= |draws| && Covers(m, |cells|)
    ensures out == Flatten(RunUnits(s, Runs(counts, cells), m, draws, 0).picked)
  {
    out := Zeros(|counts|);
    var state, pos := s, 0;
    var off: nat, j: nat := 0, 0;
    ghost var b := Batch(s, [], 0);
    while j < |cells|
      invariant Written(counts, cells, s, m, draws, j, off, b, out)
      invariant state == b.state && pos == b.next
    {
      RunWritten(counts, cells, s, m, draws, j, off, b, out);
      var t := UnitStep(state, counts[off..off + cells[j]], m, j, draws, pos);
      out := Increment(out, off, t.picked);
      b := Extend(b, counts[off..off + cells[j]], m, j, draws);
      state, pos, off, j := t.state, t.next, off + cells[j], j + 1;
    }
    WrittenDone(counts, cells, s, m, draws, off, b, out);
  }

  /** After the last run the output holds every run's kept counts, end to end. */
  lemma WrittenDone(counts: seq<nat>, cells: seq<nat>, s: Sampler, m: Mode, draws: seq<real>,
                    off: nat, b: Batch, out: seq<nat>)
    requires Written(counts, cells, s, m, draws, |cells|, off, b, out)
    ensures out == Flatten(RunUnits(s, Runs(counts, cells), m, draws, 0).picked)
  {
    assert cells[..|cells|] == cells;
    assert Runs(counts, cells)[..|cells|] == Runs(counts, cells);
    assert out == Flatten(b.picked) + [];
  }

  /**
    The call fails exactly when the run lengths do not add up to the number
    of reads or the proportions do not fit the mode; the length check comes
    first.
   */
  lemma RunsRejects(cells: seq<nat>, counts: seq<nat>, prop: seq<real>, byUnit: bool, draws: seq<real>)
    requires Sum(counts) <= |draws|
    ensures RunsOutcome(cells, counts, prop, byUnit, draws).Ok? <==>
              && Sum(cells) == |counts|
              && if byUnit then |prop| == |cells| && AllValid(prop)
                 else |prop| == 1 && ValidProp(prop[0])
    ensures Sum(cells) != |counts| ==> RunsOutcome(cells, counts, prop, byUnit, draws) == Err(ReadsLength)
    ensures Sum(cells) == |counts| && RunsOutcome(cells, counts, prop, byUnit, draws).Err? ==>
              RunsOutcome(cells, counts, prop, byUnit, draws).error == CheckMode(|cells|, prop, byUnit).error
  {
  }

  /**
    Run `i` is read from and written to the same slice: it starts after the
    earlier runs and has length `cells[i]`, and the output there is what the
    sampler kept of that run.
   */
  lemma RunsLayout(cells: seq<nat>, counts: seq<nat>, prop: seq<real>, byUnit: bool, draws: seq<real>)
    requires Sum(counts) <= |draws| && RunsOutcome(cells, counts, prop, byUnit, draws).Ok?
    ensures Runs(RunsOutcome(cells, counts, prop, byUnit, draws).value, cells)
         == Drive(Runs(counts, cells), prop, byUnit, draws).picked
  {
    DriveFits(cells, counts, prop, byUnit, draws);
    RunsOfFlatten(Drive(Runs(counts, cells), prop, byUnit, draws).picked, cells);
  }

  /** No position keeps more reads than it had. */
  lemma RunsBelow(cells: seq<nat>, counts: seq<nat>, prop: seq<real>, byUnit: bool, draws: seq<real>)
    requires Sum(counts) <= |draws| && RunsOutcome(cells, counts, prop, byUnit, draws).Ok?
    ensures Below(RunsOutcome(cells, counts, prop, byUnit, draws).value, counts)
  {
    var units := Runs(counts, cells);
    RunsSum(counts, cells);
    DriveBelow(units, prop, byUnit, draws);
    FlattenBelow(Drive(units, prop, byUnit, draws).picked, units);
    FlattenRuns(counts, cells);
    RunsSum(counts, cells);
  }

  /** Global mode keeps `round(prop * total reads)` reads over all runs together. */
  lemma RunsGlobalExact(cells: seq<nat>, counts: seq<nat>, prop: seq<real>, draws: seq<real>)
    requires Sum(counts) <= |draws| && RunsOutcome(cells, counts, prop, false, draws).Ok? && ValidDraws(draws)
    ensures Sum(RunsOutcome(cells, counts, prop, false, draws).value) == Budget(prop[0], Sum(counts))
  {
    var units := Runs(counts, cells);
    RunsSum(counts, cells);
    DriveGlobalExact(units, prop, draws);
    SumFlatten(Drive(units, prop, false, draws).picked);
  }

  /** Global mode at proportion zero keeps nothing; at proportion one it keeps every read. */
  lemma RunsGlobalExtremes(cells: seq<nat>, counts: seq<nat>, prop: seq<real>, draws: seq<real>)
    requires Sum(counts) <= |draws| && RunsOutcome(cells, counts, prop, false, draws).Ok?
    ensures prop[0] == 0.0 ==> RunsOutcome(cells, counts, prop, false, draws).value == Zeros(|counts|)
    ensures ValidDraws(draws) && prop[0] == 1.0 ==> RunsOutcome(cells, counts, prop, false, draws).value == counts
  {
    var units := Runs(counts, cells);
    RunsSum(counts, cells);
    var out := RunsOutcome(cells, counts, prop, false, draws).value;
    RunsBelow(cells, counts, prop, false, draws);
    if prop[0] == 0.0 {
      DriveGlobalNone(units, prop, draws);
      SumAllZero(Drive(units, prop, false, draws).picked);
      SumFlatten(Drive(units, prop, false, draws).picked);
      SumZeroIsZeros(out);
    }
    if ValidDraws(draws) && prop[0] == 1.0 {
      DriveGlobalAll(units, prop, draws);
      FlattenRuns(counts, cells);
      RunsSum(counts, cells);
    }
  }

  /**
    Per-cell mode samples every run on its own with that cell's proportion:
    what a single-vector call promises holds of every run of the output.
   */
  lemma RunsEach(cells: seq<nat>, counts: seq<nat>, prop: seq<real>, draws: seq<real>)
    requires Sum(counts) <= |draws| && Sum(cells) == |counts|
    requires |prop| == |cells| && AllValid(prop)
    ensures RunsOutcome(cells, counts, prop, true, draws).Ok?
    ensures forall i :: 0 <= i < |cells| ==>
              SampledAlone(Runs(counts, cells)[i], prop[i],
                           Runs(RunsOutcome(cells, counts, prop, true, draws).value, cells)[i], ValidDraws(draws))
  {
    RunsRejects(cells, counts, prop, true, draws);
    RunsSum(counts, cells);
    RunsLayout(cells, counts, prop, true, draws);
    DriveEach(Runs(counts, cells), prop, draws);
  }
}
