# Downsampling counts without replacement

A Dafny model of the downsampling core of DropletUtils,
`src/downsample_counts.cpp`.

The core thins out a count matrix, or a run-length encoded vector of read
counts, so that a given proportion of all counted events survives. It
samples events without replacement from frequency vectors. It uses the
sequential selection rule of class `downsampler`: with `u` drawn uniformly
from [0, 1), the next event is kept when
`(total - processed) * u < sample - selected`.

Two modes are supported:
- Global mode: one sampler state runs over all columns or runs, so a
  single budget `round(prop * grand total)` spans the whole input.
- Per-unit mode: every column or run is sampled on its own, with its own
  proportion.

Modules:

- `WideSum` (`wide_sum.dfy`) covers `bigsum`: sums over counts, over units
  and over units laid end to end, and the accumulating loop.
- `Proportions` (`proportions.dfy`) covers `check_downsampling_mode`.
  Every thrown error is an `Err` value.
- `Sampling` (`sampling.dfy`) covers class `downsampler`:
  - the four counters, `set_global` and `set_num_sample`;
  - the resumable `operator()` (`Apply`) and the single-vector
    `operator()` (`ApplySingle`);
  - consistency, exactness and take-all/take-none facts, resumption
    (`ApplyConcat`) and stopping at the budget.
- `Sweep` (`sweep.dfy`) covers the loop both drivers share. It carries one
  sampler and one draw cursor over a sequence of units (columns or runs)
  in either mode, through `UnitStep`, `RunGlobal`, `RunEach` and
  `RunUnits`. `Drive` is the reference for both drivers once the mode
  check has passed.
- `RunDriver` (`run_driver.dfy`) covers `downsample_runs`:
  - cutting the reads into runs at cursor offsets;
  - the loop that writes each run's kept counts back at its own offset;
  - the reference outcome, with its properties.
- `MatrixDriver` (`matrix_driver.dfy`) covers `downsample_matrix_internal`:
  - dense and sparse columns;
  - the grand-total loop;
  - the column loop with its scratch vector `outgoing`, which is cleared
    after every column;
  - the reference outcome, with its properties.

The random generator is an explicit sequence `draws` of reals read through
a cursor. Each considered event consumes exactly one draw. Results hold for
any draws. Facts that rely on `u < 1` take `ValidDraws(draws)` (every draw
in [0, 1)) as a premise: exactness, keeping everything at proportion one,
and per-unit exactness. The operations never require it.

Counts are unbounded naturals. Proportions are reals. The budget rounds
halves away from zero, as `std::round` does on non-negative values.

## Model

| member | source | states |
|---|---|---|
| WideSum.BigSum | src/downsample_counts.cpp:17-25 | the accumulating loop returns exactly the sum of all counts (no wrap-around) |
| Proportions.RangeScan | src/downsample_counts.cpp:102-106 | the per-value loop accepts exactly when every proportion lies in [0, 1] |
| Proportions.CheckMode | src/downsample_counts.cpp:94-114 | succeeds exactly when per-unit mode has one proportion per unit, all in [0, 1], or global mode has a single proportion in [0, 1]; on success it returns the per-unit flag; a wrong length is reported before any range error (`PropLength` per unit, `PropNotScalar` global); with the right length, a value outside [0, 1] gives `PropRange`, and `PropRange` implies some value outside [0, 1] |
| Sampling.Budget | src/downsample_counts.cpp:89-91 | `round(prop * total)`: the whole number within half an event of `prop * total` (taken as repeated addition), never above `total`, zero at proportion 0 and `total` at proportion 1 |
| Sampling.BudgetRounds | src/downsample_counts.cpp:89-91 | the budget lies within half an event of the product `total * prop`, so it is that product rounded |
| Sampling.Selects | src/downsample_counts.cpp:58 | definition: a draw keeps the event when the remaining events to process, scaled by the draw, fall below the remaining budget |
| Sampling.SelectsRule | src/downsample_counts.cpp:58 | the selection rule is exactly the comparison `(total - processed) * u < sample - selected` |
| Sampling.SelectsRatio | src/downsample_counts.cpp:57-58 | with events left to process, a draw keeps the next event exactly when it is below remaining-to-select divided by remaining-to-process, so a uniform draw from [0, 1) keeps it with that ratio as its probability |
| Sampling.Consider | src/downsample_counts.cpp:58-62 | definition: one considered event raises processed by one, and selected by one when it is kept |
| Sampling.TimesIsProduct | src/downsample_counts.cpp:58 | the left side of the selection rule written as repeated addition is the product `(total - processed) * u` |
| Sampling.SetGlobal | src/downsample_counts.cpp:31-34 | installs the total and its budget and leaves processed and selected untouched; on a freshly built sampler the budget is reachable and all of `total` remains to process |
| Sampling.Events | src/downsample_counts.cpp:55-63 | over one position: total and budget fixed; one draw consumed per considered event; selected grows by the kept events, which never exceed the considered ones or the budget; the position is left early only when the budget is met |
| Sampling.Apply | src/downsample_counts.cpp:52-69 | over one vector: one kept count per position, each at most that position's frequency; draws consumed equals events processed; selected grows by the total kept and never passes the budget; the vector is left early only when the budget is met |
| Sampling.ApplySingle | src/downsample_counts.cpp:75-84 | the single-vector call keeps at most each frequency; it keeps at most its own budget, and exactly `round(prop * sum)` events when the draws are valid; nothing at proportion 0, and everything at proportion 1 with valid draws |
| Sampling.SingleExact | src/downsample_counts.cpp:75-84 | a call that starts from fresh counters with the vector's own total and budget keeps exactly that budget when the draws are valid |
| Sampling.SingleNone | src/downsample_counts.cpp:75-84 | such a call keeps nothing at proportion 0 |
| Sampling.SingleAll | src/downsample_counts.cpp:75-84 | such a call keeps every event at proportion 1 when the draws are valid |
| Sampling.ConsiderKeepsConsistent | src/downsample_counts.cpp:57-62 | considering one event keeps the budget reachable, and when what remains to select equals what remains to process every draw in [0, 1) keeps the event |
| Sampling.EventsKeepConsistent | src/downsample_counts.cpp:55-63 | one position keeps the budget reachable |
| Sampling.EventsTakeAll | src/downsample_counts.cpp:55-63 | with remaining-to-select equal to remaining-to-process, every event of a position is kept and the equality persists |
| Sampling.ApplyKeepsConsistent | src/downsample_counts.cpp:52-69 | one vector keeps the budget reachable |
| Sampling.ApplyExact | src/downsample_counts.cpp:52-69 | a consistent sampler fed at least what it has left to process ends with exactly its budget selected |
| Sampling.ApplyTakesAll | src/downsample_counts.cpp:52-69 | with remaining-to-select equal to remaining-to-process, the kept counts equal the input frequencies |
| Sampling.ApplyTakesNone | src/downsample_counts.cpp:54-55 | with the budget already met, nothing is kept, no draw is consumed and the sampler is unchanged |
| Sampling.ApplyConcat | src/downsample_counts.cpp:52-69 | scanning `a + b` in one call equals scanning `a`, then `b` from the state and draw cursor where the first call stopped |
| Sampling.ApplyStopsAtBudget | src/downsample_counts.cpp:54-66 | once the budget is met, later positions stay zero and no further draw is consumed |
| Sweep.UnitStep | src/downsample_counts.cpp:162-167 | one unit keeps at most each frequency, and consumes at most one draw per event of the unit |
| Sweep.RunGlobal | src/downsample_counts.cpp:156-167 | global mode over units yields one kept vector per unit, each within its unit, and consumes at most one draw per event |
| Sweep.RunEach | src/downsample_counts.cpp:227-236 | per-unit mode yields one kept vector per unit, and consumes at most one draw per event |
| Sweep.EachSampledAlone | src/downsample_counts.cpp:75-84 | in per-unit mode every unit gets what an independent single-vector call with its own proportion promises: within the unit, its own budget exactly with valid draws, nothing at 0, everything at 1 |
| Sweep.RunUnitsStep | src/downsample_counts.cpp:156-167 | the loop over `j + 1` units is the loop over `j` units followed by one call on unit `j` from where it stopped |
| Sweep.GlobalIsOneScan | src/downsample_counts.cpp:52-69 | global mode over units is one resumable scan over the units laid end to end: same state, same draws consumed, same kept counts |
| Sweep.GlobalExact | src/downsample_counts.cpp:166 | a consistent sampler whose remaining events are all supplied ends with exactly its budget, and the units together keep what was left to select |
| Sweep.GlobalWithinBudget | src/downsample_counts.cpp:166 | whatever the draws, global mode never keeps more than what was left to select |
| Sweep.GlobalTakesAll | src/downsample_counts.cpp:166 | with remaining-to-select equal to remaining-to-process, every unit is kept whole |
| Sweep.GlobalTakesNone | src/downsample_counts.cpp:166 | with the budget met, every unit keeps nothing and the sampler is unchanged |
| Sweep.Start | src/downsample_counts.cpp:135-145 | the sampler before the first unit has processed and selected nothing; in global mode it holds the grand total, budget `round(prop * total)`, and can reach that budget |
| Sweep.DriveBelow | src/downsample_counts.cpp:156-177 | in either mode, every output unit is within its input unit |
| Sweep.DriveGlobalExact | src/downsample_counts.cpp:137-145 | with valid draws, global mode keeps exactly `round(prop * grand total)` events over all units |
| Sweep.DriveGlobalNone | src/downsample_counts.cpp:137-145 | global mode at proportion 0 keeps nothing in any unit |
| Sweep.DriveGlobalAll | src/downsample_counts.cpp:137-145 | global mode at proportion 1 with valid draws keeps every unit whole |
| Sweep.DriveEach | src/downsample_counts.cpp:162-164 | per-unit mode gives every unit the single-vector promises for its own proportion |
| Sweep.Increment | src/downsample_counts.cpp:59 | definition: the output raised at each position by the events kept there; the buffer keeps its length |
| Sweep.IncrementLocal | src/downsample_counts.cpp:59-66 | only the slots of the current vector change, each raised by the count kept at its position; the slots before and after are untouched |
| Sweep.RunUnits | src/downsample_counts.cpp:156-167 | definition: the loop over units, in global mode with one shared sampler, or per unit with its own proportion |
| Sweep.Extend | src/downsample_counts.cpp:156-167 | the loop after one more unit has exactly one more kept vector; `RunUnitsStep` states that this is the loop over one more unit |
| Sweep.Drive | src/downsample_counts.cpp:135-167 | the reference run over all units from the starting sampler, yielding one kept vector per unit |
| Sweep.IncrementZeros | src/downsample_counts.cpp:59-66 | incrementing a zeroed stretch of the output once per kept event leaves the earlier output, then the kept counts, then zeros |
| RunDriver.Runs | src/downsample_counts.cpp:227-235 | the reads are cut into one run per cell, of that cell's length |
| RunDriver.RunsSlice | src/downsample_counts.cpp:227-235 | run `i` is the slice of length `cells[i]` that starts at the sum of the earlier lengths, where the read cursor stands |
| RunDriver.FlattenRuns | src/downsample_counts.cpp:227-235 | the runs laid back end to end are the covered reads |
| RunDriver.RunsOfFlatten | src/downsample_counts.cpp:234-235 | cutting vectors laid end to end at their own lengths gives them back, so output positions advance in lockstep with input positions |
| RunDriver.RunsSum | src/downsample_counts.cpp:216-218 | the runs hold exactly the reads they cover, so the global total over all reads is the total over all runs |
| RunDriver.RunsOutcome | src/downsample_counts.cpp:202-240 | on success the run lengths sum to the number of reads, the mode check passed, and the output has one count per read |
| RunDriver.DownsampleRuns | src/downsample_counts.cpp:202-240 | the driver's result equals the reference outcome, and on success has one count per read |
| RunDriver.RunWritten | src/downsample_counts.cpp:227-236 | one loop pass advances both cursors by the run length and extends the output by exactly that run's kept counts |
| RunDriver.RunsLoop | src/downsample_counts.cpp:221-236 | the loop over runs, writing into a zeroed output, produces the kept counts of all runs end to end |
| RunDriver.WrittenDone | src/downsample_counts.cpp:236-238 | after the last run the output is the reference loop's kept counts laid end to end |
| RunDriver.RunsRejects | src/downsample_counts.cpp:208-215 | the call fails exactly when the run lengths do not sum to the number of reads or the proportions do not fit the mode; a length mismatch gives `ReadsLength` before any mode check, and with matching lengths a failure carries the mode check's own error |
| RunDriver.RunsLayout | src/downsample_counts.cpp:221-236 | run `i` of the output, cut at the same offsets, is what the sampler kept of run `i` of the input |
| RunDriver.RunsBelow | src/downsample_counts.cpp:227-236 | no read keeps more than its count |
| RunDriver.RunsGlobalExact | src/downsample_counts.cpp:216-218 | with valid draws, global mode keeps exactly `round(prop * total reads)` over all runs |
| RunDriver.RunsGlobalExtremes | src/downsample_counts.cpp:216-218 | global mode keeps nothing at proportion 0, and returns the reads unchanged at proportion 1 with valid draws |
| RunDriver.RunsEach | src/downsample_counts.cpp:228-230 | per-cell mode with one valid proportion per cell and matching lengths succeeds, and gives every run the single-vector promises for its own cell's proportion |
| MatrixDriver.WithValues | src/downsample_counts.cpp:170-175 | definition: a column of the same kind and rows with new stored counts, as `set_col_indexed` and `set_col` write it |
| MatrixDriver.Relabel | src/downsample_counts.cpp:170-175 | every column given its kept counts, one output column per input column |
| MatrixDriver.Clear | src/downsample_counts.cpp:172-175 | the scratch vector with its first `n` slots zeroed by `std::fill`, of unchanged length; `Scratch` states that it is zero again after either fill |
| MatrixDriver.ColumnFits | src/downsample_counts.cpp:170-172 | a well-formed column never stores more counts than the matrix has rows, so its counts fit the scratch vector |
| MatrixDriver.ValuesRelabel | src/downsample_counts.cpp:171-174 | giving columns new counts and reading them back yields the new counts |
| MatrixDriver.RelabelSelf | src/downsample_counts.cpp:171-174 | giving every column its own counts back leaves the columns unchanged |
| MatrixDriver.GrandTotal | src/downsample_counts.cpp:137-143 | the per-column `bigsum` loop yields the sum of every stored count in the matrix |
| MatrixDriver.Scratch | src/downsample_counts.cpp:163-175 | sampling a column into the zeroed scratch vector fills its first slots with the kept counts; clearing those slots (sparse) or all slots (dense) zeroes it again |
| MatrixDriver.MatrixOutcome | src/downsample_counts.cpp:120-181 | on success the mode check passed and the output has the input's rows and number of columns |
| MatrixDriver.DownsampleMatrix | src/downsample_counts.cpp:120-181 | the driver's result equals the reference outcome |
| MatrixDriver.ColumnStep | src/downsample_counts.cpp:156-177 | one column pass uses a column that fits the scratch vector and extends the output by that column, with its layout and its kept counts |
| MatrixDriver.ColumnsLoop | src/downsample_counts.cpp:156-177 | with the scratch vector zeroed at every pass, the loop yields every column with its kind, its rows and the reference loop's kept counts |
| MatrixDriver.ColumnsDone | src/downsample_counts.cpp:156-177 | after the last column the output holds every column relabelled with the reference loop's kept counts |
| MatrixDriver.MatrixRejects | src/downsample_counts.cpp:136 | the call fails exactly when the proportions do not fit the mode, with the mode check's error |
| MatrixDriver.MatrixShape | src/downsample_counts.cpp:170-176 | every output column has the kind, the rows and the number of stored counts of its input column, so the output is well formed |
| MatrixDriver.MatrixBelow | src/downsample_counts.cpp:156-177 | no entry keeps more than its count |
| MatrixDriver.MatrixGlobalExact | src/downsample_counts.cpp:137-145 | with valid draws, global mode keeps exactly `round(prop * grand total)` counts over the matrix |
| MatrixDriver.MatrixGlobalExtremes | src/downsample_counts.cpp:137-145 | global mode keeps nothing at proportion 0, and returns the matrix unchanged at proportion 1 with valid draws |
| MatrixDriver.MatrixEach | src/downsample_counts.cpp:162-164 | per-column mode with one valid proportion per column succeeds, and gives every column the single-vector promises for its own proportion |

## Left out

- 64-bit unsigned wrap-around of `bigint_t`, and the `static_cast<int>` in `bigsum` (line 21). Counts here are unbounded, so a whole count of 2^31 or more is accepted. The source cannot hold such a count: it overflows the `int` cast of line 21 and the `int i` loop counter of line 55, and only a numeric matrix can carry one. A 64-bit total past 2^64 - 1 would wrap in the source but not here. For non-integer entries of a numeric matrix the cast and the `int` comparison of line 55 would disagree; only whole counts are modelled.
- Double-precision arithmetic in `prop * num_total` and `(num_total - num_processed) * u`. Both are exact reals here, and `std::round` is round-half-away-from-zero on reals. A NaN proportion, which passes the range test of lines 103 and 109, has no counterpart.
- `R::unif_rand` and `Rcpp::RNGScope` are replaced by the `draws` sequence. Every operation requires at least as many draws as events it may consider, standing in for an unbounded stream.
- `check_logical_scalar` and `check_numeric_scalar` come from `utils.h`, which is not part of this model. The per-unit flag is a plain `bool`. A global proportion vector that is not of length one is the error `PropNotScalar`.
- beachmat and Rcpp marshalling (`create_matrix`, `const_column`, `create_output`, `set_col`, `set_col_indexed`, `yield`). A column is a `Column` value and the output matrix a `Matrix` value. The reader's guarantees on a column (lengths, increasing row indices within the matrix) are the `WellFormed` requirement.
- `downsample_matrix` (the integer/numeric type dispatch) and `src/init.cpp` (routine registration). Neither holds logic of its own.
- The error path is modelled as `Err` values, not exceptions. Every rejected call in the source throws before any sampling, and so do these.
- Sweep.RunEach: its own contract states only the unit count and the draws consumed. The per-unit promises are stated about it by `Sweep.EachSampledAlone`.
- Sweep.UnitStep: the draws-consumed bound is stated, not the exact count per unit. The exact count (one draw per processed event) is stated of `Sampling.Apply`.
