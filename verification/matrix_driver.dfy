/**
  `downsample_matrix_internal` (src/downsample_counts.cpp:120-181): every
  column of a count matrix, dense or sparse, is downsampled in turn, either
  with one budget over the whole matrix or with the column's own
  proportion. Each column is sampled into a scratch vector `outgoing` of
  one slot per row, copied to the output and cleared again.
 */
module MatrixDriver {
  import opened WideSum
  import opened Proportions
  import opened Sampling
  import opened Sweep

  /**
    One column as the matrix reader hands it over: all `nrow` counts of a
    dense column, or the stored counts of a sparse column with their rows.
   */
  datatype Column = Dense(values: seq<nat>) | Sparse(rows: seq<nat>, values: seq<nat>)

  datatype Matrix = Matrix(nrow: nat, cols: seq<Column>)

  /** Row indices listed in strictly increasing order. */
  predicate Increasing(rows: seq<nat>)
  {
    forall i :: 0 < i < |rows| ==> rows[i - 1] < rows[i]
  }

  /**
    A dense column has one count per row; a sparse column has one row index
    per stored count, increasing and within the matrix.
   */
  predicate ColumnOk(c: Column, nrow: nat)
  {
    match c
    case Dense(values) => |values| == nrow
    case Sparse(rows, values) =>
      |rows| == |values| && Increasing(rows) && forall i :: 0 <= i < |rows| ==> rows[i] < nrow
  }

  predicate WellFormed(mat: Matrix)
  {
    forall j :: 0 <= j < |mat.cols| ==> ColumnOk(mat.cols[j], mat.nrow)
  }

  /** The stored counts of every column: the units the sampler visits. */
  function Values(cols: seq<Column>): (u: seq<seq<nat>>)
    ensures |u| == |cols|
    ensures forall j :: 0 <= j < |cols| ==> u[j] == cols[j].values
  {
    seq(|cols|, j requires 0 <= j < |cols| => cols[j].values)
  }

  /** Column `c` with its stored counts replaced by `v`, its layout kept. */
  function WithValues(c: Column, v: seq<nat>): Column
  {
    match c
    case Dense(_) => Dense(v)
    case Sparse(rows, _) => Sparse(rows, v)
  }

  /** Every column given its kept counts. */
  function Relabel(cols: seq<Column>, picked: seq<seq<nat>>): (r: seq<Column>)
    requires |picked| == |cols|
    ensures |r| == |cols|
  {
    seq(|cols|, j requires 0 <= j < |cols| => WithValues(cols[j], picked[j]))
  }

  /** Two columns of the same kind, the same rows and the same number of stored counts. */
  predicate SameLayout(a: Column, b: Column)
  {
    && a.Dense? == b.Dense?
    && |a.values| == |b.values|
    && (a.Sparse? ==> b.Sparse? && a.rows == b.rows)
  }

  /** A row index in an increasing list is at least its position. */
  lemma {:induction false} RowAtLeast(rows: seq<nat>, i: nat)
    requires Increasing(rows) && i < |rows|
    ensures i <= rows[i]
  {
    if i > 0 {
      RowAtLeast(rows, i - 1);
    }
  }

  /** A well-formed column never stores more counts than the matrix has rows. */
  lemma ColumnFits(c: Column, nrow: nat)
    requires ColumnOk(c, nrow)
    ensures |c.values| <= nrow
  {
    if c.Sparse? && |c.rows| > 0 {
      RowAtLeast(c.rows, |c.rows| - 1);
    }
  }

  /** Replacing counts and reading them back gives the new counts. */
  lemma ValuesRelabel(cols: seq<Column>, picked: seq<seq<nat>>)
    requires |picked| == |cols|
    ensures Values(Relabel(cols, picked)) == picked
  {
  }

  /** Relabelling one more column appends that column with its kept counts. */
  lemma RelabelStep(cols: seq<Column>, j: nat, picked: seq<seq<nat>>, p: seq<nat>)
    requires j < |cols| && |picked| == j
    ensures Relabel(cols[..j + 1], picked + [p]) == Relabel(cols[..j], picked) + [WithValues(cols[j], p)]
  {
    var a, b := Relabel(cols[..j + 1], picked + [p]), Relabel(cols[..j], picked) + [WithValues(cols[j], p)];
    forall k | 0 <= k < |a|
      ensures a[k] == b[k]
    {
      if k < j {
        assert a[k] == WithValues(cols[k], picked[k]) == b[k];
      }
    }
  }

  /** Giving every column its own counts back changes nothing. */
  lemma RelabelSelf(cols: seq<Column>)
    ensures Relabel(cols, Values(cols)) == cols
  {
    var r := Relabel(cols, Values(cols));
    forall j | 0 <= j < |cols|
      ensures r[j] == cols[j]
    {
      assert r[j] == WithValues(cols[j], cols[j].values);
    }
  }

  /**
    The grand total of lines 136-145: each column summed with `bigsum`, the
    column sums added up.
   */
  method GrandTotal(cols: seq<Column>) returns (total: nat)
    ensures total == SumAll(Values(cols))
  {
    total := 0;
    var j := 0;
    while j < |cols|
      invariant j <= |cols|
      invariant total == SumAll(Values(cols)[..j])
    {
      SumAllPrefixStep(Values(cols), j);
      var colsum := BigSum(cols[j].values);
      total := total + colsum;
      j := j + 1;
    }
    assert Values(cols)[..j] == Values(cols);
  }

  /**
    `outgoing` after `std::fill` of lines 172 and 175: the first `n` slots
    set back to zero, the rest untouched.
   */
  function Clear(buf: seq<nat>, n: nat): (r: seq<nat>)
    requires n <= |buf|
    ensures |r| == |buf|
  {
    seq(|buf|, k requires 0 <= k < |buf| => if k < n then 0 else buf[k])
  }

  /**
    The scratch vector: sampling a column of `|p|` stored counts into a
    zeroed vector fills exactly its first `|p|` slots with the kept counts,
    and clearing those slots, or all of them, zeroes the vector again.
   */
  lemma Scratch(nrow: nat, p: seq<nat>)
    requires |p| <= nrow
    ensures Increment(Zeros(nrow), 0, p)[..|p|] == p
    ensures |p| == nrow ==> Increment(Zeros(nrow), 0, p) == p
    ensures Clear(Increment(Zeros(nrow), 0, p), |p|) == Zeros(nrow)
    ensures Clear(Increment(Zeros(nrow), 0, p), nrow) == Zeros(nrow)
  {
    IncrementZeros(Zeros(nrow), [], nrow, p);
    assert [] + Zeros(nrow) == Zeros(nrow);
    assert ([] + p) + Zeros(nrow - |p|) == p + Zeros(nrow - |p|);
    assert (p + Zeros(nrow - |p|))[..|p|] == p;
  }

  /**
    Reference outcome of `downsample_matrix_internal`: the mode check, then
    every column's stored counts through the sampler, each column keeping
    its kind and rows.
   */
  function MatrixOutcome(mat: Matrix, prop: seq<real>, byCol: bool, draws: seq<real>): (r: Result<Matrix>)
    requires SumAll(Values(mat.cols)) <= |draws|
    ensures r.Ok? ==> CheckMode(|mat.cols|, prop, byCol).Ok?
    ensures r.Ok? ==> r.value.nrow == mat.nrow && |r.value.cols| == |mat.cols|
  {
    match CheckMode(|mat.cols|, prop, byCol)
    case Err(e) => Err(e)
    case Ok(_) => Ok(Matrix(mat.nrow, Relabel(mat.cols, Drive(Values(mat.cols), prop, byCol, draws).picked)))
  }

  /**
    `downsample_matrix_internal` (lines 120-181): the proportions are checked
    against the number of columns before any sampling; in global mode the
    sampler is then given the grand total and its budget.
   */
  method DownsampleMatrix(mat: Matrix, prop: seq<real>, byCol: bool, draws: seq<real>) returns (r: Result<Matrix>)
    requires WellFormed(mat) && SumAll(Values(mat.cols)) <= |draws|
    ensures r == MatrixOutcome(mat, prop, byCol, draws)
  {
    var checked := CheckMode(|mat.cols|, prop, byCol);
    if checked.Err? {
      return Err(checked.error);
    }
    var percol := checked.value;
    var state := Fresh;
    if !percol {
      var total := GrandTotal(mat.cols);
      state := SetGlobal(state, total, prop[0]);
    }
    assert state == Start(SumAll(Values(mat.cols)), prop, byCol);
    var cols := ColumnsLoop(mat, state, ModeOf(prop, percol), draws);
    r := Ok(Matrix(mat.nrow, cols));
  }

  /**
    What the column loop of lines 156-177 keeps after `j` columns: the
    sampler and the draws are where the reference loop over the first `j`
    columns leaves them, and the output holds those columns with their kept
    counts.
   */
  predicate Emitted(mat: Matrix, s: Sampler, m: Mode, draws: seq<real>, j: nat, b: Batch, out: seq<Column>)
  {
    && WellFormed(mat)
    && SumAll(Values(mat.cols)) <= |draws|
    && Covers(m, |mat.cols|)
    && Swept(s, Values(mat.cols), m, draws, j, b)
    && |b.picked| == j
    && out == Relabel(mat.cols[..j], b.picked)
  }

  /** One pass of the column loop keeps `Emitted`. */
  lemma ColumnStep(mat: Matrix, s: Sampler, m: Mode, draws: seq<real>, j: nat, b: Batch, out: seq<Column>)
    requires Emitted(mat, s, m, draws, j, b, out) && j < |mat.cols|
    ensures b.next + Sum(mat.cols[j].values) <= |draws| && Covers(m, j + 1)
    ensures |UnitStep(b.state, mat.cols[j].values, m, j, draws, b.next).picked| == |mat.cols[j].values| <= mat.nrow
    ensures mat.cols[j].Dense? ==> |mat.cols[j].values| == mat.nrow
    ensures Emitted(mat, s, m, draws, j + 1, Extend(b, mat.cols[j].values, m, j, draws),
                    out + [WithValues(mat.cols[j], UnitStep(b.state, mat.cols[j].values, m, j, draws, b.next).picked)])
  {
    SweptStep(s, Values(mat.cols), m, draws, j, b);
    ColumnFits(mat.cols[j], mat.nrow);
    RelabelStep(mat.cols, j, b.picked, UnitStep(b.state, mat.cols[j].values, m, j, draws, b.next).picked);
  }

  /**
    The column loop of lines 156-177. Each column is sampled into the zeroed
    scratch vector; a sparse column is saved with its row indices and only
    its first `n` slots are cleared, a dense column is saved whole and the
    whole vector is cleared.
   */
  method ColumnsLoop(mat: Matrix, s: Sampler, m: Mode, draws: seq<real>) returns (out: seq<Column>)
    requires WellFormed(mat) && SumAll(Values(mat.cols)) <= |draws| && Covers(m, |mat.cols|)
    ensures out == Relabel(mat.cols, RunUnits(s, Values(mat.cols), m, draws, 0).picked)
  {
    var outgoing := Zeros(mat.nrow);
    var state, pos := s, 0;
    var j: nat := 0;
    ghost var b := Batch(s, [], 0);
    out := [];
    while j < |mat.cols|
      invariant Emitted(mat, s, m, draws, j, b, out)
      invariant state == b.state && pos == b.next && outgoing == Zeros(mat.nrow)
    {
      ColumnStep(mat, s, m, draws, j, b, out);
      var t := UnitStep(state, mat.cols[j].values, m, j, draws, pos);
      Scratch(mat.nrow, t.picked);
      outgoing := Increment(outgoing, 0, t.picked);
      match mat.cols[j] {
        case Sparse(rows, values) =>
          out := out + [Sparse(rows, outgoing[..|values|])];
          outgoing := Clear(outgoing, |values|);
        case Dense(_) =>
          out := out + [Dense(outgoing)];
          outgoing := Clear(outgoing, mat.nrow);
      }
      b := Extend(b, mat.cols[j].values, m, j, draws);
      state, pos, j := t.state, t.next, j + 1;
    }
    ColumnsDone(mat, s, m, draws, b, out);
  }

  /** After the last column the output holds every column with its kept counts. */
  lemma ColumnsDone(mat: Matrix, s: Sampler, m: Mode, draws: seq<real>, b: Batch, out: seq<Column>)
    requires Emitted(mat, s, m, draws, |mat.cols|, b, out)
    ensures out == Relabel(mat.cols, RunUnits(s, Values(mat.cols), m, draws, 0).picked)
  {
    assert Values(mat.cols)[..|mat.cols|] == Values(mat.cols);
    assert b == RunUnits(s, Values(mat.cols), m, draws, 0);
    assert mat.cols[..|mat.cols|] == mat.cols;
  }

  /**
    The call fails exactly when the proportions do not fit the mode, with
    the error the mode check raises.
   */
  lemma MatrixRejects(mat: Matrix, prop: seq<real>, byCol: bool, draws: seq<real>)
    requires SumAll(Values(mat.cols)) <= |draws|
    ensures MatrixOutcome(mat, prop, byCol, draws).Ok? <==>
              if byCol then |prop| == |mat.cols| && AllValid(prop)
              else |prop| == 1 && ValidProp(prop[0])
    ensures MatrixOutcome(mat, prop, byCol, draws).Err? ==>
              MatrixOutcome(mat, prop, byCol, draws).error == CheckMode(|mat.cols|, prop, byCol).error
  {
  }

  /**
    The output has the input's shape: as many rows and columns, every
    column of the same kind with the same rows and as many stored counts,
    so it is well formed again.
   */
  lemma MatrixShape(mat: Matrix, prop: seq<real>, byCol: bool, draws: seq<real>)
    requires WellFormed(mat) && SumAll(Values(mat.cols)) <= |draws|
    requires MatrixOutcome(mat, prop, byCol, draws).Ok?
    ensures forall j :: 0 <= j < |mat.cols| ==>
              SameLayout(MatrixOutcome(mat, prop, byCol, draws).value.cols[j], mat.cols[j])
    ensures WellFormed(MatrixOutcome(mat, prop, byCol, draws).value)
  {
    DriveBelow(Values(mat.cols), prop, byCol, draws);
  }

  /** No entry keeps more counts than it had. */
  lemma MatrixBelow(mat: Matrix, prop: seq<real>, byCol: bool, draws: seq<real>)
    requires SumAll(Values(mat.cols)) <= |draws| && MatrixOutcome(mat, prop, byCol, draws).Ok?
    ensures forall j :: 0 <= j < |mat.cols| ==>
              Below(MatrixOutcome(mat, prop, byCol, draws).value.cols[j].values, mat.cols[j].values)
  {
    DriveBelow(Values(mat.cols), prop, byCol, draws);
  }

  /** Global mode keeps `round(prop * grand total)` counts over the whole matrix. */
  lemma MatrixGlobalExact(mat: Matrix, prop: seq<real>, draws: seq<real>)
    requires SumAll(Values(mat.cols)) <= |draws| && MatrixOutcome(mat, prop, false, draws).Ok? && ValidDraws(draws)
    ensures SumAll(Values(MatrixOutcome(mat, prop, false, draws).value.cols)) == Budget(prop[0], SumAll(Values(mat.cols)))
  {
    DriveGlobalExact(Values(mat.cols), prop, draws);
    ValuesRelabel(mat.cols, Drive(Values(mat.cols), prop, false, draws).picked);
  }

  /** Global mode at proportion zero keeps nothing; at proportion one it returns the matrix unchanged. */
  lemma MatrixGlobalExtremes(mat: Matrix, prop: seq<real>, draws: seq<real>)
    requires SumAll(Values(mat.cols)) <= |draws| && MatrixOutcome(mat, prop, false, draws).Ok?
    ensures prop[0] == 0.0 ==> forall j :: 0 <= j < |mat.cols| ==>
              MatrixOutcome(mat, prop, false, draws).value.cols[j].values == Zeros(|mat.cols[j].values|)
    ensures ValidDraws(draws) && prop[0] == 1.0 ==> MatrixOutcome(mat, prop, false, draws).value == mat
  {
    if prop[0] == 0.0 {
      DriveGlobalNone(Values(mat.cols), prop, draws);
    }
    if ValidDraws(draws) && prop[0] == 1.0 {
      DriveGlobalAll(Values(mat.cols), prop, draws);
      RelabelSelf(mat.cols);
    }
  }

  /**
    Per-column mode samples every column on its own with that column's
    proportion: what a single-vector call promises holds of every column.
   */
  lemma MatrixEach(mat: Matrix, prop: seq<real>, draws: seq<real>)
    requires SumAll(Values(mat.cols)) <= |draws|
    requires |prop| == |mat.cols| && AllValid(prop)
    ensures MatrixOutcome(mat, prop, true, draws).Ok?
    ensures forall j :: 0 <= j < |mat.cols| ==>
              SampledAlone(mat.cols[j].values, prop[j],
                           MatrixOutcome(mat, prop, true, draws).value.cols[j].values, ValidDraws(draws))
  {
    MatrixRejects(mat, prop, true, draws);
    DriveEach(Values(mat.cols), prop, draws);
  }
}
