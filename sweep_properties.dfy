/**
 * Properties of the schedule that run.py's main loop follows: how long it
 * is, which call sits at which position, the order of the timing lines, and
 * what the schedule does to the benchmark table on the server.
 */
module SweepProperties {
  import opened Wrappers
  import opened Text
  import opened Sql
  import opened Strategies
  import opened StrategyProperties
  import opened Sweep

  // -------------------------------------------------------------- arithmetic

  /** An index below `n * w` falls in some block `q < n`, at some offset `r < w`. */
  lemma {:induction false} Decompose(k: nat, n: nat, w: nat) returns (q: nat, r: nat)
    requires k < n * w
    ensures q < n && r < w && k == q * w + r
    decreases n
  {
    if k < w {
      q, r := 0, k;
    } else {
      assert n * w == (n - 1) * w + w;
      q, r := Decompose(k - w, n - 1, w);
      assert (q + 1) * w == q * w + w;
      q := q + 1;
    }
  }

  // ------------------------------------------------------- shape of the schedule

  /** Steps in one column-count iteration: drop, create, then a clear and a run per strategy and row count. */
  function ColumnWidth(nums: seq<nat>): nat
  {
    2 + 8 * |nums|
  }

  /** One (c, n) iteration clears and runs each strategy of `func_list`, in order. */
  lemma TrialAt(n: nat, c: nat, data: Matrix, si: nat)
    requires si < |FuncList|
    ensures |Flatten(TrialBlocks(n, c, data))| == 8
    ensures Flatten(TrialBlocks(n, c, data))[si * 2] == Clear
    ensures Flatten(TrialBlocks(n, c, data))[si * 2 + 1] == Run(FuncList[si], n, c, data)
  {
    var blocks := TrialBlocks(n, c, data);
    FlattenAt(blocks, 2, si, 0);
    FlattenAt(blocks, 2, si, 1);
  }

  lemma RowsWidth(c: nat, ci: nat, nums: seq<nat>, draws: (nat, nat) -> Matrix)
    ensures forall j :: 0 <= j < |nums| ==> |RowBlocks(c, ci, nums, draws)[j]| == 8
    ensures |Flatten(RowBlocks(c, ci, nums, draws))| == 8 * |nums|
    ensures |ColumnSteps(c, ci, nums, draws)| == ColumnWidth(nums)
  {
    var rows := RowBlocks(c, ci, nums, draws);
    forall j | 0 <= j < |nums|
      ensures |rows[j]| == 8
    {
      TrialAt(nums[j], c, draws(ci, j), 0);
    }
    FlattenLength(rows, 8);
  }

  /** Every call after the drop and the create of a column-count iteration is a clear or a run. */
  lemma RowsKinds(c: nat, ci: nat, nums: seq<nat>, draws: (nat, nat) -> Matrix, x: Step)
    requires x in Flatten(RowBlocks(c, ci, nums, draws))
    ensures x.Clear? || x.Run?
  {
    var rows := RowBlocks(c, ci, nums, draws);
    FlattenContains(rows, x);
    var j :| 0 <= j < |rows| && x in rows[j];
    var blocks := TrialBlocks(nums[j], c, draws(ci, j));
    FlattenContains(blocks, x);
  }

  /** One column-count iteration: drop, create, then for each row count a clear and a run per strategy. */
  lemma ColumnAt(c: nat, ci: nat, nums: seq<nat>, draws: (nat, nat) -> Matrix, ni: nat, si: nat)
    requires ni < |nums| && si < |FuncList|
    ensures |ColumnSteps(c, ci, nums, draws)| == ColumnWidth(nums)
    ensures ColumnSteps(c, ci, nums, draws)[2 + ni * 8 + si * 2] == Clear
    ensures ColumnSteps(c, ci, nums, draws)[2 + ni * 8 + si * 2 + 1]
         == Run(FuncList[si], nums[ni], c, draws(ci, ni))
  {
    var rows := RowBlocks(c, ci, nums, draws);
    RowsWidth(c, ci, nums, draws);
    FlattenAt(rows, 8, ni, si * 2);
    FlattenAt(rows, 8, ni, si * 2 + 1);
    TrialAt(nums[ni], c, draws(ci, ni), si);
  }

  /** The sweep makes `ColumnWidth(nums)` calls per column count. */
  lemma SweepSize(cols: seq<nat>, nums: seq<nat>, draws: (nat, nat) -> Matrix)
    ensures |SweepSteps(cols, nums, draws)| == |cols| * ColumnWidth(nums)
  {
    var blocks := ColumnBlocks(cols, nums, draws);
    forall i | 0 <= i < |blocks|
      ensures |blocks[i]| == ColumnWidth(nums)
    {
      RowsWidth(cols[i], i, nums, draws);
    }
    FlattenLength(blocks, ColumnWidth(nums));
  }

  /** The sweep is the column-count iterations laid end to end, each `ColumnWidth(nums)` long. */
  lemma SweepColumnAt(cols: seq<nat>, nums: seq<nat>, draws: (nat, nat) -> Matrix, ci: nat, r: nat)
    requires ci < |cols| && r < ColumnWidth(nums)
    ensures |SweepSteps(cols, nums, draws)| == |cols| * ColumnWidth(nums)
    ensures ci * ColumnWidth(nums) + r < |cols| * ColumnWidth(nums)
    ensures |ColumnSteps(cols[ci], ci, nums, draws)| == ColumnWidth(nums)
    ensures SweepSteps(cols, nums, draws)[ci * ColumnWidth(nums) + r]
         == ColumnSteps(cols[ci], ci, nums, draws)[r]
  {
    var blocks := ColumnBlocks(cols, nums, draws);
    forall i | 0 <= i < |blocks|
      ensures |blocks[i]| == ColumnWidth(nums)
    {
      RowsWidth(cols[i], i, nums, draws);
    }
    FlattenAt(blocks, ColumnWidth(nums), ci, r);
  }

  /**
   * The sweep's length and the call at every position: for the column count
   * `cols[ci]`, the table is dropped and created, then for every row count
   * `nums[ni]` and every strategy `FuncList[si]` the table is cleared and the
   * strategy runs on the matrix drawn for `(ci, ni)`.
   */
  lemma SweepStepAt(cols: seq<nat>, nums: seq<nat>, draws: (nat, nat) -> Matrix, ci: nat, ni: nat, si: nat)
    requires ci < |cols| && ni < |nums| && si < |FuncList|
    ensures |SweepSteps(cols, nums, draws)| == |cols| * ColumnWidth(nums)
    ensures ci * ColumnWidth(nums) + ColumnWidth(nums) <= |SweepSteps(cols, nums, draws)|
    ensures SweepSteps(cols, nums, draws)[ci * ColumnWidth(nums)] == Drop
    ensures SweepSteps(cols, nums, draws)[ci * ColumnWidth(nums) + 1] == Create(cols[ci])
    ensures SweepSteps(cols, nums, draws)[ci * ColumnWidth(nums) + 2 + ni * 8 + si * 2] == Clear
    ensures SweepSteps(cols, nums, draws)[ci * ColumnWidth(nums) + 2 + ni * 8 + si * 2 + 1]
         == Run(FuncList[si], nums[ni], cols[ci], draws(ci, ni))
  {
    var w := ColumnWidth(nums);
    SweepColumnAt(cols, nums, draws, ci, w - 1);
    SweepColumnAt(cols, nums, draws, ci, 0);
    SweepColumnAt(cols, nums, draws, ci, 1);
    SweepColumnAt(cols, nums, draws, ci, 2 + ni * 8 + si * 2);
    SweepColumnAt(cols, nums, draws, ci, 2 + ni * 8 + si * 2 + 1);
    ColumnAt(cols[ci], ci, nums, draws, ni, si);
  }

  /** Within a column-count iteration, every timed call sits at a known (row count, strategy) position. */
  lemma ColumnRunPosition(c: nat, ci: nat, nums: seq<nat>, draws: (nat, nat) -> Matrix, r: nat)
      returns (ni: nat, si: nat)
    requires r < |ColumnSteps(c, ci, nums, draws)| && ColumnSteps(c, ci, nums, draws)[r].Run?
    ensures ni < |nums| && si < |FuncList|
    ensures r == 2 + ni * 8 + si * 2 + 1
  {
    var col := ColumnSteps(c, ci, nums, draws);
    RowsWidth(c, ci, nums, draws);
    assert col[0] == Drop && col[1] == Create(c);
    var o;
    ni, o := Decompose(r - 2, |nums|, 8);
    si := o / 2;
    ColumnAt(c, ci, nums, draws, ni, si);
    assert r == 2 + ni * 8 + o;
    assert o != si * 2;
  }

  /** Every timed call sits at a known (column count, row count, strategy) position. */
  lemma RunPosition(cols: seq<nat>, nums: seq<nat>, draws: (nat, nat) -> Matrix, k: nat)
      returns (ci: nat, ni: nat, si: nat)
    requires k < |SweepSteps(cols, nums, draws)| && SweepSteps(cols, nums, draws)[k].Run?
    ensures ci < |cols| && ni < |nums| && si < |FuncList|
    ensures k == ci * ColumnWidth(nums) + 2 + ni * 8 + si * 2 + 1
  {
    var w := ColumnWidth(nums);
    SweepSize(cols, nums, draws);
    var r;
    ci, r := Decompose(k, |cols|, w);
    SweepColumnAt(cols, nums, draws, ci, r);
    ni, si := ColumnRunPosition(cols[ci], ci, nums, draws, r);
  }

  // ------------------------------------------------------------- timing lines

  /**
   * The timing lines the main loop prints, in order, as three nested loops
   * over the column counts, the row counts and `func_list`.
   */
  function TimingLines(cols: seq<nat>, nums: seq<nat>): seq<Measurement>
  {
    Flatten(seq(|cols|, i requires 0 <= i < |cols| =>
      Flatten(seq(|nums|, j requires 0 <= j < |nums| =>
        seq(|FuncList|, k requires 0 <= k < |FuncList| => Measurement(FuncList[k], nums[j], cols[i]))))))
  }

  lemma TrialMeasured(n: nat, c: nat, data: Matrix)
    ensures Measurements(Flatten(TrialBlocks(n, c, data)))
         == seq(|FuncList|, k requires 0 <= k < |FuncList| => Measurement(FuncList[k], n, c))
  {
    var blocks := TrialBlocks(n, c, data);
    FlatMapFlatten(StepMeasurement, blocks);
    var each := seq(|blocks|, i requires 0 <= i < |blocks| => FlatMap(StepMeasurement, blocks[i]));
    forall i | 0 <= i < |blocks|
      ensures each[i] == [Measurement(FuncList[i], n, c)]
    {
      FlatMapPair(StepMeasurement, Clear, Run(FuncList[i], n, c, data));
    }
    FlattenSingletons(each);
  }

  lemma ColumnMeasured(c: nat, ci: nat, nums: seq<nat>, draws: (nat, nat) -> Matrix)
    ensures Measurements(ColumnSteps(c, ci, nums, draws))
         == Flatten(seq(|nums|, j requires 0 <= j < |nums| =>
              seq(|FuncList|, k requires 0 <= k < |FuncList| => Measurement(FuncList[k], nums[j], c))))
  {
    var rows := RowBlocks(c, ci, nums, draws);
    EventsAppend([], [Drop, Create(c)], Flatten(rows));
    ColumnStart([], c);
    FlatMapFlatten(StepMeasurement, rows);
    var each := seq(|rows|, i requires 0 <= i < |rows| => FlatMap(StepMeasurement, rows[i]));
    var lines := seq(|nums|, j requires 0 <= j < |nums| =>
      seq(|FuncList|, k requires 0 <= k < |FuncList| => Measurement(FuncList[k], nums[j], c)));
    forall j | 0 <= j < |rows|
      ensures each[j] == lines[j]
    {
      TrialMeasured(nums[j], c, draws(ci, j));
    }
    assert each == lines;
  }

  /**
   * The measurements the sweep records are exactly the timing lines: they
   * depend on the column and row counts only, never on the drawn data.
   */
  lemma SweepMeasured(cols: seq<nat>, nums: seq<nat>, draws: (nat, nat) -> Matrix)
    ensures Measurements(SweepSteps(cols, nums, draws)) == TimingLines(cols, nums)
  {
    var blocks := ColumnBlocks(cols, nums, draws);
    FlatMapFlatten(StepMeasurement, blocks);
    var each := seq(|blocks|, i requires 0 <= i < |blocks| => FlatMap(StepMeasurement, blocks[i]));
    var lines := seq(|cols|, i requires 0 <= i < |cols| =>
      Flatten(seq(|nums|, j requires 0 <= j < |nums| =>
        seq(|FuncList|, k requires 0 <= k < |FuncList| => Measurement(FuncList[k], nums[j], cols[i])))));
    forall i | 0 <= i < |blocks|
      ensures each[i] == lines[i]
    {
      ColumnMeasured(cols[i], i, nums, draws);
    }
    assert each == lines;
  }

  /** There is one timing line per column count, row count and strategy, in that nesting order. */
  lemma TimingLineAt(cols: seq<nat>, nums: seq<nat>, ci: nat, ni: nat, si: nat)
    requires ci < |cols| && ni < |nums| && si < |FuncList|
    ensures |TimingLines(cols, nums)| == |cols| * (|nums| * 4)
    ensures ci * (|nums| * 4) + (ni * 4 + si) < |TimingLines(cols, nums)|
    ensures TimingLines(cols, nums)[ci * (|nums| * 4) + (ni * 4 + si)]
         == Measurement(FuncList[si], nums[ni], cols[ci])
  {
    var outer := seq(|cols|, i requires 0 <= i < |cols| =>
      Flatten(seq(|nums|, j requires 0 <= j < |nums| =>
        seq(|FuncList|, k requires 0 <= k < |FuncList| => Measurement(FuncList[k], nums[j], cols[i])))));
    forall i | 0 <= i < |outer|
      ensures |outer[i]| == |nums| * 4
    {
      var inner := seq(|nums|, j requires 0 <= j < |nums| =>
        seq(|FuncList|, k requires 0 <= k < |FuncList| => Measurement(FuncList[k], nums[j], cols[i])));
      FlattenLength(inner, 4);
    }
    var inner := seq(|nums|, j requires 0 <= j < |nums| =>
      seq(|FuncList|, k requires 0 <= k < |FuncList| => Measurement(FuncList[k], nums[j], cols[ci])));
    FlattenAt(inner, 4, ni, si);
    FlattenAt(outer, |nums| * 4, ci, ni * 4 + si);
  }

  /**
   * The sweep makes `2 + 8 * |nums|` calls per column count and records one
   * timing line per column count, row count and strategy.
   */
  lemma SweepLength(cols: seq<nat>, nums: seq<nat>, draws: (nat, nat) -> Matrix)
    ensures |SweepSteps(cols, nums, draws)| == |cols| * (2 + 8 * |nums|)
    ensures |Measurements(SweepSteps(cols, nums, draws))| == |cols| * (|nums| * |FuncList|)
  {
    SweepSize(cols, nums, draws);
    SweepMeasured(cols, nums, draws);
    var outer := seq(|cols|, i requires 0 <= i < |cols| =>
      Flatten(seq(|nums|, j requires 0 <= j < |nums| =>
        seq(|FuncList|, k requires 0 <= k < |FuncList| => Measurement(FuncList[k], nums[j], cols[i])))));
    forall i | 0 <= i < |outer|
      ensures |outer[i]| == |nums| * 4
    {
      var inner := seq(|nums|, j requires 0 <= j < |nums| =>
        seq(|FuncList|, k requires 0 <= k < |FuncList| => Measurement(FuncList[k], nums[j], cols[i])));
      FlattenLength(inner, 4);
    }
    FlattenLength(outer, |nums| * 4);
  }

  // -------------------------------------------------- the table's column count

  /**
   * The column count of the benchmark table after one call, as the DDL text
   * states it: `DROP TABLE IF EXISTS` removes the table, `CREATE TABLE IF NOT
   * EXISTS` makes one of `c` columns only where none exists and `c` is
   * positive (for `c` = 0 its column list is empty, which is no valid table
   * definition, so nothing is created), and truncating or inserting leaves the
   * columns as they are. `None` is "no table".
   */
  function StepColumns(t: Option<nat>, step: Step): Option<nat>
  {
    match step
    case Drop => None
    case Create(c) => if t.None? && c > 0 then Some(c) else t
    case Clear => t
    case Run(_, _, _, _) => t
  }

  /** The column count after a sequence of calls, starting from `t`. */
  function ColumnsAfter(t: Option<nat>, steps: seq<Step>): Option<nat>
  {
    if steps == [] then t else StepColumns(ColumnsAfter(t, steps[..|steps| - 1]), steps[|steps| - 1])
  }

  lemma ColumnsAfterSnoc(t: Option<nat>, steps: seq<Step>, x: Step)
    ensures ColumnsAfter(t, steps + [x]) == StepColumns(ColumnsAfter(t, steps), x)
  {
    assert (steps + [x])[..|steps|] == steps;
  }

  lemma {:induction false} ColumnsAfterAppend(t: Option<nat>, a: seq<Step>, b: seq<Step>)
    ensures ColumnsAfter(t, a + b) == ColumnsAfter(ColumnsAfter(t, a), b)
    decreases |b|
  {
    if b == [] {
      assert a + b == a;
    } else {
      var front := b[..|b| - 1];
      ColumnsAfterAppend(t, a, front);
      assert a + b == (a + front) + [b[|b| - 1]];
      ColumnsAfterSnoc(t, a + front, b[|b| - 1]);
    }
  }

  /** Clears and runs leave the table's column count as it is. */
  lemma {:induction false} ColumnsKept(t: Option<nat>, mid: seq<Step>)
    requires forall x :: x in mid ==> x.Clear? || x.Run?
    ensures ColumnsAfter(t, mid) == t
    decreases |mid|
  {
    if mid != [] {
      assert mid[|mid| - 1] in mid;
      ColumnsKept(t, mid[..|mid| - 1]);
    }
  }

  /**
   * Dropping before creating is what makes the create take effect: whatever
   * table was there, the pair leaves one of exactly `c` columns, and no table
   * at all when `c` is 0.
   */
  lemma Rebuilt(t: Option<nat>, c: nat)
    ensures ColumnsAfter(t, [Drop, Create(c)]) == if c > 0 then Some(c) else None
  {
    ColumnsAfterSnoc(t, [Drop], Create(c));
    ColumnsAfterSnoc(t, [], Drop);
    assert [Drop] + [Create(c)] == [Drop, Create(c)];
  }

  /** After the first `r` calls of a column-count iteration (`r >= 2`), the table has that iteration's columns. */
  lemma ColumnTable(t: Option<nat>, cols: seq<nat>, nums: seq<nat>, draws: (nat, nat) -> Matrix, ci: nat, r: nat)
    requires ci < |cols| && 2 <= r < ColumnWidth(nums)
    ensures ci * ColumnWidth(nums) + r < |SweepSteps(cols, nums, draws)|
    ensures ColumnsAfter(t, SweepSteps(cols, nums, draws)[..ci * ColumnWidth(nums) + r])
         == if cols[ci] > 0 then Some(cols[ci]) else None
  {
    var w := ColumnWidth(nums);
    var blocks := ColumnBlocks(cols, nums, draws);
    forall i | 0 <= i < |blocks|
      ensures |blocks[i]| == w
    {
      RowsWidth(cols[i], i, nums, draws);
    }
    FlattenPrefix(blocks, w, ci, r);
    var pre := Flatten(blocks[..ci]);
    var c := cols[ci];
    var rows := Flatten(RowBlocks(c, ci, nums, draws));
    var mid := rows[..r - 2];
    assert blocks[ci][..r] == [Drop, Create(c)] + mid;
    forall x | x in mid
      ensures x.Clear? || x.Run?
    {
      RowsKinds(c, ci, nums, draws, x);
    }
    ColumnsAfterAppend(t, pre, [Drop, Create(c)] + mid);
    ColumnsAfterAppend(ColumnsAfter(t, pre), [Drop, Create(c)], mid);
    Rebuilt(ColumnsAfter(t, pre), c);
    ColumnsKept(if c > 0 then Some(c) else None, mid);
    SweepColumnAt(cols, nums, draws, ci, r);
  }

  /**
   * Every timed call is made right after a truncate, on a table that exists
   * and has exactly the loop's column count `c` of columns, whatever table the
   * sweep started from; for a column count of 0 there is no table. That `c` is
   * also the width of the call's data when the draws are shaped (`RunShaped`).
   */
  lemma RunPrepared(t: Option<nat>, cols: seq<nat>, nums: seq<nat>, draws: (nat, nat) -> Matrix, k: nat)
    requires k < |SweepSteps(cols, nums, draws)| && SweepSteps(cols, nums, draws)[k].Run?
    ensures 0 < k && SweepSteps(cols, nums, draws)[k - 1] == Clear
    ensures var c := SweepSteps(cols, nums, draws)[k].columns;
            ColumnsAfter(t, SweepSteps(cols, nums, draws)[..k]) == if c > 0 then Some(c) else None
  {
    var ci, ni, si := RunPosition(cols, nums, draws, k);
    SweepStepAt(cols, nums, draws, ci, ni, si);
    ColumnTable(t, cols, nums, draws, ci, 2 + ni * 8 + si * 2 + 1);
  }

  /** The table is dropped exactly once per column count. */
  lemma DropsPerColumn(cols: seq<nat>, nums: seq<nat>, draws: (nat, nat) -> Matrix)
    ensures Count(SweepSteps(cols, nums, draws), Drop) == |cols|
  {
    var blocks := ColumnBlocks(cols, nums, draws);
    forall i | 0 <= i < |blocks|
      ensures Count(blocks[i], Drop) == 1
    {
      var rows := Flatten(RowBlocks(cols[i], i, nums, draws));
      if Drop in rows {
        RowsKinds(cols[i], i, nums, draws, Drop);
      }
      CountAppend([Drop, Create(cols[i])], rows, Drop);
      assert [Drop, Create(cols[i])][1..] == [Create(cols[i])];
    }
    CountFlatten(blocks, Drop);
  }

  /**
   * When every draw has the shape `np.random.randint` gives it, every timed
   * call inserts a matrix of its own row and column counts, its calls carry
   * exactly that matrix's rows, and the table it inserts into has as many
   * columns as the matrix is wide (none when that width is 0).
   */
  lemma RunShaped(t: Option<nat>, table: string, cols: seq<nat>, nums: seq<nat>, draws: (nat, nat) -> Matrix, k: nat)
    requires forall i, j :: 0 <= i < |cols| && 0 <= j < |nums| ==> Shaped(draws(i, j), nums[j], cols[i])
    requires k < |SweepSteps(cols, nums, draws)| && SweepSteps(cols, nums, draws)[k].Run?
    requires SweepSteps(cols, nums, draws)[k].strategy == ConcatenatedStatements ==> ';' !in table
    ensures Shaped(SweepSteps(cols, nums, draws)[k].data, SweepSteps(cols, nums, draws)[k].records,
                   SweepSteps(cols, nums, draws)[k].columns)
    ensures CarriedRows(table, StrategyEvents(SweepSteps(cols, nums, draws)[k].strategy, table,
                                              SweepSteps(cols, nums, draws)[k].data))
         == Some(SweepSteps(cols, nums, draws)[k].data.rows)
    ensures var w := SweepSteps(cols, nums, draws)[k].data.width;
            ColumnsAfter(t, SweepSteps(cols, nums, draws)[..k]) == if w > 0 then Some(w) else None
  {
    var run := SweepSteps(cols, nums, draws)[k];
    var ci, ni, si := RunPosition(cols, nums, draws, k);
    SweepStepAt(cols, nums, draws, ci, ni, si);
    assert run == Run(FuncList[si], nums[ni], cols[ci], draws(ci, ni));
    assert Shaped(draws(ci, ni), nums[ni], cols[ci]);
    StrategyCarriesRows(run.strategy, table, run.data);
    RunPrepared(t, cols, nums, draws, k);
  }
}
