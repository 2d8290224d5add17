/**
 * The main loop of run.py: for every column count, drop and recreate the
 * table; for every row count, draw one matrix; for every strategy in
 * `func_list`, clear the table and run the strategy on that matrix (the timed
 * call). The loop is a method over the connection, proved to make exactly the
 * calls of the step schedule `SweepSteps`; the lemmas state the schedule's
 * length, order and guarantees.
 */
module Sweep {
  import opened Wrappers
  import opened Text
  import opened Sql
  import opened Trace
  import opened Strategies

  /** One call the main loop makes with the table. */
  datatype Step =
    | Drop                                                            // dropTable(conn, table)
    | Create(numCols: nat)                                            // createTable(conn, table, num_cols=c)
    | Clear                                                           // clearTable(conn, table)
    | Run(strategy: Strategy, records: nat, columns: nat, data: Matrix) // func(conn, table, data), timed

  /** What one timing line reports, without the elapsed seconds. */
  datatype Measurement = Measurement(strategy: Strategy, records: nat, columns: nat)

  // ----------------------------------------------------------------- the schedule

  function StepEvents(table: string, step: Step): seq<Event>
  {
    match step
    case Drop => DropEvents(table)
    case Create(c) => CreateEvents(table, c, DefaultEngine)
    case Clear => ClearEvents(table)
    case Run(s, _, _, data) => StrategyEvents(s, table, data)
  }

  /** The connection calls of a sequence of steps, in order. */
  function Events(table: string, steps: seq<Step>): seq<Event>
  {
    FlatMap(s => StepEvents(table, s), steps)
  }

  /** A timed call produces one measurement; the other steps none. */
  function StepMeasurement(step: Step): seq<Measurement>
  {
    if step.Run? then [Measurement(step.strategy, step.records, step.columns)] else []
  }

  /** The measurements of a sequence of steps, in order. */
  function Measurements(steps: seq<Step>): seq<Measurement>
  {
    FlatMap(StepMeasurement, steps)
  }

  /** One (c, n) iteration: clear and run, for each strategy of `func_list` in order. */
  function TrialBlocks(n: nat, c: nat, data: Matrix): seq<seq<Step>>
  {
    seq(|FuncList|, k requires 0 <= k < |FuncList| => [Clear, Run(FuncList[k], n, c, data)])
  }

  /** The iterations over the row counts for the column count `c` at position `ci`. */
  function RowBlocks(c: nat, ci: nat, nums: seq<nat>, draws: (nat, nat) -> Matrix): seq<seq<Step>>
  {
    seq(|nums|, j requires 0 <= j < |nums| => Flatten(TrialBlocks(nums[j], c, draws(ci, j))))
  }

  /** One column-count iteration: rebuild the table, then every row count. */
  function ColumnSteps(c: nat, ci: nat, nums: seq<nat>, draws: (nat, nat) -> Matrix): seq<Step>
  {
    [Drop, Create(c)] + Flatten(RowBlocks(c, ci, nums, draws))
  }

  function ColumnBlocks(cols: seq<nat>, nums: seq<nat>, draws: (nat, nat) -> Matrix): seq<seq<Step>>
  {
    seq(|cols|, i requires 0 <= i < |cols| => ColumnSteps(cols[i], i, nums, draws))
  }

  /**
   * The whole sweep. `draws(i, j)` stands for the matrix that
   * `np.random.randint` returns in the iteration for `cols[i]` and `nums[j]`.
   */
  function SweepSteps(cols: seq<nat>, nums: seq<nat>, draws: (nat, nat) -> Matrix): seq<Step>
  {
    Flatten(ColumnBlocks(cols, nums, draws))
  }

  // ------------------------------------------------------------------ the loop

  lemma EventsAppend(table: string, a: seq<Step>, b: seq<Step>)
    ensures Events(table, a + b) == Events(table, a) + Events(table, b)
    ensures Measurements(a + b) == Measurements(a) + Measurements(b)
  {
    FlatMapAppend(s => StepEvents(table, s), a, b);
    FlatMapAppend(StepMeasurement, a, b);
  }

  /** Clearing and then running one strategy appends the calls of both. */
  lemma TrialStep(table: string, steps: seq<Step>, s: Strategy, n: nat, c: nat, data: Matrix)
    ensures Events(table, steps + [Clear, Run(s, n, c, data)])
         == Events(table, steps) + ClearEvents(table) + StrategyEvents(s, table, data)
    ensures Measurements(steps + [Clear, Run(s, n, c, data)]) == Measurements(steps) + [Measurement(s, n, c)]
  {
    FlatMapPair(x => StepEvents(table, x), Clear, Run(s, n, c, data));
    FlatMapPair(StepMeasurement, Clear, Run(s, n, c, data));
    EventsAppend(table, steps, [Clear, Run(s, n, c, data)]);
  }

  /** Running one more block of steps extends both the calls and the measurements by that block's. */
  lemma BlockStep(table: string, log0: seq<Event>, log1: seq<Event>, log2: seq<Event>,
                  results: seq<Measurement>, more: seq<Measurement>, steps: seq<Step>, block: seq<Step>)
    requires log1 == log0 + Events(table, steps) && log2 == log1 + Events(table, block)
    requires results == Measurements(steps) && more == Measurements(block)
    ensures log2 == log0 + Events(table, steps + block)
    ensures results + more == Measurements(steps + block)
  {
    EventsAppend(table, steps, block);
    Associate(log0, Events(table, steps), Events(table, block), []);
  }

  /** Dropping and recreating the table appends the calls of both and measures nothing. */
  lemma ColumnStart(table: string, c: nat)
    ensures Events(table, [Drop, Create(c)]) == DropEvents(table) + CreateEvents(table, c, DefaultEngine)
    ensures Measurements([Drop, Create(c)]) == []
  {
    FlatMapPair(x => StepEvents(table, x), Drop, Create(c));
    FlatMapPair(StepMeasurement, Drop, Create(c));
  }

  /** The strategies of one (c, n) iteration: `for func in func_list`. */
  method RunTrial(conn: Connection, table: string, n: nat, c: nat, data: Matrix)
    returns (results: seq<Measurement>)
    modifies conn
    ensures conn.log == old(conn.log) + Events(table, Flatten(TrialBlocks(n, c, data)))
    ensures results == Measurements(Flatten(TrialBlocks(n, c, data)))
  {
    ghost var trial := TrialBlocks(n, c, data);
    ghost var steps: seq<Step> := [];
    results := [];
    var f := 0;
    while f < |FuncList|
      invariant 0 <= f <= |FuncList|
      invariant steps == Flatten(trial[..f])
      invariant conn.log == old(conn.log) + Events(table, steps)
      invariant results == Measurements(steps)
    {
      var func := FuncList[f];
      ClearTable(conn, table);
      RunStrategy(conn, func, table, data);
      results := results + [Measurement(func, n, c)];
      TrialStep(table, steps, func, n, c, data);
      Associate(old(conn.log), Events(table, steps), ClearEvents(table), StrategyEvents(func, table, data));
      FlattenSnoc(trial, f);
      steps := steps + [Clear, Run(func, n, c, data)];
      f := f + 1;
    }
    assert trial[..f] == trial;
  }

  /** The row-count loop of one column-count iteration: `for n in nums`. */
  method RunRows(conn: Connection, table: string, c: nat, ci: nat, nums: seq<nat>, draws: (nat, nat) -> Matrix)
    returns (results: seq<Measurement>)
    modifies conn
    ensures conn.log == old(conn.log) + Events(table, Flatten(RowBlocks(c, ci, nums, draws)))
    ensures results == Measurements(Flatten(RowBlocks(c, ci, nums, draws)))
  {
    ghost var rows := RowBlocks(c, ci, nums, draws);
    ghost var steps: seq<Step> := [];
    results := [];
    var j := 0;
    while j < |nums|
      invariant 0 <= j <= |nums|
      invariant steps == Flatten(rows[..j])
      invariant conn.log == old(conn.log) + Events(table, steps)
      invariant results == Measurements(steps)
    {
      var n := nums[j];
      var data := draws(ci, j);
      ghost var before := conn.log;
      var trialResults := RunTrial(conn, table, n, c, data);
      BlockStep(table, old(conn.log), before, conn.log, results, trialResults, steps, rows[j]);
      results := results + trialResults;
      FlattenSnoc(rows, j);
      steps := steps + rows[j];
      j := j + 1;
    }
    assert rows[..j] == rows;
  }

  /** One column-count iteration: drop, create, then every row count. */
  method RunColumn(conn: Connection, table: string, c: nat, ci: nat, nums: seq<nat>, draws: (nat, nat) -> Matrix)
    returns (results: seq<Measurement>)
    modifies conn
    ensures conn.log == old(conn.log) + Events(table, ColumnSteps(c, ci, nums, draws))
    ensures results == Measurements(ColumnSteps(c, ci, nums, draws))
  {
    DropTable(conn, table);
    CreateTable(conn, table, numCols := c);
    ghost var start := conn.log;
    results := RunRows(conn, table, c, ci, nums, draws);
    ColumnStart(table, c);
    Associate(old(conn.log), DropEvents(table), CreateEvents(table, c, DefaultEngine), []);
    BlockStep(table, old(conn.log), start, conn.log, [], results, [Drop, Create(c)], Flatten(RowBlocks(c, ci, nums, draws)));
  }

  /** The main loop. */
  method RunSweep(conn: Connection, table: string, cols: seq<nat>, nums: seq<nat>, draws: (nat, nat) -> Matrix)
    returns (results: seq<Measurement>)
    modifies conn
    ensures conn.log == old(conn.log) + Events(table, SweepSteps(cols, nums, draws))
    ensures results == Measurements(SweepSteps(cols, nums, draws))
  {
    ghost var blocks := ColumnBlocks(cols, nums, draws);
    ghost var steps: seq<Step> := [];
    results := [];
    var i := 0;
    while i < |cols|
      invariant 0 <= i <= |cols|
      invariant steps == Flatten(blocks[..i])
      invariant conn.log == old(conn.log) + Events(table, steps)
      invariant results == Measurements(steps)
    {
      var columnResults := RunColumn(conn, table, cols[i], i, nums, draws);
      results := results + columnResults;
      EventsAppend(table, steps, blocks[i]);
      Associate(old(conn.log), Events(table, steps), Events(table, blocks[i]), []);
      FlattenSnoc(blocks, i);
      steps := steps + blocks[i];
      i := i + 1;
    }
    assert blocks[..i] == blocks;
  }
}
