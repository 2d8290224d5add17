/**
 * The four bulk-insert strategies of run.py and the table maintenance calls
 * (clearTable, createTable, dropTable). Each is a method that makes its calls
 * on the connection and is proved to append exactly the events of a
 * specification function; the lemmas below state what those events carry.
 */
module Strategies {
  import opened Wrappers
  import opened Text
  import opened Sql
  import opened Trace

  datatype Strategy =
    | RowByRow                // multipleSingleInsertionLoopQuery
    | ConcatenatedStatements  // multipleSingleInsertionWithOneQuery
    | SingleMultiRowInsert    // multipleInsertionWithOneQuery
    | ParameterizedBatch      // executeManyQuery

  /** `func_list`: the order in which every trial runs the strategies. */
  const FuncList: seq<Strategy> := [RowByRow, ConcatenatedStatements, SingleMultiRowInsert, ParameterizedBatch]

  // ------------------------------------------------------ specification functions

  function InsertExecutes(table: string, rows: seq<seq<int>>): seq<Event>
  {
    seq(|rows|, i requires 0 <= i < |rows| => Executed(InsertStatement(table, rows[i]), false))
  }

  /** The calls a strategy makes on the connection for one matrix. */
  function StrategyEvents(s: Strategy, table: string, data: Matrix): seq<Event>
  {
    match s
    case RowByRow => InsertExecutes(table, data.rows) + [Committed]
    case ConcatenatedStatements => [Executed(ScriptText(table, data.rows), true), Committed]
    case SingleMultiRowInsert => [Executed(MultiRowInsert(table, data.rows), false), Committed]
    case ParameterizedBatch => [ExecutedMany(ManyTemplate(table, data.width), data.rows), Committed]
  }

  function ClearEvents(table: string): seq<Event>
  {
    [Executed(TruncateStatement(table), false), Committed]
  }

  function CreateEvents(table: string, numCols: int, engine: string): seq<Event>
  {
    [Executed(CreateStatement(table, numCols, engine), false), Committed]
  }

  function DropEvents(table: string): seq<Event>
  {
    [Executed(DropStatement(table), false), Committed]
  }

  // ------------------------------------------------------------- the strategies

  method MultipleSingleInsertionLoopQuery(conn: Connection, table: string, data: Matrix)
    modifies conn
    ensures conn.log == old(conn.log) + StrategyEvents(RowByRow, table, data)
  {
    var i := 0;
    while i < |data.rows|
      invariant 0 <= i <= |data.rows|
      invariant conn.log == old(conn.log) + InsertExecutes(table, data.rows[..i])
    {
      var values := "(" + Join(Fields(data.rows[i]), ",") + ")";
      var query := "INSERT INTO " + table + " VALUES " + values + ";";
      conn.Execute(query, false);
      assert data.rows[..i + 1] == data.rows[..i] + [data.rows[i]];
      i := i + 1;
    }
    assert data.rows[..i] == data.rows;
    conn.Commit();
  }

  method MultipleSingleInsertionWithOneQuery(conn: Connection, table: string, data: Matrix)
    modifies conn
    ensures conn.log == old(conn.log) + StrategyEvents(ConcatenatedStatements, table, data)
  {
    var query: seq<string> := [];
    var i := 0;
    while i < |data.rows|
      invariant 0 <= i <= |data.rows|
      invariant query == InsertStatements(table, data.rows[..i])
    {
      var values := "(" + Join(Fields(data.rows[i]), ",") + ")";
      query := query + ["INSERT INTO " + table + " VALUES " + values + ";"];
      i := i + 1;
    }
    assert data.rows[..i] == data.rows;
    conn.Execute(Flatten(query), true);
    conn.Commit();
  }

  method MultipleInsertionWithOneQuery(conn: Connection, table: string, data: Matrix)
    modifies conn
    ensures conn.log == old(conn.log) + StrategyEvents(SingleMultiRowInsert, table, data)
  {
    var values: seq<string> := [];
    var i := 0;
    while i < |data.rows|
      invariant 0 <= i <= |data.rows|
      invariant values == RowLiterals(data.rows[..i])
    {
      values := values + ["(" + Join(Fields(data.rows[i]), ",") + ")"];
      i := i + 1;
    }
    assert data.rows[..i] == data.rows;
    var query := "INSERT INTO " + table + " VALUES " + Join(values, ",");
    conn.Execute(query, false);
    conn.Commit();
  }

  method ExecuteManyQuery(conn: Connection, table: string, data: Matrix)
    modifies conn
    ensures conn.log == old(conn.log) + StrategyEvents(ParameterizedBatch, table, data)
  {
    var c := data.width;
    var values := Join(seq(c, _ => "%s"), ",");
    var query := "INSERT INTO " + table + " VALUES (" + values + ")";
    assert values == Placeholders(c);
    assert query == ManyTemplate(table, c);
    conn.ExecuteMany(query, data.rows);
    conn.Commit();
  }

  /** `func(conn, table, data)` for the strategy `s`. */
  method RunStrategy(conn: Connection, s: Strategy, table: string, data: Matrix)
    modifies conn
    ensures conn.log == old(conn.log) + StrategyEvents(s, table, data)
  {
    match s
    case RowByRow => MultipleSingleInsertionLoopQuery(conn, table, data);
    case ConcatenatedStatements => MultipleSingleInsertionWithOneQuery(conn, table, data);
    case SingleMultiRowInsert => MultipleInsertionWithOneQuery(conn, table, data);
    case ParameterizedBatch => ExecuteManyQuery(conn, table, data);
  }

  // ------------------------------------------------------------ table maintenance

  method ClearTable(conn: Connection, table: string)
    modifies conn
    ensures conn.log == old(conn.log) + ClearEvents(table)
  {
    conn.Execute("TRUNCATE TABLE " + table + ";", false);
    conn.Commit();
  }

  method CreateTable(conn: Connection, table: string, numCols: int := DefaultNumCols, engine: string := DefaultEngine)
    modifies conn
    ensures conn.log == old(conn.log) + CreateEvents(table, numCols, engine)
  {
    var subquery := Join(ColumnDefs(numCols), ",");
    var query := "create table if not exists " + table + " (" + subquery + ") ENGINE=" + engine + ";";
    conn.Execute(query, false);
    conn.Commit();
  }

  method DropTable(conn: Connection, table: string)
    modifies conn
    ensures conn.log == old(conn.log) + DropEvents(table)
  {
    conn.Execute("DROP TABLE IF EXISTS " + table, false);
    conn.Commit();
  }
}

/**
 * What the strategies' calls carry. A reference reading of the calls
 * (`CarriedRows`) recovers, from the statement texts and the executemany
 * parameters alone, the rows the database is asked to insert.
 */
module StrategyProperties {
  import opened Wrappers
  import opened Text
  import opened Sql
  import opened Trace
  import opened Strategies

  /** The number of "%s" placeholders of a template `INSERT INTO t VALUES (%s,...,%s)`. */
  function TemplateArity(table: string, sql: string): Option<nat>
  {
    match Between(sql, InsertHead(table) + "(", ")")
    case None => None
    case Some(p) =>
      if p == "" then Some(0)
      else
        var items := Split(p, ',');
        if forall k :: 0 <= k < |items| ==> items[k] == "%s" then Some(|items|) else None
  }

  /** The rows one call asks the database to insert into `table`. */
  function EventRows(table: string, e: Event): Option<seq<seq<int>>>
  {
    match e
    case Committed => Some([])
    case ExecutedMany(sql, params) =>
      (match TemplateArity(table, sql)
       case Some(c) => if forall k :: 0 <= k < |params| ==> |params[k]| == c then Some(params) else None
       case None => None)
    case Executed(sql, multi) =>
      if multi then DecodeScript(table, sql)
      else
        match DecodeInsert(table, sql)
        case Some(row) => Some([row])
        case None => DecodeMultiRow(table, sql)
  }

  /** `EventRows` for one table, as a function value. */
  function EventDecoder(table: string): Event -> Option<seq<seq<int>>>
  {
    e => EventRows(table, e)
  }

  /** The rows a sequence of calls asks the database to insert, in call order. */
  function CarriedRows(table: string, events: seq<Event>): Option<seq<seq<int>>>
  {
    ConcatAll(EventDecoder(table), events)
  }

  lemma InsertEventRows(table: string, row: seq<int>)
    ensures EventRows(table, Executed(InsertStatement(table, row), false)) == Some([row])
  {
    InsertStatementRoundTrip(table, row);
  }

  lemma ScriptEventRows(table: string, rows: seq<seq<int>>)
    requires ';' !in table
    ensures EventRows(table, Executed(ScriptText(table, rows), true)) == Some(rows)
  {
    ScriptRoundTrip(table, rows);
  }

  lemma MultiRowEventRows(table: string, rows: seq<seq<int>>)
    ensures EventRows(table, Executed(MultiRowInsert(table, rows), false)) == Some(rows)
  {
    var text := MultiRowInsert(table, rows);
    MultiRowRoundTrip(table, rows);
    assert DecodeInsert(table, text) == None;
  }

  lemma BatchEventRows(table: string, data: Matrix)
    requires Shaped(data, |data.rows|, data.width)
    ensures EventRows(table, ExecutedMany(ManyTemplate(table, data.width), data.rows)) == Some(data.rows)
  {
    ManyTemplateShape(table, data.width);
    assert TemplateArity(table, ManyTemplate(table, data.width)) == Some(data.width);
  }

  /** Calls that each carry one row, followed by a commit, carry those rows in order. */
  lemma CarriedSingles(table: string, events: seq<Event>, rows: seq<seq<int>>)
    requires |events| == |rows| + 1 && events[|rows|] == Committed
    requires forall i :: 0 <= i < |rows| ==> EventRows(table, events[i]) == Some([rows[i]])
    ensures CarriedRows(table, events) == Some(rows)
  {
    var singles := seq(|rows|, i requires 0 <= i < |rows| => [rows[i]]);
    var none: seq<seq<int>> := [];
    var runs := singles + [none];
    ConcatAllOf(EventDecoder(table), events, runs);
    FlattenAppend(singles, [none]);
    FlattenSingletons(singles);
    assert Flatten([none]) == none;
    assert seq(|singles|, k requires 0 <= k < |singles| => singles[k][0]) == rows;
    assert rows + none == rows;
    assert Flatten(runs) == rows;
    assert ConcatAll(EventDecoder(table), events) == Some(rows);
  }

  lemma CarriedInserts(table: string, rows: seq<seq<int>>)
    ensures CarriedRows(table, InsertExecutes(table, rows) + [Committed]) == Some(rows)
  {
    var events := InsertExecutes(table, rows) + [Committed];
    forall i | 0 <= i < |rows|
      ensures EventRows(table, events[i]) == Some([rows[i]])
    {
      InsertEventRows(table, rows[i]);
    }
    CarriedSingles(table, events, rows);
  }

  /**
   * Content fidelity of the calls: every strategy asks the database to insert
   * exactly the rows of the matrix, in row order. For the multi-statement
   * strategy this needs a table name without ';', for executemany a matrix whose
   * rows all have `data.width` values.
   */
  lemma StrategyCarriesRows(s: Strategy, table: string, data: Matrix)
    requires s == ConcatenatedStatements ==> ';' !in table
    requires Shaped(data, |data.rows|, data.width)
    ensures CarriedRows(table, StrategyEvents(s, table, data)) == Some(data.rows)
  {
    var events := StrategyEvents(s, table, data);
    match s
    case RowByRow =>
      CarriedInserts(table, data.rows);
    case ConcatenatedStatements =>
      ScriptEventRows(table, data.rows);
      CarriedSingle(table, events, data.rows);
    case SingleMultiRowInsert =>
      MultiRowEventRows(table, data.rows);
      CarriedSingle(table, events, data.rows);
    case ParameterizedBatch =>
      BatchEventRows(table, data);
      CarriedSingle(table, events, data.rows);
  }

  /** One call followed by a commit carries what the call carries. */
  lemma CarriedSingle(table: string, events: seq<Event>, rows: seq<seq<int>>)
    requires |events| == 2 && events[1] == Committed
    requires EventRows(table, events[0]) == Some(rows)
    ensures CarriedRows(table, events) == Some(rows)
  {
    var none: seq<seq<int>> := [];
    ConcatAllOf(EventDecoder(table), events, [rows, none]);
    assert [rows, none][1..] == [none];
    assert Flatten([none]) == none;
    assert rows + none == rows;
  }

  /**
   * Round trips and commit points: the row loop issues one execute per row and
   * the other strategies one call each; every strategy commits exactly once,
   * after its last call.
   */
  lemma StrategyCallCounts(s: Strategy, table: string, data: Matrix)
    ensures var events := StrategyEvents(s, table, data);
      |events| == (if s == RowByRow then |data.rows| else 1) + 1 &&
      events[|events| - 1] == Committed &&
      Count(events, Committed) == 1
  {
    var events := StrategyEvents(s, table, data);
    var calls := events[..|events| - 1];
    assert events == calls + [Committed];
    assert Committed !in calls by {
      if s == RowByRow {
        assert calls == InsertExecutes(table, data.rows);
      }
    }
    CountAppend(calls, [Committed], Committed);
  }

  /**
   * The multi-statement string is the texts of the row loop's executes
   * concatenated in order with nothing between them.
   */
  lemma ScriptIsLoopConcatenated(table: string, data: Matrix)
    ensures var loop := StrategyEvents(RowByRow, table, data);
      StrategyEvents(ConcatenatedStatements, table, data)[0]
        == Executed(Flatten(seq(|data.rows|, i requires 0 <= i < |data.rows| => loop[i].sql)), true)
  {
    var loop := StrategyEvents(RowByRow, table, data);
    assert seq(|data.rows|, i requires 0 <= i < |data.rows| => loop[i].sql)
        == InsertStatements(table, data.rows);
  }
}
