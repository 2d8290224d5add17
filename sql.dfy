/**
 * The SQL text that run.py builds: the row literal shared by three insert
 * strategies, the statements of each strategy, the executemany template, and
 * the TRUNCATE / CREATE / DROP statements. Each builder has a decoder beside
 * it, and a lemma proves the decoder recovers what the builder was given.
 */
module Sql {
  import opened Wrappers
  import opened Text
  import opened Decimal

  /** A numpy integer matrix: its rows (`data.tolist()`) and its column count (`data.shape[1]`). */
  datatype Matrix = Matrix(rows: seq<seq<int>>, width: nat)

  /** The matrix has `n` rows of `c` values each, as `np.random.randint(1, 1000, (n, c))` returns. */
  predicate Shaped(m: Matrix, n: nat, c: nat)
  {
    |m.rows| == n && m.width == c && forall i :: 0 <= i < |m.rows| ==> |m.rows[i]| == c
  }

  // ---------------------------------------------------------------- row literal

  /** `map(str, d)`. */
  function Fields(row: seq<int>): seq<string>
  {
    seq(|row|, i requires 0 <= i < |row| => IntToStr(row[i]))
  }

  /** `"(" + ",".join(map(str, d)) + ")"`. */
  function RowLiteral(row: seq<int>): string
  {
    "(" + Join(Fields(row), ",") + ")"
  }

  function ParseFields(fields: seq<string>): Option<seq<int>>
  {
    DecodeAll(ParseInt, fields)
  }

  /** Reads a parenthesised, comma-separated list of integers. */
  function DecodeRow(s: string): Option<seq<int>>
  {
    match Between(s, "(", ")")
    case None => None
    case Some(inner) => if inner == "" then Some([]) else ParseFields(Split(inner, ','))
  }

  lemma ParseFieldsOf(row: seq<int>)
    ensures ParseFields(Fields(row)) == Some(row)
  {
    forall i | 0 <= i < |row|
      ensures ParseInt(Fields(row)[i]) == Some(row[i])
    {
      IntToStrRoundTrip(row[i]);
    }
    DecodeAllOf(ParseInt, Fields(row), row);
  }

  /** No character but digits, '-' and ',' appears between the parentheses of a row literal. */
  lemma InteriorFree(row: seq<int>, ch: char)
    requires !IsDigit(ch) && ch != '-' && ch != ','
    ensures ch !in Join(Fields(row), ",")
  {
    forall k | 0 <= k < |row|
      ensures ch !in Fields(row)[k]
    {
      IntToStrFree(row[k], ch);
    }
    NotInJoin(Fields(row), ",", ch);
  }

  /**
   * The row literal is "(" + the values' numerals joined by "," + ")": it has
   * exactly |row| - 1 commas (none for an empty row), its interior splits on ","
   * back into the numerals in order, and it holds no ';' and no ')' before its end.
   */
  lemma RowLiteralShape(row: seq<int>)
    ensures var lit := RowLiteral(row);
      lit[0] == '(' && Terminated(lit, ')') && ';' !in lit &&
      Count(lit, ',') == (if row == [] then 0 else |row| - 1)
    ensures row != [] ==> Split(Join(Fields(row), ","), ',') == Fields(row)
  {
    var inner := Join(Fields(row), ",");
    var lit := RowLiteral(row);
    InteriorFree(row, ')');
    InteriorFree(row, ';');
    InteriorFree(row, '(');
    assert lit[..|lit| - 1] == "(" + inner;
    CountAppend("(" + inner, ")", ',');
    CountAppend("(", inner, ',');
    if row != [] {
      forall k | 0 <= k < |row|
        ensures ',' !in Fields(row)[k]
      {
        IntToStrFree(row[k], ',');
      }
      CountJoin(Fields(row), ',');
      SplitJoin(Fields(row), ',');
    }
  }

  /** Decoding a row literal gives back the row, for every row of integers. */
  lemma RowLiteralRoundTrip(row: seq<int>)
    ensures DecodeRow(RowLiteral(row)) == Some(row)
  {
    var inner := Join(Fields(row), ",");
    BetweenWrapped("(", inner, ")");
    if row != [] {
      RowLiteralShape(row);
      ParseFieldsOf(row);
      assert |inner| > 0 by {
        if |row| > 1 {
          assert inner == Fields(row)[0] + "," + Join(Fields(row)[1..], ",");
        }
      }
    }
  }

  // ------------------------------------------------- one INSERT statement per row

  function InsertHead(table: string): string
  {
    "INSERT INTO " + table + " VALUES "
  }

  /** `"INSERT INTO {} VALUES {};".format(table, values)`. */
  function InsertStatement(table: string, row: seq<int>): string
  {
    InsertHead(table) + RowLiteral(row) + ";"
  }

  function DecodeInsert(table: string, stmt: string): Option<seq<int>>
  {
    match Between(stmt, InsertHead(table), ";")
    case None => None
    case Some(lit) => DecodeRow(lit)
  }

  lemma InsertStatementRoundTrip(table: string, row: seq<int>)
    ensures DecodeInsert(table, InsertStatement(table, row)) == Some(row)
  {
    BetweenWrapped(InsertHead(table), RowLiteral(row), ";");
    RowLiteralRoundTrip(row);
  }

  /** For a table name without ';', the statement's one ';' is its last character. */
  lemma InsertStatementTerminated(table: string, row: seq<int>)
    requires ';' !in table
    ensures Terminated(InsertStatement(table, row), ';')
    ensures Count(InsertStatement(table, row), ';') == 1
  {
    var body := InsertHead(table) + RowLiteral(row);
    RowLiteralShape(row);
    assert ';' !in "INSERT INTO " && ';' !in " VALUES ";
    assert InsertStatement(table, row)[..|body|] == body;
    CountAppend(body, ";", ';');
  }

  /** The statements the row loop issues, in row order. */
  function InsertStatements(table: string, rows: seq<seq<int>>): seq<string>
  {
    seq(|rows|, i requires 0 <= i < |rows| => InsertStatement(table, rows[i]))
  }

  /** `''.join(query)`: the statements concatenated with no separator. */
  function ScriptText(table: string, rows: seq<seq<int>>): string
  {
    Flatten(InsertStatements(table, rows))
  }

  /** `DecodeInsert` for one table, as a function value. */
  function InsertDecoder(table: string): string -> Option<seq<int>>
  {
    stmt => DecodeInsert(table, stmt)
  }

  function DecodeStatements(table: string, stmts: seq<string>): Option<seq<seq<int>>>
  {
    DecodeAll(InsertDecoder(table), stmts)
  }

  /** Cuts a multi-statement string after every ';' and decodes each statement. */
  function DecodeScript(table: string, text: string): Option<seq<seq<int>>>
  {
    DecodeStatements(table, Chunks(text, ';'))
  }

  lemma DecodeStatementsOf(table: string, rows: seq<seq<int>>)
    ensures DecodeStatements(table, InsertStatements(table, rows)) == Some(rows)
  {
    var stmts := InsertStatements(table, rows);
    forall i | 0 <= i < |rows|
      ensures InsertDecoder(table)(stmts[i]) == Some(rows[i])
    {
      InsertStatementRoundTrip(table, rows[i]);
    }
    DecodeAllOf(InsertDecoder(table), stmts, rows);
  }

  /**
   * For a table name without ';', the multi-statement string holds exactly one
   * ';' per row, and cutting it after each ';' recovers every row in order.
   */
  lemma ScriptRoundTrip(table: string, rows: seq<seq<int>>)
    requires ';' !in table
    ensures Count(ScriptText(table, rows), ';') == |rows|
    ensures Chunks(ScriptText(table, rows), ';') == InsertStatements(table, rows)
    ensures DecodeScript(table, ScriptText(table, rows)) == Some(rows)
  {
    var stmts := InsertStatements(table, rows);
    forall k | 0 <= k < |stmts|
      ensures Terminated(stmts[k], ';') && Count(stmts[k], ';') == 1
    {
      InsertStatementTerminated(table, rows[k]);
    }
    CountFlatten(stmts, ';');
    ChunksFlatten(stmts, ';');
    DecodeStatementsOf(table, rows);
  }

  // --------------------------------------------------- one multi-row INSERT

  function RowLiterals(rows: seq<seq<int>>): seq<string>
  {
    seq(|rows|, i requires 0 <= i < |rows| => RowLiteral(rows[i]))
  }

  /** `"INSERT INTO {} VALUES {}".format(table, ','.join(values))`: no ';' at the end. */
  function MultiRowInsert(table: string, rows: seq<seq<int>>): string
  {
    InsertHead(table) + Join(RowLiterals(rows), ",")
  }

  /** Reads one row literal that follows a ','. */
  function DecodeLedRow(piece: string): Option<seq<int>>
  {
    match Between(piece, ",", "")
    case None => None
    case Some(lit) => DecodeRow(lit)
  }

  function DecodeLedRows(pieces: seq<string>): Option<seq<seq<int>>>
  {
    DecodeAll(DecodeLedRow, pieces)
  }

  /** Reads row literals separated by ',': each one ends at its ')'. */
  function DecodeTuples(values: string): Option<seq<seq<int>>>
  {
    if values == "" then Some([]) else DecodeLedRows(Chunks("," + values, ')'))
  }

  function DecodeMultiRow(table: string, text: string): Option<seq<seq<int>>>
  {
    match Between(text, InsertHead(table), "")
    case None => None
    case Some(values) => DecodeTuples(values)
  }

  lemma DecodeLedRowsOf(rows: seq<seq<int>>)
    ensures DecodeLedRows(seq(|rows|, i requires 0 <= i < |rows| => "," + RowLiteral(rows[i]))) == Some(rows)
  {
    var led := seq(|rows|, i requires 0 <= i < |rows| => "," + RowLiteral(rows[i]));
    forall i | 0 <= i < |rows|
      ensures DecodeLedRow(led[i]) == Some(rows[i])
    {
      BetweenWrapped(",", RowLiteral(rows[i]), "");
      assert "," + RowLiteral(rows[i]) + "" == led[i];
      RowLiteralRoundTrip(rows[i]);
    }
    DecodeAllOf(DecodeLedRow, led, rows);
  }

  /** Each row literal, led by its ',', ends with its only ')' and holds no ';'. */
  lemma LedLiteral(row: seq<int>)
    ensures Terminated("," + RowLiteral(row), ')') && ';' !in RowLiteral(row)
  {
    RowLiteralShape(row);
    var lit := RowLiteral(row);
    assert ("," + lit)[..|lit|] == "," + lit[..|lit| - 1];
  }

  /** The comma-joined literals of at least one row, with a ',' in front, are the led literals laid end to end. */
  lemma LedValues(rows: seq<seq<int>>)
    requires rows != []
    ensures "," + Join(RowLiterals(rows), ",")
         == Flatten(seq(|rows|, i requires 0 <= i < |rows| => "," + RowLiteral(rows[i])))
  {
    var lits := RowLiterals(rows);
    LeadJoin(lits, ",");
    assert seq(|lits|, i requires 0 <= i < |lits| => "," + lits[i])
        == seq(|rows|, i requires 0 <= i < |rows| => "," + RowLiteral(rows[i]));
  }

  /** The values part of the multi-row statement reads back as the rows, in order. */
  lemma MultiRowValues(rows: seq<seq<int>>)
    ensures DecodeTuples(Join(RowLiterals(rows), ",")) == Some(rows)
    ensures rows != [] ==> |Join(RowLiterals(rows), ",")| > 0
    ensures rows != [] ==> Join(RowLiterals(rows), ",")[|Join(RowLiterals(rows), ",")| - 1] == ')'
  {
    var values := Join(RowLiterals(rows), ",");
    if rows != [] {
      var led := seq(|rows|, i requires 0 <= i < |rows| => "," + RowLiteral(rows[i]));
      LedValues(rows);
      forall k | 0 <= k < |rows|
        ensures Terminated(led[k], ')')
      {
        LedLiteral(rows[k]);
      }
      ChunksFlatten(led, ')');
      DecodeLedRowsOf(rows);
      LastOfFlatten(led);
      assert |led[0]| > 1;
      assert Flatten(led) == led[0] + Flatten(led[1..]);
    }
  }

  /** For a table name without ';', the multi-row statement holds no ';'. */
  lemma MultiRowFree(table: string, rows: seq<seq<int>>)
    requires ';' !in table
    ensures ';' !in MultiRowInsert(table, rows)
  {
    var lits := RowLiterals(rows);
    forall k | 0 <= k < |rows|
      ensures ';' !in lits[k]
    {
      LedLiteral(rows[k]);
    }
    NotInJoin(lits, ",", ';');
    assert ';' !in "INSERT INTO " && ';' !in " VALUES ";
  }

  /**
   * The multi-row statement decodes back to all rows in order; for a table name
   * without ';' it holds no ';' at all, and with rows it ends at the last ')'.
   */
  lemma MultiRowRoundTrip(table: string, rows: seq<seq<int>>)
    ensures DecodeMultiRow(table, MultiRowInsert(table, rows)) == Some(rows)
    ensures ';' !in table ==> ';' !in MultiRowInsert(table, rows)
    ensures rows != [] ==> MultiRowInsert(table, rows)[|MultiRowInsert(table, rows)| - 1] == ')'
  {
    var values := Join(RowLiterals(rows), ",");
    assert MultiRowInsert(table, rows) == InsertHead(table) + values + "";
    BetweenWrapped(InsertHead(table), values, "");
    MultiRowValues(rows);
    if ';' !in table {
      MultiRowFree(table, rows);
    }
  }

  /** The last element of a concatenation of non-empty parts is the last of the last part. */
  lemma {:induction false} LastOfFlatten(parts: seq<string>)
    requires |parts| > 0 && forall k :: 0 <= k < |parts| ==> |parts[k]| > 0
    ensures |Flatten(parts)| > 0
    ensures Flatten(parts)[|Flatten(parts)| - 1] == parts[|parts| - 1][|parts[|parts| - 1]| - 1]
  {
    if |parts| > 1 {
      LastOfFlatten(parts[1..]);
    } else {
      assert Flatten(parts) == parts[0] + Flatten([]);
    }
  }

  // ------------------------------------------------------- executemany template

  /** `','.join(['%s']*c)`. */
  function Placeholders(c: nat): string
  {
    Join(seq(c, _ => "%s"), ",")
  }

  /** `"INSERT INTO {} VALUES ({})".format(table, values)`. */
  function ManyTemplate(table: string, c: nat): string
  {
    InsertHead(table) + "(" + Placeholders(c) + ")"
  }

  /**
   * The template's parentheses hold exactly `c` placeholders "%s" separated by
   * c - 1 commas (nothing when c is 0).
   */
  lemma ManyTemplateShape(table: string, c: nat)
    ensures Between(ManyTemplate(table, c), InsertHead(table) + "(", ")") == Some(Placeholders(c))
    ensures c == 0 ==> Placeholders(c) == ""
    ensures c > 0 ==> Split(Placeholders(c), ',') == seq(c, _ => "%s")
    ensures c > 0 ==> Count(Placeholders(c), ',') == c - 1
  {
    BetweenWrapped(InsertHead(table) + "(", Placeholders(c), ")");
    if c > 0 {
      var parts := seq(c, _ => "%s");
      assert forall k :: 0 <= k < c ==> parts[k] == "%s";
      SplitJoin(parts, ',');
      CountJoin(parts, ',');
    }
  }

  // ------------------------------------------------------------------ the DDL

  /** `"TRUNCATE TABLE {};".format(table)`. */
  function TruncateStatement(table: string): string
  {
    "TRUNCATE TABLE " + table + ";"
  }

  /** `"DROP TABLE IF EXISTS {}".format(table)`. */
  function DropStatement(table: string): string
  {
    "DROP TABLE IF EXISTS " + table
  }

  /** The defaults of `createTable`'s parameters. */
  const DefaultNumCols: int := 10
  const DefaultEngine: string := "INNODB"

  /** `["col" + str(i) + " INT" for i in range(1, num_cols + 1)]`; empty for num_cols < 1. */
  function ColumnDefs(numCols: int): seq<string>
  {
    seq(if numCols > 0 then numCols else 0, i => "col" + IntToStr(i + 1) + " INT")
  }

  function ColumnList(numCols: int): string
  {
    Join(ColumnDefs(numCols), ",")
  }

  /** `"create table if not exists {} ({}) ENGINE={};".format(table, subquery, engine)`. */
  function CreateStatement(table: string, numCols: int, engine: string): string
  {
    "create table if not exists " + table + " (" + ColumnList(numCols) + ") ENGINE=" + engine + ";"
  }

  /** Reads the number of one column definition "colI INT". */
  function ColumnNumber(def: string): Option<int>
  {
    match Between(def, "col", " INT")
    case None => None
    case Some(num) => ParseInt(num)
  }

  function DecodeColumns(defs: seq<string>): Option<seq<int>>
  {
    DecodeAll(ColumnNumber, defs)
  }

  /** Reads a column list "colI INT,...", giving the column numbers in order. */
  function DecodeColumnList(s: string): Option<seq<int>>
  {
    if s == "" then Some([]) else DecodeColumns(Split(s, ','))
  }

  /**
   * The column list of `createTable` names exactly max(num_cols, 0) columns,
   * numbered 1, 2, ... in order; for num_cols >= 1 it has num_cols - 1 commas.
   */
  lemma ColumnListRoundTrip(numCols: int)
    ensures DecodeColumnList(ColumnList(numCols))
         == Some(seq(if numCols > 0 then numCols else 0, i => i + 1))
    ensures numCols > 0 ==> Count(ColumnList(numCols), ',') == numCols - 1
  {
    var defs := ColumnDefs(numCols);
    if numCols > 0 {
      forall k | 0 <= k < |defs|
        ensures ',' !in defs[k]
      {
        IntToStrFree(k + 1, ',');
        assert ',' !in "col" && ',' !in " INT";
      }
      SplitJoin(defs, ',');
      CountJoin(defs, ',');
      var want := seq(numCols, i => i + 1);
      forall i | 0 <= i < numCols
        ensures ColumnNumber(defs[i]) == Some(want[i])
      {
        BetweenWrapped("col", IntToStr(i + 1), " INT");
        IntToStrRoundTrip(i + 1);
      }
      DecodeAllOf(ColumnNumber, defs, want);
      assert |ColumnList(numCols)| > 0 by {
        if numCols > 1 {
          assert ColumnList(numCols) == defs[0] + "," + Join(defs[1..], ",");
        }
      }
      assert Split(ColumnList(numCols), ',') == defs;
      assert DecodeColumnList(ColumnList(numCols)) == DecodeColumns(defs);
    } else {
      assert defs == [];
      assert ColumnList(numCols) == "";
      assert seq(if numCols > 0 then numCols else 0, i => i + 1) == [];
    }
  }

  /** Reads the table name back from `TRUNCATE TABLE <t>;`. */
  function DecodeTruncate(s: string): Option<string>
  {
    Between(s, "TRUNCATE TABLE ", ";")
  }

  /** Reads the table name back from `DROP TABLE IF EXISTS <t>`. */
  function DecodeDrop(s: string): Option<string>
  {
    Between(s, "DROP TABLE IF EXISTS ", "")
  }

  /** The truncate statement gives back the table it was built for, whatever its name. */
  lemma TruncateRoundTrip(table: string)
    ensures DecodeTruncate(TruncateStatement(table)) == Some(table)
  {
    BetweenWrapped("TRUNCATE TABLE ", table, ";");
  }

  /** The drop statement gives back the table it was built for, whatever its name. */
  lemma DropRoundTrip(table: string)
    ensures DecodeDrop(DropStatement(table)) == Some(table)
  {
    BetweenWrapped("DROP TABLE IF EXISTS ", table, "");
    assert DropStatement(table) == "DROP TABLE IF EXISTS " + table + "";
  }

  /** Reads `<columns>) ENGINE=<e>`: the column numbers up to the first `)`, then the engine. */
  function DecodeColumnsEngine(rest: string): Option<(seq<int>, string)>
  {
    var close := FirstIndex(rest, ')');
    match Between(rest[close..], ") ENGINE=", "")
    case None => None
    case Some(engine) =>
      match DecodeColumnList(rest[..close])
      case None => None
      case Some(nums) => Some((nums, engine))
  }

  /** Reads `<t> (<columns>) ENGINE=<e>`: the table name ends at the first `(`. */
  function DecodeCreateBody(body: string): Option<(string, seq<int>, string)>
  {
    var open := FirstIndex(body, '(');
    if open == 0 || open == |body| || body[open - 1] != ' ' then None
    else
      match DecodeColumnsEngine(body[open + 1..])
      case None => None
      case Some(ce) => Some((body[..open - 1], ce.0, ce.1))
  }

  /** Reads `create table if not exists <t> (<columns>) ENGINE=<e>;` back into its table, column numbers and engine. */
  function DecodeCreate(s: string): Option<(string, seq<int>, string)>
  {
    match Between(s, "create table if not exists ", ";")
    case None => None
    case Some(body) => DecodeCreateBody(body)
  }

  /** The column list holds no parenthesis. */
  lemma ColumnListFree(numCols: int, ch: char)
    requires ch == '(' || ch == ')'
    ensures ch !in ColumnList(numCols)
  {
    var defs := ColumnDefs(numCols);
    forall k | 0 <= k < |defs|
      ensures ch !in defs[k]
    {
      IntToStrFree(k + 1, ch);
      assert ch !in "col" && ch !in " INT";
    }
    NotInJoin(defs, ",", ch);
  }

  /** The columns and engine part of the create statement reads back. */
  lemma ColumnsEngineRoundTrip(numCols: int, engine: string)
    ensures DecodeColumnsEngine(ColumnList(numCols) + ") ENGINE=" + engine)
         == Some((seq(if numCols > 0 then numCols else 0, i => i + 1), engine))
  {
    var cols := ColumnList(numCols);
    var tail := ") ENGINE=" + engine;
    var rest := cols + tail;
    assert ColumnList(numCols) + ") ENGINE=" + engine == rest;
    ColumnListFree(numCols, ')');
    FirstIndexAfter(cols, tail, ')');
    assert rest[..|cols|] == cols && rest[|cols|..] == tail;
    BetweenWrapped(") ENGINE=", engine, "");
    assert tail == ") ENGINE=" + engine + "";
    ColumnListRoundTrip(numCols);
  }

  /** The table name is read up to the first `(`, whatever follows it. */
  lemma CreateBodyOf(table: string, rest: string)
    requires '(' !in table
    ensures DecodeCreateBody(table + " (" + rest)
         == match DecodeColumnsEngine(rest)
            case None => None
            case Some(ce) => Some((table, ce.0, ce.1))
  {
    var body := table + " (" + rest;
    assert body == (table + " ") + (['('] + rest);
    assert '(' !in table + " ";
    FirstIndexAfter(table + " ", ['('] + rest, '(');
    var open := |table| + 1;
    assert body[open - 1] == ' ' && body[..open - 1] == table;
    assert body[open + 1..] == rest;
  }

  /**
   * The create statement gives back its table, the column numbers 1 to
   * num_cols in order (none when num_cols < 1) and its engine, for every
   * table name without `(` and every engine.
   */
  lemma CreateRoundTrip(table: string, numCols: int, engine: string)
    requires '(' !in table
    ensures DecodeCreate(CreateStatement(table, numCols, engine))
         == Some((table, seq(if numCols > 0 then numCols else 0, i => i + 1), engine))
  {
    var rest := ColumnList(numCols) + ") ENGINE=" + engine;
    var body := table + " (" + rest;
    assert CreateStatement(table, numCols, engine) == "create table if not exists " + body + ";";
    BetweenWrapped("create table if not exists ", body, ";");
    CreateBodyOf(table, rest);
    ColumnsEngineRoundTrip(numCols, engine);
  }
}
