# A model of the MySQL bulk-insert benchmark

`run.py` times four ways of inserting an integer matrix into a MySQL table:
- one `INSERT` per row (`multipleSingleInsertionLoopQuery`);
- the same statements concatenated into one multi-statement `execute` (`multipleSingleInsertionWithOneQuery`);
- one multi-row `INSERT … VALUES (…),(…)` (`multipleInsertionWithOneQuery`);
- one `executemany` over a `%s` template (`executeManyQuery`).

Its main loop runs over the column counts. For each one it drops and recreates the table. Then, for each row count, it draws one matrix and runs every strategy on it, each after truncating the table.

This project models the part of that program that can be stated exactly:
- the SQL text every function builds;
- the calls it makes on the connection;
- the schedule of the main loop.

The connection is a class, `Trace.Connection`. It records each `cursor.execute`, `cursor.executemany` and `conn.commit` as an event in its `log` field. Every function of `run.py` is a method over that connection, and the loops stay loops. Each method is proved to append exactly the events of a specification function. The lemmas then state what those events carry:
- each piece of SQL text decodes back to the values it was built from (round trips);
- the separator and terminator counts;
- the order of the calls;
- the shape of the sweep.

Modules and their files:
- `Wrappers` (`wrappers.dfy`): `Option`.
- `Text` (`text.dfy`): sequence operations that stand for Python's `''.join`, `sep.join` and `str.split`, plus the lemmas about them.
- `Decimal` (`decimal.dfy`): Python's `str` on integers, with a parser as its inverse.
- `Sql` (`sql.dfy`): the statement builders and a decoder beside each one.
- `Trace` (`trace.dfy`): the connection and its events.
- `Strategies` and `StrategyProperties` (`strategies.dfy`): the four strategies, `clearTable`, `createTable` and `dropTable`.
- `Sweep` (`sweep.dfy`): the main loop as three nested loops, proved to follow the step schedule `SweepSteps`.
- `SweepProperties` (`sweep_properties.dfy`): the schedule's length and positions, the timing lines, and the table's column count along the sweep.

Python's integers, and numpy's values, are modelled as unbounded `int`. `str` of a negative value carries a leading `-`, and the round trips hold for every integer, not only for the `[1, 1000)` values the benchmark draws.

## Model

| member | source | states |
|---|---|---|
| Decimal.IntToStr | run.py:15 | `str(x)` is nonempty and made of decimal digits, with a leading `-` exactly when `x` is negative, and with no leading zero: it starts with `0` only when it is `"0"`, and a negative numeral's first digit is not `0` |
| Decimal.IntToStrRoundTrip | run.py:15 | reading the text of `str(x)` back as a decimal gives `x`, for every integer |
| Sql.RowLiteralShape | run.py:15 | a row literal opens with `(`, ends with its only `)`, holds no `;` and has one comma fewer than the row has values; its interior splits on `,` into `str` of each value in order |
| Sql.RowLiteralRoundTrip | run.py:15 | decoding `"(" + ",".join(map(str, d)) + ")"` gives back `d`, including the empty row |
| Sql.InsertStatementRoundTrip | run.py:16 | the row is recovered from `INSERT INTO <table> VALUES <literal>;` |
| Sql.InsertStatementTerminated | run.py:16 | for a table name without `;`, the statement ends with `;` and holds no other `;` |
| Sql.ScriptRoundTrip | run.py:26-30 | for a `;`-free table name, the concatenated script holds one `;` per row; cutting it after each `;` gives the per-row statements in order, and it decodes back to the rows |
| Sql.MultiRowRoundTrip | run.py:49-53 | the multi-row `INSERT` decodes back to the rows in order; it holds no `;` when the table name holds none, and ends with `)` when there is a row |
| Sql.ManyTemplateShape | run.py:66-67 | the template is `INSERT INTO <table> VALUES (` + placeholders + `)`, where the placeholders are `c` copies of `%s` with `c - 1` commas, and empty when `c` is 0 |
| Sql.ColumnListRoundTrip | run.py:84 | the column list decodes to the numbers 1 to `num_cols` in order (none when `num_cols < 1`), with `num_cols - 1` commas |
| Sql.TruncateRoundTrip | run.py:76 | a decoder given only the text reads the table name back from `TRUNCATE TABLE <t>;`, for every table name |
| Sql.DropRoundTrip | run.py:91 | a decoder given only the text reads the table name back from `DROP TABLE IF EXISTS <t>`, for every table name |
| Sql.CreateRoundTrip | run.py:84-85 | a decoder given only the text reads `create table if not exists <t> (<columns>) ENGINE=<engine>;` back into the table, the column numbers 1 to `num_cols` in order (none when `num_cols < 1`) and the engine, for a table name without `(` |
| Trace.Connection.Execute | run.py:17 | `cursor.execute(sql, multi)` appends one execute event with that text and flag |
| Trace.Connection.ExecuteMany | run.py:68 | `cursor.executemany(sql, rows)` appends one event with that template and those rows |
| Trace.Connection.Commit | run.py:18 | `conn.commit()` appends one commit event |
| Strategies.MultipleSingleInsertionLoopQuery | run.py:8-18 | the loop makes one `INSERT … VALUES <literal>;` execute per row, in row order, then commits |
| Strategies.MultipleSingleInsertionWithOneQuery | run.py:20-32 | the loop collects the statements; one `execute` with `multi=True` sends their concatenation; one commit follows |
| Strategies.MultipleInsertionWithOneQuery | run.py:34-55 | the loop collects the row literals; one `execute` sends them comma-joined after `INSERT INTO <table> VALUES `; one commit follows |
| Strategies.ExecuteManyQuery | run.py:57-69 | one `executemany` of the template with the matrix's column count of placeholders, over the rows, then a commit |
| Strategies.RunStrategy | run.py:146 | `func(conn, table, data)` makes exactly the calls of the chosen strategy |
| Strategies.ClearTable | run.py:71-77 | executes `TRUNCATE TABLE <table>;`, then commits |
| Strategies.CreateTable | run.py:79-87 | executes the create statement for `num_cols` columns (default 10) and the engine (default `INNODB`), then commits |
| Strategies.DropTable | run.py:89-92 | executes `DROP TABLE IF EXISTS <table>`, then commits |
| StrategyProperties.StrategyCarriesRows | run.py:8-69 | for a well-shaped matrix, decoding every call of any strategy recovers exactly the matrix's rows, in order; only the multi-statement strategy needs a table name without `;` |
| StrategyProperties.StrategyCallCounts | run.py:8-69 | the row-by-row strategy makes one call per row and the other three make one call; each ends with its only commit |
| StrategyProperties.ScriptIsLoopConcatenated | run.py:26-31 | the multi-statement text is the concatenation, with no separator, of the texts the row-by-row strategy executes |
| Sweep.RunTrial | run.py:143-149 | for each strategy of `func_list` in order: truncate, then run it on the matrix; one measurement per strategy |
| Sweep.RunRows | run.py:139-149 | for each row count in order, runs a trial on the matrix drawn for it |
| Sweep.RunColumn | run.py:136-149 | drops the table, creates it with `c` columns, then runs every row count |
| Sweep.RunSweep | run.py:136-149 | the whole loop makes exactly the calls of `SweepSteps`, and records exactly its measurements |
| SweepProperties.SweepLength | run.py:136-149 | the sweep makes `2 + 8·len(nums)` calls per column count, and records `len(cols)·len(nums)·4` timing lines |
| SweepProperties.SweepStepAt | run.py:136-146 | at block `ci`: drop, create with `cols[ci]` columns, then for row count `ni` and strategy `si`, a truncate followed by that strategy on the matrix drawn for `(ci, ni)` |
| SweepProperties.RunPosition | run.py:136-146 | every timed call sits at such a (column count, row count, strategy) position |
| SweepProperties.SweepMeasured | run.py:136-149 | the recorded measurements are the timing lines of three nested loops over column counts, row counts and `func_list`, whatever the drawn data |
| SweepProperties.TimingLineAt | run.py:136-149 | timing line `ci·4·len(nums) + 4·ni + si` names strategy `si`, `nums[ni]` records and `cols[ci]` columns |
| SweepProperties.DropsPerColumn | run.py:136-137 | the table is dropped exactly once per column count |
| SweepProperties.Rebuilt | run.py:137-138 | dropping and then creating leaves a table of exactly `c` columns, whatever existed before, and no table when `c` is 0 (the empty column list creates nothing) |
| SweepProperties.RunPrepared | run.py:136-146 | every timed call comes right after a truncate, on a table that exists with as many columns as the loop's column count `c`, whatever table the sweep started from; when `c` is 0 there is no table |
| SweepProperties.RunShaped | run.py:141-146 | with well-shaped draws, every timed call gets an `(n, c)` matrix of its own counts; its calls carry exactly that matrix's rows (for the multi-statement strategy, when the table name holds no `;`); and the table it inserts into has as many columns as the matrix is wide, or does not exist when that width is 0 |

## Left out

- The MySQL connector: `connect`, cursor creation, `conn.close` and the statements' execution on the server are left out (run.py:3, run.py:124-130, run.py:151). The cursor is folded into the connection, which records the calls made on it.
- What the server stores is left out. The only server-side state modelled is the table's column count, as the DDL text states it (`SweepProperties.StepColumns`). How the connector runs a `multi=True` execute is not modelled either: the model records the call.
- Argument parsing (run.py:95-100) and `config.json` (run.py:103, run.py:114-121) are left out. The table name, the column counts and the row counts are parameters.
- RunSweep: column and row counts are natural numbers. The command line accepts negative integers: `np.random.randint` rejects a negative row count, and `createTable` with a count below 1 builds an empty column list. `Sql.ColumnDefs` models that last case for any integer. A count of 0 is a natural number the model accepts, but the program cannot get past it. A column count of 0 sends `create table if not exists <t> () ENGINE=…;`, and a row count of 0 makes `multipleInsertionWithOneQuery` send `INSERT INTO <t> VALUES ` with no tuple. MySQL rejects both statements, and the main loop has no `try`, so the program stops there. The model records the rest of the schedule as if every call returned. In the column-count model a create with 0 columns leaves no table (`SweepProperties.StepColumns`). What the server does with an insert that has no tuple is not modelled.
- `np.random.randint` (run.py:141) is replaced by the parameter `draws`. `draws(i, j)` is the matrix for the `i`-th column count and the `j`-th row count. The value range `[1, 1000)` is not required, because every property holds for all integers.
- `time.time()` and the printed elapsed seconds (run.py:145-149) are left out. Each timed call records a `Measurement` of the strategy, the row count and the column count, without the seconds.
- numpy's fixed-width integers are modelled as unbounded integers. `str` and `data.tolist()` give the same decimal text and values for them.
- The failure paths (connector errors, a failed statement) are left out, because the code does not handle any of them. The connection is closed only on the normal path (run.py:151); the code has no `try`/`finally`.
