/**
 * The database connection of run.py, seen only through the calls the
 * benchmark makes on it: `cursor.execute`, `cursor.executemany` and
 * `conn.commit`. Each call is recorded, in order, on the connection's log;
 * what the server does with the statements is not modelled.
 */
module Trace {
  datatype Event =
    | Executed(sql: string, multi: bool)               // cursor.execute(sql) or cursor.execute(sql, multi=True)
    | ExecutedMany(sql: string, params: seq<seq<int>>) // cursor.executemany(sql, params)
    | Committed                                        // conn.commit()

  class Connection {
    /** Every call made on the connection so far, oldest first. */
    var log: seq<Event>

    constructor ()
      ensures log == []
    {
      log := [];
    }

    method Execute(sql: string, multi: bool)
      modifies this
      ensures log == old(log) + [Executed(sql, multi)]
    {
      log := log + [Executed(sql, multi)];
    }

    method ExecuteMany(sql: string, params: seq<seq<int>>)
      modifies this
      ensures log == old(log) + [ExecutedMany(sql, params)]
    {
      log := log + [ExecutedMany(sql, params)];
    }

    method Commit()
      modifies this
      ensures log == old(log) + [Committed]
    {
      log := log + [Committed];
    }
  }
}
