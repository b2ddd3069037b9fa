/** DatabaseConnector: a sqlite connection and cursor held in two fields that open sets and
    close clears, and the CREATE TABLE statement create_table sends. The sqlite library is
    external; what the connector asks of it is recorded as a log of effects. */
module DatabaseConnector {
  import opened PyValues

  /** A connection to a database file, and a cursor on it. */
  datatype Connection = Connection(path: string)
  datatype Cursor = Cursor(path: string)

  /** One request the connector makes of sqlite. */
  datatype Effect =
    | Connect(path: string)
    | CloseCursor
    | Commit
    | CloseConnection
    | Execute(sql: string)

  /** What close asks of sqlite, given the cursor and connection it finds: the cursor is closed
      first, then the connection is committed and closed. */
  function CloseEffects(c: Option<Cursor>, conn: Option<Connection>): (e: seq<Effect>)
    ensures c.Nothing? && conn.Nothing? <==> e == []
    ensures conn.Some? ==> |e| >= 2 && e[|e| - 2..] == [Commit, CloseConnection]
    ensures c.Some? ==> e[0] == CloseCursor
    ensures Commit in e <==> conn.Some?
  {
    (if c.Some? then [CloseCursor] else []) + (if conn.Some? then [Commit, CloseConnection] else [])
  }

  /** ", ".join(f"{name} {type}" for each column) */
  function ColumnList(columns: seq<(string, string)>): string {
    Join(", ", seq(|columns|, k requires 0 <= k < |columns| => columns[k].0 + " " + columns[k].1))
  }

  /** Columns are rendered in order: one more column adds ", name type" at the end. */
  lemma ColumnListAppend(columns: seq<(string, string)>, column: (string, string))
    requires |columns| >= 1
    ensures ColumnList(columns + [column]) == ColumnList(columns) + ", " + column.0 + " " + column.1
  {
    var parts := seq(|columns|, k requires 0 <= k < |columns| => columns[k].0 + " " + columns[k].1);
    var cs := columns + [column];
    var all := seq(|cs|, k requires 0 <= k < |cs| => cs[k].0 + " " + cs[k].1);
    assert all == parts + [column.0 + " " + column.1];
    JoinAppend(", ", parts, column.0 + " " + column.1);
  }

  /** A single column is rendered as "name type", with no separator. */
  lemma ColumnListSingle(column: (string, string))
    ensures ColumnList([column]) == column.0 + " " + column.1
  {
  }

  /** "CREATE TABLE {tablename} ({column_str})" */
  function CreateTableSql(tablename: string, columns: seq<(string, string)>): (sql: string)
    ensures var head := "CREATE TABLE " + tablename + " (";
            && |sql| == |head| + |ColumnList(columns)| + 1
            && sql[..|head|] == head
            && sql[|head|..|sql| - 1] == ColumnList(columns)
            && sql[|sql| - 1] == ')'
  {
    var head := "CREATE TABLE " + tablename + " (";
    var sql := head + ColumnList(columns) + ")";
    assert sql[..|head|] == head;
    assert sql[|head|..|sql| - 1] == ColumnList(columns);
    sql
  }

  class DatabaseConnector {
    const dbname: string
    var conn: Option<Connection>
    var c: Option<Cursor>
    /** every request made of sqlite so far, oldest first */
    var effects: seq<Effect>

    /** The path open connects to. */
    function Path(): string
      reads this
    {
      "db/" + dbname
    }

    constructor (dbname: string)
      ensures this.dbname == dbname && conn == Nothing && c == Nothing && effects == []
    {
      this.dbname := dbname;
      conn := Nothing;
      c := Nothing;
      effects := [];
    }

    /** Connects to db/<dbname> and takes a cursor; a connection already open is replaced
        without being closed. */
    method Open()
      modifies this
      ensures conn == Some(Connection(Path())) && c == Some(Cursor(Path()))
      ensures effects == old(effects) + [Connect(Path())]
    {
      conn := Some(Connection(Path()));
      c := Some(Cursor(Path()));
      effects := effects + [Connect(Path())];
    }

    /** Closes what is open, committing before closing the connection, and clears both fields
        whatever they held. */
    method Close()
      modifies this
      ensures conn == Nothing && c == Nothing
      ensures effects == old(effects) + CloseEffects(old(c), old(conn))
    {
      if c.Some? {
        effects := effects + [CloseCursor];
      }
      if conn.Some? {
        effects := effects + [Commit];
        effects := effects + [CloseConnection];
      }
      c := Nothing;
      conn := Nothing;
    }

    /** Sends the CREATE TABLE statement through the cursor; with no cursor (never opened, or
        closed) the attribute lookup on None raises AttributeError and nothing is sent. */
    method CreateTable(tablename: string, columns: seq<(string, string)>) returns (r: Outcome)
      modifies this
      ensures c == old(c) && conn == old(conn)
      ensures old(c).Nothing? ==> r == Raise(AttributeError) && effects == old(effects)
      ensures old(c).Some? ==> r == Pass && effects == old(effects) + [Execute(CreateTableSql(tablename, columns))]
    {
      if c.Nothing? {
        return Raise(AttributeError);
      }
      effects := effects + [Execute(CreateTableSql(tablename, columns))];
      r := Pass;
    }
  }

  /** Closing twice asks nothing more of sqlite the second time: close is idempotent. */
  method CloseTwice(d: DatabaseConnector)
    modifies d
    ensures d.conn == Nothing && d.c == Nothing
    ensures d.effects == old(d.effects) + CloseEffects(old(d.c), old(d.conn))
  {
    d.Close();
    d.Close();
  }
}
