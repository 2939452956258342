/**
 * What the DAO sees of a JDBC connection: the dialect it was classified as,
 * the connection's current schema, prepared statements with positionally bound
 * parameters, and a database that executes them.
 *
 * The database is a stand-in for the engine, whose behaviour is an input here:
 * which statements it rejects with an SQLException, what `execute()`
 * reports for a statement, and which rows a query returns. The one piece of engine
 * state the handler's logic depends on is the MySQL index catalog
 * (INFORMATION_SCHEMA.STATISTICS), which `ALTER TABLE ... ADD INDEX` extends.
 * Every statement that runs is appended to a log, so that what the DAO issues
 * can be stated exactly.
 */
module Jdbc {
  import opened Lang

  /** The product classification of a connection (AuditBaseDao's is...Database tests). */
  datatype Dialect = Generic | MySQL | Oracle | HSQL | SQLServer

  /** A value bound with setString, setTimestamp or setInt. */
  datatype Param = StringParam(s: JString) | TimestampParam(millis: int) | IntParam(n: int)

  /** A piece of statement text: literal text, or a `?` parameter marker. */
  datatype Chunk = Text(text: string) | Marker

  /** Statement text as the DAO assembles it: literal pieces and parameter markers. */
  type Sql = seq<Chunk>

  /** The text the driver receives: every marker becomes `?`. */
  function SqlText(q: Sql): string {
    if q == [] then "" else (if q[0].Text? then q[0].text else "?") + SqlText(q[1..])
  }

  /** The number of parameter markers. */
  function Markers(q: Sql): nat {
    if q == [] then 0 else (if q[0].Marker? then 1 else 0) + Markers(q[1..])
  }

  lemma {:induction false} MarkersConcat(a: Sql, b: Sql)
    ensures Markers(a + b) == Markers(a) + Markers(b)
  {
    if a != [] {
      assert (a + b)[0] == a[0] && (a + b)[1..] == a[1..] + b;
      MarkersConcat(a[1..], b);
    } else {
      assert a + b == b;
    }
  }

  /** A literal piece with no marker. */
  function Fixed(text: string): (q: Sql)
    ensures Markers(q) == 0
  {
    [Text(text)]
  }

  /** A literal piece followed by one marker. */
  function Bound(text: string): (q: Sql)
    ensures Markers(q) == 1
  {
    var q := [Text(text), Marker];
    assert q[1..][1..] == [];
    assert Markers(q[1..]) == 1;
    q
  }

  /** The number of `?` characters in a text. */
  function QuestionMarks(s: string): nat {
    multiset(s)['?']
  }

  /**
   * When no literal piece holds a `?` (the names spliced into it included),
   * the `?`s the driver finds in the text are exactly the markers.
   */
  lemma {:induction false} MarkersAreQuestionMarks(q: Sql)
    requires forall k :: 0 <= k < |q| && q[k].Text? ==> '?' !in q[k].text
    ensures QuestionMarks(SqlText(q)) == Markers(q)
  {
    if q != [] {
      MarkersAreQuestionMarks(q[1..]);
      var head := if q[0].Text? then q[0].text else "?";
      assert SqlText(q) == head + SqlText(q[1..]);
      assert multiset(SqlText(q)) == multiset(head) + multiset(SqlText(q[1..]));
    }
  }

  /** A prepared statement: its text and its parameters; `params[k]` is parameter k + 1. */
  datatype Statement = Statement(sql: Sql, params: seq<Param>) {
    function Text(): string {
      SqlText(sql)
    }
  }

  /** Every marker of the statement has a bound parameter, and no parameter lacks a marker. */
  predicate WellBound(st: Statement) {
    Markers(st.sql) == |st.params|
  }

  /** A row of an audit table as a result set presents it. */
  datatype Row = Row(
    identifier: JString,
    timestamp: int,
    actor: JString,
    origin: JString,
    action: JString,
    elements: JString)

  /** A row of the MySQL index catalog. */
  datatype IndexEntry = IndexEntry(schema: JString, table: string, name: string)

  /**
   * The catalog rows an index probe counts: same table and index name, and the
   * same schema when the probe filters on one.
   */
  function MatchingIndexes(catalog: set<IndexEntry>, table: string, name: string, schema: JString): set<IndexEntry> {
    set e | e in catalog && e.table == table && e.name == name && (schema.None? || e.schema == schema)
  }

  predicate HasIndex(catalog: set<IndexEntry>, table: string, name: string, schema: JString) {
    MatchingIndexes(catalog, table, name, schema) != {}
  }

  class Database {
    const dialect: Dialect
    /** `conn.getSchema()`. */
    const currentSchema: JString
    /**
     * The statements the engine rejects, each with the message of its
     * SQLException. A rejection may depend on the bound values as well as on
     * the text (a NULL bound to a NOT NULL column, say).
     */
    const rejected: map<Statement, string>
    /** What `execute()` returns for a statement (true when it yields a result set). */
    const reportsResultSet: Sql -> bool
    /** The rows `executeQuery()` returns for a statement. */
    const resultRows: Statement -> seq<Row>

    var indexes: set<IndexEntry>
    var executed: seq<Statement>

    constructor (dialect: Dialect, currentSchema: JString, rejected: map<Statement, string>,
                 reportsResultSet: Sql -> bool, resultRows: Statement -> seq<Row>,
                 indexes: set<IndexEntry>)
      ensures this.dialect == dialect && this.currentSchema == currentSchema
      ensures this.rejected == rejected && this.reportsResultSet == reportsResultSet
      ensures this.resultRows == resultRows
      ensures this.indexes == indexes && executed == []
    {
      this.dialect := dialect;
      this.currentSchema := currentSchema;
      this.rejected := rejected;
      this.reportsResultSet := reportsResultSet;
      this.resultRows := resultRows;
      this.indexes := indexes;
      executed := [];
    }

    /** `statement.execute()`. */
    method Execute(st: Statement) returns (r: Result<bool, Error>)
      modifies this
      ensures indexes == old(indexes)
      ensures st in rejected ==> r == Failure(SQLException(rejected[st])) && executed == old(executed)
      ensures st !in rejected ==> r == Success(reportsResultSet(st.sql)) && executed == old(executed) + [st]
    {
      if st in rejected {
        r := Failure(SQLException(rejected[st]));
      } else {
        executed := executed + [st];
        r := Success(reportsResultSet(st.sql));
      }
    }

    /** `statement.executeQuery()`, the rows in the order the result set yields them. */
    method ExecuteQuery(st: Statement) returns (r: Result<seq<Row>, Error>)
      modifies this
      ensures indexes == old(indexes)
      ensures st in rejected ==> r == Failure(SQLException(rejected[st])) && executed == old(executed)
      ensures st !in rejected ==> r == Success(resultRows(st)) && executed == old(executed) + [st]
    {
      if st in rejected {
        r := Failure(SQLException(rejected[st]));
      } else {
        executed := executed + [st];
        r := Success(resultRows(st));
      }
    }

    /** The `count(*)` an index probe `st` reads from the catalog. */
    method CountIndexes(st: Statement, table: string, name: string, schema: JString) returns (r: Result<nat, Error>)
      modifies this
      ensures indexes == old(indexes)
      ensures st in rejected ==> r == Failure(SQLException(rejected[st])) && executed == old(executed)
      ensures st !in rejected ==>
        r == Success(|MatchingIndexes(indexes, table, name, schema)|) && executed == old(executed) + [st]
    {
      if st in rejected {
        r := Failure(SQLException(rejected[st]));
      } else {
        executed := executed + [st];
        r := Success(|MatchingIndexes(indexes, table, name, schema)|);
      }
    }

    /** `execute()` of an `ALTER TABLE ... ADD INDEX` statement `st` that creates `entry`. */
    method AddIndex(st: Statement, entry: IndexEntry) returns (r: Result<bool, Error>)
      modifies this
      ensures st in rejected ==> r == Failure(SQLException(rejected[st])) && unchanged(this)
      ensures st !in rejected ==>
        && r == Success(reportsResultSet(st.sql))
        && executed == old(executed) + [st]
        && indexes == old(indexes) + {entry}
    {
      if st in rejected {
        r := Failure(SQLException(rejected[st]));
      } else {
        executed := executed + [st];
        indexes := indexes + {entry};
        r := Success(reportsResultSet(st.sql));
      }
    }
  }
}
