/**
 * AuditLogDaoImpl: the data-access object bound to one (schema, table) pair.
 * It provisions its table for the connection's dialect when it is built,
 * inserts events with a six-parameter prepared statement, and reads events
 * back by actor where the dialect supports it (MySQL only).
 *
 * The SQL texts are functions of (dialect, schema, table); the DDL is a small
 * syntax tree rendered to the exact text the DAO sends. The statements that
 * run are recorded by the database stand-in of module Jdbc.
 */
module AuditLogDao {
  import opened Lang
  import opened Events
  import opened Jdbc

  const TableNameMessage: string := "Table name must not be empty"

  /** The wrapping every SQLException gets: a HandlerException "SQL Exception". */
  function SqlFailure(e: Error): Error {
    HandlerException("SQL Exception", e)
  }

  /** A failure of the DAO's own: an SQLException wrapped by `SqlFailure`. */
  predicate IsSqlFailure(e: Error) {
    e.HandlerException? && e == SqlFailure(e.cause) && e.cause.SQLException?
  }

  // ---------------------------------------------------------------------
  // Table reference and the insert statement
  // ---------------------------------------------------------------------

  /** `tableNameWithSchema`: `schema.table` when the schema is non-empty. */
  function TableRef(schema: JString, table: string): string {
    if !IsEmpty(schema) then schema.value + "." + table else table
  }

  /** Column names joined by ", ". */
  function NameList(names: seq<string>): string {
    if |names| == 0 then ""
    else if |names| == 1 then names[0]
    else names[0] + ", " + NameList(names[1..])
  }

  /** The insert's column list: the table's columns, in the order the DDL declares them. */
  const InsertColumns: string := "(" + NameList(LogicalColumns) + ")"

  /**
   * The insert built once at construction: the same table reference as the
   * DDL, the six columns, and one marker per column.
   */
  function InsertQuery(schema: JString, table: string): (q: Sql)
    ensures Markers(q) == |LogicalColumns|
  {
    var first := Bound("insert into " + TableRef(schema, table) + InsertColumns + " values (");
    var next := Bound(", ");
    MarkersConcat(first, next);
    MarkersConcat(first + next, next);
    MarkersConcat(first + next + next, next);
    MarkersConcat(first + next + next + next, next);
    MarkersConcat(first + next + next + next + next, next);
    MarkersConcat(first + next + next + next + next + next, Fixed(")"));
    first + next + next + next + next + next + Fixed(")")
  }

  /** Parameters 1..6 of the insert: uuid text, timestamp, actor, origin, action, encoded fields. */
  function WriteParams(e: AuditEvent, encode: seq<Field> -> string): (ps: seq<Param>)
    ensures |ps| == |LogicalColumns|
  {
    [ StringParam(Some(LongToString(e.uuid))),
      TimestampParam(e.timestamp),
      StringParam(e.actor),
      StringParam(e.origin),
      StringParam(e.action),
      StringParam(Some(encode(e.fields))) ]
  }

  /** The row an insert stores: its parameters, column by column, in the insert's column order. */
  function StoredRow(ps: seq<Param>): Option<Row> {
    if |ps| == 6 && ps[0].StringParam? && ps[1].TimestampParam? && ps[2].StringParam?
       && ps[3].StringParam? && ps[4].StringParam? && ps[5].StringParam?
    then Some(Row(ps[0].s, ps[1].millis, ps[2].s, ps[3].s, ps[4].s, ps[5].s))
    else None
  }

  // ---------------------------------------------------------------------
  // Decoding rows on the read path
  // ---------------------------------------------------------------------

  /**
   * One result row back to an event: the fields are decoded first (the
   * decoder gives null for a NULL `elements` and, as Gson does, for texts such
   * as "" or "null"; then `fields.size()` throws), then the identifier is
   * parsed with `Long.valueOf`. The repository is not stored, so it comes
   * back null.
   */
  function DecodeRow(row: Row, decode: string -> Option<seq<Field>>): Result<AuditEvent, Error> {
    var fields := if row.elements.None? then None else decode(row.elements.value);
    if fields.None? then Failure(NullPointerException("fields"))
    else
      var uuid := ParseLong(row.identifier);
      if uuid.None? then Failure(NumberFormatException(Str(row.identifier)))
      else Success(AuditEvent(uuid.value, row.timestamp, row.actor, row.origin, row.action,
                              fields.value, None))
  }

  /**
   * Writing an event and reading back the row the insert stored gives the same
   * event (its repository aside), provided the field codec round-trips.
   */
  lemma WriteThenRead(e: AuditEvent, encode: seq<Field> -> string, decode: string -> Option<seq<Field>>)
    requires decode(encode(e.fields)) == Some(e.fields)
    ensures StoredRow(WriteParams(e, encode)).Some?
    ensures DecodeRow(StoredRow(WriteParams(e, encode)).value, decode) == Success(e.(repository := None))
  {
    LongRoundTrip(e.uuid);
  }

  /** `events` are the rows decoded one by one, in row order. */
  predicate DecodedAll(events: seq<AuditEvent>, rows: seq<Row>, decode: string -> Option<seq<Field>>) {
    |events| == |rows|
    && forall k :: 0 <= k < |rows| ==> DecodeRow(rows[k], decode) == Success(events[k])
  }

  /** `e` is what decoding the first row that cannot be decoded throws. */
  predicate FirstFailure(e: Error, rows: seq<Row>, decode: string -> Option<seq<Field>>) {
    exists j :: 0 <= j < |rows| && DecodeRow(rows[j], decode) == Failure(e)
      && forall k :: 0 <= k < j ==> DecodeRow(rows[k], decode).Success?
  }

  /** The `while (rs.next())` loop: one event per row, in row order, stopping at the first row that fails. */
  method DecodeResultSet(rows: seq<Row>, decode: string -> Option<seq<Field>>) returns (r: Result<seq<AuditEvent>, Error>)
    ensures r.Success? <==> forall k :: 0 <= k < |rows| ==> DecodeRow(rows[k], decode).Success?
    ensures r.Success? ==> DecodedAll(r.value, rows, decode)
    ensures r.Failure? ==> FirstFailure(r.error, rows, decode)
  {
    var events: seq<AuditEvent> := [];
    var i := 0;
    while i < |rows|
      invariant 0 <= i <= |rows| && |events| == i
      invariant forall k :: 0 <= k < i ==> DecodeRow(rows[k], decode) == Success(events[k])
    {
      var event := DecodeRow(rows[i], decode);
      if event.Failure? {
        return Failure(event.error);
      }
      events := events + [event.value];
      i := i + 1;
    }
    r := Success(events);
  }

  // ---------------------------------------------------------------------
  // Create-table DDL, per dialect
  // ---------------------------------------------------------------------

  datatype ColumnDef = ColumnDef(name: string, sqlType: string, notNull: bool)

  /** How a dialect keeps the create from failing when the table exists. */
  datatype Guard = Unguarded | IfNotExists | IfObjectIdNull

  datatype CreateTable = CreateTable(guard: Guard, ref: string, columns: seq<ColumnDef>)

  /** The columns of every audit table, in the order the insert lists them. */
  const LogicalColumns: seq<string> := ["identifier", "timestamp", "actor", "origin", "action", "elements"]

  function StringType(d: Dialect): string {
    if d == Oracle then "VARCHAR2(200)" else "VARCHAR(200)"
  }

  function TimestampType(d: Dialect): string {
    if d == SQLServer then "DATETIME" else "TIMESTAMP"
  }

  function ElementsType(d: Dialect): string {
    match d
    case HSQL => "LONGVARCHAR"
    case MySQL => "TEXT"
    case SQLServer => "TEXT"
    case Generic => "VARCHAR(70000)"
    case Oracle => "CLOB"
  }

  /** Every dialect declares the same six columns in the same order; only origin and elements may be NULL. */
  function Columns(d: Dialect): (cs: seq<ColumnDef>)
    ensures |cs| == |LogicalColumns|
    ensures forall i :: 0 <= i < |cs| ==> cs[i].name == LogicalColumns[i]
    ensures forall i :: 0 <= i < |cs| ==> (cs[i].notNull <==> cs[i].name != "origin" && cs[i].name != "elements")
  {
    [ ColumnDef("identifier", StringType(d), true),
      ColumnDef("timestamp", TimestampType(d), true),
      ColumnDef("actor", StringType(d), true),
      ColumnDef("origin", StringType(d), false),
      ColumnDef("action", StringType(d), true),
      ColumnDef("elements", ElementsType(d), false) ]
  }

  /** The create for a dialect: guarded for every dialect but Oracle, whose create is never sent. */
  function CreateTableFor(d: Dialect, ref: string): (t: CreateTable)
    ensures t.ref == ref && t.columns == Columns(d)
    ensures t.guard == Unguarded <==> d == Oracle
    ensures t.guard == IfObjectIdNull <==> d == SQLServer
  {
    var guard := match d
      case Oracle => Unguarded
      case SQLServer => IfObjectIdNull
      case _ => IfNotExists;
    CreateTable(guard, ref, Columns(d))
  }

  function ColumnText(c: ColumnDef): string {
    c.name + " " + c.sqlType + (if c.notNull then " NOT NULL" else "")
  }

  /** The column definitions joined by commas. */
  function ColumnList(cs: seq<ColumnDef>): string {
    if |cs| == 0 then ""
    else if |cs| == 1 then ColumnText(cs[0])
    else ColumnText(cs[0]) + "," + ColumnList(cs[1..])
  }

  function Render(t: CreateTable): string {
    var body := " (" + ColumnList(t.columns) + ");";
    match t.guard
    case Unguarded => "create table " + t.ref + body
    case IfNotExists => "create table if not exists " + t.ref + body
    case IfObjectIdNull => " IF OBJECT_ID(N'" + t.ref + "', N'U') IS NULL BEGIN " + "create table " + t.ref + body + " END "
  }

  function CreateStatement(d: Dialect, ref: string): Statement {
    Statement([Text(Render(CreateTableFor(d, ref)))], [])
  }

  /** The Oracle existence probe; the table name is spliced into the text. */
  function OracleProbe(table: string): Statement {
    Statement([Text("select count(*) from all_tables where table_name = upper('" + table + "')")], [])
  }

  // ---------------------------------------------------------------------
  // MySQL indexes
  // ---------------------------------------------------------------------

  /** The schema the index code uses: the DAO's own, or else the connection's. */
  function IndexSchema(schemaName: JString, currentSchema: JString): JString {
    if schemaName.Some? then schemaName else currentSchema
  }

  /** `[schema_]table_column_IDX`. */
  function IndexName(schema: JString, table: string, column: string): string {
    (if schema.Some? then schema.value + "_" else "") + table + "_" + column + "_IDX"
  }

  /** The two indexes a DAO creates never share a name. */
  lemma IndexNamesDistinct(schema: JString, table: string)
    ensures IndexName(schema, table, "actor") != IndexName(schema, table, "timestamp")
  {
    var a := IndexName(schema, table, "actor");
    var t := IndexName(schema, table, "timestamp");
    var pre := (if schema.Some? then schema.value + "_" else "") + table + "_";
    assert a == pre + "actor_IDX" && t == pre + "timestamp_IDX";
    assert |a| != |t|;
  }

  function AddIndexStatement(schema: JString, table: string, column: string, order: JString): Statement {
    var target := (if schema.Some? then schema.value + "." else "") + table;
    var direction := if order.Some? then order.value else "ASC";
    Statement([Text("ALTER TABLE " + target + " ADD INDEX `" + IndexName(schema, table, column) + "` (`"
                    + column + "` " + direction + ")")], [])
  }

  const ProbeSelect: string := " SELECT count(*) AS count FROM INFORMATION_SCHEMA.STATISTICS WHERE "

  /**
   * The catalog probe: table and index name bound as parameters 1 and 2, the
   * schema as parameter 3 exactly when there is one; markers and bound
   * parameters always agree.
   */
  function IndexProbe(schema: JString, table: string, indexName: string): (st: Statement)
    ensures WellBound(st)
    ensures |st.params| == (if schema.Some? then 3 else 2)
    ensures st.params[0] == StringParam(Some(table)) && st.params[1] == StringParam(Some(indexName))
    ensures schema.Some? ==> st.params[2] == StringParam(schema)
  {
    var names := Bound(ProbeSelect + " TABLE_NAME = ") + Bound(" AND INDEX_NAME = ") + Fixed(" ");
    var schemaFilter := if schema.Some? then Bound(" AND TABLE_SCHEMA = ") + Fixed(" ") else [];
    MarkersConcat(Bound(ProbeSelect + " TABLE_NAME = "), Bound(" AND INDEX_NAME = "));
    MarkersConcat(Bound(ProbeSelect + " TABLE_NAME = ") + Bound(" AND INDEX_NAME = "), Fixed(" "));
    MarkersConcat(Bound(" AND TABLE_SCHEMA = "), Fixed(" "));
    MarkersConcat(names, schemaFilter);
    var params := [StringParam(Some(table)), StringParam(Some(indexName))]
                  + (if schema.Some? then [StringParam(schema)] else []);
    Statement(names + schemaFilter, params)
  }

  /** The catalog after `createMysqlIndex`: the index is added unless the probe finds it. */
  function WithIndex(catalog: set<IndexEntry>, schema: JString, table: string, column: string): set<IndexEntry> {
    var name := IndexName(schema, table, column);
    if HasIndex(catalog, table, name, schema) then catalog else catalog + {IndexEntry(schema, table, name)}
  }

  /** The statements `createMysqlIndex` runs: the probe, then the ALTER only if the probe found nothing. */
  function IndexStatements(catalog: set<IndexEntry>, schema: JString, table: string, column: string, order: JString): seq<Statement> {
    var name := IndexName(schema, table, column);
    [IndexProbe(schema, table, name)]
    + (if HasIndex(catalog, table, name, schema) then [] else [AddIndexStatement(schema, table, column, order)])
  }

  /** After `createMysqlIndex` the probe for that index finds it, and earlier indexes stay. */
  lemma WithIndexHasIndex(catalog: set<IndexEntry>, schema: JString, table: string, column: string)
    ensures catalog <= WithIndex(catalog, schema, table, column)
    ensures HasIndex(WithIndex(catalog, schema, table, column), table, IndexName(schema, table, column), schema)
  {
    var name := IndexName(schema, table, column);
    if !HasIndex(catalog, table, name, schema) {
      var e := IndexEntry(schema, table, name);
      assert e in MatchingIndexes(catalog + {e}, table, name, schema);
    }
  }

  /** When the probe finds the index, `createMysqlIndex` runs the probe alone and the catalog stays. */
  lemma PresentIndexIsKept(catalog: set<IndexEntry>, schema: JString, table: string, column: string, order: JString)
    requires HasIndex(catalog, table, IndexName(schema, table, column), schema)
    ensures WithIndex(catalog, schema, table, column) == catalog
    ensures IndexStatements(catalog, schema, table, column, order) == [IndexProbe(schema, table, IndexName(schema, table, column))]
  {
  }

  lemma HasIndexMonotone(c: set<IndexEntry>, c': set<IndexEntry>, table: string, name: string, schema: JString)
    requires c <= c' && HasIndex(c, table, name, schema)
    ensures HasIndex(c', table, name, schema)
  {
    var e :| e in MatchingIndexes(c, table, name, schema);
    assert e in MatchingIndexes(c', table, name, schema);
  }

  /** The engine accepts every statement of `log`: none of them is rejected. */
  predicate Accepts(db: Database, log: seq<Statement>) {
    forall st :: st in log ==> st !in db.rejected
  }

  // ---------------------------------------------------------------------
  // Provisioning as a whole
  // ---------------------------------------------------------------------

  /** The statements of the two `createMysqlIndex` calls: actor ascending, then timestamp descending. */
  function MysqlIndexLog(catalog: set<IndexEntry>, schema: JString, table: string): seq<Statement> {
    IndexStatements(catalog, schema, table, "actor", Some("ASC"))
    + IndexStatements(WithIndex(catalog, schema, table, "actor"), schema, table, "timestamp", Some("DESC"))
  }

  /** The index catalog after the two `createMysqlIndex` calls. */
  function MysqlIndexCatalog(catalog: set<IndexEntry>, schema: JString, table: string): set<IndexEntry> {
    WithIndex(WithIndex(catalog, schema, table, "actor"), schema, table, "timestamp")
  }

  /**
   * Every statement `createTableIfNotExists` runs, given the index catalog it
   * starts from. Oracle runs only its probe: the create text it builds is
   * never executed.
   */
  function ProvisionLog(d: Dialect, catalog: set<IndexEntry>, schemaName: JString, currentSchema: JString, table: string): seq<Statement> {
    if d == Oracle then [OracleProbe(table)]
    else
      [CreateStatement(d, TableRef(schemaName, table))]
      + (if d == MySQL then MysqlIndexLog(catalog, IndexSchema(schemaName, currentSchema), table) else [])
  }

  /** The index catalog after provisioning: only MySQL touches it. */
  function ProvisionCatalog(d: Dialect, catalog: set<IndexEntry>, schemaName: JString, currentSchema: JString, table: string): set<IndexEntry> {
    if d == MySQL then MysqlIndexCatalog(catalog, IndexSchema(schemaName, currentSchema), table) else catalog
  }

  /**
   * A proof step of `CreateTableIfNotExists`, not a property of its own:
   * outside Oracle the provisioning log, appended to a log, regroups as the
   * guarded create followed by the index statements, the shape in which
   * `CreateGuardedTable` states its log.
   */
  lemma GuardedProvisionLog(log: seq<Statement>, d: Dialect, catalog: set<IndexEntry>, schemaName: JString,
                            currentSchema: JString, table: string)
    requires d != Oracle
    ensures log + ProvisionLog(d, catalog, schemaName, currentSchema, table)
         == log + [CreateStatement(d, TableRef(schemaName, table))]
            + (if d == MySQL then MysqlIndexLog(catalog, IndexSchema(schemaName, currentSchema), table) else [])
  {
  }

  /**
   * Provisioning again (a restart) changes nothing in the catalog and creates
   * no index: on MySQL it runs the guarded create and the two probes only.
   * Every statement it runs was already run by the first provisioning.
   */
  lemma ProvisionIdempotent(d: Dialect, catalog: set<IndexEntry>, schemaName: JString, currentSchema: JString, table: string)
    ensures var c' := ProvisionCatalog(d, catalog, schemaName, currentSchema, table);
      && ProvisionCatalog(d, c', schemaName, currentSchema, table) == c'
      && (forall st :: st in ProvisionLog(d, c', schemaName, currentSchema, table) ==>
            st in ProvisionLog(d, catalog, schemaName, currentSchema, table))
      && (d == MySQL ==>
            var s := IndexSchema(schemaName, currentSchema);
            ProvisionLog(d, c', schemaName, currentSchema, table) ==
              [ CreateStatement(d, TableRef(schemaName, table)),
                IndexProbe(s, table, IndexName(s, table, "actor")),
                IndexProbe(s, table, IndexName(s, table, "timestamp")) ])
  {
    if d == MySQL {
      var s := IndexSchema(schemaName, currentSchema);
      var c1 := WithIndex(catalog, s, table, "actor");
      var c' := WithIndex(c1, s, table, "timestamp");
      WithIndexHasIndex(catalog, s, table, "actor");
      WithIndexHasIndex(c1, s, table, "timestamp");
      HasIndexMonotone(c1, c', table, IndexName(s, table, "actor"), s);
      PresentIndexIsKept(c', s, table, "actor", Some("ASC"));
      PresentIndexIsKept(c', s, table, "timestamp", Some("DESC"));
      var create := CreateStatement(d, TableRef(schemaName, table));
      var first := IndexStatements(catalog, s, table, "actor", Some("ASC"));
      var second := IndexStatements(c1, s, table, "timestamp", Some("DESC"));
      assert ProvisionLog(d, catalog, schemaName, currentSchema, table) == [create] + (first + second);
      assert first[0] == IndexProbe(s, table, IndexName(s, table, "actor"));
      assert second[0] == IndexProbe(s, table, IndexName(s, table, "timestamp"));
    }
  }

  /**
   * Provisioning twice never fails on the second run: when the engine accepted
   * every statement of the first provisioning, it accepts the second one too.
   */
  lemma ReprovisionAccepted(db: Database, catalog: set<IndexEntry>, schemaName: JString, table: string)
    requires Accepts(db, ProvisionLog(db.dialect, catalog, schemaName, db.currentSchema, table))
    ensures Accepts(db, ProvisionLog(db.dialect, ProvisionCatalog(db.dialect, catalog, schemaName, db.currentSchema, table),
                                     schemaName, db.currentSchema, table))
  {
    ProvisionIdempotent(db.dialect, catalog, schemaName, db.currentSchema, table);
  }

  // ---------------------------------------------------------------------
  // Reading by actor
  // ---------------------------------------------------------------------

  /** The capability the read path checks: only MySQL has a query. */
  predicate ReadSupported(d: Dialect) {
    d == MySQL
  }

  /** The UnsupportedOperationException message, which names the dialect. */
  function UnsupportedReadMessage(d: Dialect): string {
    "findAuditEventsByActor not implemented to "
    + match d
      case Oracle => "Oracle"
      case HSQL => "HSQLDB"
      case SQLServer => "SQL Server"
      case _ => "?????"
  }

  const FindSelect: string := " SELECT identifier, `timestamp`, actor, origin, `action`, elements FROM  "
  const FindOrder: string := " ORDER BY `timestamp` DESC "

  /**
   * The MySQL query on a table reference: actor bound as parameter 1, and
   * `LIMIT ?` present, with the limit bound as parameter 2, exactly when a
   * limit is given.
   */
  function FindStatement(ref: string, actor: string, limit: Option<Int32>): (st: Statement)
    ensures WellBound(st)
    ensures |st.params| == (if limit.Some? then 2 else 1)
    ensures st.params[0] == StringParam(Some(actor))
    ensures limit.Some? ==> st.params[1] == IntParam(limit.value)
    ensures st.sql[0] == Text(FindSelect + ref + " WHERE actor = ")
  {
    var query := Bound(FindSelect + ref + " WHERE actor = ") + Fixed(" " + FindOrder);
    var limitClause := if limit.Some? then Bound(" LIMIT ") else [];
    MarkersConcat(Bound(FindSelect + ref + " WHERE actor = "), Fixed(" " + FindOrder));
    MarkersConcat(query, limitClause);
    Statement(query + limitClause, [StringParam(Some(actor))] + (if limit.Some? then [IntParam(limit.value)] else []))
  }

  /**
   * What a read by actor on the table reference `ref` does, the log going from
   * `log0` to `log1`: a null actor and a dialect without a query throw before
   * any statement runs; on MySQL exactly the query runs, and the result is
   * every row decoded in order, or the first row that fails.
   */
  predicate ReadByActor(db: Database, ref: string, actor: JString, limit: Option<Int32>,
                        decode: string -> Option<seq<Field>>, r: Result<seq<AuditEvent>, Error>,
                        log0: seq<Statement>, log1: seq<Statement>)
  {
    && (actor.None? ==> r == Failure(NullPointerException("actor")) && log1 == log0)
    && (actor.Some? && !ReadSupported(db.dialect) ==>
          r == Failure(UnsupportedOperationException(UnsupportedReadMessage(db.dialect))) && log1 == log0)
    && (actor.Some? && ReadSupported(db.dialect) ==>
          var st := FindStatement(ref, actor.value, limit);
          if st in db.rejected
          then r == Failure(SqlFailure(SQLException(db.rejected[st]))) && log1 == log0
          else
            && log1 == log0 + [st]
            && (r.Success? ==> DecodedAll(r.value, db.resultRows(st), decode))
            && (r.Failure? ==> FirstFailure(r.error, db.resultRows(st), decode)))
  }

  // ---------------------------------------------------------------------
  // The DAO object
  // ---------------------------------------------------------------------

  class AuditLogDaoImpl {
    const tableName: string
    const schemaName: JString
    const insertQuery: Sql

    ghost predicate Valid() {
      tableName != "" && insertQuery == InsertQuery(schemaName, tableName)
    }

    /** The field assignments of the Java constructor, after its name check. */
    constructor (tableName: string, schema: JString)
      requires tableName != ""
      ensures this.tableName == tableName && schemaName == schema && Valid()
    {
      this.tableName := tableName;
      schemaName := schema;
      insertQuery := InsertQuery(schema, tableName);
    }

    /** `writeEvent`: bind the six parameters to the insert and execute it. */
    method WriteEvent(e: AuditEvent, encode: seq<Field> -> string, db: Database) returns (r: Result<bool, Error>)
      requires Valid()
      modifies db
      ensures db.indexes == old(db.indexes)
      ensures var st := Statement(InsertQuery(schemaName, tableName), WriteParams(e, encode));
        if st in db.rejected
        then r == Failure(SqlFailure(SQLException(db.rejected[st]))) && db.executed == old(db.executed)
        else r == Success(db.reportsResultSet(st.sql)) && db.executed == old(db.executed) + [st]
    {
      var st := Statement(insertQuery, WriteParams(e, encode));
      var x := db.Execute(st);
      if x.Failure? {
        return Failure(SqlFailure(x.error));
      }
      r := Success(x.value);
    }

    /** `existsMysqlIndex`: probe the catalog; true iff the count is positive. */
    method ExistsMysqlIndex(indexName: string, db: Database) returns (r: Result<bool, Error>)
      modifies db
      ensures db.indexes == old(db.indexes)
      ensures var s := IndexSchema(schemaName, db.currentSchema);
        var st := IndexProbe(s, tableName, indexName);
        if st in db.rejected
        then r == Failure(SqlFailure(SQLException(db.rejected[st]))) && db.executed == old(db.executed)
        else r == Success(HasIndex(db.indexes, tableName, indexName, s)) && db.executed == old(db.executed) + [st]
    {
      var schema := if schemaName.Some? then schemaName else db.currentSchema;
      var st := IndexProbe(schema, tableName, indexName);
      var count := db.CountIndexes(st, tableName, indexName, schema);
      if count.Failure? {
        return Failure(SqlFailure(count.error));
      }
      r := Success(count.value > 0);
    }

    /** `createMysqlIndex`: check, then add the index only if the probe found none. */
    method CreateMysqlIndex(column: string, order: JString, db: Database) returns (r: Result<bool, Error>)
      modifies db
      ensures var s := IndexSchema(schemaName, db.currentSchema);
        r.Success? ==>
          && db.executed == old(db.executed) + IndexStatements(old(db.indexes), s, tableName, column, order)
          && db.indexes == WithIndex(old(db.indexes), s, tableName, column)
      ensures r.Failure? ==> IsSqlFailure(r.error) && db.indexes == old(db.indexes)
      ensures r.Success? <==>
        Accepts(db, IndexStatements(old(db.indexes), IndexSchema(schemaName, db.currentSchema), tableName, column, order))
    {
      var schema := if schemaName.Some? then schemaName else db.currentSchema;
      var indexName := IndexName(schema, tableName, column);
      var found := ExistsMysqlIndex(indexName, db);
      if found.Failure? {
        return Failure(found.error);
      }
      if !found.value {
        var st := AddIndexStatement(schema, tableName, column, order);
        var x := db.AddIndex(st, IndexEntry(schema, tableName, indexName));
        if x.Failure? {
          return Failure(SqlFailure(x.error));
        }
        return Success(x.value);
      }
      r := Success(false);
    }

    /** The two `createMysqlIndex` calls that follow the MySQL create. */
    method CreateMysqlIndexes(db: Database) returns (r: Outcome<Error>)
      modifies db
      ensures var s := IndexSchema(schemaName, db.currentSchema);
        r.Pass? ==>
          && db.executed == old(db.executed) + MysqlIndexLog(old(db.indexes), s, tableName)
          && db.indexes == MysqlIndexCatalog(old(db.indexes), s, tableName)
      ensures var s := IndexSchema(schemaName, db.currentSchema);
        r.Fail? ==>
          && IsSqlFailure(r.error)
          && (db.indexes == old(db.indexes) || db.indexes == WithIndex(old(db.indexes), s, tableName, "actor"))
      ensures r.Pass? <==> Accepts(db, MysqlIndexLog(old(db.indexes), IndexSchema(schemaName, db.currentSchema), tableName))
    {
      var a := CreateMysqlIndex("actor", Some("ASC"), db);
      if a.Failure? {
        return Fail(a.error);
      }
      var t := CreateMysqlIndex("timestamp", Some("DESC"), db);
      if t.Failure? {
        return Fail(t.error);
      }
      r := Pass;
    }

    /**
     * The Oracle branch of `createTableIfNotExists`: only the existence probe
     * runs; the create text is then appended to the probe's builder, which is
     * never executed again.
     */
    method ProbeOracleTable(db: Database) returns (r: Result<bool, Error>)
      modifies db
      ensures db.indexes == old(db.indexes)
      ensures var probe := OracleProbe(tableName);
        if probe in db.rejected
        then r == Failure(SqlFailure(SQLException(db.rejected[probe]))) && db.executed == old(db.executed)
        else r == Success(db.reportsResultSet(probe.sql)) && db.executed == old(db.executed) + [probe]
    {
      var probe := OracleProbe(tableName);
      var query := probe.Text();
      var x := db.Execute(probe);
      if x.Failure? {
        return Failure(SqlFailure(x.error));
      }
      if !x.value {
        query := query + Render(CreateTableFor(Oracle, TableRef(schemaName, tableName)));
      }
      r := Success(x.value);
    }

    /**
     * The other branches of `createTableIfNotExists`: the dialect's guarded
     * create, for MySQL followed by the two indexes.
     */
    method CreateGuardedTable(db: Database) returns (r: Result<bool, Error>)
      requires db.dialect != Oracle
      modifies db
      ensures var create := CreateStatement(db.dialect, TableRef(schemaName, tableName));
        var s := IndexSchema(schemaName, db.currentSchema);
        r.Success? ==>
          && db.executed == old(db.executed) + [create]
               + (if db.dialect == MySQL then MysqlIndexLog(old(db.indexes), s, tableName) else [])
          && db.indexes == (if db.dialect == MySQL then MysqlIndexCatalog(old(db.indexes), s, tableName) else old(db.indexes))
      ensures r.Failure? ==>
        && IsSqlFailure(r.error)
        && (db.indexes == old(db.indexes)
            || db.indexes == WithIndex(old(db.indexes), IndexSchema(schemaName, db.currentSchema), tableName, "actor"))
      ensures db.dialect != MySQL ==> db.indexes == old(db.indexes)
      ensures r.Success? <==> Accepts(db, ProvisionLog(db.dialect, old(db.indexes), schemaName, db.currentSchema, tableName))
    {
      ghost var log0 := db.executed;
      var create := CreateStatement(db.dialect, TableRef(schemaName, tableName));
      var x := db.Execute(create);
      if x.Failure? {
        return Failure(SqlFailure(x.error));
      }
      if db.dialect == MySQL {
        var i := CreateMysqlIndexes(db);
        if i.Fail? {
          return Failure(i.error);
        }
      } else {
        assert log0 + [create] + [] == log0 + [create];
      }
      r := Success(x.value);
    }

    /**
     * `createTableIfNotExists`: the dialect's guarded create, for MySQL
     * followed by the two indexes; for Oracle only the existence probe.
     */
    method CreateTableIfNotExists(db: Database) returns (r: Result<bool, Error>)
      modifies db
      ensures r.Success? ==>
        && db.executed == old(db.executed)
             + ProvisionLog(db.dialect, old(db.indexes), schemaName, db.currentSchema, tableName)
        && db.indexes == ProvisionCatalog(db.dialect, old(db.indexes), schemaName, db.currentSchema, tableName)
      ensures r.Failure? ==>
        && IsSqlFailure(r.error)
        && (db.indexes == old(db.indexes)
            || db.indexes == WithIndex(old(db.indexes), IndexSchema(schemaName, db.currentSchema), tableName, "actor"))
      ensures db.dialect != MySQL ==> db.indexes == old(db.indexes)
      ensures r.Success? <==> Accepts(db, ProvisionLog(db.dialect, old(db.indexes), schemaName, db.currentSchema, tableName))
    {
      if db.dialect == Oracle {
        r := ProbeOracleTable(db);
      } else {
        GuardedProvisionLog(db.executed, db.dialect, db.indexes, schemaName, db.currentSchema, tableName);
        r := CreateGuardedTable(db);
      }
    }

    /** `findAuditEventsByActor`: only MySQL has a query; every other dialect throws before preparing anything. */
    method FindAuditEventsByActor(actor: JString, limit: Option<Int32>, decode: string -> Option<seq<Field>>, db: Database)
      returns (r: Result<seq<AuditEvent>, Error>)
      modifies db
      ensures db.indexes == old(db.indexes)
      ensures ReadByActor(db, TableRef(schemaName, tableName), actor, limit, decode, r, old(db.executed), db.executed)
    {
      if actor.None? {
        return Failure(NullPointerException("actor"));
      }
      if !ReadSupported(db.dialect) {
        return Failure(UnsupportedOperationException(UnsupportedReadMessage(db.dialect)));
      }
      var st := FindStatement(TableRef(schemaName, tableName), actor.value, limit);
      var rows := db.ExecuteQuery(st);
      if rows.Failure? {
        return Failure(SqlFailure(rows.error));
      }
      r := DecodeResultSet(rows.value, decode);
    }
  }

  /**
   * `new AuditLogDaoImpl(tableName, schema)`: the name check comes first and
   * touches nothing; a DAO exists only if provisioning succeeded.
   */
  method NewAuditLogDao(tableName: string, schema: JString, db: Database) returns (r: Result<AuditLogDaoImpl, Error>)
    modifies db
    ensures tableName == "" ==> r == Failure(IllegalArgumentException(TableNameMessage)) && unchanged(db)
    ensures r.Success? ==>
      && fresh(r.value) && r.value.Valid()
      && r.value.tableName == tableName && r.value.schemaName == schema
      && db.executed == old(db.executed) + ProvisionLog(db.dialect, old(db.indexes), schema, db.currentSchema, tableName)
      && db.indexes == ProvisionCatalog(db.dialect, old(db.indexes), schema, db.currentSchema, tableName)
    ensures tableName != "" && r.Failure? ==>
      && IsSqlFailure(r.error)
      && (db.indexes == old(db.indexes)
          || db.indexes == WithIndex(old(db.indexes), IndexSchema(schema, db.currentSchema), tableName, "actor"))
    ensures db.dialect != MySQL ==> db.indexes == old(db.indexes)
    ensures r.Success? <==>
      tableName != "" && Accepts(db, ProvisionLog(db.dialect, old(db.indexes), schema, db.currentSchema, tableName))
  {
    if tableName == "" {
      return Failure(IllegalArgumentException(TableNameMessage));
    }
    var dao := new AuditLogDaoImpl(tableName, schema);
    var p := dao.CreateTableIfNotExists(db);
    if p.Failure? {
      return Failure(p.error);
    }
    r := Success(dao);
  }
}
