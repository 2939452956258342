# audit4j-db: a Dafny model of the database audit handler

This project models the core of audit4j's database handler:

- `DatabaseAuditHandler` maps its configuration onto the connection factory. Unless embedded mode is switched off, it first starts the embedded HSQLDB server. It then picks the table an audit event belongs to: the default table, or `[prefix_]repository_suffix` when tables are separate. It keeps one data-access object per table in a loading cache.
- `AuditLogDaoImpl` is the data-access object for one (schema, table) pair. When it is built, it provisions its table with the dialect's DDL; on MySQL it also adds two indexes. It writes events with a six-parameter prepared insert. It reads events by actor, which only MySQL supports.

Modules:

- `Lang`: the Java pieces the code relies on. These are null references (`JString`), the exceptions thrown and caught, `Long.toString`/`Long.valueOf`, and `int`/`long` ranges.
- `Events`: the audit event and its fields.
- `Jdbc`: what the DAO sees of a connection.
  - Statements are templates of literal text and `?` markers, with bound parameters.
  - A `Database` object stands in for the engine. Its inputs are the dialect, the connection's schema, which statements it rejects (and with which SQLException message), what `execute()` reports, and the rows a query returns.
  - A rejection is decided per statement, text and bound values together, so an insert that binds NULL to a NOT NULL column can fail where the same insert with a value succeeds.
  - It keeps the MySQL index catalog and a log of every statement that ran.
- `AuditLogDao`: the SQL the DAO builds and the class `AuditLogDaoImpl`. Its methods are proved against functions that give the exact statement log and index catalog of provisioning, writing and reading.
- `DatabaseHandler`: table naming, the configuration rules, how exceptions travel through the Guava cache, and the classes `DaoCache` and `DatabaseAuditHandler`.

The Java `init` is split into several methods:

- `StartEmbeddedServer`
- `StartFactory`, which calls `ConfigureFactory`, which in turn calls `ForwardPoolOptions` and `SelectConnectionType`
- `ProvisionDefaultTable`

These parts are not separate methods in the source. `init` runs them in that order, and its contract is their combined effect. In the same way, `createTableIfNotExists` is split into `ProbeOracleTable` (its Oracle branch), `CreateGuardedTable` (every other branch) and `CreateMysqlIndexes` (the two index calls).

The Javadoc of `createTableIfNotExists` and the comment on its Oracle branch (`AuditLogDaoImpl.java`, lines 117-119 and 133) describe a create for Oracle. The code does something else: it executes only the `select count(*)` probe. It appends the create text to the same builder only when `execute()` returns false, which it never does for a SELECT, and it never executes that builder again. The model follows the code, so on Oracle `ProvisionLog` holds only the probe.

## Model

| member | source | states |
|---|---|---|
| Lang.LongRoundTrip | src/main/java/org/audit4j/handler/db/AuditLogDaoImpl.java:320 | An identifier written with `Long.toString` is read back unchanged by `Long.valueOf`, for every `long`. |
| Jdbc.MarkersAreQuestionMarks | src/main/java/org/audit4j/handler/db/AuditLogDaoImpl.java:76 | If no literal piece of a statement holds a `?`, the number of `?` the driver sees equals the number of parameter markers. |
| Jdbc.Database.Execute | src/main/java/org/audit4j/handler/db/AuditLogDaoImpl.java:109 | A rejected statement throws its SQLException and runs nothing. Otherwise the statement is logged and `execute()` reports whether it yields a result set. |
| Jdbc.Database.ExecuteQuery | src/main/java/org/audit4j/handler/db/AuditLogDaoImpl.java:311 | A rejected query throws its SQLException. Otherwise it is logged and returns the engine's rows. |
| Jdbc.Database.CountIndexes | src/main/java/org/audit4j/handler/db/AuditLogDaoImpl.java:251-254 | The probe's `count(*)` is the number of catalog rows with that table and index name, and with that schema when one is given. |
| Jdbc.Database.AddIndex | src/main/java/org/audit4j/handler/db/AuditLogDaoImpl.java:214-215 | An accepted `ADD INDEX` is logged and adds its entry to the catalog. A rejected one changes nothing. |
| AuditLogDao.InsertQuery | src/main/java/org/audit4j/handler/db/AuditLogDaoImpl.java:71-77 | The insert has exactly one marker per column of the table (six). |
| AuditLogDao.WriteParams | src/main/java/org/audit4j/handler/db/AuditLogDaoImpl.java:102-107 | `writeEvent` binds exactly one parameter per column, so the insert is fully bound. |
| AuditLogDao.WriteThenRead | src/main/java/org/audit4j/handler/db/AuditLogDaoImpl.java:317-321 | If the field codec round-trips, reading back the row an insert stored gives the event that was written, except for its repository, which is not stored. |
| AuditLogDao.DecodeResultSet | src/main/java/org/audit4j/handler/db/AuditLogDaoImpl.java:313-324 | The read succeeds exactly when every row decodes. The result has one event per row, in row order. A failure is the exception of the first row that does not decode. |
| AuditLogDao.Columns | src/main/java/org/audit4j/handler/db/AuditLogDaoImpl.java:140-147 | Every dialect declares the insert's six columns in the insert's order. Exactly `origin` and `elements` may be NULL. |
| AuditLogDao.CreateTableFor | src/main/java/org/audit4j/handler/db/AuditLogDaoImpl.java:132-193 | The create is unguarded exactly for Oracle. SQL Server uses an `IF OBJECT_ID ... IS NULL` block, and the other dialects use `if not exists`. |
| AuditLogDao.IndexNamesDistinct | src/main/java/org/audit4j/handler/db/AuditLogDaoImpl.java:207 | The actor index and the timestamp index of a table never share a name. |
| AuditLogDao.IndexProbe | src/main/java/org/audit4j/handler/db/AuditLogDaoImpl.java:230-249 | The catalog probe binds the table and index name as parameters 1 and 2. It binds the schema as parameter 3 exactly when there is one. Markers and bound parameters always agree. |
| AuditLogDao.WithIndexHasIndex | src/main/java/org/audit4j/handler/db/AuditLogDaoImpl.java:209-216 | After `createMysqlIndex`, the probe finds the index, and no earlier catalog entry is lost. |
| AuditLogDao.PresentIndexIsKept | src/main/java/org/audit4j/handler/db/AuditLogDaoImpl.java:209 | When the probe finds the index, `createMysqlIndex` runs only the probe and the catalog is unchanged. |
| AuditLogDao.ProvisionIdempotent | src/main/java/org/audit4j/handler/db/AuditLogDaoImpl.java:125-199 | Provisioning a table a second time leaves the index catalog unchanged. On MySQL it runs only the guarded create and the two probes. Every statement of the second provisioning was already run by the first. |
| AuditLogDao.ReprovisionAccepted | src/main/java/org/audit4j/handler/db/AuditLogDaoImpl.java:125-199 | Provisioning twice never fails on the second run: if the engine accepted every statement of the first provisioning, it accepts every statement of the second. |
| AuditLogDao.FindStatement | src/main/java/org/audit4j/handler/db/AuditLogDaoImpl.java:290-309 | The actor is parameter 1. `LIMIT ?` is present, with the limit bound as parameter 2, exactly when a limit is given. Markers and parameters agree. |
| AuditLogDao.AuditLogDaoImpl.constructor | src/main/java/org/audit4j/handler/db/AuditLogDaoImpl.java:68-77 | The DAO keeps its table and schema, and its insert is the one for that table reference. |
| AuditLogDao.AuditLogDaoImpl.WriteEvent | src/main/java/org/audit4j/handler/db/AuditLogDaoImpl.java:88-115 | A write runs exactly the DAO's insert with the event's six parameters and returns what `execute()` reports. An SQLException becomes HandlerException "SQL Exception" and nothing is logged. The index catalog stays. |
| AuditLogDao.AuditLogDaoImpl.ExistsMysqlIndex | src/main/java/org/audit4j/handler/db/AuditLogDaoImpl.java:226-269 | The result is true exactly when the catalog holds a matching index. The schema is the DAO's own, or else the connection's. The probe is the only statement that runs. |
| AuditLogDao.AuditLogDaoImpl.CreateMysqlIndex | src/main/java/org/audit4j/handler/db/AuditLogDaoImpl.java:201-224 | The probe runs, followed by the `ADD INDEX` only when the probe found nothing. The catalog afterwards holds the index. Failures are wrapped SQLExceptions. It succeeds exactly when the engine accepts the probe and, if it runs, the `ADD INDEX`. |
| AuditLogDao.AuditLogDaoImpl.CreateMysqlIndexes | src/main/java/org/audit4j/handler/db/AuditLogDaoImpl.java:172-173 | The actor index (ascending) is created, then the timestamp index (descending), each as `createMysqlIndex` does. After a failure the catalog is either unchanged or holds the actor index. It succeeds exactly when the engine accepts every statement of `MysqlIndexLog` (`Accepts`), so it fails only on a rejected statement. |
| AuditLogDao.AuditLogDaoImpl.ProbeOracleTable | src/main/java/org/audit4j/handler/db/AuditLogDaoImpl.java:132-143 | On Oracle only the existence probe runs, whatever it reports. The create text is never executed. |
| AuditLogDao.AuditLogDaoImpl.CreateGuardedTable | src/main/java/org/audit4j/handler/db/AuditLogDaoImpl.java:144-193 | Every other dialect runs its guarded create. On MySQL the two indexes follow. After a failure the catalog is unchanged or holds only the added actor index. It succeeds exactly when the engine accepts every statement of `ProvisionLog` (`Accepts`), so it fails only on a rejected statement. |
| AuditLogDao.AuditLogDaoImpl.CreateTableIfNotExists | src/main/java/org/audit4j/handler/db/AuditLogDaoImpl.java:125-199 | Provisioning runs exactly the statements of `ProvisionLog` and leaves the catalog of `ProvisionCatalog`. Only MySQL touches the catalog. Every failure is a wrapped SQLException, after which the catalog is unchanged or holds only the added actor index. It succeeds exactly when the engine accepts every statement of that log (`Accepts`), so it fails only on a rejected statement. |
| AuditLogDao.AuditLogDaoImpl.FindAuditEventsByActor | src/main/java/org/audit4j/handler/db/AuditLogDaoImpl.java:271-343 | The read satisfies `ReadByActor`. A null actor throws NullPointerException, and any dialect but MySQL throws UnsupportedOperationException naming it; neither runs a statement. On MySQL exactly the actor query runs. The result is every row decoded in order, or the first decoding failure. The catalog stays. |
| AuditLogDao.NewAuditLogDao | src/main/java/org/audit4j/handler/db/AuditLogDaoImpl.java:68-80 | An empty table name is refused with IllegalArgumentException before anything runs. A DAO exists only if provisioning succeeded, and then it is exactly the provisioning log and catalog. After a failed provisioning the catalog is unchanged or holds only the added actor index; outside MySQL it is always unchanged. For a non-empty name, construction succeeds exactly when the engine accepts every provisioning statement. |
| DatabaseHandler.GenerateTableName | src/main/java/org/audit4j/handler/db/DatabaseAuditHandler.java:316-322 | The table name is `[prefix_]repository_suffix`, with a null suffix rendered as "null". Its length follows from the parts, and an underscore precedes the suffix. |
| DatabaseHandler.GenerateTableNameInjective | src/main/java/org/audit4j/handler/db/DatabaseAuditHandler.java:316-322 | With prefix and suffix fixed, different repositories get different table names. |
| DatabaseHandler.TargetTable | src/main/java/org/audit4j/handler/db/DatabaseAuditHandler.java:276-278 | The target is the default table unless tables are separate and a repository is named; then it is the generated name. It is never empty while the default table name is not empty. |
| DatabaseHandler.SeparateTablesAreDistinct | src/main/java/org/audit4j/handler/db/DatabaseAuditHandler.java:286-287 | With separate tables, two repositories share a table if and only if they are the same repository. |
| DatabaseHandler.ConnectionTypeOf | src/main/java/org/audit4j/handler/db/DatabaseAuditHandler.java:244-253 | Exactly "pooled" selects a pooled connection and exactly "jndi" a JNDI one. Anything else, null included, selects a single connection. |
| DatabaseHandler.EmbeddedModeByDefault | src/main/java/org/audit4j/handler/db/DatabaseAuditHandler.java:203 | Embedded mode is on exactly when the setting is unset or is "true" in any mix of upper and lower case, such as "true", "TRUE" or "True". |
| DatabaseHandler.Forward | src/main/java/org/audit4j/handler/db/DatabaseAuditHandler.java:228-242 | A pool option that is set replaces the factory's value; an unset one keeps it. |
| DatabaseHandler.CacheLoadError | src/main/java/org/audit4j/handler/db/DatabaseAuditHandler.java:59-66 | The cache wraps a checked loader failure in ExecutionException and an unchecked one in UncheckedExecutionException. The cause is kept. |
| DatabaseHandler.DaoFailureReachesHandler | src/main/java/org/audit4j/handler/db/DatabaseAuditHandler.java:324-333 | Through the cache and `getDaoForTable`, a HandlerException from the loader comes out as itself. Another checked failure comes out wrapped once as "Execution Exception". An unchecked one comes out as UncheckedExecutionException. |
| DatabaseHandler.InitFailure | src/main/java/org/audit4j/handler/db/DatabaseAuditHandler.java:257-262 | `init` turns a HandlerException into InitializationException "Unable to create tables" with that cause. Anything else passes through. |
| DatabaseHandler.DaoCache.Get | src/main/java/org/audit4j/handler/db/DatabaseAuditHandler.java:59-66 | A cached DAO is returned without touching the database. Otherwise a new DAO for the schema is built by provisioning and cached only if the build succeeded. Each cached DAO belongs to its key. Loading an uncached, non-empty name succeeds exactly when the engine accepts every provisioning statement. |
| DatabaseHandler.DatabaseAuditHandler.constructor | src/main/java/org/audit4j/handler/db/DatabaseAuditHandler.java:54-192 | Every setting starts unset except: auto-commit on, tables not separate, suffix "audit", default table "audit". The cache starts empty. |
| DatabaseHandler.DatabaseAuditHandler.SetDefaultTableName | src/main/java/org/audit4j/handler/db/DatabaseAuditHandler.java:532-535 | A null or empty name is refused with IllegalArgumentException and the setting stays. Any other name is taken. |
| DatabaseHandler.DatabaseAuditHandler.GetDaoForTable | src/main/java/org/audit4j/handler/db/DatabaseAuditHandler.java:324-333 | The result is the cache's DAO for the table. A DAO failure comes out as the DAO's own HandlerException. An empty name comes out as UncheckedExecutionException. For an uncached, non-empty name the result is a DAO exactly when the engine accepts every provisioning statement. |
| DatabaseHandler.DatabaseAuditHandler.StartEmbeddedServer | src/main/java/org/audit4j/handler/db/DatabaseAuditHandler.java:203-217 | Driver and URL come from the server. User and password default only when unset, and are handed to the server, which is started. |
| DatabaseHandler.DatabaseAuditHandler.StartFactory | src/main/java/org/audit4j/handler/db/DatabaseAuditHandler.java:219-255 | The handler records the factory, hands it every setting and starts it. |
| DatabaseHandler.DatabaseAuditHandler.StartServices | src/main/java/org/audit4j/handler/db/DatabaseAuditHandler.java:203-255 | Embedded mode sets the connection settings and starts the server; otherwise neither is touched. The factory is then configured and started. |
| DatabaseHandler.DatabaseAuditHandler.ConfigureFactory | src/main/java/org/audit4j/handler/db/DatabaseAuditHandler.java:220-253 | The factory holds the connection settings, the pool options that are set, the selected connection type and, for JNDI only, the JNDI data source. |
| DatabaseHandler.DatabaseAuditHandler.ForwardPoolOptions | src/main/java/org/audit4j/handler/db/DatabaseAuditHandler.java:228-242 | Each of the five pool options reaches the factory only when it is set. |
| DatabaseHandler.DatabaseAuditHandler.SelectConnectionType | src/main/java/org/audit4j/handler/db/DatabaseAuditHandler.java:244-253 | The factory's connection type follows the setting. The JNDI data source is handed over only for a JNDI connection. |
| DatabaseHandler.DatabaseAuditHandler.ProvisionDefaultTable | src/main/java/org/audit4j/handler/db/DatabaseAuditHandler.java:257-262 | `init` succeeds exactly when the default table's DAO is cached afterwards (`DefaultTableLoaded`). For an uncached default table, that is exactly when the engine accepts every provisioning statement. A cached DAO means nothing runs. A new one is built for the handler's schema: exactly the provisioning statements run, the catalog is the one provisioning leaves, and every other cache entry stays. A failure is InitializationException around the DAO's SQL failure, and the cache is unchanged. |
| DatabaseHandler.DatabaseAuditHandler.Init | src/main/java/org/audit4j/handler/db/DatabaseAuditHandler.java:201-264 | Embedded mode sets the settings and starts the server; otherwise neither is touched. The factory is configured and started either way. The default table is provisioned as `ProvisionDefaultTable` states, and a failure becomes InitializationException. |
| DatabaseHandler.DatabaseAuditHandler.Handle | src/main/java/org/audit4j/handler/db/DatabaseAuditHandler.java:274-281 | The event goes to its target table. A cached table gets only the insert; the cache and the catalog stay. A new table is provisioned first and its DAO cached, even when the insert then fails; every other entry stays; the catalog is the one provisioning leaves; then the insert runs. Failed provisioning leaves the cache as it was. A new table is cached exactly when the engine accepts every provisioning statement. Failures are the DAO's wrapped SQLExceptions. |
| DatabaseHandler.DatabaseAuditHandler.FindAuditEventsByActor | src/main/java/org/audit4j/handler/db/DatabaseAuditHandler.java:284-290 | The same table choice as `handle`. A cached table gets exactly the DAO's read (`ReadByActor`), with the cache and the catalog kept. A new table is first provisioned and cached as in `handle`, then read. Failed provisioning returns the DAO's SQL failure with the cache unchanged. A new table is cached exactly when the engine accepts every provisioning statement. |
| DatabaseHandler.DatabaseAuditHandler.Stop | src/main/java/org/audit4j/handler/db/DatabaseAuditHandler.java:302-308 | The factory is stopped, and the embedded server too if one was started. Only their running flags may change: every setting stays. Without a factory, NullPointerException is thrown and the server is left alone. |

## Left out

- Acquiring and closing connections, and detecting the dialect from connection metadata, are part of `AuditBaseDao`, which is not part of this model. The dialect and the connection's schema are inputs of `Database`.
- The JSON codec of the fields (Gson) is the pair of function parameters `encode` and `decode`. `decode` returns `None` where Gson returns null: a NULL `elements`, or texts such as "" or "null". That leads to the NullPointerException of `fields.size()`. A malformed text, for which Gson throws JsonSyntaxException, is not modelled separately: the decoder is expected to return `None` or fields.
- Lang.ParseLong: accepts only the ASCII digits '0'..'9'. `Long.valueOf` also accepts other Unicode decimal digits, such as the fullwidth "１". A stored identifier written with such digits therefore reads back as NumberFormatException here instead of its value. Identifiers written by `writeEvent` are always ASCII (`LongToString`), so `WriteThenRead` is unaffected.
- AuditLogDao.WriteThenRead: the engine is assumed to store every bound value unchanged. A MySQL `TIMESTAMP` column keeps whole seconds, so on a real MySQL server the read-back timestamp can lose its milliseconds.
- The Guava cache's size bound (1000), its 15-minute expiry and its thread safety are not modelled, because the cache here never evicts and runs in one thread.
- `HSQLEmbededDBServer` and `ConnectionFactory` are process-wide singletons. Here they are objects passed to `Init`, which record their settings and whether they run. How they pool connections or look up JNDI is not part of this model.
- `Utils.EMBEDED_DB_USER`, `Utils.EMBEDED_DB_PASSWORD` and `Utils.checkNotEmpty` are not part of this model. The two credentials are parameters of `Init`. `checkNotEmpty` is modelled as a null-or-empty test that throws IllegalArgumentException.
- Logging (`Log.warn`) is left out because it has no effect on state.
- Timestamps are opaque millisecond counts. The `java.sql.Timestamp` conversion and time zones are not modelled.
- An event with a null uuid or a null timestamp, which makes `writeEvent` throw NullPointerException, is not modelled: both are non-null values in `AuditEvent`.
- The handler takes its event as a parameter of `Handle`, not from `getAuditEvent()`.
- `implementsSearch` (always true) and the plain getters and setters, other than `setDefault_table_name`, are not modelled. The settings are the handler's fields.
- DDL and query texts are built by functions, with no lemma that compares them to a literal. Names spliced into a statement are not checked for `?`. The link between markers and the driver's `?` count holds only under the precondition of `Jdbc.MarkersAreQuestionMarks`.
- AuditLogDao.AuditLogDaoImpl.CreateMysqlIndex: on success the contract does not state the boolean returned, and on failure it does not state which statements had already run. The source ignores both.
- AuditLogDao.AuditLogDaoImpl.CreateTableIfNotExists: the returned boolean is not stated on success, and the statement log is not stated on failure. The constructor ignores the first, and a failed provisioning discards the DAO.
- AuditLogDao.AuditLogDaoImpl.CreateGuardedTable: the same as for `CreateTableIfNotExists`.
- AuditLogDao.AuditLogDaoImpl.CreateMysqlIndexes: the statement log after a failure is not stated. For the catalog, only "unchanged or holding the actor index" is stated.
- AuditLogDao.NewAuditLogDao: the statement log after a failed provisioning is not stated.
- DatabaseHandler.DaoCache.Get: the database state after a failed load is not stated, except for an empty name, where it is unchanged.
- DatabaseHandler.DatabaseAuditHandler.GetDaoForTable: the database state after a failed load is not stated, except for an empty name, where it is unchanged.
- DatabaseHandler.DatabaseAuditHandler.Handle: the database state after failed provisioning of a new table is not stated.
- DatabaseHandler.DatabaseAuditHandler.FindAuditEventsByActor: the database state after failed provisioning of a new table is not stated.
- DatabaseHandler.DatabaseAuditHandler.ProvisionDefaultTable: the database state after failed provisioning is not stated.
- DatabaseHandler.DatabaseAuditHandler.Init: the database state after a failed provisioning is not stated.
