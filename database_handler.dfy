/**
 * DatabaseAuditHandler: the audit framework's handler that stores events in a
 * relational database. It maps its configuration onto the connection factory
 * (starting an embedded HSQLDB server unless told otherwise), picks the table
 * an event belongs to, and keeps one data-access object per table in a cache
 * whose loader provisions the table the first time it is asked for.
 *
 * The embedded server and the connection factory are process-wide singletons
 * in the handler's world; here they are objects handed to `Init`. What they do
 * beyond recording their settings and whether they run is not modelled.
 */
module DatabaseHandler {
  import opened Lang
  import opened Events
  import opened Jdbc
  import opened AuditLogDao

  const DefaultTableName: string := "audit"
  const DefaultTableSuffix: string := "audit"

  // ---------------------------------------------------------------------
  // Which table an event goes to
  // ---------------------------------------------------------------------

  /** `generateTableName`: `[prefix_]repository_suffix`, a null suffix rendering as "null". */
  function GenerateTableName(prefix: JString, repository: string, suffix: JString): (t: string)
    ensures |t| == (if prefix.Some? then |prefix.value| + 1 else 0) + |repository| + 1 + |Str(suffix)|
    ensures t[|t| - |Str(suffix)| - 1] == '_'
  {
    if prefix.None? then repository + "_" + Str(suffix)
    else prefix.value + "_" + repository + "_" + Str(suffix)
  }

  /** With the prefix and suffix fixed, different repositories get different tables. */
  lemma {:induction false} GenerateTableNameInjective(prefix: JString, suffix: JString, r1: string, r2: string)
    requires GenerateTableName(prefix, r1, suffix) == GenerateTableName(prefix, r2, suffix)
    ensures r1 == r2
  {
    var t := GenerateTableName(prefix, r1, suffix);
    var start := if prefix.Some? then |prefix.value| + 1 else 0;
    var lead := if prefix.Some? then prefix.value + "_" else "";
    assert t == lead + r1 + "_" + Str(suffix);
    assert t == lead + r2 + "_" + Str(suffix);
    assert |r1| == |r2|;
    assert t[start..start + |r1|] == r1;
    assert t[start..start + |r2|] == r2;
  }

  /**
   * The table `handle` and `findAuditEventsByActor` address: the default
   * table unless tables are separate and the event names a repository.
   */
  function TargetTable(separate: bool, defaultTable: string, prefix: JString, suffix: JString, repository: JString): (t: string)
    ensures !separate || repository.None? ==> t == defaultTable
    ensures separate && repository.Some? ==> t == GenerateTableName(prefix, repository.value, suffix)
    ensures defaultTable != "" ==> t != ""
  {
    if !separate || repository.None? then defaultTable
    else GenerateTableName(prefix, repository.value, suffix)
  }

  /**
   * With separate tables, two events land in the same table exactly when
   * they name the same repository (both naming one).
   */
  lemma SeparateTablesAreDistinct(defaultTable: string, prefix: JString, suffix: JString, r1: string, r2: string)
    ensures TargetTable(true, defaultTable, prefix, suffix, Some(r1)) == TargetTable(true, defaultTable, prefix, suffix, Some(r2))
            <==> r1 == r2
  {
    if TargetTable(true, defaultTable, prefix, suffix, Some(r1)) == TargetTable(true, defaultTable, prefix, suffix, Some(r2)) {
      GenerateTableNameInjective(prefix, suffix, r1, r2);
    }
  }

  // ---------------------------------------------------------------------
  // Configuration
  // ---------------------------------------------------------------------

  /** The connection kinds of the connection factory. */
  datatype ConnectionType = Single | Pooled | Jndi

  /** `db_connection_type`: exactly "pooled" or "jndi" select those kinds; anything else, null included, is a single connection. */
  function ConnectionTypeOf(setting: JString): (t: ConnectionType)
    ensures t == Pooled <==> setting == Some("pooled")
    ensures t == Jndi <==> setting == Some("jndi")
    ensures t == Single <==> setting != Some("pooled") && setting != Some("jndi")
  {
    if setting == Some("pooled") then Pooled
    else if setting == Some("jndi") then Jndi
    else Single
  }

  /** Embedded mode: the `embedded` setting is absent or says "true" in any letter case. */
  predicate IsEmbeddedMode(embedded: JString) {
    embedded.None? || EqualsIgnoreCase(embedded.value, "true")
  }

  lemma EmbeddedModeByDefault()
    ensures IsEmbeddedMode(None)
    ensures IsEmbeddedMode(Some("true")) && IsEmbeddedMode(Some("TRUE")) && IsEmbeddedMode(Some("True"))
    ensures !IsEmbeddedMode(Some("false")) && !IsEmbeddedMode(Some("")) && !IsEmbeddedMode(Some("yes"))
    ensures forall s :: IsEmbeddedMode(Some(s)) <==>
      |s| == 4 && s[0] in "tT" && s[1] in "rR" && s[2] in "uU" && s[3] in "eE"
  {
    assert ToLower('T') == 't' && ToLower('R') == 'r' && ToLower('U') == 'u' && ToLower('E') == 'e';
  }


  /** The embedded server's JDBC URL for the network protocol it reports. */
  function EmbeddedUrl(protocol: string): string {
    protocol + ":file:audit4jdb"
  }

  /** A pool option is forwarded only when it is set; otherwise the factory keeps its own value. */
  function Forward<T>(current: T, setting: Option<T>): (v: T)
    ensures setting.Some? ==> v == setting.value
    ensures setting.None? ==> v == current
  {
    if setting.Some? then setting.value else current
  }

  /** A container-provided data source, known by reference only. */
  datatype DataSource = DataSource(id: nat)

  // ---------------------------------------------------------------------
  // Failures of the DAO cache
  // ---------------------------------------------------------------------

  /**
   * What the cache's `get` throws when its loader throws `e`: a checked
   * exception wrapped in an ExecutionException, an unchecked one in an
   * UncheckedExecutionException.
   */
  function CacheLoadError(e: Error): (r: Error)
    ensures IsChecked(e) <==> r.ExecutionException?
    ensures !IsChecked(e) <==> r.UncheckedExecutionException?
    ensures r.cause == e
  {
    if IsChecked(e) then ExecutionException(e) else UncheckedExecutionException(e)
  }

  /**
   * The `catch (ExecutionException)` of `getDaoForTable`: a HandlerException
   * cause is rethrown as it is, any other cause is wrapped in a new
   * HandlerException "Execution Exception"; an unchecked failure passes by.
   */
  function PropagateHandlerException(e: Error): Error {
    if e.ExecutionException? then
      (if e.cause.HandlerException? then e.cause else HandlerException("Execution Exception", e))
    else e
  }

  /**
   * Through the cache and `getDaoForTable`, a loader failure reaches the
   * handler unchanged when it is a HandlerException, wrapped once when it is
   * another checked exception, and as an UncheckedExecutionException otherwise;
   * the handler sees a HandlerException exactly when the loader's failure was checked.
   */
  lemma DaoFailureReachesHandler(e: Error)
    ensures var r := PropagateHandlerException(CacheLoadError(e));
      && (e.HandlerException? ==> r == e)
      && (IsChecked(e) && !e.HandlerException? ==> r == HandlerException("Execution Exception", ExecutionException(e)))
      && (!IsChecked(e) ==> r == UncheckedExecutionException(e))
      && (r.HandlerException? <==> IsChecked(e))
  {
  }

  /** The `catch (HandlerException)` of `init`: it becomes InitializationException "Unable to create tables". */
  function InitFailure(e: Error): (r: Error)
    ensures e.HandlerException? ==> r.InitializationException? && r.cause == e
    ensures !e.HandlerException? ==> r == e
  {
    if e.HandlerException? then InitializationException("Unable to create tables", e) else e
  }

  /**
   * What `writeEvent` does through `handle`, the log going from `log0` to
   * `log1`: a rejected insert throws HandlerException "SQL Exception" and
   * runs nothing; otherwise exactly the insert runs.
   */
  predicate InsertOutcome(db: Database, insert: Statement, r: Outcome<Error>, log0: seq<Statement>, log1: seq<Statement>) {
    if insert in db.rejected
    then r == Fail(SqlFailure(SQLException(db.rejected[insert]))) && log1 == log0
    else r == Pass && log1 == log0 + [insert]
  }

  // ---------------------------------------------------------------------
  // Collaborators
  // ---------------------------------------------------------------------

  /** The embedded HSQLDB server: its driver and protocol, the credentials it is given, and whether it runs. */
  class EmbeddedServer {
    const driver: string
    const networkProtocol: string
    var uname: JString
    var password: JString
    var running: bool

    constructor (driver: string, networkProtocol: string)
      ensures this.driver == driver && this.networkProtocol == networkProtocol
      ensures uname.None? && password.None? && !running
    {
      this.driver := driver;
      this.networkProtocol := networkProtocol;
      uname := None;
      password := None;
      running := false;
    }

    method Start()
      modifies this`running
      ensures running
    {
      running := true;
    }

    method Shutdown()
      modifies this`running
      ensures !running
    {
      running := false;
    }
  }

  /** The connection factory's settings as the handler sets them, and whether it has been started. */
  class ConnectionFactory {
    var dataSource: Option<DataSource>
    var driver: JString
    var url: JString
    var user: JString
    var password: JString
    var dataSourceClass: JString
    var autoCommit: bool
    var connectionTimeout: Long
    var idleTimeout: Int32
    var maximumPoolSize: Int32
    var maxLifetime: Int32
    var minimumIdle: Int32
    var connectionType: ConnectionType
    var jndiDataSource: JString
    var running: bool

    constructor (connectionTimeout: Long, idleTimeout: Int32, maximumPoolSize: Int32, maxLifetime: Int32, minimumIdle: Int32)
      ensures this.connectionTimeout == connectionTimeout && this.idleTimeout == idleTimeout
      ensures this.maximumPoolSize == maximumPoolSize && this.maxLifetime == maxLifetime
      ensures this.minimumIdle == minimumIdle
      ensures dataSource.None? && driver.None? && url.None? && user.None? && password.None?
      ensures dataSourceClass.None? && jndiDataSource.None? && connectionType == Single && !running
    {
      this.connectionTimeout := connectionTimeout;
      this.idleTimeout := idleTimeout;
      this.maximumPoolSize := maximumPoolSize;
      this.maxLifetime := maxLifetime;
      this.minimumIdle := minimumIdle;
      dataSource, driver, url, user, password := None, None, None, None, None;
      dataSourceClass, jndiDataSource := None, None;
      autoCommit := true;
      connectionType := Single;
      running := false;
    }

    method Init()
      modifies this`running
      ensures running
    {
      running := true;
    }

    method Stop()
      modifies this`running
      ensures !running
    {
      running := false;
    }
  }

  // ---------------------------------------------------------------------
  // The cache of data-access objects
  // ---------------------------------------------------------------------

  /** The loading cache: one DAO per table name, built by provisioning the table on first use. */
  class DaoCache {
    var entries: map<string, AuditLogDaoImpl>

    ghost predicate Valid()
      reads this
    {
      forall t :: t in entries ==> entries[t].tableName == t && entries[t].Valid()
    }

    constructor ()
      ensures entries == map[] && Valid()
    {
      entries := map[];
    }

    /**
     * `daos.get(tableName)`: a cached DAO comes back without touching the
     * database; otherwise the loader builds one for `schema`, and only a
     * DAO that was built is kept.
     */
    method Get(tableName: string, schema: JString, db: Database) returns (r: Result<AuditLogDaoImpl, Error>)
      requires Valid()
      modifies this, db
      ensures Valid()
      ensures r.Success? ==> tableName in entries && entries[tableName] == r.value
      ensures tableName in old(entries) ==>
        r == Success(old(entries)[tableName]) && entries == old(entries) && unchanged(db)
      ensures tableName !in old(entries) && r.Success? ==>
        && fresh(r.value) && entries == old(entries)[tableName := r.value]
        && r.value.schemaName == schema
        && db.executed == old(db.executed) + ProvisionLog(db.dialect, old(db.indexes), schema, db.currentSchema, tableName)
        && db.indexes == ProvisionCatalog(db.dialect, old(db.indexes), schema, db.currentSchema, tableName)
      ensures r.Failure? ==> tableName !in old(entries) && entries == old(entries)
      ensures r.Failure? && tableName == "" ==>
        r.error == CacheLoadError(IllegalArgumentException(TableNameMessage)) && unchanged(db)
      ensures r.Failure? && tableName != "" ==>
        r.error.ExecutionException? && IsSqlFailure(r.error.cause)
      ensures tableName !in old(entries) ==>
        (r.Success? <==>
           tableName != "" && Accepts(db, ProvisionLog(db.dialect, old(db.indexes), schema, db.currentSchema, tableName)))
    {
      if tableName in entries {
        return Success(entries[tableName]);
      }
      var loaded := NewAuditLogDao(tableName, schema, db);
      if loaded.Failure? {
        return Failure(CacheLoadError(loaded.error));
      }
      entries := entries[tableName := loaded.value];
      r := loaded;
    }
  }

  // ---------------------------------------------------------------------
  // The handler
  // ---------------------------------------------------------------------

  class DatabaseAuditHandler {
    var embedded: JString
    var dbDriver: JString
    var dbUrl: JString
    var dbUser: JString
    var dbPassword: JString
    var dbConnectionType: JString
    var dbDatasourceClass: JString
    var dbJndiDatasource: JString
    var poolAutoCommit: bool
    var poolConnectionTimeout: Option<Long>
    var poolIdleTimeout: Option<Int32>
    var poolMaxLifetime: Option<Int32>
    var poolMinimumIdle: Option<Int32>
    var poolMaximumPoolSize: Option<Int32>
    var server: EmbeddedServer?
    var factory: ConnectionFactory?
    var separate: bool
    var dataSource: Option<DataSource>
    var tablePrefix: JString
    var tableSuffix: JString
    var defaultTableName: string
    var schema: JString
    const daos: DaoCache

    ghost predicate Valid()
      reads this, daos
    {
      defaultTableName != "" && daos.Valid()
    }

    /** A new handler: every setting unset except the defaults the class declares. */
    constructor ()
      ensures Valid() && fresh(daos) && daos.entries == map[]
      ensures embedded.None? && dbDriver.None? && dbUrl.None? && dbUser.None? && dbPassword.None?
      ensures dbConnectionType.None? && dbDatasourceClass.None? && dbJndiDatasource.None?
      ensures poolAutoCommit && poolConnectionTimeout.None? && poolIdleTimeout.None?
      ensures poolMaxLifetime.None? && poolMinimumIdle.None? && poolMaximumPoolSize.None?
      ensures server == null && factory == null && !separate && dataSource.None?
      ensures tablePrefix.None? && tableSuffix == Some(DefaultTableSuffix)
      ensures defaultTableName == DefaultTableName && schema.None?
    {
      embedded, dbDriver, dbUrl, dbUser, dbPassword := None, None, None, None, None;
      dbConnectionType, dbDatasourceClass, dbJndiDatasource := None, None, None;
      poolAutoCommit := true;
      poolConnectionTimeout := None;
      poolIdleTimeout, poolMaxLifetime, poolMinimumIdle, poolMaximumPoolSize := None, None, None, None;
      server, factory := null, null;
      separate := false;
      dataSource := None;
      tablePrefix, tableSuffix := None, Some(DefaultTableSuffix);
      defaultTableName := DefaultTableName;
      schema := None;
      daos := new DaoCache();
    }

    /** `setDefault_table_name`: a null or empty name is refused and the setting stays. */
    method SetDefaultTableName(name: JString) returns (r: Outcome<Error>)
      requires Valid()
      modifies this`defaultTableName
      ensures Valid()
      ensures IsEmpty(name) ==> r == Fail(IllegalArgumentException(TableNameMessage)) && defaultTableName == old(defaultTableName)
      ensures !IsEmpty(name) ==> r == Pass && defaultTableName == name.value
    {
      if IsEmpty(name) {
        return Fail(IllegalArgumentException(TableNameMessage));
      }
      defaultTableName := name.value;
      r := Pass;
    }

    /**
     * `getDaoForTable`: the cache's DAO for the table; a loader failure is
     * unwrapped to the DAO's own HandlerException.
     */
    method GetDaoForTable(tableName: string, db: Database) returns (r: Result<AuditLogDaoImpl, Error>)
      requires daos.Valid()
      modifies daos, db
      ensures daos.Valid()
      ensures r.Success? ==> tableName in daos.entries && daos.entries[tableName] == r.value
      ensures tableName in old(daos.entries) ==>
        r == Success(old(daos.entries)[tableName]) && daos.entries == old(daos.entries) && unchanged(db)
      ensures tableName !in old(daos.entries) && r.Success? ==>
        && fresh(r.value) && daos.entries == old(daos.entries)[tableName := r.value]
        && r.value.schemaName == schema
        && db.executed == old(db.executed) + ProvisionLog(db.dialect, old(db.indexes), schema, db.currentSchema, tableName)
        && db.indexes == ProvisionCatalog(db.dialect, old(db.indexes), schema, db.currentSchema, tableName)
      ensures r.Failure? ==> tableName !in old(daos.entries) && daos.entries == old(daos.entries)
      ensures r.Failure? && tableName == "" ==>
        r.error == UncheckedExecutionException(IllegalArgumentException(TableNameMessage)) && unchanged(db)
      ensures r.Failure? && tableName != "" ==>
        IsSqlFailure(r.error)
      ensures tableName !in old(daos.entries) ==>
        (r.Success? <==>
           tableName != "" && Accepts(db, ProvisionLog(db.dialect, old(db.indexes), schema, db.currentSchema, tableName)))
    {
      var x := daos.Get(tableName, schema, db);
      if x.Failure? {
        return Failure(PropagateHandlerException(x.error));
      }
      r := x;
    }

    /**
     * The cache did not hold `t` and now holds a new DAO for it, built for the
     * handler's schema; every other entry is as it was, and the index catalog
     * is the one provisioning `t` leaves.
     */
    twostate predicate NewlyCached(t: string, db: Database)
      reads this, daos, db
    {
      && t !in old(daos.entries) && t in daos.entries
      && fresh(daos.entries[t]) && daos.entries == old(daos.entries)[t := daos.entries[t]]
      && daos.entries[t].schemaName == schema
      && db.indexes == ProvisionCatalog(db.dialect, old(db.indexes), schema, db.currentSchema, t)
    }

    /** The effect of embedded mode on the settings and the server: driver, URL and default credentials from the server, which runs. */
    twostate predicate EmbeddedServerStarted(srv: EmbeddedServer, embeddedUser: string, embeddedPassword: string)
      reads this, srv
    {
      && server == srv && srv.running
      && dbDriver == Some(srv.driver) && dbUrl == Some(EmbeddedUrl(srv.networkProtocol))
      && dbUser == (if old(dbUser).None? then Some(embeddedUser) else old(dbUser))
      && dbPassword == (if old(dbPassword).None? then Some(embeddedPassword) else old(dbPassword))
      && srv.uname == dbUser && srv.password == dbPassword
    }

    /** Outside embedded mode the connection settings and the server are left as they were. */
    twostate predicate EmbeddedServerUntouched(srv: EmbeddedServer)
      reads this, srv
    {
      && server == old(server) && unchanged(srv)
      && dbDriver == old(dbDriver) && dbUrl == old(dbUrl) && dbUser == old(dbUser) && dbPassword == old(dbPassword)
    }

    /**
     * The factory holds the handler's settings: the connection settings as
     * they are, a pool option only when it is set, the connection type the
     * setting names, and the JNDI data source only for a JNDI connection.
     */
    twostate predicate FactoryConfigured(cf: ConnectionFactory)
      reads this, cf
    {
      && cf.dataSource == dataSource && cf.driver == dbDriver && cf.url == dbUrl
      && cf.user == dbUser && cf.password == dbPassword
      && cf.dataSourceClass == dbDatasourceClass && cf.autoCommit == poolAutoCommit
      && cf.connectionTimeout == Forward(old(cf.connectionTimeout), poolConnectionTimeout)
      && cf.idleTimeout == Forward(old(cf.idleTimeout), poolIdleTimeout)
      && cf.maximumPoolSize == Forward(old(cf.maximumPoolSize), poolMaximumPoolSize)
      && cf.maxLifetime == Forward(old(cf.maxLifetime), poolMaxLifetime)
      && cf.minimumIdle == Forward(old(cf.minimumIdle), poolMinimumIdle)
      && cf.connectionType == ConnectionTypeOf(dbConnectionType)
      && cf.jndiDataSource == (if cf.connectionType == Jndi then dbJndiDatasource else old(cf.jndiDataSource))
    }

    /**
     * The outcome of loading the default table in `init`: it succeeds exactly
     * when the table ends up cached. A cached table touches nothing; a new one
     * is provisioned, which succeeds exactly when the engine accepts every
     * provisioning statement; a failure is wrapped as InitializationException
     * and leaves the cache as it was.
     */
    twostate predicate DefaultTableLoaded(new r: Outcome<Error>, db: Database)
      reads this, daos, db
    {
      && (r.Pass? <==> defaultTableName in daos.entries)
      && (defaultTableName in old(daos.entries) ==> r == Pass && daos.entries == old(daos.entries) && unchanged(db))
      && (defaultTableName !in old(daos.entries) && r.Pass? ==>
            && NewlyCached(defaultTableName, db)
            && db.executed == old(db.executed) + ProvisionLog(db.dialect, old(db.indexes), schema, db.currentSchema, defaultTableName))
      && (defaultTableName !in old(daos.entries) ==>
            (r.Pass? <==> Accepts(db, ProvisionLog(db.dialect, old(db.indexes), schema, db.currentSchema, defaultTableName))))
      && (r.Fail? ==>
            && daos.entries == old(daos.entries)
            && r.error.InitializationException? && r.error == InitFailure(r.error.cause) && IsSqlFailure(r.error.cause))
    }

    /** The embedded-mode part of `init`: driver, URL and default credentials from the server, which is then started. */
    method StartEmbeddedServer(srv: EmbeddedServer, embeddedUser: string, embeddedPassword: string)
      modifies this`server, this`dbDriver, this`dbUrl, this`dbUser, this`dbPassword
      modifies srv`uname, srv`password, srv`running
      ensures EmbeddedServerStarted(srv, embeddedUser, embeddedPassword)
    {
      server := srv;
      dbDriver := Some(srv.driver);
      dbUrl := Some(EmbeddedUrl(srv.networkProtocol));
      if dbUser.None? {
        dbUser := Some(embeddedUser);
      }
      if dbPassword.None? {
        dbPassword := Some(embeddedPassword);
      }
      srv.uname := dbUser;
      srv.password := dbPassword;
      srv.Start();
    }

    /** The factory part of `init`: the factory is recorded, configured and started. */
    method StartFactory(cf: ConnectionFactory)
      modifies this`factory, cf
      ensures factory == cf && cf.running
      ensures FactoryConfigured(cf)
    {
      factory := cf;
      ConfigureFactory(cf);
      cf.Init();
    }

    /** Every setting handed to the factory, the pool options only when set. */
    method ConfigureFactory(cf: ConnectionFactory)
      modifies cf`dataSource, cf`driver, cf`url, cf`user, cf`password, cf`dataSourceClass, cf`autoCommit
      modifies cf`connectionTimeout, cf`idleTimeout, cf`maximumPoolSize, cf`maxLifetime, cf`minimumIdle
      modifies cf`connectionType, cf`jndiDataSource
      ensures FactoryConfigured(cf)
    {
      cf.dataSource := dataSource;
      cf.driver := dbDriver;
      cf.url := dbUrl;
      cf.user := dbUser;
      cf.password := dbPassword;
      cf.dataSourceClass := dbDatasourceClass;
      cf.autoCommit := poolAutoCommit;
      ForwardPoolOptions(cf);
      SelectConnectionType(cf);
    }

    /** The pool options of `init`, each handed to the factory only when it is set. */
    method ForwardPoolOptions(cf: ConnectionFactory)
      modifies cf`connectionTimeout, cf`idleTimeout, cf`maximumPoolSize, cf`maxLifetime, cf`minimumIdle
      ensures cf.connectionTimeout == Forward(old(cf.connectionTimeout), poolConnectionTimeout)
      ensures cf.idleTimeout == Forward(old(cf.idleTimeout), poolIdleTimeout)
      ensures cf.maximumPoolSize == Forward(old(cf.maximumPoolSize), poolMaximumPoolSize)
      ensures cf.maxLifetime == Forward(old(cf.maxLifetime), poolMaxLifetime)
      ensures cf.minimumIdle == Forward(old(cf.minimumIdle), poolMinimumIdle)
    {
      if poolConnectionTimeout.Some? {
        cf.connectionTimeout := poolConnectionTimeout.value;
      }
      if poolIdleTimeout.Some? {
        cf.idleTimeout := poolIdleTimeout.value;
      }
      if poolMaximumPoolSize.Some? {
        cf.maximumPoolSize := poolMaximumPoolSize.value;
      }
      if poolMaxLifetime.Some? {
        cf.maxLifetime := poolMaxLifetime.value;
      }
      if poolMinimumIdle.Some? {
        cf.minimumIdle := poolMinimumIdle.value;
      }
    }

    /** The connection type of `init`: the JNDI data source is handed over only for a JNDI connection. */
    method SelectConnectionType(cf: ConnectionFactory)
      modifies cf`connectionType, cf`jndiDataSource
      ensures cf.connectionType == ConnectionTypeOf(dbConnectionType)
      ensures cf.jndiDataSource == (if cf.connectionType == Jndi then dbJndiDatasource else old(cf.jndiDataSource))
    {
      if dbConnectionType.Some? && dbConnectionType.value == "pooled" {
        cf.connectionType := Pooled;
      } else if dbConnectionType.Some? && dbConnectionType.value == "jndi" {
        cf.connectionType := Jndi;
        cf.jndiDataSource := dbJndiDatasource;
      } else {
        cf.connectionType := Single;
      }
    }

    /** The last part of `init`: the default table's DAO is loaded; a failure to build it stops initialisation. */
    method ProvisionDefaultTable(db: Database) returns (r: Outcome<Error>)
      requires Valid()
      modifies daos, db
      ensures Valid()
      ensures DefaultTableLoaded(r, db)
    {
      var dao := GetDaoForTable(defaultTableName, db);
      if dao.Failure? {
        return Fail(InitFailure(dao.error));
      }
      r := Pass;
    }

    /**
     * `init`: embedded mode first (server credentials defaulted and the
     * server started), then every setting handed to the factory, the factory
     * started, and the default table provisioned through the cache.
     */
    method Init(srv: EmbeddedServer, cf: ConnectionFactory, embeddedUser: string, embeddedPassword: string, db: Database)
      returns (r: Outcome<Error>)
      requires Valid()
      modifies this`server, this`dbDriver, this`dbUrl, this`dbUser, this`dbPassword, this`factory
      modifies srv`uname, srv`password, srv`running, cf, daos, db
      ensures Valid()
      ensures IsEmbeddedMode(embedded) ==> EmbeddedServerStarted(srv, embeddedUser, embeddedPassword)
      ensures !IsEmbeddedMode(embedded) ==> EmbeddedServerUntouched(srv)
      ensures factory == cf && cf.running && FactoryConfigured(cf)
      ensures DefaultTableLoaded(r, db)
    {
      StartServices(srv, cf, embeddedUser, embeddedPassword);
      r := ProvisionDefaultTable(db);
    }

    /** The first two parts of `init`: the embedded server when embedded mode is on, then the factory. */
    method StartServices(srv: EmbeddedServer, cf: ConnectionFactory, embeddedUser: string, embeddedPassword: string)
      modifies this`server, this`dbDriver, this`dbUrl, this`dbUser, this`dbPassword, this`factory
      modifies srv`uname, srv`password, srv`running, cf
      ensures IsEmbeddedMode(embedded) ==> EmbeddedServerStarted(srv, embeddedUser, embeddedPassword)
      ensures !IsEmbeddedMode(embedded) ==> EmbeddedServerUntouched(srv)
      ensures factory == cf && cf.running && FactoryConfigured(cf)
    {
      if IsEmbeddedMode(embedded) {
        StartEmbeddedServer(srv, embeddedUser, embeddedPassword);
      }
      StartFactory(cf);
    }

    /**
     * `handle`: write the event to its table's DAO. A table met for the first
     * time is provisioned before the insert runs.
     */
    method Handle(event: AuditEvent, encode: seq<Field> -> string, db: Database) returns (r: Outcome<Error>)
      requires Valid()
      modifies daos, db
      ensures Valid()
      ensures var t := TargetTable(separate, defaultTableName, tablePrefix, tableSuffix, event.repository);
        && (t in old(daos.entries) ==>
              && daos.entries == old(daos.entries) && db.indexes == old(db.indexes)
              && var insert := Statement(InsertQuery(old(daos.entries)[t].schemaName, t), WriteParams(event, encode));
              InsertOutcome(db, insert, r, old(db.executed), db.executed))
        && (t !in old(daos.entries) && t in daos.entries ==>
              && NewlyCached(t, db)
              && var insert := Statement(InsertQuery(schema, t), WriteParams(event, encode));
              InsertOutcome(db, insert, r, old(db.executed)
                + ProvisionLog(db.dialect, old(db.indexes), schema, db.currentSchema, t), db.executed))
        && (t !in daos.entries ==> r.Fail? && daos.entries == old(daos.entries))
        && (t !in old(daos.entries) ==>
              (t in daos.entries <==> Accepts(db, ProvisionLog(db.dialect, old(db.indexes), schema, db.currentSchema, t))))
      ensures r.Fail? ==> IsSqlFailure(r.error)
    {
      var t := TargetTable(separate, defaultTableName, tablePrefix, tableSuffix, event.repository);
      var dao := GetDaoForTable(t, db);
      if dao.Failure? {
        return Fail(dao.error);
      }
      var written := dao.value.WriteEvent(event, encode, db);
      if written.Failure? {
        return Fail(written.error);
      }
      r := Pass;
    }

    /** `findAuditEventsByActor`: the same table choice as `handle`, then the DAO's query. */
    method FindAuditEventsByActor(actor: JString, limit: Option<Int32>, repository: JString,
                                  decode: string -> Option<seq<Field>>, db: Database)
      returns (r: Result<seq<AuditEvent>, Error>)
      requires Valid()
      modifies daos, db
      ensures Valid()
      ensures var t := TargetTable(separate, defaultTableName, tablePrefix, tableSuffix, repository);
        && (t in old(daos.entries) ==>
              && daos.entries == old(daos.entries) && db.indexes == old(db.indexes)
              && ReadByActor(db, TableRef(old(daos.entries)[t].schemaName, t), actor, limit, decode, r,
                             old(db.executed), db.executed))
        && (t !in old(daos.entries) && t in daos.entries ==>
              && NewlyCached(t, db)
              && ReadByActor(db, TableRef(schema, t), actor, limit, decode, r,
                             old(db.executed) + ProvisionLog(db.dialect, old(db.indexes), schema, db.currentSchema, t),
                             db.executed))
        && (t !in daos.entries ==> r.Failure? && IsSqlFailure(r.error) && daos.entries == old(daos.entries))
        && (t !in old(daos.entries) ==>
              (t in daos.entries <==> Accepts(db, ProvisionLog(db.dialect, old(db.indexes), schema, db.currentSchema, t))))
    {
      var t := TargetTable(separate, defaultTableName, tablePrefix, tableSuffix, repository);
      var dao := GetDaoForTable(t, db);
      if dao.Failure? {
        return Failure(dao.error);
      }
      r := dao.value.FindAuditEventsByActor(actor, limit, decode, db);
    }

    /** `stop`: stop the factory (there must be one), then shut the embedded server down if one was started. */
    method Stop() returns (r: Outcome<Error>)
      modifies {factory}`running, {server}`running
      ensures factory == null ==> r == Fail(NullPointerException("factory")) && (server != null ==> unchanged(server))
      ensures factory != null ==> r == Pass && !factory.running && (server != null ==> !server.running)
    {
      if factory == null {
        return Fail(NullPointerException("factory"));
      }
      factory.Stop();
      if server != null {
        server.Shutdown();
      }
      r := Pass;
    }
  }
}
