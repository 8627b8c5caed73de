/**
 * The per-dialect managers: each fixes its own dialect string and default
 * port and forwards the remaining arguments to `DBManager`'s constructor,
 * substituting the default port when none is given.
 */
module DialectDbManager {
  import opened Wrappers
  import opened Connection

  /** The concrete subclasses of `_DialectDBManager`. */
  datatype DialectManager =
    | PostgreDBManager
    | MySQLDBManager
    | OracleDBManager
    | MicrosoftSQLServerDBManager
    | SQLiteDBManager

  /** The class-level `dialect` constant of each manager. */
  function DialectOf(m: DialectManager): string {
    match m
    case PostgreDBManager => "postgresql"
    case MySQLDBManager => "mysql"
    case OracleDBManager => "oracle"
    case MicrosoftSQLServerDBManager => "mssql"
    case SQLiteDBManager => "sqlite"
  }

  /** The class-level `default_port`; SQLite inherits `None`. */
  function DefaultPort(m: DialectManager): Option<int> {
    match m
    case PostgreDBManager => Some(5432)
    case MySQLDBManager => Some(3306)
    case OracleDBManager => Some(1521)
    case MicrosoftSQLServerDBManager => Some(1433)
    case SQLiteDBManager => None
  }

  /** A missing port becomes the class default; a given one is kept. */
  function ResolvePort(m: DialectManager, port: Option<int>): (p: Option<int>)
    ensures port.Some? ==> p == port
    ensures port.None? ==> p == DefaultPort(m)
  {
    if port.None? then DefaultPort(m) else port
  }

  datatype InitError =
    | Config(cause: ConfigError)
    /** Python's TypeError for a keyword argument the callee does not declare. */
    | UnexpectedKeyword(name: string)

  /** `_DialectDBManager.__init__`: resolve the port and forward the class's own dialect. */
  function DialectInit(m: DialectManager, database: string, user: string, password: string,
                       host: string, port: Option<int>, engine: string): Result<string, InitError>
  {
    match DBManagerInit(database, user, password, host, ResolvePort(m, port), DialectOf(m), engine)
    case Ok(url) => Ok(url)
    case Err(e) => Err(Config(e))
  }

  /** The default ports of the four network dialects. */
  lemma DefaultPortsAreStandard()
    ensures DefaultPort(PostgreDBManager) == Some(5432) && PortText(Some(5432)) == "5432"
    ensures DefaultPort(MySQLDBManager) == Some(3306) && PortText(Some(3306)) == "3306"
    ensures DefaultPort(OracleDBManager) == Some(1521) && PortText(Some(1521)) == "1521"
    ensures DefaultPort(MicrosoftSQLServerDBManager) == Some(1433) && PortText(Some(1433)) == "1433"
    ensures DefaultPort(SQLiteDBManager) == None
  {
  }

  /**
   * `_DialectDBManager.__init__` run with each class's own constants: every
   * manager forwards a supported dialect of its own, so the only way it can
   * fail is an engine outside that dialect's list. `SQLiteDBManager`
   * overrides this constructor; its own is `SQLiteInitAsWritten`.
   */
  lemma DialectInitFailsOnlyOnEngine(m: DialectManager, database: string, user: string, password: string,
                                     host: string, port: Option<int>, engine: string)
    ensures DialectOf(m) in AvailableDialects
    ensures DialectInit(m, database, user, password, host, port, engine).Err? <==>
              engine != "" && engine !in EnginesFor(DialectOf(m))
    ensures DialectInit(m, database, user, password, host, port, engine).Err? ==>
              DialectInit(m, database, user, password, host, port, engine).error == Config(UnsupportedEngine(engine, DialectOf(m)))
  {
  }

  /**
   * A network manager built without a port connects to its default port:
   * the URL starts with the class's dialect and ends with `:<default>/<database>`.
   */
  lemma DefaultPortReachesUrl(m: DialectManager, database: string, user: string, password: string,
                              host: string, engine: string)
    requires m != SQLiteDBManager
    requires engine == "" || engine in EnginesFor(DialectOf(m))
    ensures var r := DialectInit(m, database, user, password, host, None, engine);
            var tail := ":" + PortText(DefaultPort(m)) + "/" + database;
            && r.Ok?
            && |DialectOf(m)| < |r.value| && r.value[..|DialectOf(m)|] == DialectOf(m)
            && |tail| <= |r.value| && r.value[|r.value| - |tail|..] == tail
  {
    var dialect, port := DialectOf(m), DefaultPort(m);
    assert dialect in AvailableDialects && dialect != Sqlite;
    assert ResolvePort(m, None) == port;
    var url := ConstructDatabaseUrl(dialect, database, user, password, host, port, engine);
    assert DialectInit(m, database, user, password, host, None, engine) == Ok(url);
    EngineSegmentIff(dialect, database, user, password, host, port, engine);
    UrlEndsWithPortAndDatabase(dialect, database, user, password, host, port, engine);
  }

  /** An explicitly given port reaches the URL unchanged. */
  lemma ExplicitPortReachesUrl(m: DialectManager, database: string, user: string, password: string,
                               host: string, port: int, engine: string)
    requires m != SQLiteDBManager
    requires engine == "" || engine in EnginesFor(DialectOf(m))
    ensures var r := DialectInit(m, database, user, password, host, Some(port), engine);
            var tail := ":" + PortText(Some(port)) + "/" + database;
            r.Ok? && |tail| <= |r.value| && r.value[|r.value| - |tail|..] == tail
  {
    UrlEndsWithPortAndDatabase(DialectOf(m), database, user, password, host, Some(port), engine);
  }

  /** Keyword parameters that `_DialectDBManager.__init__` declares. */
  const DialectInitParameters: set<string> := {"database", "user", "password", "host", "port", "engine", "echo"}

  /** The first keyword of a call that the callee does not declare, as Python reports it. */
  function FirstUnexpected(passed: seq<string>, declared: set<string>): (r: Option<string>)
    ensures r.None? <==> forall i :: 0 <= i < |passed| ==> passed[i] in declared
    ensures r.Some? ==> r.value !in declared
    ensures r.Some? ==> exists i :: 0 <= i < |passed| && passed[i] == r.value && forall j :: 0 <= j < i ==> passed[j] in declared
  {
    if passed == [] then None
    else if passed[0] !in declared then Some(passed[0])
    else FirstUnexpected(passed[1..], declared)
  }

  /** The keywords `SQLiteDBManager.__init__` passes to its parent, as written. */
  const SQLiteForwardedAsWritten: seq<string> := ["database", "user", "password", "host", "port", "dialect", "engine", "echo"]

  /** The same call without the `dialect` keyword, which the parent supplies itself. */
  const SQLiteForwarded: seq<string> := ["database", "user", "password", "host", "port", "engine", "echo"]

  /** `SQLiteDBManager.__init__` forwarding the given keywords: empty credentials, no port, no engine. */
  function SQLiteInitWith(forwarded: seq<string>, database: string): Result<string, InitError> {
    match FirstUnexpected(forwarded, DialectInitParameters)
    case Some(k) => Err(UnexpectedKeyword(k))
    case None => DialectInit(SQLiteDBManager, database, "", "", "", None, "")
  }

  function SQLiteInitAsWritten(database: string): Result<string, InitError> {
    SQLiteInitWith(SQLiteForwardedAsWritten, database)
  }

  function SQLiteInit(database: string): Result<string, InitError> {
    SQLiteInitWith(SQLiteForwarded, database)
  }

  /** As written, constructing a SQLiteDBManager always fails on the `dialect` keyword. */
  lemma SQLiteInitAsWrittenAlwaysFails(database: string)
    ensures SQLiteInitAsWritten(database) == Err(UnexpectedKeyword("dialect"))
  {
  }

  /**
   * Without the extra keyword, a SQLiteDBManager always constructs, and its
   * URL denotes exactly the given database (in memory for `:memory:`).
   */
  lemma SQLiteInitBuildsDatabaseUrl(database: string)
    ensures SQLiteInit(database).Ok?
    ensures SqliteDatabaseOf(SQLiteInit(database).value) == Some(database)
    ensures database == MemoryDatabase ==> SQLiteInit(database).value == SqliteMemoryUrl
  {
  }
}
