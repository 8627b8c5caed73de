/**
 * Connection configuration of `DBManager`: the dialect and driver tables,
 * the argument checks of the constructor and the construction of the
 * database URL that is handed to SQLAlchemy.
 */
module Connection {
  import opened Wrappers

  /** The dialects the manager accepts. */
  const AvailableDialects: seq<string> := ["postgresql", "mysql", "oracle", "mssql", "sqlite"]

  /** Driver ("engine") names allowed per dialect; sqlite allows only the empty name. */
  const AvailableEngines: map<string, seq<string>> := map[
    "postgresql" := ["psycopg2", "pg8000", "asyncpg"],
    "mysql" := ["mysqldb", "pymysql"],
    "oracle" := ["cx_oracle"],
    "mssql" := ["pyodbc", "pymssql"],
    "sqlite" := [""]
  ]

  const Sqlite := "sqlite"

  /** The database name that selects an in-memory sqlite database. */
  const MemoryDatabase := ":memory:"

  const SqliteMemoryUrl := "sqlite://"
  const SqliteFilePrefix := "sqlite:///"

  datatype ConfigError =
    | UnsupportedDialect(dialect: string)
    | UnsupportedEngine(engine: string, dialect: string)

  /** The engine list of a dialect, or the empty list for an unknown one (`dict.get(dialect, [])`). */
  function EnginesFor(dialect: string): seq<string> {
    if dialect in AvailableEngines then AvailableEngines[dialect] else []
  }

  predicate IsDigit(c: char) {
    '0' <= c <= '9'
  }

  function DigitChar(d: nat): (c: char)
    requires d < 10
    ensures IsDigit(c)
  {
    ('0' as int + d) as char
  }

  /** Decimal digits of a natural number, most significant first, with no leading zero. */
  function DigitsOf(n: nat): (s: string)
    ensures 1 <= |s|
    ensures forall i :: 0 <= i < |s| ==> IsDigit(s[i])
    ensures s[0] == '0' ==> n == 0
  {
    if n < 10 then [DigitChar(n)] else DigitsOf(n / 10) + [DigitChar(n % 10)]
  }

  /** The number a string of decimal digits denotes; the inverse of DigitsOf. */
  function DigitsValue(s: string): int
    requires forall i :: 0 <= i < |s| ==> IsDigit(s[i])
  {
    if s == [] then 0 else DigitsValue(s[..|s| - 1]) * 10 + (s[|s| - 1] as int - '0' as int)
  }

  /** The port text is decimal notation: reading it back gives the port. */
  lemma {:induction false} DigitsRoundTrip(n: nat)
    ensures DigitsValue(DigitsOf(n)) == n
  {
    if n >= 10 {
      var s := DigitsOf(n);
      assert s[..|s| - 1] == DigitsOf(n / 10);
      DigitsRoundTrip(n / 10);
    }
  }

  /** How Python's f-string renders the port: an int in decimal, `None` as "None". */
  function PortText(port: Option<int>): string {
    match port
    case None => "None"
    case Some(n) => if n < 0 then "-" + DigitsOf(-n) else DigitsOf(n)
  }

  /** `dialect+engine`, or just `dialect` when no engine is given. */
  function EngineSpec(dialect: string, engine: string): string {
    if engine != "" then dialect + "+" + engine else dialect
  }

  /** What follows the engine spec in a network URL: `://user:password@host:port/database`. */
  function ServerPart(database: string, user: string, password: string, host: string, port: Option<int>): string {
    "://" + user + ":" + password + "@" + host + ":" + PortText(port) + "/" + database
  }

  /** The URL `_construct_database_url` builds; pure string assembly, no escaping. */
  function ConstructDatabaseUrl(dialect: string, database: string, user: string, password: string,
                                host: string, port: Option<int>, engine: string): string
  {
    if dialect == Sqlite then
      (if database != MemoryDatabase then SqliteFilePrefix + database else SqliteMemoryUrl)
    else
      EngineSpec(dialect, engine) + ServerPart(database, user, password, host, port)
  }

  /**
   * The checks and URL construction of `DBManager.__init__`: the dialect is
   * checked first, then a non-empty engine against that dialect's list; only
   * then is the URL built. Engine and session creation are not modelled.
   */
  function DBManagerInit(database: string, user: string, password: string, host: string,
                         port: Option<int>, dialect: string, engine: string): (r: Result<string, ConfigError>)
    ensures r.Ok? <==> dialect in AvailableDialects && (engine == "" || engine in EnginesFor(dialect))
    ensures dialect !in AvailableDialects ==> r == Err(UnsupportedDialect(dialect))
    ensures dialect in AvailableDialects && engine != "" && engine !in EnginesFor(dialect) ==>
              r == Err(UnsupportedEngine(engine, dialect))
    ensures r.Ok? ==> r.value == ConstructDatabaseUrl(dialect, database, user, password, host, port, engine)
  {
    if dialect !in AvailableDialects then Err(UnsupportedDialect(dialect))
    else if engine != "" && engine !in EnginesFor(dialect) then Err(UnsupportedEngine(engine, dialect))
    else Ok(ConstructDatabaseUrl(dialect, database, user, password, host, port, engine))
  }

  /** An empty engine name never makes a supported dialect fail. */
  lemma EmptyEngineAccepted(database: string, user: string, password: string, host: string,
                            port: Option<int>, dialect: string)
    requires dialect in AvailableDialects
    ensures DBManagerInit(database, user, password, host, port, dialect, "").Ok?
  {
  }

  /** sqlite's engine list is `[""]`, so every non-empty engine is rejected for it. */
  lemma SqliteRejectsEveryEngine(database: string, user: string, password: string, host: string,
                                 port: Option<int>, engine: string)
    requires engine != ""
    ensures DBManagerInit(database, user, password, host, port, Sqlite, engine) == Err(UnsupportedEngine(engine, Sqlite))
  {
    assert EnginesFor(Sqlite) == [""];
  }

  /** Recovers the database name from a sqlite URL. */
  function SqliteDatabaseOf(url: string): Option<string> {
    if url == SqliteMemoryUrl then Some(MemoryDatabase)
    else if |url| >= |SqliteFilePrefix| && url[..|SqliteFilePrefix|] == SqliteFilePrefix then Some(url[|SqliteFilePrefix|..])
    else None
  }

  /**
   * A sqlite URL denotes exactly the database it was built from: the
   * in-memory sentinel gives the bare `sqlite://`, any other name is
   * embedded once after `sqlite:///`.
   */
  lemma SqliteUrlRoundTrip(database: string, user: string, password: string, host: string,
                           port: Option<int>, engine: string)
    ensures SqliteDatabaseOf(ConstructDatabaseUrl(Sqlite, database, user, password, host, port, engine)) == Some(database)
    ensures database == MemoryDatabase ==> ConstructDatabaseUrl(Sqlite, database, user, password, host, port, engine) == SqliteMemoryUrl
  {
  }

  /** User, password, host, port and engine never influence a sqlite URL. */
  lemma SqliteUrlIgnoresServerFields(database: string,
                                     user1: string, password1: string, host1: string, port1: Option<int>, engine1: string,
                                     user2: string, password2: string, host2: string, port2: Option<int>, engine2: string)
    ensures ConstructDatabaseUrl(Sqlite, database, user1, password1, host1, port1, engine1)
         == ConstructDatabaseUrl(Sqlite, database, user2, password2, host2, port2, engine2)
  {
  }

  /**
   * A network URL starts with the dialect, and the character after it is
   * `+` exactly when an engine was given.
   */
  lemma EngineSegmentIff(dialect: string, database: string, user: string, password: string,
                         host: string, port: Option<int>, engine: string)
    requires dialect != Sqlite
    ensures var url := ConstructDatabaseUrl(dialect, database, user, password, host, port, engine);
            |dialect| < |url| && url[..|dialect|] == dialect && (url[|dialect|] == '+' <==> engine != "")
  {
  }

  /** A network URL ends with `:<port>/<database>`. */
  lemma UrlEndsWithPortAndDatabase(dialect: string, database: string, user: string, password: string,
                                   host: string, port: Option<int>, engine: string)
    requires dialect != Sqlite
    ensures var url := ConstructDatabaseUrl(dialect, database, user, password, host, port, engine);
            var tail := ":" + PortText(port) + "/" + database;
            |tail| <= |url| && url[|url| - |tail|..] == tail
  {
    var tail := ":" + PortText(port) + "/" + database;
    var head := "://" + user + ":" + password + "@" + host;
    var spec := EngineSpec(dialect, engine);
    assert ServerPart(database, user, password, host, port) == head + tail;
    assert ConstructDatabaseUrl(dialect, database, user, password, host, port, engine) == spec + (head + tail);
    assert spec + (head + tail) == (spec + head) + tail;
  }
}
