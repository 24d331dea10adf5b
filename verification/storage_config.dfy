/** The storage configuration: which database backs the repositories, read
    from the environment, and the connection URL built from it together
    with the password-masked form the configuration prints. */
module StorageConfig {
  import opened Util
  import SkillsRuntime
  import opened UrlMasking

  type Env = map<string, string>

  // ---------------------------------------------------------------- types

  datatype StorageType = Sqlite | MySql | PostgreSql | Memory {
    /** The enum value. */
    function Value(): string {
      match this
      case Sqlite => "sqlite"
      case MySql => "mysql"
      case PostgreSql => "postgresql"
      case Memory => "memory"
    }
  }

  /** `StorageType(value)`: the member with that value, `None` where Python
      raises `ValueError`. */
  function ParseStorageType(s: string): (r: Option<StorageType>)
    ensures r.Some? ==> r.value.Value() == s
    ensures r.None? ==> s !in {"sqlite", "mysql", "postgresql", "memory"}
  {
    if s == "sqlite" then Some(Sqlite)
    else if s == "mysql" then Some(MySql)
    else if s == "postgresql" then Some(PostgreSql)
    else if s == "memory" then Some(Memory)
    else None
  }

  /** Every enum value is written in lower case. */
  lemma ValueIsLower(t: StorageType)
    ensures Lower(t.Value()) == t.Value()
  {
    LowerOfLowerCase(t.Value());
  }

  lemma ParseStorageTypeRoundTrip(t: StorageType)
    ensures ParseStorageType(t.Value()) == Some(t)
  {
  }

  /** The settings of one database server. */
  datatype Server = Server(host: string, port: int, user: string, password: string, database: string)

  /** The `StorageConfig` dataclass, its MySQL and PostgreSQL settings each
      grouped into a `Server`. */
  datatype Config = Config(
    storageType: StorageType,
    sqlitePath: string,
    mysql: Server,
    postgres: Server,
    poolSize: int, maxOverflow: int, poolTimeout: int,
    echoSql: bool, autoCreateTables: bool)

  const MySqlDefaults: Server := Server("localhost", 3306, "root", "", "agent_hive")
  const PostgresDefaults: Server := Server("localhost", 5432, "postgres", "", "agent_hive")

  /** The dataclass defaults. */
  const Defaults: Config := Config(Sqlite, "data/agent_hive.db", MySqlDefaults, PostgresDefaults, 5, 10, 30, false, true)

  // ------------------------------------------------------------- from_env

  /** `os.getenv(key, default)`. */
  function Getenv(env: Env, key: string, default: string): (v: string)
    ensures key in env ==> v == env[key]
    ensures key !in env ==> v == default
  {
    if key in env then env[key] else default
  }

  /** The storage type named by STORAGE_TYPE in any letter case, SQLite for
      an unknown name. */
  function ReadStorageType(env: Env): (t: StorageType)
    ensures ParseStorageType(Lower(Getenv(env, "STORAGE_TYPE", "sqlite"))).Some? ==>
              t.Value() == Lower(Getenv(env, "STORAGE_TYPE", "sqlite"))
    ensures ParseStorageType(Lower(Getenv(env, "STORAGE_TYPE", "sqlite"))).None? ==> t == Sqlite
  {
    ParseStorageType(Lower(Getenv(env, "STORAGE_TYPE", "sqlite"))).GetOr(Sqlite)
  }

  /** A flag is set when its value, lowered, is exactly "true". */
  function ReadFlag(env: Env, key: string, default: bool): (b: bool)
    ensures key !in env ==> b == default
    ensures key in env ==> (b <==> Lower(env[key]) == "true")
  {
    Lower(Getenv(env, key, if default then "true" else "false")) == "true"
  }

  /** `int()` reads back what `str()` writes for any integer. */
  lemma ParseIntText(i: int)
    ensures SkillsRuntime.ParseInt(IntToString(i)) == Some(i)
  {
    if i >= 0 {
      ParseNonNegativeText(i);
    } else {
      ParseNegativeText(i);
    }
  }

  lemma ParseNonNegativeText(i: int)
    requires i >= 0
    ensures SkillsRuntime.ParseInt(IntToString(i)) == Some(i)
  {
    SkillsRuntime.ParsePositive(i);
  }

  lemma ParseNegativeText(i: int)
    requires i < 0
    ensures SkillsRuntime.ParseInt(IntToString(i)) == Some(i)
  {
    var n: nat := -i;
    assert IntToString(i) == "-" + NatToString(n);
    SkillsRuntime.ParseNegative(n);
    assert -(n as int) == i;
  }

  /** `int(os.getenv(key, str(default)))`: the text `int()` rejects, which
      raises `ValueError`, as the error. */
  function ReadInt(env: Env, key: string, default: int): (r: Result<int, string>)
    ensures key !in env ==> r == Ok(default)
    ensures key in env ==> (r.Ok? <==> SkillsRuntime.ParseInt(env[key]).Some?)
    ensures key in env && r.Ok? ==> r.value == SkillsRuntime.ParseInt(env[key]).value
    ensures r.Err? ==> r.error == env[key]
  {
    ParseIntText(default);
    var raw := Getenv(env, key, IntToString(default));
    match SkillsRuntime.ParseInt(raw)
    case Some(v) => Ok(v)
    case None => Err(raw)
  }

  /** The variables naming one server's settings. */
  datatype ServerKeys = ServerKeys(host: string, port: string, user: string, password: string, database: string)

  const MySqlKeys: ServerKeys := ServerKeys("MYSQL_HOST", "MYSQL_PORT", "MYSQL_USER", "MYSQL_PASSWORD", "MYSQL_DATABASE")
  const PostgresKeys: ServerKeys :=
    ServerKeys("POSTGRES_HOST", "POSTGRES_PORT", "POSTGRES_USER", "POSTGRES_PASSWORD", "POSTGRES_DATABASE")

  /** The settings of one server; only the port can fail. */
  function ReadServer(env: Env, keys: ServerKeys, defaults: Server): (r: Result<Server, string>)
    ensures r.Err? <==> ReadInt(env, keys.port, defaults.port).Err?
    ensures r.Err? ==> r.error == ReadInt(env, keys.port, defaults.port).error
    ensures r.Ok? ==> r.value.port == ReadInt(env, keys.port, defaults.port).value
    ensures r.Ok? ==> r.value.host == Getenv(env, keys.host, defaults.host)
                      && r.value.user == Getenv(env, keys.user, defaults.user)
                      && r.value.password == Getenv(env, keys.password, defaults.password)
                      && r.value.database == Getenv(env, keys.database, defaults.database)
  {
    match ReadInt(env, keys.port, defaults.port)
    case Err(e) => Err(e)
    case Ok(port) =>
      Ok(Server(Getenv(env, keys.host, defaults.host), port, Getenv(env, keys.user, defaults.user),
                Getenv(env, keys.password, defaults.password), Getenv(env, keys.database, defaults.database)))
  }

  /** The pool settings, read in order; the first rejected text is the
      error. */
  function ReadPool(env: Env): (r: Result<(int, int, int), string>)
    ensures r.Ok? <==> ReadInt(env, "DB_POOL_SIZE", 5).Ok? && ReadInt(env, "DB_MAX_OVERFLOW", 10).Ok?
                       && ReadInt(env, "DB_POOL_TIMEOUT", 30).Ok?
    ensures r.Ok? ==> r.value == (ReadInt(env, "DB_POOL_SIZE", 5).value, ReadInt(env, "DB_MAX_OVERFLOW", 10).value,
                                  ReadInt(env, "DB_POOL_TIMEOUT", 30).value)
  {
    match ReadInt(env, "DB_POOL_SIZE", 5)
    case Err(e) => Err(e)
    case Ok(size) =>
      match ReadInt(env, "DB_MAX_OVERFLOW", 10)
      case Err(e) => Err(e)
      case Ok(overflow) =>
        match ReadInt(env, "DB_POOL_TIMEOUT", 30)
        case Err(e) => Err(e)
        case Ok(timeout) => Ok((size, overflow, timeout))
  }

  /** `StorageConfig.from_env()`: the configuration, or the first text that
      `int()` rejects, which raises `ValueError` out of the call. */
  function FromEnv(env: Env): (r: Result<Config, string>)
    ensures r.Ok? <==> ReadServer(env, MySqlKeys, MySqlDefaults).Ok? && ReadServer(env, PostgresKeys, PostgresDefaults).Ok?
                       && ReadPool(env).Ok?
    ensures r.Ok? ==> r.value.storageType == ReadStorageType(env)
    ensures r.Ok? ==> r.value.mysql == ReadServer(env, MySqlKeys, MySqlDefaults).value
                      && r.value.postgres == ReadServer(env, PostgresKeys, PostgresDefaults).value
  {
    match ReadServer(env, MySqlKeys, MySqlDefaults)
    case Err(e) => Err(e)
    case Ok(mysql) =>
      match ReadServer(env, PostgresKeys, PostgresDefaults)
      case Err(e) => Err(e)
      case Ok(postgres) =>
        match ReadPool(env)
        case Err(e) => Err(e)
        case Ok(pool) =>
          Ok(Config(ReadStorageType(env), Getenv(env, "SQLITE_PATH", "data/agent_hive.db"), mysql, postgres,
                    pool.0, pool.1, pool.2,
                    ReadFlag(env, "DB_ECHO_SQL", false), ReadFlag(env, "DB_AUTO_CREATE_TABLES", true)))
  }

  /** An empty environment yields the dataclass defaults. */
  lemma EmptyEnvGivesDefaults()
    ensures FromEnv(map[]) == Ok(Defaults)
  {
    assert Lower("sqlite") == "sqlite";
  }

  /** The integer settings in the order `from_env` reads them. */
  const IntKeys: seq<string> := [MySqlKeys.port, PostgresKeys.port, "DB_POOL_SIZE", "DB_MAX_OVERFLOW", "DB_POOL_TIMEOUT"]

  /** A setting `int()` rejects. */
  predicate BadInt(env: Env, key: string) {
    key in env && SkillsRuntime.ParseInt(env[key]).None?
  }

  lemma ReadIntFails(env: Env, key: string, default: int)
    ensures ReadInt(env, key, default).Err? <==> BadInt(env, key)
    ensures BadInt(env, key) ==> ReadInt(env, key, default) == Err(env[key])
  {
  }

  /** Reading the pool fails with the first rejected setting. */
  lemma ReadPoolFails(env: Env)
    ensures ReadPool(env).Err? <==> BadInt(env, "DB_POOL_SIZE") || BadInt(env, "DB_MAX_OVERFLOW")
                                    || BadInt(env, "DB_POOL_TIMEOUT")
    ensures ReadPool(env).Err? ==>
              ReadPool(env).error == env[if BadInt(env, "DB_POOL_SIZE") then "DB_POOL_SIZE"
                                         else if BadInt(env, "DB_MAX_OVERFLOW") then "DB_MAX_OVERFLOW"
                                         else "DB_POOL_TIMEOUT"]
  {
    ReadIntFails(env, "DB_POOL_SIZE", 5);
    ReadIntFails(env, "DB_MAX_OVERFLOW", 10);
    ReadIntFails(env, "DB_POOL_TIMEOUT", 30);
  }

  /** The first integer setting `int()` rejects. */
  function FirstBadInt(env: Env): (i: nat)
    requires exists i :: 0 <= i < |IntKeys| && BadInt(env, IntKeys[i])
    ensures i < |IntKeys| && BadInt(env, IntKeys[i])
    ensures forall j :: 0 <= j < i ==> !BadInt(env, IntKeys[j])
  {
    FirstBadFrom(env, IntKeys, 0)
  }

  /** The first of `keys[k..]` that `int()` rejects. */
  function FirstBadFrom(env: Env, keys: seq<string>, k: nat): (i: nat)
    requires exists i :: k <= i < |keys| && BadInt(env, keys[i])
    ensures k <= i < |keys| && BadInt(env, keys[i])
    ensures forall j :: k <= j < i ==> !BadInt(env, keys[j])
    decreases |keys| - k
  {
    if BadInt(env, keys[k]) then k else FirstBadFrom(env, keys, k + 1)
  }

  /** `from_env` raises exactly when some integer setting is present and
      `int()` rejects it, and the error is the first such text; the
      defaults always parse. */
  lemma FromEnvFailsOnBadInt(env: Env)
    ensures FromEnv(env).Err? <==> exists i :: 0 <= i < |IntKeys| && BadInt(env, IntKeys[i])
    ensures FromEnv(env).Err? ==> FromEnv(env).error == env[IntKeys[FirstBadInt(env)]]
  {
    FromEnvFailsOnSomeKey(env);
    if FromEnv(env).Err? {
      FromEnvReportsFirstKey(env);
    } else {
      forall i | 0 <= i < |IntKeys|
        ensures !BadInt(env, IntKeys[i])
      {
        assert i == 0 || i == 1 || i == 2 || i == 3 || i == 4;
      }
    }
  }

  lemma FromEnvFailsOnSomeKey(env: Env)
    ensures FromEnv(env).Err? <==> BadInt(env, IntKeys[0]) || BadInt(env, IntKeys[1]) || BadInt(env, IntKeys[2])
                                    || BadInt(env, IntKeys[3]) || BadInt(env, IntKeys[4])
  {
    FromEnvFailsInOrder(env);
    ReadServerFails(env, MySqlKeys, MySqlDefaults);
    ReadServerFails(env, PostgresKeys, PostgresDefaults);
    ReadPoolFails(env);
  }

  lemma FromEnvReportsFirstKey(env: Env)
    requires exists i :: 0 <= i < |IntKeys| && BadInt(env, IntKeys[i])
    ensures FromEnv(env).Err? && FromEnv(env).error == env[IntKeys[FirstBadInt(env)]]
  {
    var k := FirstBadInt(env);
    if k == 0 {
      MySqlPortFails(env);
    } else if k == 1 {
      assert !BadInt(env, IntKeys[0]);
      PostgresPortFails(env);
    } else {
      assert !BadInt(env, IntKeys[0]) && !BadInt(env, IntKeys[1]);
      PoolReportsKey(env, k);
    }
  }

  /** A failure among the pool settings is reported by its own key. */
  lemma PoolReportsKey(env: Env, k: nat)
    requires 2 <= k < |IntKeys| && BadInt(env, IntKeys[k])
    requires forall j :: 0 <= j < k ==> !BadInt(env, IntKeys[j])
    ensures FromEnv(env) == Err(env[IntKeys[k]])
  {
    assert !BadInt(env, MySqlKeys.port) && !BadInt(env, PostgresKeys.port) by {
      assert !BadInt(env, IntKeys[0]) && !BadInt(env, IntKeys[1]);
    }
    PoolFails(env);
    ReadPoolReportsKey(env, k);
  }

  lemma ReadPoolReportsKey(env: Env, k: nat)
    requires 2 <= k < |IntKeys| && BadInt(env, IntKeys[k])
    requires forall j :: 2 <= j < k ==> !BadInt(env, IntKeys[j])
    ensures ReadPool(env) == Err(env[IntKeys[k]])
  {
    ReadPoolFails(env);
    if k == 2 {
      assert IntKeys[k] == "DB_POOL_SIZE";
    } else if k == 3 {
      assert !BadInt(env, IntKeys[2]);
      assert IntKeys[k] == "DB_MAX_OVERFLOW";
    } else {
      assert !BadInt(env, IntKeys[2]) && !BadInt(env, IntKeys[3]);
      assert IntKeys[k] == "DB_POOL_TIMEOUT";
    }
  }

  lemma MySqlPortFails(env: Env)
    requires BadInt(env, MySqlKeys.port)
    ensures FromEnv(env) == Err(env[MySqlKeys.port])
  {
    FromEnvFailsInOrder(env);
    ReadServerFails(env, MySqlKeys, MySqlDefaults);
  }

  lemma PostgresPortFails(env: Env)
    requires !BadInt(env, MySqlKeys.port) && BadInt(env, PostgresKeys.port)
    ensures FromEnv(env) == Err(env[PostgresKeys.port])
  {
    FromEnvFailsInOrder(env);
    ReadServerFails(env, MySqlKeys, MySqlDefaults);
    ReadServerFails(env, PostgresKeys, PostgresDefaults);
  }

  lemma PoolFails(env: Env)
    requires !BadInt(env, MySqlKeys.port) && !BadInt(env, PostgresKeys.port)
    ensures FromEnv(env).Err? <==> ReadPool(env).Err?
    ensures FromEnv(env).Err? ==> FromEnv(env).error == ReadPool(env).error
  {
    FromEnvFailsInOrder(env);
    ReadServerFails(env, MySqlKeys, MySqlDefaults);
    ReadServerFails(env, PostgresKeys, PostgresDefaults);
  }

  lemma ReadServerFails(env: Env, keys: ServerKeys, defaults: Server)
    ensures ReadServer(env, keys, defaults).Err? <==> BadInt(env, keys.port)
    ensures BadInt(env, keys.port) ==> ReadServer(env, keys, defaults).error == env[keys.port]
  {
    ReadIntFails(env, keys.port, defaults.port);
  }

  /** `from_env` stops at the first part that fails. */
  lemma FromEnvFailsInOrder(env: Env)
    ensures FromEnv(env).Err? <==> ReadServer(env, MySqlKeys, MySqlDefaults).Err?
                                    || ReadServer(env, PostgresKeys, PostgresDefaults).Err? || ReadPool(env).Err?
    ensures FromEnv(env).Err? ==>
              FromEnv(env).error == if ReadServer(env, MySqlKeys, MySqlDefaults).Err?
                                    then ReadServer(env, MySqlKeys, MySqlDefaults).error
                                    else if ReadServer(env, PostgresKeys, PostgresDefaults).Err?
                                    then ReadServer(env, PostgresKeys, PostgresDefaults).error
                                    else ReadPool(env).error
  {
  }

  /** The environment spells out a server's settings. */
  predicate SpellsServer(env: Env, keys: ServerKeys, s: Server) {
    && keys.host in env && env[keys.host] == s.host
    && keys.port in env && env[keys.port] == IntToString(s.port)
    && keys.user in env && env[keys.user] == s.user
    && keys.password in env && env[keys.password] == s.password
    && keys.database in env && env[keys.database] == s.database
  }

  /** The environment spells out a configuration: every setting present,
      integers as `str()` writes them, flags as "true" or "false" and the
      type as its enum value. */
  predicate Spells(env: Env, c: Config) {
    && "STORAGE_TYPE" in env && env["STORAGE_TYPE"] == c.storageType.Value()
    && "SQLITE_PATH" in env && env["SQLITE_PATH"] == c.sqlitePath
    && SpellsServer(env, MySqlKeys, c.mysql)
    && SpellsServer(env, PostgresKeys, c.postgres)
    && "DB_POOL_SIZE" in env && env["DB_POOL_SIZE"] == IntToString(c.poolSize)
    && "DB_MAX_OVERFLOW" in env && env["DB_MAX_OVERFLOW"] == IntToString(c.maxOverflow)
    && "DB_POOL_TIMEOUT" in env && env["DB_POOL_TIMEOUT"] == IntToString(c.poolTimeout)
    && "DB_ECHO_SQL" in env && env["DB_ECHO_SQL"] == (if c.echoSql then "true" else "false")
    && "DB_AUTO_CREATE_TABLES" in env && env["DB_AUTO_CREATE_TABLES"] == (if c.autoCreateTables then "true" else "false")
  }

  lemma ReadServerRoundTrip(env: Env, keys: ServerKeys, s: Server, defaults: Server)
    requires SpellsServer(env, keys, s)
    ensures ReadServer(env, keys, defaults) == Ok(s)
  {
    ParseIntText(s.port);
  }

  lemma ReadFlagSpelled(env: Env, key: string, b: bool, default: bool)
    requires key in env && env[key] == (if b then "true" else "false")
    ensures ReadFlag(env, key, default) == b
  {
    assert Lower("true") == "true";
    assert Lower("false") == "false";
  }

  /** Every configuration is read back from an environment that spells it
      out. */
  lemma FromEnvRoundTrip(env: Env, c: Config)
    requires Spells(env, c)
    ensures FromEnv(env) == Ok(c)
  {
    ReadServerRoundTrip(env, MySqlKeys, c.mysql, MySqlDefaults);
    ReadServerRoundTrip(env, PostgresKeys, c.postgres, PostgresDefaults);
    ReadPoolRoundTrip(env, c);
    ValueIsLower(c.storageType);
    TypeNameIgnoresCase(env, c.storageType);
    ReadFlagSpelled(env, "DB_ECHO_SQL", c.echoSql, false);
    ReadFlagSpelled(env, "DB_AUTO_CREATE_TABLES", c.autoCreateTables, true);
    FromEnvOfParts(env, c);
  }

  lemma ReadPoolRoundTrip(env: Env, c: Config)
    requires Spells(env, c)
    ensures ReadPool(env) == Ok((c.poolSize, c.maxOverflow, c.poolTimeout))
  {
    ParseIntText(c.poolSize);
    ParseIntText(c.maxOverflow);
    ParseIntText(c.poolTimeout);
  }

  /** `from_env` assembles the configuration from what each setting reads. */
  lemma FromEnvOfParts(env: Env, c: Config)
    requires ReadServer(env, MySqlKeys, MySqlDefaults) == Ok(c.mysql)
    requires ReadServer(env, PostgresKeys, PostgresDefaults) == Ok(c.postgres)
    requires ReadPool(env) == Ok((c.poolSize, c.maxOverflow, c.poolTimeout))
    requires ReadStorageType(env) == c.storageType
    requires Getenv(env, "SQLITE_PATH", "data/agent_hive.db") == c.sqlitePath
    requires ReadFlag(env, "DB_ECHO_SQL", false) == c.echoSql
    requires ReadFlag(env, "DB_AUTO_CREATE_TABLES", true) == c.autoCreateTables
    ensures FromEnv(env) == Ok(c)
  {
  }

  /** An unknown storage type falls back to SQLite rather than failing. */
  lemma UnknownTypeIsSqlite(env: Env)
    requires "STORAGE_TYPE" in env && Lower(env["STORAGE_TYPE"]) !in {"sqlite", "mysql", "postgresql", "memory"}
    requires FromEnv(env).Ok?
    ensures FromEnv(env).value.storageType == Sqlite
  {
  }

  /** The type name is read in any letter case. */
  lemma TypeNameIgnoresCase(env: Env, t: StorageType)
    requires "STORAGE_TYPE" in env && Lower(env["STORAGE_TYPE"]) == t.Value()
    ensures ReadStorageType(env) == t
  {
  }

  // ------------------------------------------------------- connection URL

  const MySqlScheme: string := "mysql+pymysql://"
  const PostgresScheme: string := "postgresql+psycopg2://"
  const MemoryUrl: string := "sqlite:///:memory:"

  /** `get_connection_url`. */
  function GetConnectionUrl(c: Config): (url: string)
    ensures c.storageType == Sqlite ==> url == "sqlite:///" + c.sqlitePath
    ensures c.storageType == Memory ==> url == MemoryUrl
    ensures c.storageType == MySql ==> url == ServerUrlOf(MySqlScheme, c.mysql)
    ensures c.storageType == PostgreSql ==> url == ServerUrlOf(PostgresScheme, c.postgres)
  {
    match c.storageType
    case Sqlite => "sqlite:///" + c.sqlitePath
    case MySql => ServerUrlOf(MySqlScheme, c.mysql)
    case PostgreSql => ServerUrlOf(PostgresScheme, c.postgres)
    case Memory => MemoryUrl
  }

  function ServerUrlOf(scheme: string, s: Server): string {
    ServerUrl(scheme, s.user, s.password, s.host, s.port, s.database)
  }

  /** A server URL starts with its scheme and ends with its database, and
      each backend has its own scheme. */
  lemma UrlSchemes(c: Config)
    ensures c.storageType == MySql ==> StartsWith(GetConnectionUrl(c), MySqlScheme)
    ensures c.storageType == PostgreSql ==> StartsWith(GetConnectionUrl(c), PostgresScheme)
    ensures c.storageType == Sqlite || c.storageType == Memory ==> StartsWith(GetConnectionUrl(c), "sqlite:///")
    ensures c.storageType == MySql ==> EndsWith(GetConnectionUrl(c), "/" + c.mysql.database)
  {
    var u := GetConnectionUrl(c);
    if c.storageType == MySql {
      var s := c.mysql;
      ServerUrlEnds(MySqlScheme, s.user, s.password, s.host, s.port, s.database);
    } else if c.storageType == PostgreSql {
      var s := c.postgres;
      ServerUrlEnds(PostgresScheme, s.user, s.password, s.host, s.port, s.database);
    } else if c.storageType == Sqlite {
      assert u[..|"sqlite:///"|] == "sqlite:///";
    } else {
      assert u[..|"sqlite:///"|] == "sqlite:///";
    }
  }

  // -------------------------------------------------------------- masking

  /** `_safe_url` as written: a SQLite URL without "@" is shown as it is,
      and a server URL with plain credentials has its password replaced by
      "***". */
  function SafeUrl(c: Config): (url: string)
    ensures c.storageType == Memory ==> url == GetConnectionUrl(c)
    ensures c.storageType == Sqlite && '@' !in c.sqlitePath ==> url == GetConnectionUrl(c)
    ensures c.storageType == MySql && Plain(c.mysql) ==> url == MaskedUrl(c)
    ensures c.storageType == PostgreSql && Plain(c.postgres) ==> url == MaskedUrl(c)
  {
    SafeUrlCases(c);
    MaskUrl(GetConnectionUrl(c))
  }

  /** The masked URL with the password hidden whatever it holds: the URL
      built with "***" for the password. */
  function MaskedUrl(c: Config): (url: string)
    ensures c.storageType in {Sqlite, Memory} ==> url == GetConnectionUrl(c)
    ensures c.storageType == MySql ==> url == ServerUrlOf(MySqlScheme, c.mysql.(password := "***"))
    ensures c.storageType == PostgreSql ==> url == ServerUrlOf(PostgresScheme, c.postgres.(password := "***"))
  {
    GetConnectionUrl(c.(mysql := c.mysql.(password := "***"), postgres := c.postgres.(password := "***")))
  }

  lemma SafeUrlCases(c: Config)
    ensures c.storageType == Memory ==> MaskUrl(GetConnectionUrl(c)) == GetConnectionUrl(c)
    ensures c.storageType == Sqlite && '@' !in c.sqlitePath ==> MaskUrl(GetConnectionUrl(c)) == GetConnectionUrl(c)
    ensures c.storageType == MySql && Plain(c.mysql) ==> MaskUrl(GetConnectionUrl(c)) == MaskedUrl(c)
    ensures c.storageType == PostgreSql && Plain(c.postgres) ==> MaskUrl(GetConnectionUrl(c)) == MaskedUrl(c)
  {
    if c.storageType == Sqlite {
      assert '@' !in "sqlite:///";
    }
    if c.storageType == Memory {
      assert '@' !in MemoryUrl;
    }
    if c.storageType == MySql && Plain(c.mysql) {
      var s := c.mysql;
      MaskHidesPlainPassword(MySqlScheme, s.user, s.password, s.host, s.port, s.database);
    }
    if c.storageType == PostgreSql && Plain(c.postgres) {
      var s := c.postgres;
      MaskHidesPlainPassword(PostgresScheme, s.user, s.password, s.host, s.port, s.database);
    }
  }

  /** Server settings whose credentials the as-written masking handles. */
  predicate Plain(s: Server) {
    PlainCredentials(s.user, s.password, s.host, s.database)
  }

  /** The corrected masking never depends on the passwords, and it agrees
      with the as-written masking on server URLs whose credentials are
      plain. */
  lemma MaskedUrlHidesPasswords(c: Config, mysqlPassword: string, postgresPassword: string)
    ensures MaskedUrl(c.(mysql := c.mysql.(password := mysqlPassword), postgres := c.postgres.(password := postgresPassword)))
            == MaskedUrl(c)
    ensures c.storageType == MySql && Plain(c.mysql) ==> SafeUrl(c) == MaskedUrl(c)
    ensures c.storageType == PostgreSql && Plain(c.postgres) ==> SafeUrl(c) == MaskedUrl(c)
  {
    if c.storageType == MySql && Plain(c.mysql) {
      var s := c.mysql;
      MaskHidesPlainPassword(MySqlScheme, s.user, s.password, s.host, s.port, s.database);
    }
    if c.storageType == PostgreSql && Plain(c.postgres) {
      var s := c.postgres;
      MaskHidesPlainPassword(PostgresScheme, s.user, s.password, s.host, s.port, s.database);
    }
  }

  /** As written, a server password holding "@" is printed in full. */
  lemma SafeUrlShowsAtPassword(c: Config)
    requires c.storageType == MySql && '@' in c.mysql.password
    ensures Contains(SafeUrl(c), c.mysql.password)
  {
    var s := c.mysql;
    AtPasswordUnmasked(MySqlScheme, s.user, s.password, s.host, s.port, s.database);
  }

  /** The fixed text `__repr__` puts before the URL. */
  function ReprHead(c: Config): string {
    "StorageConfig(type=" + c.storageType.Value() + ", url="
  }

  /** `__repr__` as written: the storage type's value, then the URL masked
      by `_safe_url`, inside `StorageConfig(...)`. */
  function Repr(c: Config): (r: string)
    ensures |r| == |ReprHead(c)| + |SafeUrl(c)| + 1
    ensures StartsWith(r, ReprHead(c)) && EndsWith(r, ")")
    ensures r[|ReprHead(c)|..|r| - 1] == SafeUrl(c)
  {
    var head, url := ReprHead(c), SafeUrl(c);
    Framed(head, url, ")");
    head + url + ")"
  }

  /** The intended `__repr__`, printing the URL with every password hidden. */
  function ReprMasked(c: Config): (r: string)
    ensures |r| == |ReprHead(c)| + |MaskedUrl(c)| + 1
    ensures StartsWith(r, ReprHead(c)) && EndsWith(r, ")")
    ensures r[|ReprHead(c)|..|r| - 1] == MaskedUrl(c)
  {
    var head, url := ReprHead(c), MaskedUrl(c);
    Framed(head, url, ")");
    head + url + ")"
  }

  /** As written, the printed configuration shows a MySQL password holding
      "@"; the intended one never depends on the passwords. */
  lemma ReprShowsAtPassword(c: Config, mysqlPassword: string, postgresPassword: string)
    requires c.storageType == MySql && '@' in c.mysql.password
    ensures Contains(Repr(c), c.mysql.password)
    ensures ReprMasked(c.(mysql := c.mysql.(password := mysqlPassword), postgres := c.postgres.(password := postgresPassword)))
            == ReprMasked(c)
  {
    SafeUrlShowsAtPassword(c);
    ContainsInfix(ReprHead(c), SafeUrl(c), ")", c.mysql.password);
    MaskedUrlHidesPasswords(c, mysqlPassword, postgresPassword);
  }
}
