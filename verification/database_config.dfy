/** The connection settings of app_api_server/internal/database/driver.go:
    the `DatabaseConfig` record, its loading from the process environment
    (`LoadDatabaseConfig`) and its validation (`validateDatabaseConfig`). */
module DatabaseConfig {
  import opened Wrappers
  import opened Decimal

  /** The six connection settings. `port` is a Go `int`. */
  datatype DatabaseConfig = DatabaseConfig(
    host: string,
    port: int,
    user: string,
    password: string,
    database: string,
    sslMode: string)

  /** The SSL modes the validator accepts, in the order it tries them. */
  const ValidSslModes: seq<string> := ["disable", "require", "verify-ca", "verify-full"]

  /** The six rejections of `validateDatabaseConfig`, in the order it checks. */
  datatype ConfigError =
    | EmptyHost
    | PortOutOfRange
    | EmptyUser
    | EmptyPassword
    | EmptyDatabase
    | InvalidSslMode(mode: string)

  /** What a valid configuration is: every rule holds. */
  predicate IsValidConfig(c: DatabaseConfig) {
    && c.host != ""
    && 1 <= c.port <= 65535
    && c.user != ""
    && c.password != ""
    && c.database != ""
    && (c.sslMode == "disable" || c.sslMode == "require" ||
        c.sslMode == "verify-ca" || c.sslMode == "verify-full")
  }

  /** Every rule `c` breaks, in checking order. */
  function FailedChecks(c: DatabaseConfig): seq<ConfigError> {
    (if c.host == "" then [EmptyHost] else [])
    + (if c.port <= 0 || c.port > 65535 then [PortOutOfRange] else [])
    + (if c.user == "" then [EmptyUser] else [])
    + (if c.password == "" then [EmptyPassword] else [])
    + (if c.database == "" then [EmptyDatabase] else [])
    + (if c.sslMode !in ValidSslModes then [InvalidSslMode(c.sslMode)] else [])
  }

  /** A configuration is valid exactly when it breaks no rule. */
  lemma ValidIffNoFailedCheck(c: DatabaseConfig)
    ensures IsValidConfig(c) <==> FailedChecks(c) == []
  {
  }

  /** `validateDatabaseConfig`: the checks run in a fixed order and the first
      rule broken is reported; the SSL mode is looked up by a linear scan of
      the allowed modes that stops at the first match. */
  method ValidateDatabaseConfig(c: DatabaseConfig) returns (r: Outcome<ConfigError>)
    ensures r.Pass? <==> IsValidConfig(c)
    ensures r.Fail? ==> FailedChecks(c) != [] && r.error == FailedChecks(c)[0]
  {
    ValidIffNoFailedCheck(c);
    if c.host == "" {
      return Fail(EmptyHost);
    }
    if c.port <= 0 || c.port > 65535 {
      return Fail(PortOutOfRange);
    }
    if c.user == "" {
      return Fail(EmptyUser);
    }
    if c.password == "" {
      return Fail(EmptyPassword);
    }
    if c.database == "" {
      return Fail(EmptyDatabase);
    }
    var validMode := false;
    var i := 0;
    while i < |ValidSslModes|
      invariant 0 <= i <= |ValidSslModes|
      invariant validMode ==> c.sslMode in ValidSslModes
      invariant !validMode ==> forall j :: 0 <= j < i ==> ValidSslModes[j] != c.sslMode
    {
      if c.sslMode == ValidSslModes[i] {
        validMode := true;
        break;
      }
      i := i + 1;
    }
    if !validMode {
      return Fail(InvalidSslMode(c.sslMode));
    }
    return Pass;
  }

  // ---------------------------------------------------------------------
  // Loading from the environment

  /** A snapshot of the process environment, after the optional `.env`
      file has been applied. */
  type Environment = map<string, string>

  /** `os.Getenv`: an unset variable reads as the empty string. */
  function Getenv(env: Environment, name: string): string {
    if name in env then env[name] else ""
  }

  /** Why loading fails. */
  datatype LoadError =
    | InvalidPort(text: string)
    | MissingVariable(name: string)

  const DefaultHost := "localhost"
  const DefaultPort := "5432"
  const DefaultSslMode := "require"

  /** An environment value, or the default when it is empty or unset. */
  function GetenvOr(env: Environment, name: string, default: string): string
  {
    if Getenv(env, name) == "" then default else Getenv(env, name)
  }

  /** `LoadDatabaseConfig`: host, port and SSL mode take defaults, the port
      text must satisfy Atoi, and user, password and database name are
      required, checked in that order. The port is not range-checked and the
      SSL mode is not checked against the allowed modes. */
  function LoadDatabaseConfig(env: Environment): (r: Result<DatabaseConfig, LoadError>)
    ensures r.Ok? ==> r.value.host != "" && r.value.user != "" && r.value.password != ""
                      && r.value.database != "" && r.value.sslMode != ""
    ensures r.Ok? ==> InInt64(r.value.port)
  {
    var host := GetenvOr(env, "DB_HOST", DefaultHost);
    var portText := GetenvOr(env, "DB_PORT", DefaultPort);
    var port := Atoi(portText);
    if port.None? then Err(InvalidPort(portText))
    else if Getenv(env, "DB_USER") == "" then Err(MissingVariable("DB_USER"))
    else if Getenv(env, "DB_PASSWORD") == "" then Err(MissingVariable("DB_PASSWORD"))
    else if Getenv(env, "DB_NAME") == "" then Err(MissingVariable("DB_NAME"))
    else
      Ok(DatabaseConfig(host, port.value, Getenv(env, "DB_USER"), Getenv(env, "DB_PASSWORD"),
                        Getenv(env, "DB_NAME"), GetenvOr(env, "DB_SSL_MODE", DefaultSslMode)))
  }

  /** Loading succeeds exactly when the (possibly defaulted) port text is an
      integer Atoi accepts and the three required variables are set. */
  lemma LoadSucceedsIff(env: Environment)
    ensures LoadDatabaseConfig(env).Ok? <==>
              && Atoi(GetenvOr(env, "DB_PORT", DefaultPort)).Some?
              && Getenv(env, "DB_USER") != ""
              && Getenv(env, "DB_PASSWORD") != ""
              && Getenv(env, "DB_NAME") != ""
  {
  }

  /** Errors come in a fixed order: a bad port text wins over every missing
      variable, then DB_USER, DB_PASSWORD and DB_NAME in turn. */
  lemma LoadErrorOrder(env: Environment)
    ensures Atoi(GetenvOr(env, "DB_PORT", DefaultPort)).None? ==>
              LoadDatabaseConfig(env) == Err(InvalidPort(GetenvOr(env, "DB_PORT", DefaultPort)))
    ensures Atoi(GetenvOr(env, "DB_PORT", DefaultPort)).Some? && Getenv(env, "DB_USER") == "" ==>
              LoadDatabaseConfig(env) == Err(MissingVariable("DB_USER"))
    ensures Atoi(GetenvOr(env, "DB_PORT", DefaultPort)).Some? && Getenv(env, "DB_USER") != ""
            && Getenv(env, "DB_PASSWORD") == "" ==>
              LoadDatabaseConfig(env) == Err(MissingVariable("DB_PASSWORD"))
    ensures Atoi(GetenvOr(env, "DB_PORT", DefaultPort)).Some? && Getenv(env, "DB_USER") != ""
            && Getenv(env, "DB_PASSWORD") != "" && Getenv(env, "DB_NAME") == "" ==>
              LoadDatabaseConfig(env) == Err(MissingVariable("DB_NAME"))
  {
  }

  /** The default port prints as the default port text. */
  lemma FormatDefaultPort()
    ensures FormatInt(5432) == DefaultPort
  {
  }

  /** The default port text is a valid port. */
  lemma AtoiDefaultPort()
    ensures Atoi(DefaultPort) == Some(5432)
  {
    FormatDefaultPort();
    AtoiFormatInt(5432);
  }

  /** Empty or unset optional variables take their defaults: host
      "localhost", port 5432 and SSL mode "require". */
  lemma LoadDefaults(env: Environment)
    requires LoadDatabaseConfig(env).Ok?
    ensures Getenv(env, "DB_HOST") == "" ==> LoadDatabaseConfig(env).value.host == "localhost"
    ensures Getenv(env, "DB_PORT") == "" ==> LoadDatabaseConfig(env).value.port == 5432
    ensures Getenv(env, "DB_SSL_MODE") == "" ==> LoadDatabaseConfig(env).value.sslMode == "require"
  {
    AtoiDefaultPort();
  }

  /** Every non-empty value is copied verbatim; the port is the number Atoi
      reads from DB_PORT. */
  lemma LoadCopiesSetValues(env: Environment)
    requires LoadDatabaseConfig(env).Ok?
    ensures var c := LoadDatabaseConfig(env).value;
      && (Getenv(env, "DB_HOST") != "" ==> c.host == env["DB_HOST"])
      && (Getenv(env, "DB_PORT") != "" ==> Atoi(env["DB_PORT"]) == Some(c.port))
      && c.user == env["DB_USER"]
      && c.password == env["DB_PASSWORD"]
      && c.database == env["DB_NAME"]
      && (Getenv(env, "DB_SSL_MODE") != "" ==> c.sslMode == env["DB_SSL_MODE"])
  {
  }

  /** The environment that spells out a configuration, with the port printed
      in decimal. */
  function EnvironmentOf(c: DatabaseConfig): Environment {
    map["DB_HOST" := c.host, "DB_PORT" := FormatInt(c.port), "DB_USER" := c.user,
        "DB_PASSWORD" := c.password, "DB_NAME" := c.database, "DB_SSL_MODE" := c.sslMode]
  }

  /** Loading gives back every configuration whose strings are non-empty and
      whose port fits a Go `int`, whatever its port range or SSL mode. */
  lemma LoadEnvironmentOf(c: DatabaseConfig)
    requires c.host != "" && c.user != "" && c.password != "" && c.database != "" && c.sslMode != ""
    requires InInt64(c.port)
    ensures LoadDatabaseConfig(EnvironmentOf(c)) == Ok(c)
  {
    var env := EnvironmentOf(c);
    assert Getenv(env, "DB_HOST") == c.host;
    assert Getenv(env, "DB_PORT") == FormatInt(c.port);
    assert Getenv(env, "DB_USER") == c.user;
    assert Getenv(env, "DB_PASSWORD") == c.password;
    assert Getenv(env, "DB_NAME") == c.database;
    assert Getenv(env, "DB_SSL_MODE") == c.sslMode;
    AtoiFormatInt(c.port);
  }

  /** With only the three required variables set, the defaults fill in the
      rest. */
  lemma LoadRequiredOnly(user: string, password: string, database: string)
    requires user != "" && password != "" && database != ""
    ensures LoadDatabaseConfig(map["DB_USER" := user, "DB_PASSWORD" := password, "DB_NAME" := database])
            == Ok(DatabaseConfig("localhost", 5432, user, password, database, "require"))
  {
    AtoiDefaultPort();
  }

  /** Loading applies neither the port range nor the SSL-mode rule: port 0,
      a negative port and an unknown SSL mode all load, and the result is a
      configuration the validator rejects. */
  lemma LoadSkipsRangeAndModeChecks()
    ensures var env := map["DB_PORT" := "0", "DB_USER" := "u", "DB_PASSWORD" := "p",
                           "DB_NAME" := "d", "DB_SSL_MODE" := "foo"];
      && LoadDatabaseConfig(env) == Ok(DatabaseConfig("localhost", 0, "u", "p", "d", "foo"))
      && !IsValidConfig(LoadDatabaseConfig(env).value)
    ensures var env := map["DB_PORT" := "-1", "DB_USER" := "u", "DB_PASSWORD" := "p", "DB_NAME" := "d"];
      && LoadDatabaseConfig(env) == Ok(DatabaseConfig("localhost", -1, "u", "p", "d", "require"))
      && FailedChecks(LoadDatabaseConfig(env).value) == [PortOutOfRange]
  {
    assert Atoi("0") == Some(0);
    assert Atoi("-1") == Some(-1);
  }
}
