/** The connection manager of app_api_server/internal/database/driver.go:
    `PostgreSQLDriver`, its two constructors and its lifecycle methods
    (Connect, GetDB, GetConfig, Close, IsConnected, Reconnect,
    GetConnectionStats). The `database/sql` handle it holds is modelled by
    `Pool`; whether opening, pinging and closing succeed is passed in. */
module Driver {
  import opened Wrappers
  import opened DatabaseConfig
  import opened ConnectionString

  /** The pool limits `Connect` sets on every handle it opens. */
  const MaxOpenConns := 25
  const MaxIdleConns := 5
  const ConnMaxLifetimeMinutes := 5

  /** The errors the driver reports. */
  datatype DriverError =
    | NilConfig
    | InvalidConfig(reason: ConfigError)
    | LoadFailed(cause: LoadError)
    | OpenFailed
    | PingFailed
    | CloseFailed

  /** A statistics snapshot: the configured ceiling and the live counts. */
  datatype ConnectionStats = ConnectionStats(maxOpenConnections: int, openConnections: nat, inUse: nat, idle: nat)

  /** The live connection counts `database/sql` reports for a pool: every
      open connection is either in use or idle. */
  datatype PoolUsage = PoolUsage(inUse: nat, idle: nat)

  /** A `*sql.DB`: the connection string it was opened with, its pool limits
      (lifetime in minutes) and whether it has been closed. */
  class Pool {
    const dsn: string
    var maxOpen: int
    var maxIdle: int
    var maxLifetimeMinutes: int
    var closed: bool

    /** `sql.Open`: an open handle with database/sql's default limits (no cap
        on open connections, two idle ones, no lifetime limit). */
    constructor Open(dsn: string)
      ensures this.dsn == dsn && !closed
      ensures maxOpen == 0 && maxIdle == 2 && maxLifetimeMinutes == 0
    {
      this.dsn := dsn;
      maxOpen, maxIdle, maxLifetimeMinutes := 0, 2, 0;
      closed := false;
    }

    method SetMaxOpenConns(n: int)
      modifies this
      ensures maxOpen == n
      ensures maxIdle == old(maxIdle) && maxLifetimeMinutes == old(maxLifetimeMinutes) && closed == old(closed)
    {
      maxOpen := n;
    }

    method SetMaxIdleConns(n: int)
      modifies this
      ensures maxIdle == n
      ensures maxOpen == old(maxOpen) && maxLifetimeMinutes == old(maxLifetimeMinutes) && closed == old(closed)
    {
      maxIdle := n;
    }

    method SetConnMaxLifetime(minutes: int)
      modifies this
      ensures maxLifetimeMinutes == minutes
      ensures maxOpen == old(maxOpen) && maxIdle == old(maxIdle) && closed == old(closed)
    {
      maxLifetimeMinutes := minutes;
    }

    /** `Ping`: succeeds when the handle is open and the server answers. */
    method Ping(reachable: bool) returns (ok: bool)
      ensures ok <==> !closed && reachable
    {
      ok := !closed && reachable;
    }

    /** `Close`: the handle is closed afterwards even when closing its
        connections reports an error; closing a closed handle is a no-op. */
    method Close(fails: bool) returns (r: Outcome<DriverError>)
      modifies this
      ensures closed
      ensures r == if !old(closed) && fails then Fail(CloseFailed) else Pass
      ensures maxOpen == old(maxOpen) && maxIdle == old(maxIdle) && maxLifetimeMinutes == old(maxLifetimeMinutes)
    {
      r := if !closed && fails then Fail(CloseFailed) else Pass;
      closed := true;
    }
  }

  /** `PostgreSQLDriver`: a configuration and at most one handle. `handles`
      records, in order, every handle this driver has opened. */
  class PostgreSQLDriver {
    const config: DatabaseConfig
    var db: Option<Pool>
    ghost var handles: seq<Pool>

    /** The held handle is one this driver opened. */
    ghost predicate Valid()
      reads this
    {
      db.Some? ==> db.value in handles
    }

    /** Every handle this driver opened, other than the one it holds, is
        closed. */
    ghost predicate NoLeakedHandles()
      reads this, handles
    {
      forall i :: 0 <= i < |handles| && db != Some(handles[i]) ==> handles[i].closed
    }

    /** A driver holding `config` and no handle; nothing is connected. */
    constructor (config: DatabaseConfig)
      ensures this.config == config && db == None && handles == []
      ensures Valid() && NoLeakedHandles()
    {
      this.config := config;
      db := None;
      handles := [];
    }

    /** `Connect`: opens a handle on the built connection string, sets the
        pool limits and pings. When the open fails nothing changes. When the
        ping fails the new handle is closed and the field keeps its old
        value. When the ping succeeds the new handle replaces the old one,
        which is not closed. */
    method Connect(openFails: bool, reachable: bool) returns (r: Outcome<DriverError>)
      requires Valid()
      modifies this
      ensures Valid()
      ensures openFails ==> r == Fail(OpenFailed) && db == old(db) && handles == old(handles)
      ensures !openFails ==>
        && |handles| == |old(handles)| + 1 && handles[..|old(handles)|] == old(handles)
        && var p := handles[|handles| - 1];
           && fresh(p) && p.dsn == BuildConnectionString(config)
           && p.maxOpen == MaxOpenConns && p.maxIdle == MaxIdleConns
           && p.maxLifetimeMinutes == ConnMaxLifetimeMinutes
           && (reachable ==> r == Pass && db == Some(p) && !p.closed)
           && (!reachable ==> r == Fail(PingFailed) && db == old(db) && p.closed)
      ensures old(db).Some? ==> old(db).value.closed == old(db.value.closed)
      ensures old(NoLeakedHandles()) && (old(db).None? || old(db.value.closed)) ==> NoLeakedHandles()
      ensures !openFails && reachable && old(db).Some? && !old(db.value.closed) ==> !NoLeakedHandles()
    {
      var dsn := BuildConnectionString(config);
      if openFails {
        return Fail(OpenFailed);
      }
      var p := new Pool.Open(dsn);
      handles := handles + [p];
      p.SetMaxOpenConns(MaxOpenConns);
      p.SetMaxIdleConns(MaxIdleConns);
      p.SetConnMaxLifetime(ConnMaxLifetimeMinutes);
      var ok := p.Ping(reachable);
      if !ok {
        var ignored := p.Close(false);
        return Fail(PingFailed);
      }
      db := Some(p);
      return Pass;
    }

    /** `GetDB`: the held handle itself, absent before the first successful
        Connect. */
    function GetDB(): (h: Option<Pool>)
      reads this
      ensures h == db
    {
      db
    }

    /** `GetConfig`: the configuration the driver was built with. */
    function GetConfig(): (c: DatabaseConfig)
      ensures c == config
    {
      config
    }

    /** `Close`: closes the held handle, if any, and leaves the field set;
        without a handle it succeeds and changes nothing. */
    method Close(fails: bool) returns (r: Outcome<DriverError>)
      requires Valid()
      modifies if db.Some? then {db.value} else {}
      ensures Valid() && db == old(db)
      ensures db.None? ==> r == Pass
      ensures db.Some? ==> db.value.closed
      ensures db.Some? ==> r == if !old(db.value.closed) && fails then Fail(CloseFailed) else Pass
      ensures db.Some? ==> db.value.maxOpen == old(db.value.maxOpen) && db.value.maxIdle == old(db.value.maxIdle)
                           && db.value.maxLifetimeMinutes == old(db.value.maxLifetimeMinutes)
      ensures old(NoLeakedHandles()) ==> NoLeakedHandles()
    {
      r := Pass;
      if db.Some? {
        r := db.value.Close(fails);
      }
    }

    /** `IsConnected`: a handle is held and a ping on it succeeds. */
    method IsConnected(reachable: bool) returns (connected: bool)
      ensures connected <==> db.Some? && !db.value.closed && reachable
    {
      if db.None? {
        return false;
      }
      connected := db.value.Ping(reachable);
    }

    /** `Reconnect`: closes the held handle, if any, ignoring the outcome,
        then behaves as Connect. A failed reconnect leaves the closed old
        handle in the field. */
    method Reconnect(openFails: bool, reachable: bool) returns (r: Outcome<DriverError>)
      requires Valid()
      modifies this, if db.Some? then {db.value} else {}
      ensures Valid()
      ensures old(db).Some? ==> old(db).value.closed
      ensures old(db).Some? ==>
        && old(db).value.maxOpen == old(db.value.maxOpen) && old(db).value.maxIdle == old(db.value.maxIdle)
        && old(db).value.maxLifetimeMinutes == old(db.value.maxLifetimeMinutes)
      ensures openFails ==> r == Fail(OpenFailed) && db == old(db) && handles == old(handles)
      ensures !openFails ==>
        && |handles| == |old(handles)| + 1 && handles[..|old(handles)|] == old(handles)
        && var p := handles[|handles| - 1];
           && fresh(p) && p.dsn == BuildConnectionString(config)
           && p.maxOpen == MaxOpenConns && p.maxIdle == MaxIdleConns
           && p.maxLifetimeMinutes == ConnMaxLifetimeMinutes
           && (reachable ==> r == Pass && db == Some(p) && !p.closed)
           && (!reachable ==> r == Fail(PingFailed) && db == old(db) && p.closed)
      ensures old(NoLeakedHandles()) ==> NoLeakedHandles()
    {
      if db.Some? {
        var ignored := db.value.Close(false);
      }
      r := Connect(openFails, reachable);
    }

    /** `GetConnectionStats`: all zeros without a handle; otherwise the
        handle's open-connection ceiling and the live counts, the open count
        being the in-use plus the idle ones. */
    method GetConnectionStats(usage: PoolUsage) returns (s: ConnectionStats)
      ensures db.None? ==> s == ConnectionStats(0, 0, 0, 0)
      ensures db.Some? ==> s == ConnectionStats(db.value.maxOpen, usage.inUse + usage.idle, usage.inUse, usage.idle)
      ensures s.openConnections == s.inUse + s.idle
    {
      if db.None? {
        return ConnectionStats(0, 0, 0, 0);
      }
      s := ConnectionStats(db.value.maxOpen, usage.inUse + usage.idle, usage.inUse, usage.idle);
    }
  }

  /** `NewPostgreSQLDriver`: loads the configuration from the environment
      and, on success, wraps it in an unconnected driver. The loaded
      configuration is not validated. */
  method NewPostgreSQLDriver(env: Environment) returns (r: Result<PostgreSQLDriver, DriverError>)
    ensures LoadDatabaseConfig(env).Err? ==> r == Err(LoadFailed(LoadDatabaseConfig(env).error))
    ensures LoadDatabaseConfig(env).Ok? ==>
      && r.Ok? && fresh(r.value)
      && r.value.config == LoadDatabaseConfig(env).value
      && r.value.db == None && r.value.handles == []
      && r.value.Valid() && r.value.NoLeakedHandles()
  {
    var loaded := LoadDatabaseConfig(env);
    if loaded.Err? {
      return Err(LoadFailed(loaded.error));
    }
    var d := new PostgreSQLDriver(loaded.value);
    return Ok(d);
  }

  /** `NewPostgreSQLDriverWithConfig`: rejects an absent configuration and
      one that fails validation (with the first rule broken); otherwise
      wraps it in an unconnected driver. */
  method NewPostgreSQLDriverWithConfig(config: Option<DatabaseConfig>) returns (r: Result<PostgreSQLDriver, DriverError>)
    ensures config.None? ==> r == Err(NilConfig)
    ensures config.Some? && !IsValidConfig(config.value) ==>
      FailedChecks(config.value) != [] && r == Err(InvalidConfig(FailedChecks(config.value)[0]))
    ensures config.Some? && IsValidConfig(config.value) ==>
      && r.Ok? && fresh(r.value)
      && r.value.config == config.value
      && r.value.db == None && r.value.handles == []
      && r.value.Valid() && r.value.NoLeakedHandles()
  {
    if config.None? {
      return Err(NilConfig);
    }
    var valid := ValidateDatabaseConfig(config.value);
    if valid.Fail? {
      return Err(InvalidConfig(valid.error));
    }
    var d := new PostgreSQLDriver(config.value);
    return Ok(d);
  }

  // ---------------------------------------------------------------------
  // Lifecycles a caller can rely on

  /** A driver built from a valid configuration and never connected holds
      no handle, is not connected, closes without error and reports zero
      statistics. */
  method NeverConnected(c: DatabaseConfig, reachable: bool, closeFails: bool, usage: PoolUsage)
    returns (db: Option<Pool>, connected: bool, closed: Outcome<DriverError>, stats: ConnectionStats)
    requires IsValidConfig(c)
    ensures db == None && !connected && closed == Pass && stats == ConnectionStats(0, 0, 0, 0)
  {
    var made := NewPostgreSQLDriverWithConfig(Some(c));
    var d := made.value;
    db := d.GetDB();
    connected := d.IsConnected(reachable);
    closed := d.Close(closeFails);
    stats := d.GetConnectionStats(usage);
  }

  /** Against a reachable server: connected after Connect, not connected
      after Close, connected again after Reconnect; the stats report the
      ceiling of 25 open connections, also while the handle is closed. */
  method ConnectCloseReconnect(c: DatabaseConfig, usage: PoolUsage)
    returns (afterConnect: bool, afterClose: bool, afterReconnect: bool, ceilingWhenClosed: int, ceiling: int)
    requires IsValidConfig(c)
    ensures afterConnect && !afterClose && afterReconnect
    ensures ceilingWhenClosed == 25 && ceiling == 25
  {
    var made := NewPostgreSQLDriverWithConfig(Some(c));
    var d := made.value;
    var r := d.Connect(false, true);
    afterConnect := d.IsConnected(true);
    r := d.Close(false);
    afterClose := d.IsConnected(true);
    var closedStats := d.GetConnectionStats(usage);
    ceilingWhenClosed := closedStats.maxOpenConnections;
    r := d.Reconnect(false, true);
    afterReconnect := d.IsConnected(true);
    var stats := d.GetConnectionStats(usage);
    ceiling := stats.maxOpenConnections;
  }

  /** Two successful Connects in a row: the field then holds a different,
      open handle while the first is never closed. */
  method ConnectTwice(c: DatabaseConfig) returns (firstStillOpen: bool, replaced: bool, heldOpen: bool)
    requires IsValidConfig(c)
    ensures firstStillOpen && replaced && heldOpen
  {
    var made := NewPostgreSQLDriverWithConfig(Some(c));
    var d := made.value;
    var r := d.Connect(false, true);
    var first := d.GetDB();
    r := d.Connect(false, true);
    firstStillOpen := !first.value.closed;
    replaced := d.GetDB() != first;
    heldOpen := d.GetDB().Some? && !d.GetDB().value.closed;
  }

  /** A configuration loaded from the environment is never validated: port 0
      with SSL mode "foo" yields a driver, while the same configuration given
      to NewPostgreSQLDriverWithConfig is rejected. */
  method LoadedConfigSkipsValidation() returns (loaded: bool, rejection: Option<DriverError>)
    ensures loaded
    ensures rejection == Some(InvalidConfig(PortOutOfRange))
  {
    var env := map["DB_PORT" := "0", "DB_USER" := "u", "DB_PASSWORD" := "p",
                   "DB_NAME" := "d", "DB_SSL_MODE" := "foo"];
    LoadSkipsRangeAndModeChecks();
    var viaEnvironment := NewPostgreSQLDriver(env);
    loaded := viaEnvironment.Ok?;
    var direct := NewPostgreSQLDriverWithConfig(Some(viaEnvironment.value.config));
    rejection := if direct.Err? then Some(direct.error) else None;
  }
}
