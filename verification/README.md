# PostgreSQL connection manager, modelled in Dafny

This project models the database connection layer of the API server,
`app_api_server/internal/database/driver.go`. That layer has four parts:

- **Configuration loading.** `LoadDatabaseConfig` reads six variables from the environment: `DB_HOST`, `DB_PORT`, `DB_USER`, `DB_PASSWORD`, `DB_NAME` and `DB_SSL_MODE`. Host, port and SSL mode get defaults. The port is read with `strconv.Atoi`. User, password and database name are required.
- **Validation.** `validateDatabaseConfig` checks a hand-built configuration before `NewPostgreSQLDriverWithConfig` accepts it.
- **Connection string.** `BuildConnectionString` renders the `key=value` string given to the PostgreSQL driver.
- **`PostgreSQLDriver`.** This object holds one configuration and at most one `*sql.DB` handle. Its methods are `Connect`, `GetDB`, `GetConfig`, `Close`, `IsConnected`, `Reconnect` and `GetConnectionStats`.

The files:

- `wrappers.dfy`: `Option`, `Result` and `Outcome`. These stand in for Go's nil pointers and `(value, error)` returns.
- `decimal.dfy`: Go's `strconv.Atoi` and the `%d` verb on a 64-bit platform. It proves that `Atoi` reads back everything `%d` prints.
- `database_config.dfy`: the `DatabaseConfig` record and the environment loader. The environment is a `map<string, string>` snapshot in which an unset key reads as `""`. Also here is the validator, an imperative method with the source's linear scan over the allowed SSL modes. It is proved against an independent list of every rule a configuration breaks.
- `connection_string.dfy`: the builder, plus a reader for its output. The reader exists to prove a round trip: when no field holds a space, parsing the built string gives back the configuration, provided the port also fits a 64-bit `int`. The same file proves that without escaping, two different configurations can render to the same string.
- `driver.dfy`: the driver as a class with a mutable `db` field. The `*sql.DB` handle is a `Pool` object with a connection string, its pool limits and a closed flag. Whether `sql.Open`, `Ping` and `Close` succeed is passed in. A ghost sequence records every handle the driver has opened. Over it, `NoLeakedHandles` states that every handle except the one held is closed. A failed `Connect` always keeps that invariant. A successful `Connect` breaks it when an open handle is already held, because it overwrites that handle without closing it. `Reconnect` and `Close` always keep it.

Two behaviours of the code are easy to miss, and the model keeps both:

- `NewPostgreSQLDriver` does not validate the configuration it loads. Only `NewPostgreSQLDriverWithConfig` does. So a driver can hold port 0 or SSL mode `foo` and go on to `Connect` with it.
- `Close` never clears the `db` field. After `Close` the field holds a closed handle. After a failed `Reconnect` it still holds the old handle, now closed.

## Model

| member | source | states |
|---|---|---|
| `Decimal.Atoi` | app_api_server/internal/database/driver.go:56 | a parse succeeds exactly when the text is one or more ASCII digits, optionally after one `+` or `-`, and the signed value fits a 64-bit `int`; the result is then the number the digits denote, negated after `-` |
| `Decimal.FormatInt` | app_api_server/internal/database/driver.go:96-98 | `%d` output is non-empty, holds no space, and starts with a digit exactly when the number is non-negative |
| `Decimal.AtoiFormatInt` | app_api_server/internal/database/driver.go:56 | every 64-bit integer printed by `%d` is read back unchanged by `Atoi` |
| `Decimal.AtoiAcceptsNonCanonicalText` | app_api_server/internal/database/driver.go:56 | `Atoi` also accepts a plus sign and leading zeros (`"+0080"` is 80), so it is not injective |
| `DatabaseConfig.ValidIffNoFailedCheck` | app_api_server/internal/database/driver.go:150-187 | a configuration satisfies every rule (non-empty host, user, password and database; port 1..65535; one of four SSL modes) exactly when it breaks none of the ordered checks |
| `DatabaseConfig.ValidateDatabaseConfig` | app_api_server/internal/database/driver.go:150-187 | validation passes exactly for valid configurations; otherwise it reports the first rule broken, in the order host, port, user, password, database, SSL mode |
| `DatabaseConfig.LoadDatabaseConfig` | app_api_server/internal/database/driver.go:38-89 | a loaded configuration has non-empty host, user, password, database and SSL mode, and a port within the 64-bit range |
| `DatabaseConfig.LoadSucceedsIff` | app_api_server/internal/database/driver.go:52-74 | loading succeeds exactly when the port text, after defaulting, is accepted by `Atoi` and `DB_USER`, `DB_PASSWORD` and `DB_NAME` are all set and non-empty |
| `DatabaseConfig.LoadErrorOrder` | app_api_server/internal/database/driver.go:52-74 | a bad port text is reported before any missing variable; missing variables are reported in the order `DB_USER`, `DB_PASSWORD`, `DB_NAME` |
| `DatabaseConfig.AtoiDefaultPort` | app_api_server/internal/database/driver.go:52-56 | the default port text `"5432"` parses to 5432 |
| `DatabaseConfig.LoadDefaults` | app_api_server/internal/database/driver.go:47-79 | an empty or unset `DB_HOST`, `DB_PORT` or `DB_SSL_MODE` yields host `localhost`, port 5432 or SSL mode `require` |
| `DatabaseConfig.LoadCopiesSetValues` | app_api_server/internal/database/driver.go:47-88 | every non-empty variable is copied verbatim; the port is the number `Atoi` reads from `DB_PORT` |
| `DatabaseConfig.LoadEnvironmentOf` | app_api_server/internal/database/driver.go:47-88 | any configuration with non-empty strings and a 64-bit port loads back unchanged from the environment that spells it out, whatever its port range or SSL mode |
| `DatabaseConfig.LoadRequiredOnly` | app_api_server/internal/database/driver_test.go:74-118 | with only the three required variables set, loading gives `localhost`, 5432 and `require` for the rest |
| `DatabaseConfig.LoadSkipsRangeAndModeChecks` | app_api_server/internal/database/driver.go:52-88 | port `0` with SSL mode `foo`, and port `-1`, both load successfully into configurations the validator rejects |
| `ConnectionString.BuildConnectionString` | app_api_server/internal/database/driver.go:94-104 | the string starts with `host=` and the host, ends with the SSL mode, and is exactly 44 characters of keys and separators longer than the six fields it copies verbatim (the port as printed by `%d`) |
| `ConnectionString.BuildConnectionStringExample` | app_api_server/internal/database/driver_test.go:191-207 | the unit test's configuration renders to exactly `host=localhost port=5432 user=testuser password=testpass dbname=testdb sslmode=require` |
| `ConnectionString.ConnectionStringRoundTrip` | app_api_server/internal/database/driver.go:94-104 | reading the built string gives back the configuration when no field holds a space and the port fits a 64-bit `int` |
| `ConnectionString.ConnectionStringAmbiguous` | app_api_server/internal/database/driver.go:94-104 | fields are interpolated without escaping, so two different configurations (a space in user vs. in password) render to the same string |
| `Driver.PostgreSQLDriver.constructor` | app_api_server/internal/database/driver.go:140-142 | a new driver holds the given configuration and no handle |
| `Driver.PostgreSQLDriver.Connect` | app_api_server/internal/database/driver.go:192-220 | open failure: error, nothing changes. Ping failure: the new handle is closed, error, field unchanged. Success: the field holds a fresh open handle on the built connection string with limits 25/5/5 minutes. The previous handle is never closed, so a held open handle is leaked |
| `Driver.PostgreSQLDriver.GetDB` | app_api_server/internal/database/driver.go:225-227 | returns the held handle itself (absent before the first successful Connect) |
| `Driver.PostgreSQLDriver.GetConfig` | app_api_server/internal/database/driver.go:231-233 | returns the configuration the driver was built with |
| `Driver.PostgreSQLDriver.Close` | app_api_server/internal/database/driver.go:238-246 | no handle: success, no change. With a handle: it is closed, the field stays set, and an error is reported only when closing an open handle fails; the handle's pool limits are unchanged |
| `Driver.PostgreSQLDriver.IsConnected` | app_api_server/internal/database/driver.go:251-262 | true exactly when a handle is held, it is not closed and the server answers the ping |
| `Driver.PostgreSQLDriver.Reconnect` | app_api_server/internal/database/driver.go:267-277 | closes any held handle, ignoring the outcome, then has exactly Connect's outcomes; the old handle keeps its pool limits; never leaks a handle |
| `Driver.PostgreSQLDriver.GetConnectionStats` | app_api_server/internal/database/driver.go:282-287 | all zeros without a handle; otherwise the handle's open-connection ceiling with the live in-use and idle counts, the open count always being their sum |
| `Driver.NewPostgreSQLDriver` | app_api_server/internal/database/driver.go:109-124 | succeeds exactly when loading succeeds, with the loaded configuration and no handle; a load error is passed on |
| `Driver.NewPostgreSQLDriverWithConfig` | app_api_server/internal/database/driver.go:129-145 | an absent configuration and an invalid one (with its first broken rule) are errors; a valid one gives an unconnected driver holding it |
| `Driver.NeverConnected` | app_api_server/internal/database/driver_test.go:426-472 | a never-connected driver has no handle, is not connected, closes without error and reports zero statistics |
| `Driver.ConnectCloseReconnect` | app_api_server/internal/database/driver.go:192-277 | against a reachable server: connected after Connect, not after Close, connected again after Reconnect; the ceiling is 25, also while the handle is closed |
| `Driver.ConnectTwice` | app_api_server/internal/database/driver.go:192-220 | after two successful Connects the field holds a different handle that is open, and the first is still open |
| `Driver.LoadedConfigSkipsValidation` | app_api_server/internal/database/driver.go:109-145 | an environment with port 0 and SSL mode `foo` yields a driver, but its configuration is rejected by `NewPostgreSQLDriverWithConfig` (port out of range) |

## Left out

- The `.env` file (`godotenv.Load`): the environment map is the snapshot after that file has been applied. The warning logged when the file is missing is not modelled.
- All logging (`log.Printf`, `log.Println`).
- Error message texts and `%w` wrapping: each error is one datatype constructor.
- `Atoi` is modelled for a 64-bit `int`. Its syntax and range errors are merged into one failure.
- The internals of `database/sql` and `lib/pq` are not modelled. Whether `sql.Open` fails (it may reject a malformed connection string), whether the server answers a ping, and whether closing a pool's connections fails are all inputs. The model assumes that a closed handle fails every ping and that closing an already closed handle succeeds.
- `SetMaxOpenConns` and `SetMaxIdleConns` are plain assignments. The clamping `database/sql` applies between the two limits never triggers for 25 and 5.
- The connection lifetime is the number of minutes (5). `time.Duration` is not modelled.
- Driver.PostgreSQLDriver.GetConnectionStats: only the ceiling, open, in-use and idle counts of `sql.DBStats` are modelled. The in-use and idle counts are passed in rather than derived from a pool, because the pool's connection bookkeeping belongs to `database/sql`; the open count is their sum, as `sql.DBStats` defines it.
- The driver holds its configuration by value. In Go it holds a `*DatabaseConfig` that the caller can still change after construction, and `GetConfig` returns that same pointer. That aliasing is not modelled.
- Concurrency: the driver has no synchronisation, and pool thread-safety belongs to `database/sql`.
- Go strings are bytes and Dafny strings are characters. Neither the loader nor the builder looks inside a string beyond comparing it with `""` and reading ASCII digits, so the difference is not observable here.
- `integration_test.go` needs a live server, queries and retry delays. `example_usage.go` is demonstration code. `cmd/migrate/up/migrate_up.go` wraps an external migration tool. None of these is part of this model.
