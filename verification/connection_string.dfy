/** `DatabaseConfig.BuildConnectionString` of
    app_api_server/internal/database/driver.go: the key=value connection
    string handed to the PostgreSQL driver, and a reader for it that serves
    as the builder's inverse where one exists. */
module ConnectionString {
  import opened Wrappers
  import opened Decimal
  import opened DatabaseConfig

  /** `fmt.Sprintf("host=%s port=%d user=%s password=%s dbname=%s sslmode=%s", ...)`:
      the fields in fixed order, interpolated verbatim with no quoting or
      escaping, the port in decimal. Every field contributes exactly its own
      characters: the keys and separators add 44 more. */
  function BuildConnectionString(c: DatabaseConfig): (r: string)
    ensures |r| == 44 + |c.host| + |FormatInt(c.port)| + |c.user| + |c.password| + |c.database| + |c.sslMode|
    ensures r[..5] == "host=" && r[5..5 + |c.host|] == c.host
    ensures r[|r| - |c.sslMode|..] == c.sslMode
  {
    "host=" + c.host + " port=" + FormatInt(c.port) + " user=" + c.user
      + " password=" + c.password + " dbname=" + c.database + " sslmode=" + c.sslMode
  }

  /** The configuration of the builder's unit test renders to the string the
      test expects. */
  lemma BuildConnectionStringExample()
    ensures BuildConnectionString(DatabaseConfig("localhost", 5432, "testuser", "testpass", "testdb", "require"))
            == "host=localhost port=5432 user=testuser password=testpass dbname=testdb sslmode=require"
  {
    FormatDefaultPort();
    ExampleHead(FormatInt(5432));
    ExampleMiddle("host=localhost port=5432 user=testuser");
    ExampleTail("host=localhost port=5432 user=testuser password=testpass dbname=testdb");
  }

  /** The example's text up to the user. */
  lemma ExampleHead(port: string)
    requires port == "5432"
    ensures "host=" + "localhost" + " port=" + port + " user=" + "testuser"
            == "host=localhost port=5432 user=testuser"
  {
  }

  /** The example's text from the user to the database name. */
  lemma ExampleMiddle(head: string)
    requires head == "host=localhost port=5432 user=testuser"
    ensures head + " password=" + "testpass" + " dbname=" + "testdb"
            == "host=localhost port=5432 user=testuser password=testpass dbname=testdb"
  {
  }

  /** The example's text from the database name to the end. */
  lemma ExampleTail(middle: string)
    requires middle == "host=localhost port=5432 user=testuser password=testpass dbname=testdb"
    ensures middle + " sslmode=" + "require"
            == "host=localhost port=5432 user=testuser password=testpass dbname=testdb sslmode=require"
  {
  }

  /** The pieces of `s` between the occurrences of `sep`. */
  function Split(s: string, sep: char): (parts: seq<string>)
    ensures |parts| >= 1
    ensures forall i :: 0 <= i < |parts| ==> sep !in parts[i]
  {
    if s == [] then [[]]
    else
      var rest := Split(s[1..], sep);
      if s[0] == sep then [[]] + rest else [[s[0]] + rest[0]] + rest[1..]
  }

  /** A piece free of the separator splits to itself. */
  lemma {:induction false} SplitPlain(a: string, sep: char)
    requires sep !in a
    ensures Split(a, sep) == [a]
  {
    if a != [] {
      SplitPlain(a[1..], sep);
      assert [a[0]] + a[1..] == a;
    }
  }

  /** Appending a separator and a separator-free piece appends that piece
      to the split. */
  lemma {:induction false} SplitAppend(a: string, sep: char, b: string)
    requires sep !in b
    ensures Split(a + [sep] + b, sep) == Split(a, sep) + [b]
  {
    if a == [] {
      assert a + [sep] + b == [sep] + b;
      assert ([sep] + b)[1..] == b;
      SplitPlain(b, sep);
    } else {
      SplitAppend(a[1..], sep, b);
      assert (a + [sep] + b)[1..] == a[1..] + [sep] + b;
    }
  }

  /** Adding ` key=value` to a string is adding a space and the piece
      `key=value`. */
  lemma AppendPiece(prefix: string, spacedKey: string, key: string, value: string)
    requires spacedKey == [' '] + key
    ensures prefix + spacedKey + value == prefix + [' '] + (key + value)
  {
  }

  /** The builder's output as six pieces joined by single spaces. */
  lemma BuildConnectionStringPieces(c: DatabaseConfig)
    ensures BuildConnectionString(c)
            == ("host=" + c.host) + [' '] + ("port=" + FormatInt(c.port)) + [' '] + ("user=" + c.user)
               + [' '] + ("password=" + c.password) + [' '] + ("dbname=" + c.database)
               + [' '] + ("sslmode=" + c.sslMode)
  {
    var s := "host=" + c.host;
    AppendPiece(s, " port=", "port=", FormatInt(c.port));
    s := s + [' '] + ("port=" + FormatInt(c.port));
    AppendPiece(s, " user=", "user=", c.user);
    s := s + [' '] + ("user=" + c.user);
    AppendPiece(s, " password=", "password=", c.password);
    s := s + [' '] + ("password=" + c.password);
    AppendPiece(s, " dbname=", "dbname=", c.database);
    s := s + [' '] + ("dbname=" + c.database);
    AppendPiece(s, " sslmode=", "sslmode=", c.sslMode);
  }

  /** Six space-free pieces joined by spaces split back into themselves. */
  lemma SplitSixPieces(t0: string, t1: string, t2: string, t3: string, t4: string, t5: string)
    requires ' ' !in t0 && ' ' !in t1 && ' ' !in t2 && ' ' !in t3 && ' ' !in t4 && ' ' !in t5
    ensures Split(t0 + [' '] + t1 + [' '] + t2 + [' '] + t3 + [' '] + t4 + [' '] + t5, ' ')
            == [t0, t1, t2, t3, t4, t5]
  {
    SplitPlain(t0, ' ');
    SplitAppend(t0, ' ', t1);
    SplitAppend(t0 + [' '] + t1, ' ', t2);
    SplitAppend(t0 + [' '] + t1 + [' '] + t2, ' ', t3);
    SplitAppend(t0 + [' '] + t1 + [' '] + t2 + [' '] + t3, ' ', t4);
    SplitAppend(t0 + [' '] + t1 + [' '] + t2 + [' '] + t3 + [' '] + t4, ' ', t5);
  }

  /** The value of a `key=value` piece with the expected key. */
  function ValueOf(piece: string, key: string): Option<string> {
    if key + "=" <= piece then Some(piece[|key| + 1..]) else None
  }

  /** Reads a connection string of the builder's shape: six space-separated
      pieces with the builder's keys in its order, the port read by Atoi. */
  function ParseConnectionString(s: string): Option<DatabaseConfig> {
    var parts := Split(s, ' ');
    if |parts| != 6 then None
    else
      var host := ValueOf(parts[0], "host");
      var port := ValueOf(parts[1], "port");
      var user := ValueOf(parts[2], "user");
      var password := ValueOf(parts[3], "password");
      var database := ValueOf(parts[4], "dbname");
      var sslMode := ValueOf(parts[5], "sslmode");
      if host.None? || port.None? || user.None? || password.None? || database.None? || sslMode.None? then None
      else if Atoi(port.value).None? then None
      else Some(DatabaseConfig(host.value, Atoi(port.value).value, user.value, password.value,
                               database.value, sslMode.value))
  }

  /** No string field holds a space, so every field stays within its own
      piece of the connection string. */
  predicate SpaceFree(c: DatabaseConfig) {
    ' ' !in c.host && ' ' !in c.user && ' ' !in c.password && ' ' !in c.database && ' ' !in c.sslMode
  }

  /** A string that splits into the six expected `key=value` pieces, with a
      port text Atoi accepts, is read as the configuration of those values. */
  lemma ParseSixPieces(s: string, host: string, port: string, user: string, password: string,
                       database: string, sslMode: string)
    requires Split(s, ' ') == ["host=" + host, "port=" + port, "user=" + user, "password=" + password,
                               "dbname=" + database, "sslmode=" + sslMode]
    requires Atoi(port).Some?
    ensures ParseConnectionString(s) == Some(DatabaseConfig(host, Atoi(port).value, user, password, database, sslMode))
  {
  }

  /** A key and a value without spaces make a piece without spaces. */
  lemma SpaceFreePiece(key: string, value: string)
    requires ' ' !in key && ' ' !in value
    ensures ' ' !in key + value
  {
  }

  /** The builder's output is read back as the configuration it came from,
      provided no field holds a space and the port fits a Go `int`. */
  lemma ConnectionStringRoundTrip(c: DatabaseConfig)
    requires SpaceFree(c) && InInt64(c.port)
    ensures ParseConnectionString(BuildConnectionString(c)) == Some(c)
  {
    var portText := FormatInt(c.port);
    BuildConnectionStringPieces(c);
    SpaceFreePiece("host=", c.host);
    SpaceFreePiece("port=", portText);
    SpaceFreePiece("user=", c.user);
    SpaceFreePiece("password=", c.password);
    SpaceFreePiece("dbname=", c.database);
    SpaceFreePiece("sslmode=", c.sslMode);
    SplitSixPieces("host=" + c.host, "port=" + portText, "user=" + c.user,
                   "password=" + c.password, "dbname=" + c.database, "sslmode=" + c.sslMode);
    AtoiFormatInt(c.port);
    ParseSixPieces(BuildConnectionString(c), c.host, portText, c.user, c.password, c.database, c.sslMode);
  }

  /** Moving the text " password=" from the end of the user to the start of
      the password does not change the connection string. */
  lemma PasswordBoundaryInvisible(host: string, port: int, x: string, y: string, z: string,
                                  database: string, sslMode: string)
    ensures BuildConnectionString(DatabaseConfig(host, port, x + " password=" + y, z, database, sslMode))
            == BuildConnectionString(DatabaseConfig(host, port, x, y + " password=" + z, database, sslMode))
  {
    Reassociate("host=" + host + " port=" + FormatInt(port) + " user=", x, " password=", y, z);
  }

  /** Where the middle piece `k` is grouped does not matter. */
  lemma Reassociate(prefix: string, x: string, k: string, y: string, z: string)
    ensures prefix + (x + k + y) + k + z == prefix + x + k + (y + k + z)
  {
  }

  /** Without escaping, a space in a field lets two different configurations
      render to the same connection string: a user named "x password=y"
      with password "z" is indistinguishable from user "x" with password
      "y password=z". */
  lemma ConnectionStringAmbiguous()
    ensures var a := DatabaseConfig("h", 5432, "x password=y", "z", "d", "require");
            var b := DatabaseConfig("h", 5432, "x", "y password=z", "d", "require");
            a != b && BuildConnectionString(a) == BuildConnectionString(b)
  {
    PasswordBoundaryInvisible("h", 5432, "x", "y", "z", "d", "require");
    assert "x" + " password=" + "y" == "x password=y";
    assert "y" + " password=" + "z" == "y password=z";
    assert "x password=y" != "x" by {
      assert |"x password=y"| != |"x"|;
    }
  }
}
