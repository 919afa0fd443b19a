/**
 * config.go: the health status of the two connections, the Redis address
 * and the PostgreSQL connection string built from the environment.
 * Opening the connections (`sql.Open`, `Ping`) is not part of this model.
 */
module Config {
  import opened Wrappers
  import opened EnvVars
  import opened Address

  /** The status line of HealthCheckHandler, from whether each handle is nil. */
  function HealthStatus(dbNil: bool, clientNil: bool): (status: string)
    ensures status == "All OK" <==> !dbNil && !clientNil
    ensures dbNil && clientNil ==> status == "Neither DB nor Redis is connected"
    ensures dbNil && !clientNil ==> status == "DB is not connected"
    ensures !dbNil && clientNil ==> status == "Redis is not connected"
  {
    if dbNil && clientNil then "Neither DB nor Redis is connected"
    else if dbNil then "DB is not connected"
    else if clientNil then "Redis is not connected"
    else "All OK"
  }

  /** The JSON reply of HealthCheckHandler: HTTP code, status and five echoed variables. */
  datatype HealthResponse = HealthResponse(
    code: int,
    status: string,
    postgres: string,
    redis: string,
    user: string,
    password: string,
    dbname: string)

  /** HealthCheckHandler: always 200, whatever the status; it echoes the credentials. */
  function HealthCheck(dbNil: bool, clientNil: bool, env: Environment): (r: HealthResponse)
    ensures r.code == 200
    ensures r.status == "All OK" <==> !dbNil && !clientNil
    ensures r.status == HealthStatus(dbNil, clientNil)
    ensures r.postgres == Getenv(env, "POSTGRES_HOST") && r.redis == Getenv(env, "REDIS_HOST")
    ensures r.user == Getenv(env, "POSTGRES_USER") && r.password == Getenv(env, "POSTGRES_PASSWORD")
    ensures r.dbname == Getenv(env, "POSTGRES_DB")
  {
    HealthResponse(200, HealthStatus(dbNil, clientNil),
      Getenv(env, "POSTGRES_HOST"), Getenv(env, "REDIS_HOST"),
      Getenv(env, "POSTGRES_USER"), Getenv(env, "POSTGRES_PASSWORD"), Getenv(env, "POSTGRES_DB"))
  }

  /** The `Addr` initRedis gives the client; no client at all when REDIS_HOST is empty. */
  function RedisAddr(env: Environment): (addr: Option<string>)
    ensures addr.None? <==> Getenv(env, "REDIS_HOST") == ""
  {
    var redisHost := Getenv(env, "REDIS_HOST");
    if redisHost == "" then None else Some(redisHost + ":6379")
  }

  /** The client dials REDIS_HOST on the fixed port 6379. */
  lemma RedisAddrSplits(env: Environment)
    requires Getenv(env, "REDIS_HOST") != ""
    ensures HostOf(RedisAddr(env).value) == Getenv(env, "REDIS_HOST")
    ensures PortOf(RedisAddr(env).value) == "6379"
  {
    SplitJoined(Getenv(env, "REDIS_HOST"), "6379");
    assert RedisAddr(env).value == Getenv(env, "REDIS_HOST") + ":" + "6379";
  }

  /**
   * The `connStr` of initPostgres; none when POSTGRES_HOST is empty. The
   * Sprintf arguments come in the order user, password, dbname, host.
   */
  function PostgresConnStr(env: Environment): (connStr: Option<string>)
    ensures connStr.None? <==> Getenv(env, "POSTGRES_HOST") == ""
  {
    var postgresHost := Getenv(env, "POSTGRES_HOST");
    if postgresHost == "" then None
    else
      var user := Getenv(env, "POSTGRES_USER");
      var password := Getenv(env, "POSTGRES_PASSWORD");
      var dbname := Getenv(env, "POSTGRES_DB");
      // "user=%s dbname=%s password=%s host=%s port=5432 sslmode=disable", six space-separated words
      Some(Joined(["user=" + user, "dbname=" + password, "password=" + dbname, "host=" + postgresHost, "port=5432", "sslmode=disable"]))
  }

  // ---------------------------------------------------------------------------
  // How the driver reads a keyword/value connection string (values without spaces or quotes)

  function IndexOfSpace(s: string): (r: Option<nat>)
    ensures r.Some? ==> r.value < |s| && s[r.value] == ' ' && ' ' !in s[..r.value]
    ensures r.None? ==> ' ' !in s
  {
    if s == [] then None
    else if s[0] == ' ' then Some(0)
    else
      match IndexOfSpace(s[1..])
      case None => None
      case Some(i) =>
        assert s[..i + 1] == [s[0]] + s[1..][..i];
        Some(i + 1)
  }

  /** The space-separated words of `s`. */
  function Words(s: string): seq<string>
    decreases |s|
  {
    match IndexOfSpace(s)
    case None => [s]
    case Some(i) => [s[..i]] + Words(s[i + 1..])
  }

  /** The value of the first `key=value` word. */
  function ParamIn(words: seq<string>, key: string): Option<string>
  {
    if words == [] then None
    else
      var prefix := key + "=";
      if |prefix| <= |words[0]| && words[0][..|prefix|] == prefix then Some(words[0][|prefix|..])
      else ParamIn(words[1..], key)
  }

  function ConnParam(connStr: string, key: string): Option<string>
  {
    ParamIn(Words(connStr), key)
  }

  /** Go's `unicode.IsSpace`, which lib/pq uses to end an unquoted value. */
  predicate IsSpace(c: char)
  {
    ('\t' <= c <= '\r') || c == ' ' || c == '\U{85}' || c == '\U{A0}' || c == '\U{1680}'
    || ('\U{2000}' <= c <= '\U{200A}') || c == '\U{2028}' || c == '\U{2029}'
    || c == '\U{202F}' || c == '\U{205F}' || c == '\U{3000}'
  }

  /**
   * A value lib/pq reads back verbatim from an unquoted `key=value` word:
   * not empty (else the next word is taken as the value), not opening with a
   * quote, and free of backslashes (which it unescapes) and of white space.
   */
  predicate VerbatimValue(v: string)
  {
    v != "" && v[0] != '\'' && forall i :: 0 <= i < |v| ==> v[i] != '\\' && !IsSpace(v[i])
  }

  lemma WordsCons(a: string, b: string)
    requires ' ' !in a
    ensures Words(a + " " + b) == [a] + Words(b)
  {
    var s := a + " " + b;
    assert s[|a|] == ' ';
    assert s[..|a|] == a;
    var i := IndexOfSpace(s);
    assert i.Some? && i.value == |a|;
    assert s[|a| + 1..] == b;
  }

  /** Words joined by single spaces split back into the same words. */
  lemma {:induction false} WordsOfJoined(ws: seq<string>)
    requires |ws| > 0 && forall k :: 0 <= k < |ws| ==> ' ' !in ws[k]
    ensures Words(Joined(ws)) == ws
  {
    if |ws| > 1 {
      WordsOfJoined(ws[1..]);
      WordsCons(ws[0], Joined(ws[1..]));
      assert [ws[0]] + ws[1..] == ws;
    }
  }

  /** `strings.Join(ws, " ")` */
  function Joined(ws: seq<string>): string
    requires |ws| > 0
  {
    if |ws| == 1 then ws[0] else ws[0] + " " + Joined(ws[1..])
  }

  /**
   * The driver sees POSTGRES_PASSWORD as the database name and POSTGRES_DB
   * as the password: the Sprintf arguments are swapped.
   */
  lemma ConnStrSwapsDbNameAndPassword(env: Environment)
    requires VerbatimValue(Getenv(env, "POSTGRES_USER")) && VerbatimValue(Getenv(env, "POSTGRES_PASSWORD"))
    requires VerbatimValue(Getenv(env, "POSTGRES_DB")) && VerbatimValue(Getenv(env, "POSTGRES_HOST"))
    ensures ConnParam(PostgresConnStr(env).value, "user") == Some(Getenv(env, "POSTGRES_USER"))
    ensures ConnParam(PostgresConnStr(env).value, "dbname") == Some(Getenv(env, "POSTGRES_PASSWORD"))
    ensures ConnParam(PostgresConnStr(env).value, "password") == Some(Getenv(env, "POSTGRES_DB"))
    ensures ConnParam(PostgresConnStr(env).value, "host") == Some(Getenv(env, "POSTGRES_HOST"))
    ensures ConnParam(PostgresConnStr(env).value, "port") == Some("5432")
  {
    var user, password := Getenv(env, "POSTGRES_USER"), Getenv(env, "POSTGRES_PASSWORD");
    var dbname, host := Getenv(env, "POSTGRES_DB"), Getenv(env, "POSTGRES_HOST");
    var words := ["user=" + user, "dbname=" + password, "password=" + dbname, "host=" + host, "port=5432", "sslmode=disable"];
    ConnStrWords(env);
    ParamAt(words, 0, "user", user);
    ParamAt(words, 1, "dbname", password);
    ParamAt(words, 2, "password", dbname);
    ParamAt(words, 3, "host", host);
    ParamAt(words, 4, "port", "5432");
  }

  /** With space-free values, the connection string splits into its six words. */
  lemma ConnStrWords(env: Environment)
    requires Getenv(env, "POSTGRES_HOST") != ""
    requires ' ' !in Getenv(env, "POSTGRES_USER") && ' ' !in Getenv(env, "POSTGRES_PASSWORD")
    requires ' ' !in Getenv(env, "POSTGRES_DB") && ' ' !in Getenv(env, "POSTGRES_HOST")
    ensures Words(PostgresConnStr(env).value) ==
      ["user=" + Getenv(env, "POSTGRES_USER"), "dbname=" + Getenv(env, "POSTGRES_PASSWORD"),
       "password=" + Getenv(env, "POSTGRES_DB"), "host=" + Getenv(env, "POSTGRES_HOST"), "port=5432", "sslmode=disable"]
  {
    var words := ["user=" + Getenv(env, "POSTGRES_USER"), "dbname=" + Getenv(env, "POSTGRES_PASSWORD"),
      "password=" + Getenv(env, "POSTGRES_DB"), "host=" + Getenv(env, "POSTGRES_HOST"), "port=5432", "sslmode=disable"];
    WordsOfJoined(words);
  }

  /** `w` differs from `key` in its first or second letter. */
  predicate StartsApart(w: string, key: string)
  {
    (|w| > 0 && |key| > 0 && w[0] != key[0]) || (|w| > 1 && |key| > 1 && w[1] != key[1])
  }

  /** A key found at word `k` whose earlier words start with other letters. */
  lemma {:induction false} ParamAt(words: seq<string>, k: nat, key: string, value: string)
    requires k < |words| && words[k] == key + "=" + value && |key| > 0
    requires forall j :: 0 <= j < k ==> StartsApart(words[j], key)
    ensures ParamIn(words, key) == Some(value)
    decreases k
  {
    var prefix := key + "=";
    if k == 0 {
      assert words[0][..|prefix|] == prefix && words[0][|prefix|..] == value;
    } else {
      ParamAt(words[1..], k - 1, key, value);
    }
  }
}
