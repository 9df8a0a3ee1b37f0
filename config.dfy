/** Database configuration: choosing the connection settings from the
    environment and formatting the Postgres connection URL. The process
    environment (after `.env` has been loaded) is a map from variable names to
    values; a panic (`expect`, `unreachable!`) is an `Err` carrying its
    message. */
module Config {
  import opened Text

  type Env = map<string, string>

  datatype Result<T> = Ok(value: T) | Err(message: string)

  datatype Option<T> = None | Some(value: T)

  datatype DbConfig = DbConfig(dbUser: string, dbPassword: string, dbHost: string, dbName: string)

  /** The four variable names of a profile, in the order they are read. */
  datatype Profile = Profile(user: string, password: string, host: string, name: string)
  {
    function Keys(): seq<string> { [user, password, host, name] }
  }

  const LocalProfile := Profile("DB_USER_DEV", "DB_PASSWORD_DEV", "DB_HOST_DEV", "DB_NAME_DEV")
  const ProductionProfile := Profile("DB_USER", "DB_PASSWORD", "DB_HOST", "DB_NAME")

  const UnreachableMessage := "internal error: entered unreachable code"

  /** Reading one variable: its value, or a panic whose message is the text
      given to `expect` followed by the error in debug form (`NotPresent`). */
  function Var(env: Env, key: string): (r: Result<string>)
    ensures r.Ok? <==> key in env
    ensures r.Ok? ==> r.value == env[key]
    ensures r.Err? ==> r.message == key + " must be set in the .env file: NotPresent"
  {
    if key in env then Ok(env[key]) else Err(key + " must be set in the .env file: NotPresent")
  }

  /** Reads a profile's four variables left to right; the first missing one panics. */
  function ReadProfile(env: Env, p: Profile): (r: Result<DbConfig>)
    ensures r.Ok? <==> p.user in env && p.password in env && p.host in env && p.name in env
    ensures r.Ok? ==> r.value == DbConfig(env[p.user], env[p.password], env[p.host], env[p.name])
  {
    var user := Var(env, p.user);
    if user.Err? then Err(user.message) else
    var password := Var(env, p.password);
    if password.Err? then Err(password.message) else
    var host := Var(env, p.host);
    if host.Err? then Err(host.message) else
    var name := Var(env, p.name);
    if name.Err? then Err(name.message) else
    Ok(DbConfig(user.value, password.value, host.value, name.value))
  }

  /** `DbConfig::from_env`: `ENV` must be set and be "local" or "production";
      it selects the `_DEV` variables or the unsuffixed ones. */
  function FromEnv(env: Env): (r: Result<DbConfig>)
    ensures "ENV" !in env ==> r == Err("ENV must be set in the .env file: NotPresent")
    ensures "ENV" in env && env["ENV"] !in {"local", "production"} ==> r == Err(UnreachableMessage)
    ensures "ENV" in env && env["ENV"] == "local" ==> r == ReadProfile(env, LocalProfile)
    ensures "ENV" in env && env["ENV"] == "production" ==> r == ReadProfile(env, ProductionProfile)
  {
    if "ENV" !in env then Err("ENV must be set in the .env file: NotPresent")
    else if env["ENV"] == "local" then ReadProfile(env, LocalProfile)
    else if env["ENV"] == "production" then ReadProfile(env, ProductionProfile)
    else Err(UnreachableMessage)
  }

  /** The profile `ENV` selects, if any. */
  function SelectedProfile(env: Env): (r: Option<Profile>)
    ensures r.Some? <==> "ENV" in env && env["ENV"] in {"local", "production"}
  {
    if "ENV" in env && env["ENV"] == "local" then Some(LocalProfile)
    else if "ENV" in env && env["ENV"] == "production" then Some(ProductionProfile)
    else None
  }

  /** `DbConfig::connection`. */
  function Connection(c: DbConfig): (url: string)
    ensures |url| == 11 + |c.dbUser| + 1 + |c.dbPassword| + 1 + |c.dbHost| + 1 + |c.dbName| + 16
    ensures url[..11] == "postgres://"
    ensures url[|url| - 16..] == "?sslmode=require"
  {
    "postgres://" + c.dbUser + ":" + c.dbPassword + "@" + c.dbHost + "/" + c.dbName + "?sslmode=require"
  }

  /** The URL `connect` hands to the pool, or the panic that comes first. */
  function DatabaseUrl(env: Env): (r: Result<string>)
    ensures r.Ok? <==> FromEnv(env).Ok?
    ensures r.Err? ==> r.message == FromEnv(env).message
    ensures r.Ok? ==> r.value == Connection(FromEnv(env).value)
  {
    var config := FromEnv(env);
    if config.Err? then Err(config.message) else Ok(Connection(config.value))
  }

  // ---------------------------------------------------------------------------
  // Profile selection

  /** With `ENV` set to "local" or "production", the configuration succeeds
      exactly when the four variables of that profile are all set, and then
      holds their values unchanged, field by field. */
  lemma {:induction false} FromEnvSelectsProfile(env: Env)
    requires SelectedProfile(env).Some?
    ensures var p := SelectedProfile(env).value;
      && (FromEnv(env).Ok? <==> forall k :: k in p.Keys() ==> k in env)
      && (FromEnv(env).Ok? ==>
            FromEnv(env).value == DbConfig(env[p.user], env[p.password], env[p.host], env[p.name]))
  {
    var p := SelectedProfile(env).value;
    assert FromEnv(env) == ReadProfile(env, p);
    assert p.Keys()[0] == p.user && p.Keys()[1] == p.password;
    assert p.Keys()[2] == p.host && p.Keys()[3] == p.name;
  }

  lemma LocalUsesDevVariables(env: Env)
    requires "ENV" in env && env["ENV"] == "local"
    requires "DB_USER_DEV" in env && "DB_PASSWORD_DEV" in env
    requires "DB_HOST_DEV" in env && "DB_NAME_DEV" in env
    ensures FromEnv(env) == Ok(DbConfig(env["DB_USER_DEV"], env["DB_PASSWORD_DEV"],
                                        env["DB_HOST_DEV"], env["DB_NAME_DEV"]))
  {
  }

  lemma ProductionUsesPlainVariables(env: Env)
    requires "ENV" in env && env["ENV"] == "production"
    requires "DB_USER" in env && "DB_PASSWORD" in env && "DB_HOST" in env && "DB_NAME" in env
    ensures FromEnv(env) == Ok(DbConfig(env["DB_USER"], env["DB_PASSWORD"],
                                        env["DB_HOST"], env["DB_NAME"]))
  {
  }

  /** No configuration without a valid `ENV`; the panic says which case. */
  lemma {:induction false} FromEnvNeedsKnownEnv(env: Env)
    requires SelectedProfile(env).None?
    ensures FromEnv(env).Err?
    ensures FromEnv(env).message ==
      if "ENV" in env then UnreachableMessage else "ENV must be set in the .env file: NotPresent"
  {
  }

  /** A missing variable of the selected profile panics naming the first
      missing variable, in reading order. */
  lemma {:induction false} MissingVariablePanics(env: Env, i: nat)
    requires SelectedProfile(env).Some?
    requires i < 4
    requires SelectedProfile(env).value.Keys()[i] !in env
    requires forall j :: 0 <= j < i ==> SelectedProfile(env).value.Keys()[j] in env
    ensures FromEnv(env) ==
      Err(SelectedProfile(env).value.Keys()[i] + " must be set in the .env file: NotPresent")
  {
    var p := SelectedProfile(env).value;
    assert FromEnv(env) == ReadProfile(env, p);
    assert p.Keys()[0] == p.user && p.Keys()[1] == p.password;
    assert p.Keys()[2] == p.host && p.Keys()[3] == p.name;
  }

  /** Only `ENV` and the selected profile's variables are consulted: changing,
      adding or removing any other variable, in particular the other
      profile's, changes nothing, so it can never rescue a missing one. */
  lemma {:induction false} OtherVariablesIgnored(env1: Env, env2: Env)
    requires ("ENV" in env1 <==> "ENV" in env2)
    requires "ENV" in env1 ==> env1["ENV"] == env2["ENV"]
    requires SelectedProfile(env1).Some? ==>
      forall k :: k in SelectedProfile(env1).value.Keys() ==>
        (k in env1 <==> k in env2) && (k in env1 ==> env1[k] == env2[k])
    ensures FromEnv(env1) == FromEnv(env2)
  {
    if SelectedProfile(env1).Some? {
      var p := SelectedProfile(env1).value;
      assert SelectedProfile(env2) == SelectedProfile(env1);
      assert p.user in p.Keys() && p.password in p.Keys();
      assert p.host in p.Keys() && p.name in p.Keys();
      assert Var(env1, p.user) == Var(env2, p.user);
      assert Var(env1, p.password) == Var(env2, p.password);
      assert Var(env1, p.host) == Var(env2, p.host);
      assert Var(env1, p.name) == Var(env2, p.name);
    }
  }

  // ---------------------------------------------------------------------------
  // The connection URL

  /** Reads a connection URL back into its four parts: the user up to the
      first ':', the password up to the next '@', the host up to the next
      '/', and the database name up to the query string. */
  function ParseConnection(url: string): (r: Result<DbConfig>)
  {
    if |url| < 27 || url[..11] != "postgres://" || url[|url| - 16..] != "?sslmode=require" then
      Err("not a connection URL")
    else
      var (hasUser, user, afterUser) := SplitAtFirst(url[11..|url| - 16], ':');
      var (hasPassword, password, afterPassword) := SplitAtFirst(afterUser, '@');
      var (hasHost, host, name) := SplitAtFirst(afterPassword, '/');
      if hasUser && hasPassword && hasHost then Ok(DbConfig(user, password, host, name))
      else Err("missing separator")
  }

  /** Between the fixed scheme and query string, the URL is the four values
      joined by ':', '@' and '/'. */
  lemma {:induction false} ConnectionMiddle(c: DbConfig)
    ensures var url := Connection(c);
      url[11..|url| - 16] == c.dbUser + ":" + c.dbPassword + "@" + c.dbHost + "/" + c.dbName
  {
    var scheme, query := "postgres://", "?sslmode=require";
    var m1 := c.dbUser + ":";
    var m2 := m1 + c.dbPassword;
    var m3 := m2 + "@";
    var m4 := m3 + c.dbHost;
    var m5 := m4 + "/";
    var m6 := m5 + c.dbName;
    AppendAssoc(scheme, c.dbUser, ":");
    AppendAssoc(scheme, m1, c.dbPassword);
    AppendAssoc(scheme, m2, "@");
    AppendAssoc(scheme, m3, c.dbHost);
    AppendAssoc(scheme, m4, "/");
    AppendAssoc(scheme, m5, c.dbName);
    assert Connection(c) == scheme + m6 + query;
    assert |scheme| == 11 && |query| == 16;
    MiddleOfConcat(scheme, m6, query);
  }

  lemma AppendAssoc(a: string, b: string, d: string)
    ensures a + b + d == a + (b + d)
  {
  }

  lemma MiddleOfConcat(p: string, m: string, q: string)
    ensures (p + m + q)[|p|..|p| + |m|] == m
  {
  }

  /** The URL holds the four values verbatim: as long as the user has no
      ':', the password no '@' and the host no '/', they can be read back. */
  lemma {:induction false} ConnectionRoundTrip(c: DbConfig)
    requires ':' !in c.dbUser && '@' !in c.dbPassword && '/' !in c.dbHost
    ensures ParseConnection(Connection(c)) == Ok(c)
  {
    var afterPassword := c.dbHost + "/" + c.dbName;
    var afterUser := c.dbPassword + "@" + afterPassword;
    ConnectionMiddle(c);
    assert c.dbUser + ":" + c.dbPassword + "@" + c.dbHost + "/" + c.dbName
        == c.dbUser + ":" + afterUser;
    SplitAfterPrefix(c.dbUser, ':', afterUser);
    SplitAfterPrefix(c.dbPassword, '@', afterPassword);
    SplitAfterPrefix(c.dbHost, '/', c.dbName);
  }

  /** The values are not escaped, so a password holding '@' can give the
      same URL as a different user, password and host. */
  lemma UnescapedPasswordIsAmbiguous()
    ensures Connection(DbConfig("u", "p@h", "x", "d")) == Connection(DbConfig("u", "p", "h@x", "d"))
  {
  }

  /** With a complete "local" profile, the URL embeds the `_DEV` values verbatim. */
  lemma LocalDatabaseUrl(env: Env)
    requires "ENV" in env && env["ENV"] == "local"
    requires "DB_USER_DEV" in env && "DB_PASSWORD_DEV" in env
    requires "DB_HOST_DEV" in env && "DB_NAME_DEV" in env
    ensures DatabaseUrl(env) == Ok("postgres://" + env["DB_USER_DEV"] + ":" + env["DB_PASSWORD_DEV"]
                                   + "@" + env["DB_HOST_DEV"] + "/" + env["DB_NAME_DEV"]
                                   + "?sslmode=require")
  {
  }
}
