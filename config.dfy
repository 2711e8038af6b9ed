/**
 * config.py: settings read from the environment when the module is loaded,
 * the rewrite of a Heroku-style `postgres://` database URI, and the
 * name-to-configuration table the application factory looks names up in.
 */
module Config {
  import opened Wrappers
  import opened Strings

  const PostgresScheme := "postgres://"
  const PostgresqlScheme := "postgresql://"
  const DefaultDatabaseUri := "postgresql://localhost/backlink_outreach"

  /** The process environment, as the names and values `os.environ` holds. */
  type Environment = map<string, string>

  /** `os.environ.get(key, default)`. */
  function EnvGet(env: Environment, key: string, default: string): string {
    if key in env then env[key] else default
  }

  /**
   * The URI fix-up: a URI that starts with `postgres://` has that leading
   * occurrence replaced by `postgresql://`; any other URI is kept.
   */
  function NormalizeDatabaseUri(uri: string): (r: string)
    ensures StartsWith(uri, PostgresScheme) ==> r == PostgresqlScheme + uri[|PostgresScheme|..]
    ensures !StartsWith(uri, PostgresScheme) ==> r == uri
  {
    if uri != "" && StartsWith(uri, PostgresScheme) then
      ReplaceFirst(uri, PostgresScheme, PostgresqlScheme)
    else
      uri
  }

  /** The rewrite never leaves a `postgres://` prefix, so applying it again changes nothing. */
  lemma NormalizeIsIdempotent(uri: string)
    ensures !StartsWith(NormalizeDatabaseUri(uri), PostgresScheme)
    ensures NormalizeDatabaseUri(NormalizeDatabaseUri(uri)) == NormalizeDatabaseUri(uri)
  {
    var r := NormalizeDatabaseUri(uri);
    if StartsWith(uri, PostgresScheme) {
      assert r[8] == 'q' && PostgresScheme[8] == ':';
      assert r[..|PostgresScheme|][8] == r[8];
    }
  }

  /**
   * Only the leading occurrence is replaced (count 1): an occurrence of
   * `postgres://` later in the URI is still there, two characters further on.
   */
  lemma LaterOccurrencesSurvive(uri: string, i: int)
    requires StartsWith(uri, PostgresScheme)
    requires i >= |PostgresScheme| && OccursAt(uri, PostgresScheme, i)
    ensures OccursAt(NormalizeDatabaseUri(uri), PostgresScheme, i + 2)
  {
    var r := NormalizeDatabaseUri(uri);
    assert r[i + 2..i + 2 + |PostgresScheme|] == uri[i..i + |PostgresScheme|];
  }

  /** The class attributes of `Config`, shared by both configurations. */
  datatype Settings = Settings(
    secretKey: string,
    databaseUri: string,
    trackModifications: bool,
    gmailSenderEmail: string,
    gmailCredentialsFile: string,
    gmailTokenFile: string)

  /** The settings `Config` computes from the environment it is loaded in. */
  function LoadSettings(env: Environment): (r: Settings)
    ensures "SECRET_KEY" in env ==> r.secretKey == env["SECRET_KEY"]
    ensures "SECRET_KEY" !in env ==> r.secretKey == "dev-secret-key-change-in-production"
    ensures !StartsWith(r.databaseUri, PostgresScheme)
    ensures !r.trackModifications
    ensures "DATABASE_URL" in env && !StartsWith(env["DATABASE_URL"], PostgresScheme) ==>
      r.databaseUri == env["DATABASE_URL"]
    ensures "GMAIL_SENDER_EMAIL" in env ==> r.gmailSenderEmail == env["GMAIL_SENDER_EMAIL"]
    ensures "GMAIL_SENDER_EMAIL" !in env ==> r.gmailSenderEmail == "anna@writeitgreat.com"
    ensures "GMAIL_CREDENTIALS_FILE" in env ==> r.gmailCredentialsFile == env["GMAIL_CREDENTIALS_FILE"]
    ensures "GMAIL_CREDENTIALS_FILE" !in env ==> r.gmailCredentialsFile == "credentials.json"
    ensures "GMAIL_TOKEN_FILE" in env ==> r.gmailTokenFile == env["GMAIL_TOKEN_FILE"]
    ensures "GMAIL_TOKEN_FILE" !in env ==> r.gmailTokenFile == "token.json"
  {
    NormalizeIsIdempotent(EnvGet(env, "DATABASE_URL", DefaultDatabaseUri));
    Settings(
      EnvGet(env, "SECRET_KEY", "dev-secret-key-change-in-production"),
      NormalizeDatabaseUri(EnvGet(env, "DATABASE_URL", DefaultDatabaseUri)),
      false,
      EnvGet(env, "GMAIL_SENDER_EMAIL", "anna@writeitgreat.com"),
      EnvGet(env, "GMAIL_CREDENTIALS_FILE", "credentials.json"),
      EnvGet(env, "GMAIL_TOKEN_FILE", "token.json"))
  }

  /** A Heroku `DATABASE_URL` reaches the application with the `postgresql://` scheme. */
  lemma HerokuDatabaseUrlIsRewritten(env: Environment, rest: string)
    requires "DATABASE_URL" in env && env["DATABASE_URL"] == PostgresScheme + rest
    ensures LoadSettings(env).databaseUri == PostgresqlScheme + rest
  {
    var uri := PostgresScheme + rest;
    assert uri[..|PostgresScheme|] == PostgresScheme;
    assert uri[|PostgresScheme|..] == rest;
  }

  /** Without `DATABASE_URL` the default URI is used, and the rewrite leaves it alone. */
  lemma DefaultDatabaseUriKept(env: Environment)
    requires "DATABASE_URL" !in env
    ensures LoadSettings(env).databaseUri == DefaultDatabaseUri
  {
    assert DefaultDatabaseUri[8] == 'q';
  }

  /** The two configuration classes; they differ only in `DEBUG`. */
  datatype ConfigClass = DevelopmentConfig | ProductionConfig {
    predicate Debug() {
      match this
      case DevelopmentConfig => true
      case ProductionConfig => false
    }
  }

  /** `config[name]`; a name missing from the dictionary is a `KeyError`, here `None`. */
  function LookupConfig(name: string): (r: Option<ConfigClass>)
    ensures r.Some? <==> name in {"development", "production", "default"}
    ensures r == Some(ProductionConfig) <==> name == "production"
  {
    if name == "development" then Some(DevelopmentConfig)
    else if name == "production" then Some(ProductionConfig)
    else if name == "default" then Some(DevelopmentConfig)
    else None
  }

  /** `'default'` is the development configuration, with `DEBUG` on; production has it off. */
  lemma ConfigTable()
    ensures LookupConfig("default") == LookupConfig("development") == Some(DevelopmentConfig)
    ensures LookupConfig("default").value.Debug()
    ensures !LookupConfig("production").value.Debug()
  {
  }
}
