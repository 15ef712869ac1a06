/** Application settings (backend/app/core/config.py): the `app_env` literal
    domain, the database URL rewrite run after the settings are constructed,
    and `is_production`. Reading the values from the environment and the
    `.env` file is not part of this model: the constructor receives them. */
module Config {
  import opened Common

  /** `Literal["development", "staging", "production"]` */
  datatype AppEnv = Development | Staging | Production {
    /** The literal string that stands for this environment. */
    function Literal(): string
    {
      match this
      case Development => "development"
      case Staging => "staging"
      case Production => "production"
    }
  }

  /** Validation of a configured string against the literal domain: exactly
      the three literals are accepted, each as its own environment. */
  function ParseAppEnv(s: string): (r: Option<AppEnv>)
    ensures r.Some? <==> s in {"development", "staging", "production"}
    ensures r.Some? ==> r.value.Literal() == s
  {
    if s == "development" then Some(Development)
    else if s == "staging" then Some(Staging)
    else if s == "production" then Some(Production)
    else None
  }

  /** Each environment's literal is accepted as that environment. */
  lemma LiteralRoundTrip(e: AppEnv)
    ensures ParseAppEnv(e.Literal()) == Some(e)
  {
    match e
    case Development =>
    case Staging =>
    case Production =>
  }

  const DefaultAppName := "CapStack API"
  const DefaultDatabaseUrl := "sqlite+aiosqlite:///./capstack.db"
  const DefaultLlmModel := "gpt-4o-mini"
  const DefaultAzureOpenaiApiVersion := "2024-10-21"
  const DefaultCorsOrigins: seq<string> := ["http://localhost:5173", "http://localhost:3000"]

  /** The synchronous-driver URL schemes and the asynchronous one they become. */
  const PostgresScheme := "postgres://"
  const PostgresqlScheme := "postgresql://"
  const AsyncpgScheme := "postgresql+asyncpg://"

  /** No URL starts with both rewritten schemes. */
  lemma SchemesExclusive(url: string)
    ensures !(StartsWith(url, PostgresScheme) && StartsWith(url, PostgresqlScheme))
  {
    if StartsWith(url, PostgresqlScheme) {
      assert url[8] == PostgresqlScheme[8] == 'q' != PostgresScheme[8];
    }
  }

  /** The URL that `_fix_database_url` leaves in `database_url`. */
  function NormalizeDatabaseUrl(url: string): (r: string)
    ensures StartsWith(url, PostgresScheme) ==> r == AsyncpgScheme + url[|PostgresScheme|..]
    ensures StartsWith(url, PostgresqlScheme) ==> r == AsyncpgScheme + url[|PostgresqlScheme|..]
    ensures !StartsWith(url, PostgresScheme) && !StartsWith(url, PostgresqlScheme) ==> r == url
  {
    SchemesExclusive(url);
    if StartsWith(url, PostgresScheme) then ReplaceFirst(url, PostgresScheme, AsyncpgScheme)
    else if StartsWith(url, PostgresqlScheme) then ReplaceFirst(url, PostgresqlScheme, AsyncpgScheme)
    else url
  }

  /** A URL that already names the asyncpg driver matches neither rewritten scheme. */
  lemma AsyncpgUrlIsFixed(rest: string)
    ensures !StartsWith(AsyncpgScheme + rest, PostgresScheme)
    ensures !StartsWith(AsyncpgScheme + rest, PostgresqlScheme)
  {
    var u := AsyncpgScheme + rest;
    assert u[8] == 'q' != PostgresScheme[8];
    assert u[10] == '+' != PostgresqlScheme[10];
  }

  /** Running the rewrite a second time changes nothing. */
  lemma NormalizeIdempotent(url: string)
    ensures NormalizeDatabaseUrl(NormalizeDatabaseUrl(url)) == NormalizeDatabaseUrl(url)
  {
    if StartsWith(url, PostgresScheme) {
      AsyncpgUrlIsFixed(url[|PostgresScheme|..]);
    } else if StartsWith(url, PostgresqlScheme) {
      AsyncpgUrlIsFixed(url[|PostgresqlScheme|..]);
    }
  }

  /** The sqlite default URL is left as it is. */
  lemma DefaultUrlIsFixed()
    ensures NormalizeDatabaseUrl(DefaultDatabaseUrl) == DefaultDatabaseUrl
  {
    DifferentFirstChar(DefaultDatabaseUrl, PostgresScheme);
    DifferentFirstChar(DefaultDatabaseUrl, PostgresqlScheme);
  }

  /** `Settings`: one settings object, whose validator rewrites `database_url`
      in place once all fields hold their values. */
  class Settings {
    var appName: string
    var appEnv: AppEnv
    var debug: bool
    var databaseUrl: string
    var llmModel: string
    var azureOpenaiApiKey: Option<string>
    var azureOpenaiEndpoint: Option<string>
    var azureOpenaiApiVersion: string
    var openaiApiKey: Option<string>
    var apiKey: Option<string>
    var corsOrigins: seq<string>

    /** Construction from already-loaded values, followed by the
        `mode="after"` validator. */
    constructor (appName: string, appEnv: AppEnv, debug: bool, databaseUrl: string,
                 llmModel: string, azureOpenaiApiKey: Option<string>,
                 azureOpenaiEndpoint: Option<string>, azureOpenaiApiVersion: string,
                 openaiApiKey: Option<string>, apiKey: Option<string>, corsOrigins: seq<string>)
      ensures this.appName == appName && this.appEnv == appEnv && this.debug == debug
      ensures this.databaseUrl == NormalizeDatabaseUrl(databaseUrl)
      ensures this.llmModel == llmModel
      ensures this.azureOpenaiApiKey == azureOpenaiApiKey
      ensures this.azureOpenaiEndpoint == azureOpenaiEndpoint
      ensures this.azureOpenaiApiVersion == azureOpenaiApiVersion
      ensures this.openaiApiKey == openaiApiKey && this.apiKey == apiKey
      ensures this.corsOrigins == corsOrigins
    {
      this.appName := appName;
      this.appEnv := appEnv;
      this.debug := debug;
      this.databaseUrl := databaseUrl;
      this.llmModel := llmModel;
      this.azureOpenaiApiKey := azureOpenaiApiKey;
      this.azureOpenaiEndpoint := azureOpenaiEndpoint;
      this.azureOpenaiApiVersion := azureOpenaiApiVersion;
      this.openaiApiKey := openaiApiKey;
      this.apiKey := apiKey;
      this.corsOrigins := corsOrigins;
      new;
      FixDatabaseUrl();
    }

    /** The settings every field defaults to when nothing is configured. */
    constructor Defaults()
      ensures appName == DefaultAppName && appEnv == Development && debug
      ensures databaseUrl == DefaultDatabaseUrl && llmModel == DefaultLlmModel
      ensures azureOpenaiApiKey == None && azureOpenaiEndpoint == None
      ensures azureOpenaiApiVersion == DefaultAzureOpenaiApiVersion
      ensures openaiApiKey == None && apiKey == None
      ensures corsOrigins == DefaultCorsOrigins
    {
      appName := DefaultAppName;
      appEnv := Development;
      debug := true;
      databaseUrl := DefaultDatabaseUrl;
      llmModel := DefaultLlmModel;
      azureOpenaiApiKey := None;
      azureOpenaiEndpoint := None;
      azureOpenaiApiVersion := DefaultAzureOpenaiApiVersion;
      openaiApiKey := None;
      apiKey := None;
      corsOrigins := DefaultCorsOrigins;
      new;
      FixDatabaseUrl();
      DefaultUrlIsFixed();
    }

    /** `_fix_database_url`: rewrite a `postgres://` or `postgresql://` URL to
        the asyncpg scheme; no other field changes. */
    method FixDatabaseUrl()
      modifies this`databaseUrl
      ensures databaseUrl == NormalizeDatabaseUrl(old(databaseUrl))
    {
      var url := databaseUrl;
      if StartsWith(url, PostgresScheme) {
        databaseUrl := ReplaceFirst(url, PostgresScheme, AsyncpgScheme);
      } else if StartsWith(url, PostgresqlScheme) {
        databaseUrl := ReplaceFirst(url, PostgresqlScheme, AsyncpgScheme);
      }
    }

    /** `is_production` */
    function IsProduction(): (r: bool)
      reads this
      ensures r <==> appEnv == Production
    {
      appEnv.Literal() == "production"
    }
  }
}
