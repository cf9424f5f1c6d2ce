/** The web front end's configuration, read once when its module loads: the
    node environment (taken as given, without validation), the public
    settings with their fallbacks, the optional server settings, and the
    production check. */
module WebEnv {
  import opened Wrappers
  import opened Strings
  import opened Environment

  const NODE_ENV: string := "NODE_ENV"
  const PRODUCTION: string := "production"
  const TEST: string := "test"
  const DEVELOPMENT: string := "development"

  const DEFAULT_API_BASE_URL: string := "http://localhost:3001"
  const DEFAULT_APP_NAME: string := "AI Study Companion"

  const AI_PROVIDER_API_KEY: string := "AI_PROVIDER_API_KEY"
  const DATABASE_URL: string := "DATABASE_URL"
  const MONGODB_URI: string := "MONGODB_URI"
  const VECTOR_DB_URL: string := "VECTOR_DB_URL"
  const STORAGE_BUCKET_URL: string := "STORAGE_BUCKET_URL"

  /** The public settings, each read from its own variable. */
  datatype PublicKey = ApiBaseUrl | AppName | SentryDsn | SentryEnvironment

  /** `publicEnvVarKeys`: the variable behind each public setting; every
      one of them is public to the browser. */
  function VarName(key: PublicKey): (r: string)
    ensures "NEXT_PUBLIC_" <= r
  {
    match key
    case ApiBaseUrl => "NEXT_PUBLIC_API_BASE_URL"
    case AppName => "NEXT_PUBLIC_APP_NAME"
    case SentryDsn => "NEXT_PUBLIC_SENTRY_DSN"
    case SentryEnvironment => "NEXT_PUBLIC_SENTRY_ENVIRONMENT"
  }

  /** Distinct settings read distinct variables. */
  lemma VarNamesDistinct(a: PublicKey, b: PublicKey)
    ensures a != b ==> VarName(a) != VarName(b)
  {
  }

  datatype PublicSettings = PublicSettings(
    apiBaseUrl: string, appName: string, sentryDsn: Option<string>, sentryEnvironment: string)

  datatype ServerSettings = ServerSettings(
    aiProviderApiKey: Option<string>, databaseUrl: Option<string>, mongoDbUri: Option<string>,
    vectorDbUrl: Option<string>, storageBucketUrl: Option<string>)

  datatype WebConfig = WebConfig(
    nodeEnv: string, isDevelopment: bool, isProduction: bool, isTest: bool,
    publicSettings: PublicSettings, server: ServerSettings)

  /** `process.env.NODE_ENV ?? "development"`: only an unset variable falls
      back, so an empty or unknown value is kept as it is. */
  function NodeEnv(env: Env): (r: string)
    ensures NODE_ENV !in env ==> r == DEVELOPMENT
    ensures NODE_ENV in env ==> r == env[NODE_ENV]
  {
    Get(env, NODE_ENV).GetOr(DEVELOPMENT)
  }

  /** `readOptionalPublicEnv`. */
  function ReadOptionalPublicEnv(env: Env, key: PublicKey): (r: Option<string>)
    ensures r.None? <==> Unset(env, VarName(key))
    ensures r.Some? ==> r.value == env[VarName(key)]
  {
    Optional(env, VarName(key))
  }

  /** The module's list of missing required variables, and the required
      public reads that fill it. */
  class PublicEnvLoader {
    const env: Env
    const nodeEnv: string
    var missingRequired: seq<string>

    constructor(env: Env, nodeEnv: string)
      ensures this.env == env && this.nodeEnv == nodeEnv && missingRequired == []
    {
      this.env := env;
      this.nodeEnv := nodeEnv;
      missingRequired := [];
    }

    /** `trackMissing`: records `key` unless it is already recorded. */
    method TrackMissing(key: string)
      modifies this
      ensures missingRequired == Tracked(old(missingRequired), key)
    {
      if key !in missingRequired {
        missingRequired := missingRequired + [key];
      }
    }

    /** `readRequiredPublicEnv`: what is recorded is the variable's name. */
    method ReadRequiredPublicEnv(key: PublicKey, fallback: Option<string>) returns (value: string)
      modifies this
      ensures value == RequiredValue(env, VarName(key), fallback)
      ensures Reported(env, VarName(key), fallback, nodeEnv == PRODUCTION) ==>
        missingRequired == Tracked(old(missingRequired), VarName(key))
      ensures !Reported(env, VarName(key), fallback, nodeEnv == PRODUCTION) ==>
        missingRequired == old(missingRequired)
    {
      var raw := Get(env, VarName(key));
      if raw.None? || raw.value == "" {
        if fallback.Some? && nodeEnv != PRODUCTION {
          return fallback.value;
        }
        TrackMissing(VarName(key));
        return fallback.GetOr("");
      }
      return raw.value;
    }
  }

  /** The required public variables that are unset, in the order read. */
  function MissingKeys(env: Env): (r: seq<string>)
    ensures NoDuplicates(r)
    ensures forall k :: k in r <==>
      (k == VarName(ApiBaseUrl) && Unset(env, VarName(ApiBaseUrl))) ||
      (k == VarName(AppName) && Unset(env, VarName(AppName)))
  {
    (if Unset(env, VarName(ApiBaseUrl)) then [VarName(ApiBaseUrl)] else []) +
    (if Unset(env, VarName(AppName)) then [VarName(AppName)] else [])
  }

  /** Loading the module: in production it fails exactly when the API base
      URL or the application name is unset, naming them; elsewhere it never
      fails. */
  method Load(env: Env) returns (r: Result<WebConfig, string>)
    ensures r.Err? <==> NodeEnv(env) == PRODUCTION && MissingKeys(env) != []
    ensures r.Err? ==> r.error == MissingMessage(MissingKeys(env))
    ensures r.Ok? ==> ConfiguredBy(r.value, env)
  {
    var nodeEnv := NodeEnv(env);
    var loader := new PublicEnvLoader(env, nodeEnv);
    var apiBaseUrl := loader.ReadRequiredPublicEnv(ApiBaseUrl, Some(DEFAULT_API_BASE_URL));
    var appName := loader.ReadRequiredPublicEnv(AppName, Some(DEFAULT_APP_NAME));
    var sentryDsn := ReadOptionalPublicEnv(env, SentryDsn);
    var sentryEnvironment := ReadOptionalPublicEnv(env, SentryEnvironment).GetOr(nodeEnv);
    var server := ServerSettings(
      Optional(env, AI_PROVIDER_API_KEY), Optional(env, DATABASE_URL), Optional(env, MONGODB_URI),
      Optional(env, VECTOR_DB_URL), Optional(env, STORAGE_BUCKET_URL));
    var config := WebConfig(
      nodeEnv, nodeEnv == DEVELOPMENT, nodeEnv == PRODUCTION, nodeEnv == TEST,
      PublicSettings(apiBaseUrl, appName, sentryDsn, sentryEnvironment), server);
    assert nodeEnv == PRODUCTION ==> loader.missingRequired == MissingKeys(env);
    assert nodeEnv != PRODUCTION ==> loader.missingRequired == [];
    if config.isProduction && |loader.missingRequired| > 0 {
      return Err(MissingMessage(loader.missingRequired));
    }
    r := Ok(config);
  }

  /** What a loaded configuration holds. */
  predicate ConfiguredBy(config: WebConfig, env: Env) {
    config.nodeEnv == NodeEnv(env) &&
    config.isDevelopment == (config.nodeEnv == DEVELOPMENT) &&
    config.isProduction == (config.nodeEnv == PRODUCTION) &&
    config.isTest == (config.nodeEnv == TEST) &&
    config.publicSettings.apiBaseUrl == RequiredValue(env, VarName(ApiBaseUrl), Some(DEFAULT_API_BASE_URL)) &&
    config.publicSettings.appName == RequiredValue(env, VarName(AppName), Some(DEFAULT_APP_NAME)) &&
    config.publicSettings.sentryDsn == ReadOptionalPublicEnv(env, SentryDsn) &&
    config.publicSettings.sentryEnvironment == ReadOptionalPublicEnv(env, SentryEnvironment).GetOr(config.nodeEnv) &&
    config.server == ServerSettings(
      Optional(env, AI_PROVIDER_API_KEY), Optional(env, DATABASE_URL), Optional(env, MONGODB_URI),
      Optional(env, VECTOR_DB_URL), Optional(env, STORAGE_BUCKET_URL))
  }

  /** Since the node environment is not validated, an unknown value sets
      none of the three flags, and the Sentry environment defaults to it. */
  lemma UnknownNodeEnvSetsNoFlag(config: WebConfig, env: Env)
    requires ConfiguredBy(config, env)
    requires NODE_ENV in env && env[NODE_ENV] != DEVELOPMENT && env[NODE_ENV] != PRODUCTION && env[NODE_ENV] != TEST
    ensures !config.isDevelopment && !config.isProduction && !config.isTest
    ensures Unset(env, VarName(SentryEnvironment)) ==> config.publicSettings.sentryEnvironment == env[NODE_ENV]
  {
  }
}
