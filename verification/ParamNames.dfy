/**
 The string columns of the parameter table and the lookups over them. Each column is one-to-one,
 which is what lets every vocabulary (environment keys, field names, paths in a file) resolve to
 one row, and the rest of the model identify a name with its row.
 */
module ParamNames {
  import opened Wrappers
  import opened Params
  import opened Resolution
  import opened Text

  function EnvKey(p: Param): string {
    match p
    case ServerHost => "SERVER_HOST"
    case ServerPort => "SERVER_PORT"
    case PidFile => "PID_FILE"
    case DatabaseUrl => "DATABASE_URL"
    case DatabaseMaxConnections => "DATABASE_MAX_CONNECTIONS"
    case ApiKeySalt => "API_KEY_SALT"
    case MasterApiKey => "MASTER_API_KEY"
    case SolutionHashSecret => "SOLUTION_HASH_SECRET"
    case ImageEncryptionSecret => "IMAGE_ENCRYPTION_SECRET"
    case DefaultSessionTtlSeconds => "DEFAULT_SESSION_TTL_SECONDS"
    case MaxSessionTtlSeconds => "MAX_SESSION_TTL_SECONDS"
    case MaxValidationAttempts => "MAX_VALIDATION_ATTEMPTS"
    case CaptchaCompression => "CAPTCHA_COMPRESSION"
    case CleanupIntervalSeconds => "CLEANUP_INTERVAL_SECONDS"
    case RateLimitRequestsPerSecond => "RATE_LIMIT_REQUESTS_PER_SECOND"
    case RateLimitBurstSize => "RATE_LIMIT_BURST_SIZE"
    case RateLimitReverseProxy => "RATE_LIMIT_REVERSE_PROXY"
    case AdminConfigWrite => "ADMIN_CONFIG_WRITE"
    case AdminRestartEnabled => "ADMIN_RESTART_ENABLED"
    case LogLevel => "RUST_LOG"
    case OtelEnabled => "OTEL_ENABLED"
    case OtelEndpoint => "OTEL_EXPORTER_OTLP_ENDPOINT"
    case OtelServiceName => "OTEL_SERVICE_NAME"
  }

  function FieldName(p: Param): string {
    match p
    case ServerHost => "server_host"
    case ServerPort => "server_port"
    case PidFile => "pid_file"
    case DatabaseUrl => "database_url"
    case DatabaseMaxConnections => "database_max_connections"
    case ApiKeySalt => "api_key_salt"
    case MasterApiKey => "master_api_key"
    case SolutionHashSecret => "solution_hash_secret"
    case ImageEncryptionSecret => "image_encryption_secret"
    case DefaultSessionTtlSeconds => "default_session_ttl_seconds"
    case MaxSessionTtlSeconds => "max_session_ttl_seconds"
    case MaxValidationAttempts => "max_validation_attempts"
    case CaptchaCompression => "captcha_compression"
    case CleanupIntervalSeconds => "cleanup_interval_seconds"
    case RateLimitRequestsPerSecond => "rate_limit_requests_per_second"
    case RateLimitBurstSize => "rate_limit_burst_size"
    case RateLimitReverseProxy => "rate_limit_reverse_proxy"
    case AdminConfigWrite => "admin_config_write"
    case AdminRestartEnabled => "admin_restart_enabled"
    case LogLevel => "log_level"
    case OtelEnabled => "otel_enabled"
    case OtelEndpoint => "otel_endpoint"
    case OtelServiceName => "otel_service_name"
  }

  function TomlPath(p: Param): Option<string> {
    match p
    case ServerHost => Some("server.host")
    case ServerPort => Some("server.port")
    case PidFile => Some("server.pid_file")
    case DatabaseUrl => Some("database.url")
    case DatabaseMaxConnections => Some("database.max_connections")
    case DefaultSessionTtlSeconds => Some("captcha.default_ttl_seconds")
    case MaxSessionTtlSeconds => Some("captcha.max_ttl_seconds")
    case MaxValidationAttempts => Some("captcha.max_validation_attempts")
    case CaptchaCompression => Some("captcha.compression")
    case CleanupIntervalSeconds => Some("tasks.cleanup_interval_seconds")
    case RateLimitRequestsPerSecond => Some("rate_limit.requests_per_second")
    case RateLimitBurstSize => Some("rate_limit.burst_size")
    case RateLimitReverseProxy => Some("rate_limit.reverse_proxy")
    case AdminConfigWrite => Some("admin.config_write")
    case AdminRestartEnabled => Some("admin.restart_enabled")
    case LogLevel => Some("logging.level")
    case OtelEnabled => Some("telemetry.enabled")
    case OtelEndpoint => Some("telemetry.endpoint")
    case OtelServiceName => Some("telemetry.service_name")
    case _ => None
  }

  function DefaultText(p: Param): Option<string> {
    match p
    case ServerHost => Some("0.0.0.0")
    case ServerPort => Some("3000")
    case PidFile => Some("./data/captchapi.pid")
    case DatabaseUrl => Some("sqlite:./data/captchapi.db")
    case DatabaseMaxConnections => Some("5")
    case DefaultSessionTtlSeconds => Some("300")
    case MaxSessionTtlSeconds => Some("3600")
    case MaxValidationAttempts => Some("3")
    case CaptchaCompression => Some("40")
    case CleanupIntervalSeconds => Some("60")
    case RateLimitRequestsPerSecond => Some("2")
    case RateLimitBurstSize => Some("10")
    case RateLimitReverseProxy => Some("false")
    case AdminConfigWrite => Some("true")
    case AdminRestartEnabled => Some("false")
    case LogLevel => Some("captchapi=debug,tower_http=debug")
    case OtelEnabled => Some("false")
    case OtelEndpoint => Some("http://localhost:4318")
    case OtelServiceName => Some("captchapi")
    case _ => None
  }

  // The row a string can only be in, told from its length and one character of it.

  function EnvRow(length: nat, mark: char): Option<Param> {
    match length
    case 8 => if mark == 'L' then Some(PidFile) else Some(LogLevel)
    case 11 => if mark == 'S' then Some(ServerHost) else Some(ServerPort)
    case 12 => if mark == 'R' then Some(DatabaseUrl) else if mark == 'L' then Some(ApiKeySalt) else Some(OtelEnabled)
    case 14 => Some(MasterApiKey)
    case 17 => Some(OtelServiceName)
    case 18 => Some(AdminConfigWrite)
    case 19 => Some(CaptchaCompression)
    case 20 => Some(SolutionHashSecret)
    case 21 => if mark == 'Z' then Some(RateLimitBurstSize) else Some(AdminRestartEnabled)
    case 23 =>
      if mark == 'E' then Some(ImageEncryptionSecret)
      else if mark == 'D' then Some(MaxSessionTtlSeconds)
      else Some(MaxValidationAttempts)
    case 24 =>
      if mark == 'N' then Some(DatabaseMaxConnections)
      else if mark == 'D' then Some(CleanupIntervalSeconds)
      else Some(RateLimitReverseProxy)
    case 27 => if mark == 'D' then Some(DefaultSessionTtlSeconds) else Some(OtelEndpoint)
    case 30 => Some(RateLimitRequestsPerSecond)
    case _ => None
  }

  function FieldRow(length: nat, mark: char): Option<Param> {
    match length
    case 8 => Some(PidFile)
    case 9 => Some(LogLevel)
    case 11 => if mark == 'h' then Some(ServerHost) else Some(ServerPort)
    case 12 => if mark == '_' then Some(DatabaseUrl) else if mark == 's' then Some(ApiKeySalt) else Some(OtelEnabled)
    case 13 => Some(OtelEndpoint)
    case 14 => Some(MasterApiKey)
    case 17 => Some(OtelServiceName)
    case 18 => Some(AdminConfigWrite)
    case 19 => Some(CaptchaCompression)
    case 20 => Some(SolutionHashSecret)
    case 21 => if mark == 's' then Some(RateLimitBurstSize) else Some(AdminRestartEnabled)
    case 23 =>
      if mark == 'c' then Some(ImageEncryptionSecret)
      else if mark == 'o' then Some(MaxSessionTtlSeconds)
      else Some(MaxValidationAttempts)
    case 24 =>
      if mark == 'i' then Some(DatabaseMaxConnections)
      else if mark == 'o' then Some(CleanupIntervalSeconds)
      else Some(RateLimitReverseProxy)
    case 27 => Some(DefaultSessionTtlSeconds)
    case 30 => Some(RateLimitRequestsPerSecond)
    case _ => None
  }

  function TomlRow(length: nat, mark: char): Option<Param> {
    match length
    case 11 => if mark == 'h' then Some(ServerHost) else Some(ServerPort)
    case 12 => Some(DatabaseUrl)
    case 13 => Some(LogLevel)
    case 15 => Some(PidFile)
    case 17 => Some(OtelEnabled)
    case 18 => if mark == 'r' then Some(AdminConfigWrite) else Some(OtelEndpoint)
    case 19 => Some(CaptchaCompression)
    case 21 => if mark == 's' then Some(RateLimitBurstSize) else Some(AdminRestartEnabled)
    case 22 => Some(OtelServiceName)
    case 23 => Some(MaxSessionTtlSeconds)
    case 24 => if mark == 'i' then Some(DatabaseMaxConnections) else Some(RateLimitReverseProxy)
    case 27 => Some(DefaultSessionTtlSeconds)
    case 30 => if mark == 'o' then Some(CleanupIntervalSeconds) else Some(RateLimitRequestsPerSecond)
    case 31 => Some(MaxValidationAttempts)
    case _ => None
  }

  ghost predicate EnvRowFound(p: Param) {
    |EnvKey(p)| >= 2 && EnvRow(|EnvKey(p)|, EnvKey(p)[|EnvKey(p)| - 2]) == Some(p)
  }

  ghost predicate FieldRowFound(p: Param) {
    |FieldName(p)| >= 4 && FieldRow(|FieldName(p)|, FieldName(p)[|FieldName(p)| - 4]) == Some(p)
  }

  ghost predicate TomlRowFound(p: Param)
    requires TomlPath(p).Some?
  {
    var path := TomlPath(p).value;
    |path| >= 4 && TomlRow(|path|, path[|path| - 4]) == Some(p)
  }

  lemma StorableEnvKey(p: Param)
    requires PersistOf(p) == Allowed
    ensures EnvRowFound(p)
  {
  }

  lemma NeverStoredEnvKey(p: Param)
    requires PersistOf(p) == Never
    ensures EnvRowFound(p)
  {
  }

  lemma EnvKeyIsOneToOne(p: Param)
    ensures EnvRowFound(p)
  {
    hide EnvKey, EnvRow;
    if PersistOf(p) == Allowed { StorableEnvKey(p); } else { NeverStoredEnvKey(p); }
  }

  lemma StorableFieldName(p: Param)
    requires PersistOf(p) == Allowed
    ensures FieldRowFound(p)
  {
  }

  lemma NeverStoredFieldName(p: Param)
    requires PersistOf(p) == Never
    ensures FieldRowFound(p)
  {
  }

  lemma FieldNameIsOneToOne(p: Param)
    ensures FieldRowFound(p)
  {
    hide FieldName, FieldRow;
    if PersistOf(p) == Allowed { StorableFieldName(p); } else { NeverStoredFieldName(p); }
  }

  lemma StorableTomlPath(p: Param)
    requires PersistOf(p) == Allowed && TomlPath(p).Some?
    ensures TomlRowFound(p)
  {
  }

  lemma NeverStoredTomlPath(p: Param)
    requires PersistOf(p) == Never && TomlPath(p).Some?
    ensures TomlRowFound(p)
  {
  }

  lemma TomlPathIsOneToOne(p: Param)
    requires TomlPath(p).Some?
    ensures TomlRowFound(p)
  {
    hide TomlPath, TomlRow;
    if PersistOf(p) == Allowed { StorableTomlPath(p); } else { NeverStoredTomlPath(p); }
  }

  // The first of `ps` whose column holds `text`.
  function Find(ps: seq<Param>, column: Param -> Option<string>, text: string): (r: Option<Param>)
    ensures r.Some? ==> r.value in ps && column(r.value) == Some(text)
    ensures r.None? ==> forall p :: p in ps ==> column(p) != Some(text)
  {
    if ps == [] then None
    else if column(ps[0]) == Some(text) then Some(ps[0])
    else Find(ps[1..], column, text)
  }

  const ENV_KEYS: Param -> Option<string> := p => Some(EnvKey(p))
  const FIELD_NAMES: Param -> Option<string> := p => Some(FieldName(p))
  const TOML_PATHS: Param -> Option<string> := p => TomlPath(p)

  function ByEnv(key: string): Option<Param> {
    Find(PARAMS, ENV_KEYS, key)
  }

  function ByField(field: string): Option<Param> {
    Find(PARAMS, FIELD_NAMES, field)
  }

  function ByToml(path: string): Option<Param> {
    Find(PARAMS, TOML_PATHS, path)
  }

  // In a one-to-one column, a row is found exactly by its own text.
  lemma FindInvertsColumn(column: Param -> Option<string>, text: string, p: Param)
    requires forall q :: column(p) == Some(text) && column(q) == Some(text) ==> q == p
    ensures Find(PARAMS, column, text) == Some(p) <==> column(p) == Some(text)
  {
    EveryParamIsListed(p);
  }

  lemma SameEnvKey(p: Param, q: Param)
    requires EnvKey(p) == EnvKey(q)
    ensures p == q
  {
    hide EnvKey, EnvRow;
    EnvKeyIsOneToOne(p);
    EnvKeyIsOneToOne(q);
  }

  lemma SameFieldName(p: Param, q: Param)
    requires FieldName(p) == FieldName(q)
    ensures p == q
  {
    hide FieldName, FieldRow;
    FieldNameIsOneToOne(p);
    FieldNameIsOneToOne(q);
  }

  lemma SameTomlPath(p: Param, q: Param)
    requires TomlPath(p).Some? && TomlPath(p) == TomlPath(q)
    ensures p == q
  {
    hide TomlPath, TomlRow;
    TomlPathIsOneToOne(p);
    TomlPathIsOneToOne(q);
  }

  /** Each lookup finds a row exactly when the text is that row's: no row hides another. */
  lemma LookupsInvertColumns(text: string, p: Param)
    ensures ByEnv(text) == Some(p) <==> EnvKey(p) == text
    ensures ByField(text) == Some(p) <==> FieldName(p) == text
    ensures ByToml(text) == Some(p) <==> TomlPath(p) == Some(text)
  {
    hide EnvKey, FieldName, TomlPath, PARAMS, Find;
    forall q | EnvKey(p) == text && EnvKey(q) == text ensures q == p { SameEnvKey(p, q); }
    forall q | FieldName(p) == text && FieldName(q) == text ensures q == p { SameFieldName(p, q); }
    forall q | TomlPath(p) == Some(text) && TomlPath(q) == Some(text) ensures q == p { SameTomlPath(p, q); }
    FindInvertsColumn(ENV_KEYS, text, p);
    FindInvertsColumn(FIELD_NAMES, text, p);
    FindInvertsColumn(TOML_PATHS, text, p);
  }

  // What a name in a request, or in the settings table, denotes.
  function FieldNamed(text: string): Name {
    match ByField(text)
    case Some(p) => Known(p)
    case None => Unknown(text)
  }

  // What a key in a layer denotes.
  function KeyNamed(text: string): Name {
    match ByEnv(text)
    case Some(p) => Known(p)
    case None => Unknown(text)
  }

  /**
   Identifying names with rows loses nothing: two texts denote the same name only when they are
   the same text, in either vocabulary.
   */
  lemma NamesAreOneToOne(a: string, b: string)
    ensures FieldNamed(a) == FieldNamed(b) <==> a == b
    ensures KeyNamed(a) == KeyNamed(b) <==> a == b
  {
    hide EnvKey, FieldName, TomlPath, ByEnv, ByField, ByToml;
    if ByField(a).Some? { LookupsInvertColumns(a, ByField(a).value); LookupsInvertColumns(b, ByField(a).value); }
    if ByEnv(a).Some? { LookupsInvertColumns(a, ByEnv(a).value); LookupsInvertColumns(b, ByEnv(a).value); }
  }

  /**
   The default shown for a parameter is the one the resolver uses: writing it out changes
   nothing, and the required secrets and the derived ones show none.
   */
  lemma ShownDefaultIsUsed(p: Param, salt: string)
    ensures DefaultText(p).Some? ==> Canonical(p, DefaultText(p), salt) == Canonical(p, None, salt)
    ensures DefaultText(p).None? <==> Canonical(p, None, salt).Failure?
                                      || p == SolutionHashSecret || p == ImageEncryptionSecret
  {
    hide ParseBoolStrict, ParseBoolLenient, Decimal, PrintInt, ByteLen;
    DefaultNumbersParse();
    BoolRoundTrip(true);
    BoolRoundTrip(false);
  }
}
