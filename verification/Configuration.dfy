/**
 The resolved configuration: read from a stack of layers, printed field by field, and split into
 fields a running process can adopt and fields fixed at startup.
 */
module Configuration {
  import opened Wrappers
  import opened Params
  import opened Text

  datatype Config = Config(
    serverHost: string,
    serverPort: u16,
    pidFile: string,
    databaseUrl: string,
    databaseMaxConnections: u32,
    apiKeySalt: string,
    masterApiKey: string,
    solutionHashSecret: string,
    imageEncryptionSecret: string,
    defaultSessionTtlSeconds: u64,
    maxSessionTtlSeconds: u64,
    maxValidationAttempts: i64,
    cleanupIntervalSeconds: u64,
    rateLimitRequestsPerSecond: u64,
    rateLimitBurstSize: u32,
    rateLimitReverseProxy: bool,
    captchaCompression: u8,
    adminConfigWrite: bool,
    adminRestartEnabled: bool,
    logLevel: string,
    otelEnabled: bool,
    otelEndpoint: string,
    otelServiceName: string)

  datatype ConfigError = Missing(param: Param) | TooShort(param: Param) | Invalid(param: Param)

  // Whatever answers for a parameter's key: a stack of layers, or any other provider.
  type Provider = Param -> Option<string>

  // ---- Reading ----------------------------------------------------------------------------

  const SECRET_MIN_BYTES := 16

  function Or(answer: Option<string>, default: string): string {
    if answer.Some? then answer.value else default
  }

  function ReadUnsigned(p: Param, answer: Option<string>, default: string, max: nat): (r: Result<nat, ConfigError>)
    ensures r.Success? ==> r.value <= max
    ensures r.Failure? ==> r.error.param == p
  {
    match ParseUnsigned(Or(answer, default), max)
    case Some(n) => Success(n)
    case None => Failure(Invalid(p))
  }

  function ReadSigned(p: Param, answer: Option<string>, default: string): (r: Result<i64, ConfigError>)
    ensures r.Failure? ==> r.error.param == p
  {
    match ParseSigned(Or(answer, default))
    case Some(n) => Success(n)
    case None => Failure(Invalid(p))
  }

  function ReadBool(p: Param, parsed: Option<bool>): (r: Result<bool, ConfigError>)
    ensures r.Failure? ==> r.error.param == p
  {
    match parsed
    case Some(b) => Success(b)
    case None => Failure(Invalid(p))
  }

  function ReadSecret(p: Param, answer: Option<string>): (r: Result<string, ConfigError>)
    ensures r.Failure? ==> r.error.param == p
    ensures r.Success? ==> answer == Some(r.value) && ByteLen(r.value) >= SECRET_MIN_BYTES
  {
    match answer
    case None => Failure(Missing(p))
    case Some(s) => if ByteLen(s) < SECRET_MIN_BYTES then Failure(TooShort(p)) else Success(s)
  }

  function DerivedSecret(p: Param, answer: Option<string>, fallback: string): (r: Result<string, ConfigError>)
    ensures r.Failure? ==> r.error.param == p
  {
    match answer
    case None => Success(fallback)
    case Some(s) => if ByteLen(s) < SECRET_MIN_BYTES then Failure(TooShort(p)) else Success(s)
  }

  function Clamp(n: u8): u8 {
    if n < 1 then 1 else if n > 100 then 100 else n
  }

  // An unrecognised spelling turns restarting off rather than refusing to start.
  function ReadRestart(answer: Option<string>): bool {
    match answer
    case None => false
    case Some(s) => var parsed := ParseBoolLenient(s); parsed.Some? && parsed.value
  }

  // Every field of the configuration, or the first error in this order.
  function FromEnv(env: Provider): Result<Config, ConfigError> {
    var salt :- ReadSecret(ApiKeySalt, env(ApiKeySalt));
    var solution :- DerivedSecret(SolutionHashSecret, env(SolutionHashSecret), salt);
    var image :- DerivedSecret(ImageEncryptionSecret, env(ImageEncryptionSecret), salt);
    var port :- ReadUnsigned(ServerPort, env(ServerPort), "3000", U16_MAX);
    var connections :- ReadUnsigned(DatabaseMaxConnections, env(DatabaseMaxConnections), "5", U32_MAX);
    var master :- ReadSecret(MasterApiKey, env(MasterApiKey));
    var defaultTtl :- ReadUnsigned(DefaultSessionTtlSeconds, env(DefaultSessionTtlSeconds), "300", U64_MAX);
    var maxTtl :- ReadUnsigned(MaxSessionTtlSeconds, env(MaxSessionTtlSeconds), "3600", U64_MAX);
    var attempts :- ReadSigned(MaxValidationAttempts, env(MaxValidationAttempts), "3");
    var cleanup :- ReadUnsigned(CleanupIntervalSeconds, env(CleanupIntervalSeconds), "60", U64_MAX);
    var rps :- ReadUnsigned(RateLimitRequestsPerSecond, env(RateLimitRequestsPerSecond), "2", U64_MAX);
    var burst :- ReadUnsigned(RateLimitBurstSize, env(RateLimitBurstSize), "10", U32_MAX);
    var proxy :- ReadBool(RateLimitReverseProxy, ParseBoolStrict(Or(env(RateLimitReverseProxy), "false")));
    var compression :- ReadUnsigned(CaptchaCompression, env(CaptchaCompression), "40", U8_MAX);
    var restart := ReadRestart(env(AdminRestartEnabled));
    var write :- ReadBool(AdminConfigWrite, ParseBoolLenient(Or(env(AdminConfigWrite), "true")));
    var otel :- ReadBool(OtelEnabled, ParseBoolLenient(Or(env(OtelEnabled), "false")));
    Success(Config(
      serverHost := Or(env(ServerHost), "0.0.0.0"),
      serverPort := port,
      pidFile := Or(env(PidFile), "./data/captchapi.pid"),
      databaseUrl := Or(env(DatabaseUrl), "sqlite:./data/captchapi.db"),
      databaseMaxConnections := connections,
      apiKeySalt := salt,
      masterApiKey := master,
      solutionHashSecret := solution,
      imageEncryptionSecret := image,
      defaultSessionTtlSeconds := defaultTtl,
      maxSessionTtlSeconds := maxTtl,
      maxValidationAttempts := attempts,
      cleanupIntervalSeconds := cleanup,
      rateLimitRequestsPerSecond := rps,
      rateLimitBurstSize := burst,
      rateLimitReverseProxy := proxy,
      captchaCompression := Clamp(compression),
      adminConfigWrite := write,
      adminRestartEnabled := restart,
      logLevel := Or(env(LogLevel), "captchapi=debug,tower_http=debug"),
      otelEnabled := otel,
      otelEndpoint := Or(env(OtelEndpoint), "http://localhost:4318"),
      otelServiceName := Or(env(OtelServiceName), "captchapi")))
  }

  // ---- Printing ---------------------------------------------------------------------------

  // The value of a field in the string form every layer uses.
  function FieldValue(c: Config, p: Param): string {
    match p
    case ServerHost => c.serverHost
    case ServerPort => PrintInt(c.serverPort)
    case PidFile => c.pidFile
    case DatabaseUrl => c.databaseUrl
    case DatabaseMaxConnections => PrintInt(c.databaseMaxConnections)
    case ApiKeySalt => c.apiKeySalt
    case MasterApiKey => c.masterApiKey
    case SolutionHashSecret => c.solutionHashSecret
    case ImageEncryptionSecret => c.imageEncryptionSecret
    case DefaultSessionTtlSeconds => PrintInt(c.defaultSessionTtlSeconds)
    case MaxSessionTtlSeconds => PrintInt(c.maxSessionTtlSeconds)
    case MaxValidationAttempts => PrintInt(c.maxValidationAttempts)
    case CleanupIntervalSeconds => PrintInt(c.cleanupIntervalSeconds)
    case RateLimitRequestsPerSecond => PrintInt(c.rateLimitRequestsPerSecond)
    case RateLimitBurstSize => PrintInt(c.rateLimitBurstSize)
    case RateLimitReverseProxy => PrintBool(c.rateLimitReverseProxy)
    case CaptchaCompression => PrintInt(c.captchaCompression)
    case AdminConfigWrite => PrintBool(c.adminConfigWrite)
    case AdminRestartEnabled => PrintBool(c.adminRestartEnabled)
    case LogLevel => c.logLevel
    case OtelEnabled => PrintBool(c.otelEnabled)
    case OtelEndpoint => c.otelEndpoint
    case OtelServiceName => c.otelServiceName
  }

  // The boot-only values of a running configuration, as a layer.
  function BootLayer(c: Config): (layer: Layer)
    ensures forall n :: n in layer <==> n.Known? && ReloadOf(n.param) == Boot
    ensures forall n :: n in layer ==> layer[n] == FieldValue(c, n.param)
  {
    var layer := map p | p in PARAMS && ReloadOf(p) == Boot :: Known(p) := FieldValue(c, p);
    assert forall p: Param :: ReloadOf(p) == Boot ==> Known(p) in layer by {
      forall p: Param | ReloadOf(p) == Boot ensures Known(p) in layer { EveryParamIsListed(p); }
    }
    layer
  }

  function DriftOver(ps: seq<Param>, running: Config, resolved: Config): (drift: seq<Param>)
    ensures forall p :: p in drift <==>
                        p in ps && ReloadOf(p) == Boot && FieldValue(running, p) != FieldValue(resolved, p)
  {
    if ps == [] then []
    else
      var rest := DriftOver(ps[1..], running, resolved);
      if ReloadOf(ps[0]) == Boot && FieldValue(running, ps[0]) != FieldValue(resolved, ps[0])
      then [ps[0]] + rest else rest
  }

  // The boot-only fields whose freshly resolved value differs from the running one.
  function BootDrift(running: Config, resolved: Config): (drift: seq<Param>)
    ensures forall p :: p in drift <==>
                        ReloadOf(p) == Boot && FieldValue(running, p) != FieldValue(resolved, p)
  {
    assert forall p :: p in PARAMS by {
      forall p ensures p in PARAMS { EveryParamIsListed(p); }
    }
    DriftOver(PARAMS, running, resolved)
  }

  // `resolved` with every boot-only field taken from `running`.
  function WithBootFields(running: Config, resolved: Config): Config {
    running.(
      defaultSessionTtlSeconds := resolved.defaultSessionTtlSeconds,
      maxSessionTtlSeconds := resolved.maxSessionTtlSeconds,
      maxValidationAttempts := resolved.maxValidationAttempts,
      captchaCompression := resolved.captchaCompression,
      cleanupIntervalSeconds := resolved.cleanupIntervalSeconds,
      logLevel := resolved.logLevel)
  }

  /** The fields merged by hand are exactly those the parameter table calls live. */
  lemma MergeFollowsTheTable(running: Config, resolved: Config, p: Param)
    ensures FieldValue(WithBootFields(running, resolved), p)
            == FieldValue(if ReloadOf(p) == Live then resolved else running, p)
  {
  }
}
