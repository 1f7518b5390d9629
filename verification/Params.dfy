/**
 The parameter table: one row per setting, its names in each vocabulary, and the columns that
 decide whether a running process can adopt it and whether it may be stored.
 */
module Params {
  datatype Param =
    | ServerHost
    | ServerPort
    | PidFile
    | DatabaseUrl
    | DatabaseMaxConnections
    | ApiKeySalt
    | MasterApiKey
    | SolutionHashSecret
    | ImageEncryptionSecret
    | DefaultSessionTtlSeconds
    | MaxSessionTtlSeconds
    | MaxValidationAttempts
    | CaptchaCompression
    | CleanupIntervalSeconds
    | RateLimitRequestsPerSecond
    | RateLimitBurstSize
    | RateLimitReverseProxy
    | AdminConfigWrite
    | AdminRestartEnabled
    | LogLevel
    | OtelEnabled
    | OtelEndpoint
    | OtelServiceName

  datatype Reload = Boot | Live

  datatype Persist = Allowed | Never

  // A name as a caller supplies it, identified with the table row it denotes. Field names and
  // environment keys are both one-to-one with the rows (see ParamNames), so a known name in
  // either vocabulary is the row itself.
  datatype Name = Known(param: Param) | Unknown(text: string)

  // A layer maps environment keys to raw strings; the settings table maps field names to them.
  type Layer = map<Name, string>

  type Updates = seq<(Name, string)>

  // The layer after inserting each pair in turn, a later pair replacing an earlier one.
  function Inserted(layer: Layer, updates: Updates): Layer {
    if updates == [] then layer
    else
      var last := updates[|updates| - 1];
      Inserted(layer, updates[..|updates| - 1])[last.0 := last.1]
  }

  // The rows in table order.
  const PARAMS: seq<Param> := [
    ServerHost, ServerPort, PidFile, DatabaseUrl, DatabaseMaxConnections, ApiKeySalt,
    MasterApiKey, SolutionHashSecret, ImageEncryptionSecret, DefaultSessionTtlSeconds,
    MaxSessionTtlSeconds, MaxValidationAttempts, CaptchaCompression, CleanupIntervalSeconds,
    RateLimitRequestsPerSecond, RateLimitBurstSize, RateLimitReverseProxy, AdminConfigWrite,
    AdminRestartEnabled, LogLevel, OtelEnabled, OtelEndpoint, OtelServiceName
  ]

  function ReloadOf(p: Param): Reload {
    match p
    case DefaultSessionTtlSeconds | MaxSessionTtlSeconds | MaxValidationAttempts
      | CaptchaCompression | CleanupIntervalSeconds | LogLevel => Live
    case _ => Boot
  }

  function PersistOf(p: Param): Persist {
    match p
    case DatabaseUrl | DatabaseMaxConnections | ApiKeySalt | MasterApiKey | SolutionHashSecret
      | ImageEncryptionSecret | OtelEnabled | OtelEndpoint | OtelServiceName => Never
    case _ => Allowed
  }

  // Whether a stored row under this name is honoured, and whether a write to it is accepted.
  predicate Storable(name: Name) {
    name.Known? && PersistOf(name.param) == Allowed
  }

  lemma EveryParamIsListed(p: Param)
    ensures p in PARAMS
  {
    var at := match p
      case ServerHost => 0
      case ServerPort => 1
      case PidFile => 2
      case DatabaseUrl => 3
      case DatabaseMaxConnections => 4
      case ApiKeySalt => 5
      case MasterApiKey => 6
      case SolutionHashSecret => 7
      case ImageEncryptionSecret => 8
      case DefaultSessionTtlSeconds => 9
      case MaxSessionTtlSeconds => 10
      case MaxValidationAttempts => 11
      case CaptchaCompression => 12
      case CleanupIntervalSeconds => 13
      case RateLimitRequestsPerSecond => 14
      case RateLimitBurstSize => 15
      case RateLimitReverseProxy => 16
      case AdminConfigWrite => 17
      case AdminRestartEnabled => 18
      case LogLevel => 19
      case OtelEnabled => 20
      case OtelEndpoint => 21
      case OtelServiceName => 22;
    assert PARAMS[at] == p;
  }
}
