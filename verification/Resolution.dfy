/**
 What resolving a stack of layers yields, field by field, and why carrying a running
 configuration's own boot values underneath the stack changes nothing.
 */
module Resolution {
  import opened Wrappers
  import opened Params
  import opened Sources
  import opened Text
  import opened Configuration

  function Printed(r: Result<int, ConfigError>): Result<string, ConfigError> {
    match r
    case Success(n) => Success(PrintInt(n))
    case Failure(e) => Failure(e)
  }

  function PrintedBool(r: Result<bool, ConfigError>): Result<string, ConfigError> {
    match r
    case Success(b) => Success(PrintBool(b))
    case Failure(e) => Failure(e)
  }

  // The value one field takes, in printed form, given the stack's answer for it alone; the two
  // derived secrets also see the salt.
  function Canonical(p: Param, a: Option<string>, salt: string): Result<string, ConfigError> {
    match p
    case ServerHost => Success(Or(a, "0.0.0.0"))
    case ServerPort => Printed(ReadUnsigned(p, a, "3000", U16_MAX))
    case PidFile => Success(Or(a, "./data/captchapi.pid"))
    case DatabaseUrl => Success(Or(a, "sqlite:./data/captchapi.db"))
    case DatabaseMaxConnections => Printed(ReadUnsigned(p, a, "5", U32_MAX))
    case ApiKeySalt => ReadSecret(p, a)
    case MasterApiKey => ReadSecret(p, a)
    case SolutionHashSecret => DerivedSecret(p, a, salt)
    case ImageEncryptionSecret => DerivedSecret(p, a, salt)
    case DefaultSessionTtlSeconds => Printed(ReadUnsigned(p, a, "300", U64_MAX))
    case MaxSessionTtlSeconds => Printed(ReadUnsigned(p, a, "3600", U64_MAX))
    case MaxValidationAttempts => Printed(ReadSigned(p, a, "3"))
    case CleanupIntervalSeconds => Printed(ReadUnsigned(p, a, "60", U64_MAX))
    case RateLimitRequestsPerSecond => Printed(ReadUnsigned(p, a, "2", U64_MAX))
    case RateLimitBurstSize => Printed(ReadUnsigned(p, a, "10", U32_MAX))
    case RateLimitReverseProxy => PrintedBool(ReadBool(p, ParseBoolStrict(Or(a, "false"))))
    case CaptchaCompression =>
      (match ReadUnsigned(p, a, "40", U8_MAX)
       case Success(n) => Success(PrintInt(Clamp(n)))
       case Failure(e) => Failure(e))
    case AdminConfigWrite => PrintedBool(ReadBool(p, ParseBoolLenient(Or(a, "true"))))
    case AdminRestartEnabled => Success(PrintBool(ReadRestart(a)))
    case LogLevel => Success(Or(a, "captchapi=debug,tower_http=debug"))
    case OtelEnabled => PrintedBool(ReadBool(p, ParseBoolLenient(Or(a, "false"))))
    case OtelEndpoint => Success(Or(a, "http://localhost:4318"))
    case OtelServiceName => Success(Or(a, "captchapi"))
  }

  function Salt(env: Provider): string {
    Or(env(ApiKeySalt), "")
  }

  // The value field `p` takes under `env`.
  function Field(env: Provider, p: Param): Result<string, ConfigError> {
    Canonical(p, env(p), Salt(env))
  }

  lemma FieldOfConfig(env: Provider, p: Param)
    requires FromEnv(env).Success?
    ensures Field(env, p) == Success(FieldValue(FromEnv(env).value, p))
  {
    hide ReadUnsigned, ReadSigned, ReadBool, ReadSecret, DerivedSecret, ReadRestart;
    hide ParseBoolLenient, ParseBoolStrict, PrintInt, PrintBool, Clamp;
    assert Salt(env) == FromEnv(env).value.apiKeySalt;
  }

  lemma ErrorNamesField(env: Provider)
    requires FromEnv(env).Failure?
    ensures Field(env, FromEnv(env).error.param) == Failure(FromEnv(env).error)
  {
    hide ReadUnsigned, ReadSigned, ReadBool, ReadSecret, DerivedSecret, ReadRestart;
    hide ParseBoolLenient, ParseBoolStrict, PrintInt, PrintBool, Clamp;
  }

  /**
   A configuration resolves exactly when each field does on its own, and then holds each field's
   own value; when it does not, the error is that of a field that fails.
   */
  lemma ResolvesFieldByField(env: Provider)
    ensures FromEnv(env).Success? <==> forall p :: Field(env, p).Success?
    ensures FromEnv(env).Success? ==> forall p :: Field(env, p) == Success(FieldValue(FromEnv(env).value, p))
    ensures FromEnv(env).Failure? ==> Field(env, FromEnv(env).error.param) == Failure(FromEnv(env).error)
  {
    if FromEnv(env).Success? {
      forall p ensures Field(env, p) == Success(FieldValue(FromEnv(env).value, p)) {
        FieldOfConfig(env, p);
      }
    } else {
      ErrorNamesField(env);
    }
  }

  /** A configuration is determined by its printed fields. */
  lemma FieldsDetermine(a: Config, b: Config)
    requires forall p :: FieldValue(a, p) == FieldValue(b, p)
    ensures a == b
  {
    TextsDetermine(a, b);
    NumbersDetermine(a, b);
    FlagsDetermine(a, b);
  }

  lemma TextsDetermine(a: Config, b: Config)
    requires forall p :: FieldValue(a, p) == FieldValue(b, p)
    ensures a.serverHost == b.serverHost && a.pidFile == b.pidFile && a.databaseUrl == b.databaseUrl
    ensures a.apiKeySalt == b.apiKeySalt && a.masterApiKey == b.masterApiKey
    ensures a.solutionHashSecret == b.solutionHashSecret && a.imageEncryptionSecret == b.imageEncryptionSecret
    ensures a.logLevel == b.logLevel && a.otelEndpoint == b.otelEndpoint && a.otelServiceName == b.otelServiceName
  {
    assert FieldValue(a, ServerHost) == FieldValue(b, ServerHost);
    assert FieldValue(a, PidFile) == FieldValue(b, PidFile);
    assert FieldValue(a, DatabaseUrl) == FieldValue(b, DatabaseUrl);
    assert FieldValue(a, ApiKeySalt) == FieldValue(b, ApiKeySalt);
    assert FieldValue(a, MasterApiKey) == FieldValue(b, MasterApiKey);
    assert FieldValue(a, SolutionHashSecret) == FieldValue(b, SolutionHashSecret);
    assert FieldValue(a, ImageEncryptionSecret) == FieldValue(b, ImageEncryptionSecret);
    assert FieldValue(a, LogLevel) == FieldValue(b, LogLevel);
    assert FieldValue(a, OtelEndpoint) == FieldValue(b, OtelEndpoint);
    assert FieldValue(a, OtelServiceName) == FieldValue(b, OtelServiceName);
  }

  lemma NumbersDetermine(a: Config, b: Config)
    requires forall p :: FieldValue(a, p) == FieldValue(b, p)
    ensures a.serverPort == b.serverPort && a.databaseMaxConnections == b.databaseMaxConnections
    ensures a.defaultSessionTtlSeconds == b.defaultSessionTtlSeconds
    ensures a.maxSessionTtlSeconds == b.maxSessionTtlSeconds
    ensures a.maxValidationAttempts == b.maxValidationAttempts
    ensures a.cleanupIntervalSeconds == b.cleanupIntervalSeconds
    ensures a.rateLimitRequestsPerSecond == b.rateLimitRequestsPerSecond
    ensures a.rateLimitBurstSize == b.rateLimitBurstSize && a.captchaCompression == b.captchaCompression
  {
    hide PrintInt, PrintBool;
    NumberDetermines(a, b, ServerPort, a.serverPort, b.serverPort);
    NumberDetermines(a, b, DatabaseMaxConnections, a.databaseMaxConnections, b.databaseMaxConnections);
    NumberDetermines(a, b, DefaultSessionTtlSeconds, a.defaultSessionTtlSeconds, b.defaultSessionTtlSeconds);
    NumberDetermines(a, b, MaxSessionTtlSeconds, a.maxSessionTtlSeconds, b.maxSessionTtlSeconds);
    NumberDetermines(a, b, MaxValidationAttempts, a.maxValidationAttempts, b.maxValidationAttempts);
    NumberDetermines(a, b, CleanupIntervalSeconds, a.cleanupIntervalSeconds, b.cleanupIntervalSeconds);
    NumberDetermines(a, b, RateLimitRequestsPerSecond, a.rateLimitRequestsPerSecond, b.rateLimitRequestsPerSecond);
    NumberDetermines(a, b, RateLimitBurstSize, a.rateLimitBurstSize, b.rateLimitBurstSize);
    NumberDetermines(a, b, CaptchaCompression, a.captchaCompression, b.captchaCompression);
  }

  lemma NumberDetermines(a: Config, b: Config, p: Param, m: int, n: int)
    requires FieldValue(a, p) == FieldValue(b, p)
    requires FieldValue(a, p) == PrintInt(m) && FieldValue(b, p) == PrintInt(n)
    requires I64_MIN <= m <= U64_MAX && I64_MIN <= n <= U64_MAX
    ensures m == n
  {
    hide FieldValue, PrintInt;
    PrintingIsInjective(m, n);
  }

  lemma FlagsDetermine(a: Config, b: Config)
    requires forall p :: FieldValue(a, p) == FieldValue(b, p)
    ensures a.rateLimitReverseProxy == b.rateLimitReverseProxy && a.adminConfigWrite == b.adminConfigWrite
    ensures a.adminRestartEnabled == b.adminRestartEnabled && a.otelEnabled == b.otelEnabled
  {
    hide PrintInt, PrintBool, ParseBoolLenient, ParseBoolStrict;
    FlagDetermines(a, b, RateLimitReverseProxy, a.rateLimitReverseProxy, b.rateLimitReverseProxy);
    FlagDetermines(a, b, AdminConfigWrite, a.adminConfigWrite, b.adminConfigWrite);
    FlagDetermines(a, b, AdminRestartEnabled, a.adminRestartEnabled, b.adminRestartEnabled);
    FlagDetermines(a, b, OtelEnabled, a.otelEnabled, b.otelEnabled);
  }

  lemma FlagDetermines(a: Config, b: Config, p: Param, m: bool, n: bool)
    requires FieldValue(a, p) == FieldValue(b, p)
    requires FieldValue(a, p) == PrintBool(m) && FieldValue(b, p) == PrintBool(n)
    ensures m == n
  {
    hide FieldValue, ParseBoolLenient, ParseBoolStrict;
    assert |PrintBool(true)| == 4 && |PrintBool(false)| == 5;
  }

  lemma NumberStable(n: nat, max: nat, p: Param, default: string)
    requires n <= max
    ensures ReadUnsigned(p, Some(PrintInt(n)), default, max) == Success(n)
  {
    UnsignedRoundTrip(n, max);
  }

  lemma SignedStable(n: i64, p: Param, default: string)
    ensures ReadSigned(p, Some(PrintInt(n)), default) == Success(n)
  {
    SignedRoundTrip(n);
  }

  lemma ClampTwice(n: u8)
    ensures Clamp(Clamp(n)) == Clamp(n)
  {
  }

  /** Reading back a value that was read and printed gives the same value. */
  lemma CanonicalIsStable(p: Param, a: Option<string>, salt: string)
    requires Canonical(p, a, salt).Success?
    requires p == SolutionHashSecret || p == ImageEncryptionSecret ==> ByteLen(salt) >= SECRET_MIN_BYTES
    ensures Canonical(p, Some(Canonical(p, a, salt).value), salt) == Canonical(p, a, salt)
  {
    hide ReadUnsigned, ReadSigned, ParseBoolLenient, ParseBoolStrict, ByteLen, PrintInt, PrintBool, Clamp;
    BoolRoundTrip(true);
    BoolRoundTrip(false);
    match p {
      case ServerPort => NumberStable(ReadUnsigned(p, a, "3000", U16_MAX).value, U16_MAX, p, "3000");
      case DatabaseMaxConnections => NumberStable(ReadUnsigned(p, a, "5", U32_MAX).value, U32_MAX, p, "5");
      case DefaultSessionTtlSeconds => NumberStable(ReadUnsigned(p, a, "300", U64_MAX).value, U64_MAX, p, "300");
      case MaxSessionTtlSeconds => NumberStable(ReadUnsigned(p, a, "3600", U64_MAX).value, U64_MAX, p, "3600");
      case MaxValidationAttempts => SignedStable(ReadSigned(p, a, "3").value, p, "3");
      case CleanupIntervalSeconds => NumberStable(ReadUnsigned(p, a, "60", U64_MAX).value, U64_MAX, p, "60");
      case RateLimitRequestsPerSecond => NumberStable(ReadUnsigned(p, a, "2", U64_MAX).value, U64_MAX, p, "2");
      case RateLimitBurstSize => NumberStable(ReadUnsigned(p, a, "10", U32_MAX).value, U32_MAX, p, "10");
      case CaptchaCompression =>
        var n := ReadUnsigned(p, a, "40", U8_MAX).value;
        NumberStable(Clamp(n), U8_MAX, p, "40");
        ClampTwice(n);
      case _ =>
    }
  }

  lemma DefaultNumbersParse()
    ensures Decimal("2") == Some(2) && Decimal("3") == Some(3) && Decimal("5") == Some(5)
    ensures Decimal("10") == Some(10) && Decimal("40") == Some(40) && Decimal("60") == Some(60)
    ensures Decimal("300") == Some(300) && Decimal("3000") == Some(3000) && Decimal("3600") == Some(3600)
  {
    assert "10"[..1] == "1" && "40"[..1] == "4" && "60"[..1] == "6" && "30"[..1] == "3" && "36"[..1] == "3";
    assert Decimal("30") == Some(30) && Decimal("36") == Some(36);
    assert "300"[..2] == "30" && "360"[..2] == "36";
    assert Decimal("360") == Some(360);
    assert "3000"[..3] == "300" && "3600"[..3] == "360";
  }

  /** Every field but the two required secrets has a default, and each default is valid. */
  lemma DefaultsAreValid(p: Param, salt: string)
    ensures Canonical(p, None, salt).Success? <==> p != ApiKeySalt && p != MasterApiKey
  {
    hide ParseBoolLenient, ParseBoolStrict, Decimal;
    DefaultNumbersParse();
    BoolRoundTrip(true);
    BoolRoundTrip(false);
  }

  /** Stacks on which every field takes the same value resolve alike. */
  lemma SameFieldsResolveAlike(l: Provider, m: Provider)
    requires forall p :: Field(l, p) == Field(m, p)
    ensures FromEnv(l).Success? == FromEnv(m).Success?
    ensures FromEnv(l).Success? ==> FromEnv(l) == FromEnv(m)
  {
    ResolvesFieldByField(l);
    ResolvesFieldByField(m);
    if FromEnv(l).Success? {
      FieldsDetermine(FromEnv(l).value, FromEnv(m).value);
    }
  }

  ghost predicate BootKeysOnly(layer: Layer) {
    forall n :: n in layer ==> n.Known? && ReloadOf(n.param) == Boot
  }

  // `l` with the boot values of `c` underneath.
  function Carrying(l: LayeredEnv, c: Config): LayeredEnv {
    l.(carried := BootLayer(c))
  }

  lemma SaltIsAnswered(env: Provider)
    requires FromEnv(env).Success?
    ensures var c := FromEnv(env).value;
            && env(ApiKeySalt) == Some(c.apiKeySalt) && Salt(env) == c.apiKeySalt
            && FieldValue(c, ApiKeySalt) == c.apiKeySalt
            && ByteLen(c.apiKeySalt) >= SECRET_MIN_BYTES
  {
    hide ReadUnsigned, ReadSigned, ReadBool, ReadSecret, DerivedSecret, ReadRestart, ByteLen;
    hide ParseBoolLenient, ParseBoolStrict, PrintInt, PrintBool, Clamp;
  }

  lemma CarryingKeepsField(l: LayeredEnv, c: Config, p: Param)
    requires FromEnv(l.Answers()) == Success(c) && BootKeysOnly(l.carried)
    ensures Field(Carrying(l, c).Answers(), p) == Field(l.Answers(), p)
  {
    hide FromEnv, Canonical, FieldValue, ByteLen;
    var env := l.Answers();
    SaltIsAnswered(env);
    FieldOfConfig(env, p);
    CarriedAnswer(l, c, ApiKeySalt);
    CarriedAnswer(l, c, p);
    CanonicalIsStable(p, env(p), c.apiKeySalt);
  }

  // Carrying changes an answer at most to the printed value of a field it left unanswered.
  lemma CarriedAnswer(l: LayeredEnv, c: Config, p: Param)
    requires BootKeysOnly(l.carried)
    ensures Carrying(l, c).Get(p) == l.Get(p) || Carrying(l, c).Get(p) == Some(FieldValue(c, p))
    ensures l.Get(p).Some? ==> Carrying(l, c).Get(p).Some?
  {
  }

  /**
   Fixpoint: a configuration resolved from any stack resolves to itself when its own boot values
   are carried underneath, so reading unchanged sources again moves nothing.
   */
  lemma CarryingIsFixpoint(l: LayeredEnv, c: Config)
    requires FromEnv(l.Answers()) == Success(c) && BootKeysOnly(l.carried)
    ensures FromEnv(Carrying(l, c).Answers()) == Success(c)
  {
    forall p ensures Field(Carrying(l, c).Answers(), p) == Field(l.Answers(), p) {
      CarryingKeepsField(l, c, p);
    }
    SameFieldsResolveAlike(l.Answers(), Carrying(l, c).Answers());
  }

  /** Merging keeps the boot fields and so what is carried and what counts as drift. */
  lemma MergeKeepsBoot(running: Config, resolved: Config)
    ensures BootLayer(WithBootFields(running, resolved)) == BootLayer(running)
    ensures forall other :: BootDrift(WithBootFields(running, resolved), other) == BootDrift(running, other)
  {
    forall p ensures FieldValue(WithBootFields(running, resolved), p)
                     == FieldValue(if ReloadOf(p) == Live then resolved else running, p) {
      MergeFollowsTheTable(running, resolved, p);
    }
    assert BootLayer(WithBootFields(running, resolved)) == BootLayer(running);
    forall other ensures BootDrift(WithBootFields(running, resolved), other) == BootDrift(running, other) {
      DriftSeesBootOnly(PARAMS, WithBootFields(running, resolved), running, other, other);
    }
  }

  lemma {:induction false} DriftSeesBootOnly(ps: seq<Param>, a: Config, b: Config, x: Config, y: Config)
    requires forall p :: ReloadOf(p) == Boot ==>
                         FieldValue(a, p) == FieldValue(b, p) && FieldValue(x, p) == FieldValue(y, p)
    ensures DriftOver(ps, a, x) == DriftOver(ps, b, y)
  {
    if ps != [] {
      DriftSeesBootOnly(ps[1..], a, b, x, y);
    }
  }

  // ---- What each kind of setting takes --------------------------------------------------------

  /** The two required secrets: at least 16 bytes, and the error tells a missing one from a short one. */
  lemma SecretReads(p: Param, a: Option<string>, salt: string)
    requires p == ApiKeySalt || p == MasterApiKey
    ensures Canonical(p, a, salt)
            == if a.None? then Failure(Missing(p))
               else if ByteLen(a.value) < 16 then Failure(TooShort(p))
               else Success(a.value)
  {
    hide ByteLen;
  }

  /** The two derived ones: the same when given, and otherwise the salt. */
  lemma DerivedSecretReads(p: Param, a: Option<string>, salt: string)
    requires p == SolutionHashSecret || p == ImageEncryptionSecret
    ensures Canonical(p, a, salt)
            == if a.None? then Success(salt)
               else if ByteLen(a.value) < 16 then Failure(TooShort(p))
               else Success(a.value)
  {
    hide ByteLen;
  }

  function Distance(m: int, n: int): nat {
    if m < n then n - m else m - n
  }

  /** A compression is the nearest level from 1 to 100 to the one asked for. */
  lemma CompressionIsNearest(asked: u8, salt: string)
    ensures exists level: u8 ::
              && Canonical(CaptchaCompression, Some(PrintInt(asked)), salt) == Success(PrintInt(level))
              && 1 <= level <= 100
              && forall other: u8 :: 1 <= other <= 100 ==> Distance(asked, level) <= Distance(asked, other)
  {
    hide PrintInt;
    NumberStable(asked, U8_MAX, CaptchaCompression, "40");
    var level := Clamp(asked);
    assert Canonical(CaptchaCompression, Some(PrintInt(asked)), salt) == Success(PrintInt(level));
  }

  /** Restarting is enabled only by a text that says so: any other, misspelt ones included, disables it. */
  lemma RestartOnlyWhenSaid(a: Option<string>, salt: string)
    ensures Canonical(AdminRestartEnabled, a, salt)
            == Success(PrintBool(a.Some? && ParseBoolLenient(a.value) == Some(true)))
  {
    hide ParseBoolLenient, PrintBool;
  }
}
