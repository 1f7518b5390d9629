/**
 What the pending-restart list says about a start from the stored layer the handle holds. It is
 meant to answer what would change if the process restarted now; because the running boot values
 are carried underneath the stack, it cannot see a boot value whose source has gone away. (What
 else a restart does, to the store first of all, is in `Restarts`.)
 */
module PendingRestart {
  import opened Wrappers
  import opened Params
  import opened Sources
  import opened Text
  import opened Configuration
  import opened Resolution
  import opened HandleState
  import opened HandleRuns

  // What a start from the same surroundings and this stored layer reads its configuration from.
  function RestartStack(x: Surroundings, files: Files, stored: Layer): LayeredEnv {
    Stack(x, files, map[], stored, map[])
  }

  /** The printed value of a boot field reads back as itself, if it reads at all. */
  lemma PrintedReadsBack(c: Config, p: Param, salt: string)
    requires ReloadOf(p) == Boot
    ensures var r := Canonical(p, Some(FieldValue(c, p)), salt);
            r.Success? ==> r.value == FieldValue(c, p)
  {
    hide ReadUnsigned, ReadSigned, ParseBoolLenient, ParseBoolStrict, ByteLen, PrintInt, PrintBool;
    BoolRoundTrip(true);
    BoolRoundTrip(false);
    match p {
      case ServerPort => NumberStable(c.serverPort, U16_MAX, p, "3000");
      case DatabaseMaxConnections => NumberStable(c.databaseMaxConnections, U32_MAX, p, "5");
      case RateLimitRequestsPerSecond => NumberStable(c.rateLimitRequestsPerSecond, U64_MAX, p, "2");
      case RateLimitBurstSize => NumberStable(c.rateLimitBurstSize, U32_MAX, p, "10");
      case _ =>
    }
  }

  lemma AnsweredFieldIgnoresSalt(p: Param, a: Option<string>, salt: string, other: string)
    requires a.Some?
    ensures Canonical(p, a, salt) == Canonical(p, a, other)
  {
  }

  // Overrides are of live fields, so for a boot field the running process and a restart differ only
  // in what lies at the bottom.
  lemma RunningAnswer(x: Surroundings, files: Files, boot: Config, overlay: Layer, stored: Layer, p: Param)
    requires LiveKeysOnly(overlay) && ReloadOf(p) == Boot
    ensures var l, m := RunningStack(x, files, boot, overlay, stored), RestartStack(x, files, stored);
            l.Get(p) == if m.Get(p).Some? then m.Get(p) else Some(FieldValue(boot, p))
  {
    hide FieldValue;
    assert Known(p) !in overlay;
  }

  // A boot field some source answers for resolves as a restart would; one none answers for
  // resolves to the running value.
  lemma RunningOrRestarted(x: Surroundings, files: Files, boot: Config, s: State, p: Param)
    requires Coherent(x, files, boot, s) && FreshResolve(x, files, s.stored).Success? && ReloadOf(p) == Boot
    ensures var resolved := FromEnv(RunningStack(x, files, boot, s.overlay, s.stored).Answers()).value;
            FieldValue(resolved, p)
            == FieldValue(if RestartStack(x, files, s.stored).Get(p).Some?
                          then FreshResolve(x, files, s.stored).value.0 else boot, p)
  {
    hide FromEnv, FieldValue, Canonical, BootDrift, WithBootFields, Capture, SameButCarried;
    hide BootLayer, LayeredEnv.Get, ReloadOf;
    var l, m := RunningStack(x, files, boot, s.overlay, s.stored), RestartStack(x, files, s.stored);
    FieldOfConfig(l.Answers(), p);
    FieldOfConfig(m.Answers(), p);
    RunningAnswer(x, files, boot, s.overlay, s.stored, p);
    if m.Get(p).Some? {
      AnsweredFieldIgnoresSalt(p, l.Get(p), Salt(l.Answers()), Salt(m.Answers()));
    } else {
      PrintedReadsBack(boot, p, Salt(l.Answers()));
    }
  }

  /**
   Exactly which changes the list reports: the boot fields a start from the same stored layer would
   change, as far as some source still answers for them.
   */
  lemma PendingIsAnsweredDrift(x: Surroundings, files: Files, boot: Config, s: State, p: Param)
    requires Coherent(x, files, boot, s) && FreshResolve(x, files, s.stored).Success?
    ensures p in s.pendingRestart <==>
            p in BootDrift(boot, FreshResolve(x, files, s.stored).value.0)
            && RestartStack(x, files, s.stored).Get(p).Some?
  {
    hide FromEnv, FieldValue, Capture, WithBootFields;
    if ReloadOf(p) == Boot {
      RunningOrRestarted(x, files, boot, s, p);
    }
  }

  /**
   The list is the whole truth about a start from the same stored layer if and only if every boot
   field that no source answers for any more runs with the value it has by default.
   */
  lemma PendingIsCompleteIff(x: Surroundings, files: Files, boot: Config, s: State)
    requires Coherent(x, files, boot, s) && FreshResolve(x, files, s.stored).Success?
    ensures var restarted := FreshResolve(x, files, s.stored).value.0;
            (forall p :: p in s.pendingRestart <==> p in BootDrift(boot, restarted))
            <==> (forall p :: ReloadOf(p) == Boot && RestartStack(x, files, s.stored).Get(p).None? ==>
                              FieldValue(boot, p) == FieldValue(restarted, p))
  {
    hide FromEnv, FieldValue, Capture, WithBootFields, Coherent;
    var restarted := FreshResolve(x, files, s.stored).value.0;
    forall p
      ensures (p in s.pendingRestart <==> p in BootDrift(boot, restarted))
              <==> (ReloadOf(p) == Boot && RestartStack(x, files, s.stored).Get(p).None? ==>
                      FieldValue(boot, p) == FieldValue(restarted, p))
    {
      PendingIsAnsweredDrift(x, files, boot, s, p);
    }
  }

  // ---- A removal the list does not report ---------------------------------------------------

  // Removal changes an answer at most to the running value of the field it was for.
  lemma RemovedAnswer(x: Surroundings, files: Files, boot: Config, stored: Layer, p: Param, q: Param)
    requires ReloadOf(p) == Boot && Known(p) !in files.envFile && Known(p) !in files.file
    ensures var l := RestartStack(x, files, stored);
            var m := RunningStack(x, files, boot, map[], stored - {Known(p)});
            && (m.Get(q) == l.Get(q) || m.Get(q) == Some(FieldValue(boot, q)))
            && (q != p && l.Get(q).Some? ==> m.Get(q) == l.Get(q))
  {
    hide FieldValue;
    assert q != p ==> (Known(q) in stored - {Known(p)} <==> Known(q) in stored);
  }

  // Taking `p` out of the stored layer leaves every field as it was: what no source answers any
  // more, the running configuration does.
  lemma RemovalKeepsField(x: Surroundings, files: Files, stored: Layer, p: Param, q: Param)
    requires FreshResolve(x, files, stored).Success?
    requires ReloadOf(p) == Boot && Storable(Known(p)) && Known(p) !in files.envFile && Known(p) !in files.file
    ensures var boot := FreshResolve(x, files, stored).value.0;
            Field(RunningStack(x, files, boot, map[], stored - {Known(p)}).Answers(), q)
            == Field(RestartStack(x, files, stored).Answers(), q)
  {
    hide FromEnv, FieldValue, Canonical, Capture, BootLayer;
    var l := RestartStack(x, files, stored);
    var boot := FreshResolve(x, files, stored).value.0;
    SaltIsAnswered(l.Answers());
    FieldOfConfig(l.Answers(), q);
    RemovedAnswer(x, files, boot, stored, p, ApiKeySalt);
    RemovedAnswer(x, files, boot, stored, p, q);
    CanonicalIsStable(q, l.Get(q), boot.apiKeySalt);
  }

  /**
   Removing a stored boot setting that no file sets publishes the same configuration and reports
   nothing pending, whatever a restart would make of it.
   */
  lemma RemovalIsNotReported(x: Surroundings, files: Files, stored: Layer, p: Param)
    requires FreshResolve(x, files, stored).Success?
    requires ReloadOf(p) == Boot && Storable(Known(p)) && Known(p) !in files.envFile && Known(p) !in files.file
    ensures var (boot, sources) := FreshResolve(x, files, stored).value;
            var s := State(boot, map[], sources, stored, []);
            var next := Adopted(x, Success(files), s, stored - {Known(p)});
            next.Success? && next.value.config == boot && next.value.pendingRestart == []
  {
    hide FromEnv, FieldValue, Capture, BootDrift, WithBootFields;
    var boot := FreshResolve(x, files, stored).value.0;
    var l, m := RestartStack(x, files, stored), RunningStack(x, files, boot, map[], stored - {Known(p)});
    forall q ensures Field(l.Answers(), q) == Field(m.Answers(), q) {
      RemovalKeepsField(x, files, stored, p, q);
    }
    SameFieldsResolveAlike(l.Answers(), m.Answers());
    MergeTwice(boot, boot, boot);
    NoDrift(boot);
  }

  const NO_FILES := Files(map[], map[])

  function WithSecrets(salt: string, master: string): Surroundings {
    Surroundings(map[Known(ApiKeySalt) := salt, Known(MasterApiKey) := master], map[], (filter: string) => true)
  }

  const STORED_PORT: Layer := map[Known(ServerPort) := "8080"]

  lemma StoredPortParses(salt: string)
    ensures Canonical(ServerPort, Some("8080"), salt) == Success(PrintInt(8080))
  {
    hide PrintInt;
    assert "8080"[..3] == "808" && "808"[..2] == "80" && "80"[..1] == "8";
    assert Decimal("80") == Some(80);
    assert Decimal("808") == Some(808);
  }

  lemma DefaultPortParses(salt: string)
    ensures Canonical(ServerPort, None, salt) == Success(PrintInt(3000))
  {
    hide PrintInt, Decimal;
    DefaultNumbersParse();
  }

  lemma ResolvesWithSecrets(salt: string, master: string, stored: Layer)
    requires ByteLen(salt) >= SECRET_MIN_BYTES && ByteLen(master) >= SECRET_MIN_BYTES
    requires stored == map[] || stored == STORED_PORT
    ensures var r := FreshResolve(WithSecrets(salt, master), NO_FILES, stored);
            r.Success? && r.value.0.serverPort == if stored == map[] then 3000 else 8080
  {
    hide FromEnv, Canonical, FieldValue, ByteLen;
    var l := RestartStack(WithSecrets(salt, master), NO_FILES, stored);
    var env := l.Answers();
    StoredPortParses(Salt(env));
    DefaultPortParses(Salt(env));
    SecretsRead(salt, master, Salt(env));
    forall p ensures Field(env, p).Success? {
      DefaultsAreValid(p, Salt(env));
    }
    ResolvesFieldByField(env);
    PortOf(FromEnv(env).value, if stored == map[] then 3000 else 8080);
  }

  lemma SecretsRead(api: string, master: string, salt: string)
    requires ByteLen(api) >= SECRET_MIN_BYTES && ByteLen(master) >= SECRET_MIN_BYTES
    ensures Canonical(ApiKeySalt, Some(api), salt).Success?
    ensures Canonical(MasterApiKey, Some(master), salt).Success?
  {
  }

  lemma PortOf(c: Config, port: u16)
    requires FieldValue(c, ServerPort) == PrintInt(port)
    ensures c.serverPort == port
  {
    PrintingIsInjective(c.serverPort, port);
  }

  /**
   A process started with a stored port of 8080, whose stored port is then removed, reports
   nothing pending, runs on 8080, and would come back on 3000.
   */
  lemma RemovedPortGoesUnreported(salt: string, master: string)
    requires ByteLen(salt) >= SECRET_MIN_BYTES && ByteLen(master) >= SECRET_MIN_BYTES
    ensures var x := WithSecrets(salt, master);
            && FreshResolve(x, NO_FILES, STORED_PORT).Success?
            && FreshResolve(x, NO_FILES, map[]).Success?
            && var (boot, sources) := FreshResolve(x, NO_FILES, STORED_PORT).value;
            && var next := Adopted(x, Success(NO_FILES), State(boot, map[], sources, STORED_PORT, []), map[]);
            && next.Success? && next.value.pendingRestart == []
            && next.value.config.serverPort == 8080
            && FreshResolve(x, NO_FILES, next.value.stored).value.0.serverPort == 3000
  {
    hide FromEnv, Canonical, FieldValue, Capture, BootLayer, BootDrift, ByteLen, WithBootFields;
    ResolvesWithSecrets(salt, master, STORED_PORT);
    ResolvesWithSecrets(salt, master, map[]);
    RemovalIsNotReported(WithSecrets(salt, master), NO_FILES, STORED_PORT, ServerPort);
    assert STORED_PORT - {Known(ServerPort)} == map[];
  }
}
