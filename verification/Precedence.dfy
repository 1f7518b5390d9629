/**
 Which source a setting comes from, written out source by source: a runtime override, the command
 line, the environment, the store, the environment file, the configuration file. Startup and every
 call on the handle follow it, in what they publish and in what they report.
 */
module Precedence {
  import opened Wrappers
  import opened Params
  import opened Sources
  import opened Configuration
  import opened Resolution
  import opened HandleState
  import opened HandleRuns
  import opened PendingRestart
  import opened ConfigTables
  import opened Text

  // The text given for a field, and the source it is from: the first that gives one.
  function Given(x: Surroundings, files: Files, overlay: Layer, stored: Layer, p: Param): (Option<string>, Source) {
    var key := Known(p);
    if key in overlay then (Some(overlay[key]), Admin)
    else if key in x.cli then (Some(x.cli[key]), Cli)
    else if key in x.env then (Some(x.env[key]), Env)
    else if key in stored then (Some(stored[key]), Stored)
    else if key in files.envFile then (Some(files.envFile[key]), EnvFile)
    else if key in files.file then (Some(files.file[key]), File)
    else (None, Default)
  }

  lemma StackGives(x: Surroundings, files: Files, overlay: Layer, stored: Layer, carried: Layer, p: Param)
    ensures var l := Stack(x, files, overlay, stored, carried);
            var (text, source) := Given(x, files, overlay, stored, p);
            && l.Get(p) == (if text.Some? then text else if Known(p) in carried then Some(carried[Known(p)]) else None)
            && l.SourceOf(p) == (if text.None? && Known(p) in carried then Carried else source)
  {
  }

  /** A start takes each field from the first source that gives it, and records that source. */
  lemma StartFollowsPrecedence(x: Surroundings, files: Files, stored: Layer, p: Param)
    requires FreshResolve(x, files, stored).Success?
    ensures var (config, sources) := FreshResolve(x, files, stored).value;
            var (text, source) := Given(x, files, map[], stored, p);
            && Canonical(p, text, config.apiKeySalt) == Success(FieldValue(config, p))
            && SourceIn(sources, p) == source
  {
    hide FromEnv, FieldValue, Canonical, Given, LayeredEnv.Get, LayeredEnv.SourceOf;
    var l := RestartStack(x, files, stored);
    StackGives(x, files, map[], stored, map[], p);
    FieldOfConfig(l.Answers(), p);
    SaltIsAnswered(l.Answers());
    assert l.Get(p) == Given(x, files, map[], stored, p).0;
    assert FreshResolve(x, files, stored).value == (FromEnv(l.Answers()).value, Capture(l));
  }

  // The overrides and the stored layer a call leaves when it succeeds.
  function LayersAfter(s: State, call: Call): (Layer, Layer) {
    match call
    case ReloadCall(stored) => (map[], stored)
    case AdoptCall(stored) => (s.overlay, stored)
    case PatchCall(updates) => (Inserted(s.overlay, updates), s.stored)
  }

  lemma LiveFieldIgnoresSalt(p: Param, a: Option<string>, salt: string, other: string)
    requires ReloadOf(p) == Live
    ensures Canonical(p, a, salt) == Canonical(p, a, other)
  {
  }

  lemma CallResolves(x: Surroundings, files: Files, s: State, call: Call)
    requires Answer(x, Success(files), s, call).Success?
    ensures var (overlay, stored) := LayersAfter(s, call);
            var l := Stack(x, files, overlay, stored, BootLayer(s.config));
            var s' := Answer(x, Success(files), s, call).value;
            && FromEnv(l.Answers()).Success?
            && s'.overlay == overlay && s'.stored == stored && s'.sources == Capture(l)
            && s'.config == WithBootFields(s.config, FromEnv(l.Answers()).value)
            && s'.pendingRestart == (if call.PatchCall? then s.pendingRestart
                                     else BootDrift(s.config, FromEnv(l.Answers()).value))
  {
    hide FromEnv, WithBootFields, BootDrift, Capture, BootLayer, CheckPatch;
  }

  /**
   A call that succeeds takes each live field from the first source that gives it, leaves every boot
   field, lists a boot field exactly when its source gives another value (a patch leaves the list),
   and records for every field the source it found.
   */
  lemma CallFollowsPrecedence(x: Surroundings, files: Files, s: State, call: Call, p: Param)
    requires Answer(x, Success(files), s, call).Success?
    ensures var s' := Answer(x, Success(files), s, call).value;
            var (overlay, stored) := LayersAfter(s, call);
            var (text, source) := Given(x, files, overlay, stored, p);
            && s'.overlay == overlay && s'.stored == stored
            && SourceIn(s'.sources, p) == (if text.None? && ReloadOf(p) == Boot then Carried else source)
            && (ReloadOf(p) == Live ==> Canonical(p, text, "") == Success(FieldValue(s'.config, p)))
            && (ReloadOf(p) == Boot ==> FieldValue(s'.config, p) == FieldValue(s.config, p))
            && (p in s'.pendingRestart <==>
                if call.PatchCall? then p in s.pendingRestart
                else ReloadOf(p) == Boot && text.Some?
                     && Canonical(p, text, "") != Success(FieldValue(s.config, p)))
  {
    hide FromEnv, FieldValue, Canonical, Stack, Given, LayeredEnv.Get, LayeredEnv.SourceOf, Answer, LayersAfter;
    hide WithBootFields, ReloadOf, BootDrift, Capture, BootLayer;
    CallResolves(x, files, s, call);
    var (overlay, stored) := LayersAfter(s, call);
    var l := Stack(x, files, overlay, stored, BootLayer(s.config));
    RecordsGiven(x, files, overlay, stored, s.config, p);
    ResolvesGiven(x, files, overlay, stored, s.config, p);
    MergeFollowsTheTable(s.config, FromEnv(l.Answers()).value, p);
    DriftedIff(s.config, FromEnv(l.Answers()).value, p);
  }

  lemma DriftedIff(running: Config, resolved: Config, p: Param)
    ensures p in BootDrift(running, resolved) <==>
            ReloadOf(p) == Boot && FieldValue(running, p) != FieldValue(resolved, p)
  {
    hide FieldValue;
  }

  lemma RecordsGiven(x: Surroundings, files: Files, overlay: Layer, stored: Layer, running: Config, p: Param)
    ensures var (text, source) := Given(x, files, overlay, stored, p);
            SourceIn(Capture(Stack(x, files, overlay, stored, BootLayer(running))), p)
            == if text.None? && ReloadOf(p) == Boot then Carried else source
  {
    hide FieldValue, Given, Stack, LayeredEnv.SourceOf;
    StackGives(x, files, overlay, stored, BootLayer(running), p);
  }

  // With the running boot values underneath, a field resolves to the text given for it; a boot field
  // given none resolves to what it runs with.
  lemma ResolvesGiven(x: Surroundings, files: Files, overlay: Layer, stored: Layer, running: Config, p: Param)
    requires FromEnv(Stack(x, files, overlay, stored, BootLayer(running)).Answers()).Success?
    ensures var text := Given(x, files, overlay, stored, p).0;
            var resolved := FromEnv(Stack(x, files, overlay, stored, BootLayer(running)).Answers()).value;
            if text.Some? || ReloadOf(p) == Live
            then Canonical(p, text, "") == Success(FieldValue(resolved, p))
            else FieldValue(resolved, p) == FieldValue(running, p)
  {
    hide FromEnv, FieldValue, Canonical, Given, Stack, LayeredEnv.Get;
    var l := Stack(x, files, overlay, stored, BootLayer(running));
    StackGives(x, files, overlay, stored, BootLayer(running), p);
    FieldOfConfig(l.Answers(), p);
    if ReloadOf(p) == Live {
      LiveFieldIgnoresSalt(p, l.Get(p), Salt(l.Answers()), "");
    } else if Given(x, files, overlay, stored, p).0.Some? {
      AnsweredFieldIgnoresSalt(p, l.Get(p), Salt(l.Answers()), "");
    } else {
      PrintedReadsBack(running, p, Salt(l.Answers()));
    }
  }

  /**
   What the first pass read to reach the store stands in the second: where the store is, what is
   exported about it, and every secret are the same whatever the settings table holds.
   */
  lemma FirstPassStands(x: Surroundings, files: Files, table: Settings)
    requires FreshResolve(x, files, map[]).Success?
    requires FreshResolve(x, files, Honoured(table)).Success?
    ensures var first := FreshResolve(x, files, map[]).value.0;
            var second := FreshResolve(x, files, Honoured(table)).value.0;
            && second.databaseUrl == first.databaseUrl
            && second.databaseMaxConnections == first.databaseMaxConnections
            && second.apiKeySalt == first.apiKeySalt && second.masterApiKey == first.masterApiKey
            && second.solutionHashSecret == first.solutionHashSecret
            && second.imageEncryptionSecret == first.imageEncryptionSecret
            && second.otelEnabled == first.otelEnabled && second.otelEndpoint == first.otelEndpoint
            && second.otelServiceName == first.otelServiceName
  {
    hide FieldValue, PersistOf, FreshResolve;
    var first, second := FreshResolve(x, files, map[]).value.0, FreshResolve(x, files, Honoured(table)).value.0;
    forall p | PersistOf(p) == Never ensures FieldValue(first, p) == FieldValue(second, p) {
      NeverStoredStands(x, files, table, p);
    }
    NeverStoredAre(first, second);
  }

  lemma NeverStoredStands(x: Surroundings, files: Files, table: Settings, p: Param)
    requires FreshResolve(x, files, map[]).Success? && FreshResolve(x, files, Honoured(table)).Success?
    requires PersistOf(p) == Never
    ensures FieldValue(FreshResolve(x, files, map[]).value.0, p)
            == FieldValue(FreshResolve(x, files, Honoured(table)).value.0, p)
  {
    hide FreshResolve, FieldValue, Canonical;
    StartFollowsPrecedence(x, files, map[], p);
    StartFollowsPrecedence(x, files, map[], ApiKeySalt);
    StartFollowsPrecedence(x, files, Honoured(table), p);
    StartFollowsPrecedence(x, files, Honoured(table), ApiKeySalt);
    SaltPrints(FreshResolve(x, files, map[]).value.0);
    SaltPrints(FreshResolve(x, files, Honoured(table)).value.0);
    SaltIgnoresSalt(Given(x, files, map[], map[], ApiKeySalt).0,
                    FreshResolve(x, files, map[]).value.0.apiKeySalt,
                    FreshResolve(x, files, Honoured(table)).value.0.apiKeySalt);
  }

  lemma SaltIgnoresSalt(a: Option<string>, salt: string, other: string)
    ensures Canonical(ApiKeySalt, a, salt) == Canonical(ApiKeySalt, a, other)
  {
  }

  lemma SaltPrints(c: Config)
    ensures FieldValue(c, ApiKeySalt) == c.apiKeySalt
  {
  }

  lemma NeverStoredAre(a: Config, b: Config)
    requires forall p :: PersistOf(p) == Never ==> FieldValue(a, p) == FieldValue(b, p)
    ensures a.databaseUrl == b.databaseUrl && a.databaseMaxConnections == b.databaseMaxConnections
    ensures a.apiKeySalt == b.apiKeySalt && a.masterApiKey == b.masterApiKey
    ensures a.solutionHashSecret == b.solutionHashSecret && a.imageEncryptionSecret == b.imageEncryptionSecret
    ensures a.otelEnabled == b.otelEnabled && a.otelEndpoint == b.otelEndpoint
    ensures a.otelServiceName == b.otelServiceName
  {
    hide PrintInt, PrintBool, ParseBoolStrict, ParseBoolLenient;
    NumberDetermines(a, b, DatabaseMaxConnections, a.databaseMaxConnections, b.databaseMaxConnections);
    FlagDetermines(a, b, OtelEnabled, a.otelEnabled, b.otelEnabled);
    assert FieldValue(a, DatabaseUrl) == FieldValue(b, DatabaseUrl);
    assert FieldValue(a, ApiKeySalt) == FieldValue(b, ApiKeySalt);
    assert FieldValue(a, MasterApiKey) == FieldValue(b, MasterApiKey);
    assert FieldValue(a, SolutionHashSecret) == FieldValue(b, SolutionHashSecret);
    assert FieldValue(a, ImageEncryptionSecret) == FieldValue(b, ImageEncryptionSecret);
    assert FieldValue(a, OtelEndpoint) == FieldValue(b, OtelEndpoint);
    assert FieldValue(a, OtelServiceName) == FieldValue(b, OtelServiceName);
  }
}
