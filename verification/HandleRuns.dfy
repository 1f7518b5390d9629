/**
 What the handle guarantees over runs of reloads, adoptions and patches: the published
 configuration is a cache of one resolution, overrides never mask what the process was started
 with, and patches compose.
 */
module HandleRuns {
  import opened Wrappers
  import opened Params
  import opened Sources
  import opened Configuration
  import opened Resolution
  import opened HandleState
  import opened Startup

  datatype Call =
    | ReloadCall(stored: Layer)
    | AdoptCall(stored: Layer)
    | PatchCall(updates: Updates)

  function Answer(x: Surroundings, read: FileRead, s: State, call: Call): Result<State, HandleError> {
    match call
    case ReloadCall(stored) => Reloaded(x, read, s, stored)
    case AdoptCall(stored) => Adopted(x, read, s, stored)
    case PatchCall(updates) => Patched(x, read, s, updates)
  }

  // The state after one call: a failed one changes nothing.
  function After(x: Surroundings, read: FileRead, s: State, call: Call): State {
    var next := Answer(x, read, s, call);
    if next.Success? then next.value else s
  }

  function Run(x: Surroundings, read: FileRead, s: State, calls: seq<Call>): State {
    if calls == [] then s
    else After(x, read, Run(x, read, s, calls[..|calls| - 1]), calls[|calls| - 1])
  }

  // ---- The published configuration is a cache ----------------------------------------------

  // The stack every call resolves: `boot` is the configuration the process started with.
  function RunningStack(x: Surroundings, files: Files, boot: Config, overlay: Layer, stored: Layer): LayeredEnv {
    Stack(x, files, overlay, stored, BootLayer(boot))
  }

  ghost predicate SameButCarried(recorded: Provenance, captured: Provenance) {
    forall p ::
      || SourceIn(recorded, p) == SourceIn(captured, p)
      || (SourceIn(recorded, p) == Default && SourceIn(captured, p) == Carried)
  }

  ghost predicate LiveKeysOnly(layer: Layer) {
    forall n :: n in layer ==> n.Known? && ReloadOf(n.param) == Live
  }

  // `resolved` is what the handle's own layers resolve to, and everything the handle holds
  // follows from it and from the configuration at boot.
  ghost predicate CacheOf(s: State, boot: Config, l: LayeredEnv, resolved: Config) {
    && FromEnv(l.Answers()) == Success(resolved)
    && s.config == WithBootFields(boot, resolved)
    && s.pendingRestart == BootDrift(boot, resolved)
    && SameButCarried(s.sources, Capture(l))
    && LiveKeysOnly(s.overlay)
  }

  ghost predicate Coherent(x: Surroundings, files: Files, boot: Config, s: State) {
    var l := RunningStack(x, files, boot, s.overlay, s.stored);
    FromEnv(l.Answers()).Success? && CacheOf(s, boot, l, FromEnv(l.Answers()).value)
  }

  // What every state reachable from boot shares, coherent or not.
  ghost predicate Descended(boot: Config, s: State) {
    (exists resolved :: s.config == WithBootFields(boot, resolved)) && LiveKeysOnly(s.overlay)
  }

  lemma MergeTwice(boot: Config, a: Config, b: Config)
    ensures WithBootFields(WithBootFields(boot, a), b) == WithBootFields(boot, b)
    ensures WithBootFields(boot, boot) == boot
  {
  }

  lemma {:induction false} InsertedLive(overlay: Layer, updates: Updates)
    requires LiveKeysOnly(overlay) && CheckLive(updates).None?
    ensures LiveKeysOnly(Inserted(overlay, updates))
  {
    if updates != [] {
      var init := updates[..|updates| - 1];
      assert forall i :: 0 <= i < |init| ==> init[i] == updates[i];
      InsertedLive(overlay, init);
    }
  }

  // Only the boot fields of the running configuration reach a resolution.
  lemma ResolvesFromBoot(x: Surroundings, files: Files, boot: Config, s: State, overlay: Layer, stored: Layer)
    requires Descended(boot, s)
    ensures var l := RunningStack(x, files, boot, overlay, stored);
            ResolveWithCarry(x, Success(files), s.config, overlay, stored)
            == match FromEnv(l.Answers())
               case Success(config) => Success((config, Capture(l)))
               case Failure(e) => Failure(Unresolvable(e))
    ensures forall resolved :: WithBootFields(s.config, resolved) == WithBootFields(boot, resolved)
    ensures forall resolved :: BootDrift(s.config, resolved) == BootDrift(boot, resolved)
  {
    hide FromEnv, BootDrift, Capture;
    var earlier :| s.config == WithBootFields(boot, earlier);
    MergeKeepsBoot(boot, earlier);
    forall resolved
      ensures WithBootFields(s.config, resolved) == WithBootFields(boot, resolved)
    {
      MergeTwice(boot, earlier, resolved);
    }
  }

  // Stacks that answer alike for the boot fields resolve to the same boot fields.
  lemma SameBootField(l: LayeredEnv, m: LayeredEnv, p: Param)
    requires FromEnv(l.Answers()).Success? && FromEnv(m.Answers()).Success?
    requires l.Get(p) == m.Get(p) && l.Get(ApiKeySalt) == m.Get(ApiKeySalt)
    ensures FieldValue(FromEnv(l.Answers()).value, p) == FieldValue(FromEnv(m.Answers()).value, p)
  {
    hide FromEnv, FieldValue, Canonical;
    FieldOfConfig(l.Answers(), p);
    FieldOfConfig(m.Answers(), p);
  }

  // Live keys on top of a stack do not reach the boot fields it resolves to.
  lemma OverlayKeepsDrift(x: Surroundings, files: Files, boot: Config, stored: Layer, a: Layer, b: Layer)
    requires LiveKeysOnly(a) && LiveKeysOnly(b)
    requires FromEnv(RunningStack(x, files, boot, a, stored).Answers()).Success?
    requires FromEnv(RunningStack(x, files, boot, b, stored).Answers()).Success?
    ensures BootDrift(boot, FromEnv(RunningStack(x, files, boot, a, stored).Answers()).value)
            == BootDrift(boot, FromEnv(RunningStack(x, files, boot, b, stored).Answers()).value)
  {
    hide FromEnv, FieldValue, BootLayer;
    var l, m := RunningStack(x, files, boot, a, stored), RunningStack(x, files, boot, b, stored);
    var ra, rb := FromEnv(l.Answers()).value, FromEnv(m.Answers()).value;
    forall p | ReloadOf(p) == Boot
      ensures FieldValue(ra, p) == FieldValue(rb, p)
    {
      SameBootField(l, m, p);
    }
    DriftSeesBootOnly(PARAMS, boot, boot, ra, rb);
  }

  /**
   One call, with the files readable: a success makes the state a cache of resolving its layers
   over the boot configuration, and records exactly which layer answered for each field.
   */
  lemma SuccessIsCoherent(x: Surroundings, files: Files, boot: Config, s: State, call: Call)
    requires Descended(boot, s)
    requires call.PatchCall? ==> Coherent(x, files, boot, s)
    requires Answer(x, Success(files), s, call).Success?
    ensures var s' := Answer(x, Success(files), s, call).value;
            && Coherent(x, files, boot, s') && Descended(boot, s')
            && s'.sources == Capture(RunningStack(x, files, boot, s'.overlay, s'.stored))
  {
    hide FromEnv, BootDrift, Capture, WithBootFields;
    var s' := Answer(x, Success(files), s, call).value;
    match call {
      case ReloadCall(stored) =>
        ResolvesFromBoot(x, files, boot, s, map[], stored);
      case AdoptCall(stored) =>
        ResolvesFromBoot(x, files, boot, s, s.overlay, stored);
      case PatchCall(updates) =>
        InsertedLive(s.overlay, updates);
        ResolvesFromBoot(x, files, boot, s, s'.overlay, s.stored);
        OverlayKeepsDrift(x, files, boot, s.stored, s.overlay, s'.overlay);
    }
    assert s'.config == WithBootFields(
      boot, FromEnv(RunningStack(x, files, boot, s'.overlay, s'.stored).Answers()).value);
  }

  lemma CoherentDescends(x: Surroundings, files: Files, boot: Config, s: State)
    requires Coherent(x, files, boot, s)
    ensures Descended(boot, s)
  {
  }

  /**
   With the command line, the environment and the files fixed, every state reached by reloads,
   adoptions and patches is a cache of one resolution: boot fields from the start of the process,
   live fields from the layers, pending restarts and provenance from that same resolve.
   */
  lemma {:induction false} PublishedIsACache(x: Surroundings, files: Files, boot: Config, s: State, calls: seq<Call>)
    requires Coherent(x, files, boot, s)
    ensures Coherent(x, files, boot, Run(x, Success(files), s, calls))
  {
    hide Coherent, Answer;
    if calls != [] {
      var init := calls[..|calls| - 1];
      PublishedIsACache(x, files, boot, s, init);
      var t := Run(x, Success(files), s, init);
      CoherentDescends(x, files, boot, t);
      if Answer(x, Success(files), t, calls[|calls| - 1]).Success? {
        SuccessIsCoherent(x, files, boot, t, calls[|calls| - 1]);
      }
    }
  }

  // ---- Startup ----------------------------------------------------------------------------

  // Resolving with a stored layer and nothing carried, as both startup passes do.
  function FreshResolve(x: Surroundings, files: Files, stored: Layer): Result<(Config, Provenance), ConfigError> {
    var l := Stack(x, files, map[], stored, map[]);
    match FromEnv(l.Answers())
    case Success(config) => Success((config, Capture(l)))
    case Failure(e) => Failure(e)
  }

  function StartedWith(x: Surroundings, files: Files, first: (Config, Provenance), stored: Layer,
                       generation: Option<int>): State
  {
    var booted := ApplyStored(first, layer => FreshResolve(x, files, layer), stored, generation);
    State(booted.config.0, map[], booted.config.1, stored, [])
  }

  // What of a layer a start applies: all of it, or nothing when it does not resolve.
  function Applied(x: Surroundings, files: Files, layer: Layer): Layer {
    if FreshResolve(x, files, layer).Success? then layer else map[]
  }

  lemma StartsFromApplied(x: Surroundings, files: Files, stored: Layer, generation: Option<int>)
    requires FreshResolve(x, files, map[]).Success?
    ensures FreshResolve(x, files, Applied(x, files, stored)).Success?
    ensures var s := StartedWith(x, files, FreshResolve(x, files, map[]).value, stored, generation);
            (s.config, s.sources) == FreshResolve(x, files, Applied(x, files, stored)).value
  {
    hide FreshResolve;
  }

  /** A handle built from a configuration that resolved with its stored layer starts coherent. */
  lemma FreshIsCoherent(x: Surroundings, files: Files, stored: Layer)
    requires FreshResolve(x, files, stored).Success?
    ensures var (boot, sources) := FreshResolve(x, files, stored).value;
            Coherent(x, files, boot, State(boot, map[], sources, stored, []))
  {
    hide FromEnv, FieldValue, Capture, BootLayer, BootDrift, WithBootFields, SameButCarried;
    var (boot, sources) := FreshResolve(x, files, stored).value;
    var l := Stack(x, files, map[], stored, map[]);
    CarryingIsFixpoint(l, boot);
    assert RunningStack(x, files, boot, map[], stored) == Carrying(l, boot);
    SameSourcesWhenCarrying(l, boot);
    MergeTwice(boot, boot, boot);
    NoDrift(boot);
  }

  lemma SameSourcesWhenCarrying(l: LayeredEnv, c: Config)
    requires l.carried == map[]
    ensures SameButCarried(Capture(l), Capture(Carrying(l, c)))
  {
    hide BootLayer;
    forall p
      ensures l.SourceOf(p) == Carrying(l, c).SourceOf(p)
              || (l.SourceOf(p) == Default && Carrying(l, c).SourceOf(p) == Carried)
    {
    }
  }

  lemma NoDrift(c: Config)
    ensures BootDrift(c, c) == []
  {
    NoDriftOver(PARAMS, c);
  }

  lemma {:induction false} NoDriftOver(ps: seq<Param>, c: Config)
    ensures DriftOver(ps, c, c) == []
  {
    if ps != [] {
      NoDriftOver(ps[1..], c);
    }
  }

  // A stack that fails with nothing carried still fails with a configuration's boot values
  // underneath and overrides of other fields on top, unless what was missing was one of the two
  // required secrets.
  lemma CarryingDoesNotRepair(x: Surroundings, files: Files, overlay: Layer, stored: Layer, boot: Config)
    requires FreshResolve(x, files, stored).Failure?
    requires forall p :: FreshResolve(x, files, stored) != Failure(Missing(p))
    requires Known(FreshResolve(x, files, stored).error.param) !in overlay
    ensures FromEnv(RunningStack(x, files, boot, overlay, stored).Answers()).Failure?
  {
    hide FromEnv, FieldValue;
    var l := Stack(x, files, map[], stored, map[]);
    var e := FreshResolve(x, files, stored).error;
    ResolvesFieldByField(l.Answers());
    var m := RunningStack(x, files, boot, overlay, stored);
    ResolvesFieldByField(m.Answers());
    FailsOnAnAnswer(e.param, l.Get(e.param), Salt(l.Answers()), Salt(m.Answers()));
    assert l.Get(e.param).Some? ==> m.Get(e.param) == l.Get(e.param);
    assert Field(m.Answers(), e.param).Failure?;
  }

  lemma FailsOnAnAnswer(p: Param, a: Option<string>, salt: string, other: string)
    requires Canonical(p, a, salt).Failure? && Canonical(p, a, salt) != Failure(Missing(p))
    ensures a.Some? && Canonical(p, a, other).Failure?
  {
    if a.None? {
      DefaultsAreValid(p, salt);
    }
  }

  /**
   Startup: the handle is coherent exactly when the stored layer made it into the configuration.
   */
  lemma StartsCoherentIffApplied(x: Surroundings, files: Files, stored: Layer, generation: Option<int>)
    requires FreshResolve(x, files, map[]).Success?
    requires forall n :: n in stored ==> Storable(n)
    ensures var first := FreshResolve(x, files, map[]).value;
            var s := StartedWith(x, files, first, stored, generation);
            var booted := ApplyStored(first, layer => FreshResolve(x, files, layer), stored, generation);
            Coherent(x, files, s.config, s) <==> booted.applied
  {
    hide FromEnv, FieldValue, Capture, BootLayer, BootDrift, WithBootFields, SameButCarried;
    var first := FreshResolve(x, files, map[]).value;
    if FreshResolve(x, files, stored).Success? {
      FreshIsCoherent(x, files, stored);
    } else {
      SecretsStay(x, files, stored);
      CarryingDoesNotRepair(x, files, map[], stored, first.0);
    }
  }

  /**
   A layer that did not resolve at startup is remembered all the same: with the files as they were,
   reloading it fails, and a patch succeeds only if it overrides the very field that failed.
   */
  lemma SkippedLayerBlocks(x: Surroundings, files: Files, stored: Layer, generation: Option<int>, updates: Updates)
    requires FreshResolve(x, files, map[]).Success? && FreshResolve(x, files, stored).Failure?
    requires forall n :: n in stored ==> Storable(n)
    ensures var s := StartedWith(x, files, FreshResolve(x, files, map[]).value, stored, generation);
            var failed := Known(FreshResolve(x, files, stored).error.param);
            && Reloaded(x, Success(files), s, stored).Failure?
            && (Patched(x, Success(files), s, updates).Success? ==> failed in Inserted(map[], updates))
  {
    hide FromEnv, FieldValue, Capture, BootLayer, BootDrift, WithBootFields, CheckPatch;
    var first := FreshResolve(x, files, map[]).value;
    SecretsStay(x, files, stored);
    CarryingDoesNotRepair(x, files, map[], stored, first.0);
    if Known(FreshResolve(x, files, stored).error.param) !in Inserted(map[], updates) {
      CarryingDoesNotRepair(x, files, Inserted(map[], updates), stored, first.0);
    }
  }

  // Stored layers never hold a secret, so adding one leaves no secret missing.
  lemma SecretsStay(x: Surroundings, files: Files, stored: Layer)
    requires FreshResolve(x, files, map[]).Success?
    requires forall n :: n in stored ==> Storable(n)
    ensures forall p :: FreshResolve(x, files, stored) != Failure(Missing(p))
  {
    hide FromEnv, FieldValue, Canonical;
    var l, m := Stack(x, files, map[], map[], map[]), Stack(x, files, map[], stored, map[]);
    forall p
      ensures FreshResolve(x, files, stored) != Failure(Missing(p))
    {
      if FreshResolve(x, files, stored) == Failure(Missing(p)) {
        ErrorNamesField(m.Answers());
        OnlySecretsAreMissing(p, m.Get(p), Salt(m.Answers()));
        assert l.Get(p) == m.Get(p);
        FieldOfConfig(l.Answers(), p);
        OnlySecretsAreMissing(p, l.Get(p), Salt(l.Answers()));
      }
    }
  }

  lemma OnlySecretsAreMissing(p: Param, a: Option<string>, salt: string)
    ensures Canonical(p, a, salt) == Failure(Missing(p)) <==>
            a.None? && (p == ApiKeySalt || p == MasterApiKey)
  {
  }

  /** With no overrides, reloading unchanged sources publishes what was published and what was pending. */
  lemma UnchangedReload(x: Surroundings, files: Files, boot: Config, s: State)
    requires Coherent(x, files, boot, s) && s.overlay == map[]
    ensures var next := Reloaded(x, Success(files), s, s.stored);
            next.Success? && next.value.config == s.config && next.value.pendingRestart == s.pendingRestart
  {
    hide FromEnv, BootDrift, WithBootFields, Capture, SameButCarried;
    CoherentDescends(x, files, boot, s);
    ResolvesFromBoot(x, files, boot, s, map[], s.stored);
  }

  /** In particular a process that reloads what it started from keeps its configuration, with no drift. */
  lemma ReloadAfterStart(x: Surroundings, files: Files, stored: Layer)
    requires FreshResolve(x, files, stored).Success?
    ensures var (boot, sources) := FreshResolve(x, files, stored).value;
            var next := Reloaded(x, Success(files), State(boot, map[], sources, stored, []), stored);
            next.Success? && next.value.config == boot && next.value.pendingRestart == []
  {
    hide FromEnv, Coherent, Capture, Reloaded;
    FreshIsCoherent(x, files, stored);
    var (boot, sources) := FreshResolve(x, files, stored).value;
    UnchangedReload(x, files, boot, State(boot, map[], sources, stored, []));
  }

  // ---- Overrides never mask what the process was started with ------------------------------

  // Every overlay key is a live parameter set neither on the command line nor in the
  // environment, and the provenance pins exactly what those two layers set.
  ghost predicate Unmasked(x: Surroundings, s: State) {
    && LiveKeysOnly(s.overlay)
    && (forall n :: n in s.overlay ==> n !in x.cli && n !in x.env)
    && (forall p :: SourceIn(s.sources, p).IsPinned() <==> Known(p) in x.cli || Known(p) in x.env)
  }

  lemma CapturePins(x: Surroundings, files: Files, overlay: Layer, stored: Layer, carried: Layer, p: Param)
    requires forall n :: n in overlay ==> n !in x.cli && n !in x.env
    ensures SourceIn(Capture(Stack(x, files, overlay, stored, carried)), p).IsPinned() <==>
            Known(p) in x.cli || Known(p) in x.env
  {
  }

  lemma {:induction false} InsertedKeys(overlay: Layer, updates: Updates, n: Name)
    ensures n in Inserted(overlay, updates) <==>
            n in overlay || exists i :: 0 <= i < |updates| && updates[i].0 == n
  {
    if updates != [] {
      var init := updates[..|updates| - 1];
      InsertedKeys(overlay, init, n);
      assert forall i :: 0 <= i < |init| ==> init[i] == updates[i];
    }
  }

  lemma PatchUnmasked(x: Surroundings, s: State, updates: Updates)
    requires Unmasked(x, s) && CheckPatch(x, s.sources, updates).None?
    ensures var overlay := Inserted(s.overlay, updates);
            LiveKeysOnly(overlay) && forall n :: n in overlay ==> n !in x.cli && n !in x.env
  {
    InsertedLive(s.overlay, updates);
    forall n | n in Inserted(s.overlay, updates)
      ensures n !in x.cli && n !in x.env
    {
      InsertedKeys(s.overlay, updates, n);
      if n !in s.overlay {
        var i :| 0 <= i < |updates| && updates[i].0 == n;
        assert !SourceIn(s.sources, n.param).IsPinned();
      }
    }
  }

  /** Each call keeps overrides off pinned values, whatever the files hold at the time. */
  lemma CallKeepsUnmasked(x: Surroundings, read: FileRead, s: State, call: Call)
    requires Unmasked(x, s)
    ensures Unmasked(x, After(x, read, s, call))
  {
    hide FromEnv, BootDrift, WithBootFields, Capture, BootLayer;
    var s' := After(x, read, s, call);
    if Answer(x, read, s, call).Success? {
      if call.PatchCall? {
        PatchUnmasked(x, s, call.updates);
      }
      forall p
        ensures SourceIn(s'.sources, p).IsPinned() <==> Known(p) in x.cli || Known(p) in x.env
      {
        CapturePins(x, read.value, s'.overlay, s'.stored, BootLayer(s.config), p);
      }
    }
  }

  // Calls with the files as each of them finds them.
  function RunOver(x: Surroundings, s: State, calls: seq<(FileRead, Call)>): State {
    if calls == [] then s
    else
      var last := calls[|calls| - 1];
      After(x, last.0, RunOver(x, s, calls[..|calls| - 1]), last.1)
  }

  /**
   In every state a handle reaches from any start, through any calls and any changes to the files,
   no override masks a value from the command line or the environment.
   */
  lemma {:induction false} OverridesNeverMask(x: Surroundings, files: Files, stored: Layer, generation: Option<int>,
                                              calls: seq<(FileRead, Call)>)
    requires FreshResolve(x, files, map[]).Success?
    ensures var start := StartedWith(x, files, FreshResolve(x, files, map[]).value, stored, generation);
            Unmasked(x, RunOver(x, start, calls))
  {
    hide FromEnv, After, StartedWith;
    var start := StartedWith(x, files, FreshResolve(x, files, map[]).value, stored, generation);
    if calls == [] {
      StartsBare(x, files, stored, generation);
      StartsFromApplied(x, files, stored, generation);
      forall p
        ensures SourceIn(start.sources, p).IsPinned() <==> Known(p) in x.cli || Known(p) in x.env
      {
        CapturePins(x, files, map[], Applied(x, files, stored), map[], p);
      }
    } else {
      var init, last := calls[..|calls| - 1], calls[|calls| - 1];
      OverridesNeverMask(x, files, stored, generation, init);
      CallKeepsUnmasked(x, last.0, RunOver(x, start, init), last.1);
    }
  }

  lemma StartsBare(x: Surroundings, files: Files, stored: Layer, generation: Option<int>)
    requires FreshResolve(x, files, map[]).Success?
    ensures var s := StartedWith(x, files, FreshResolve(x, files, map[]).value, stored, generation);
            s.overlay == map[] && s.pendingRestart == [] && s.stored == stored && Descended(s.config, s)
  {
    hide FreshResolve, WithBootFields;
    var s := StartedWith(x, files, FreshResolve(x, files, map[]).value, stored, generation);
    MergeTwice(s.config, s.config, s.config);
  }

  /** The boot fields of the published configuration never move, whatever the calls and files. */
  lemma {:induction false} BootFieldsNeverMove(x: Surroundings, s: State, calls: seq<(FileRead, Call)>, p: Param)
    requires ReloadOf(p) == Boot
    ensures FieldValue(RunOver(x, s, calls).config, p) == FieldValue(s.config, p)
  {
    hide FieldValue, FromEnv, WithBootFields;
    if calls != [] {
      BootFieldsNeverMove(x, s, calls[..|calls| - 1], p);
      var t, last := RunOver(x, s, calls[..|calls| - 1]), calls[|calls| - 1];
      var next := Answer(x, last.0, t, last.1);
      if next.Success? {
        var resolved := ResolvedBy(x, last.0, t, last.1);
        MergeFollowsTheTable(t.config, resolved, p);
      }
    }
  }

  lemma ResolvedBy(x: Surroundings, read: FileRead, s: State, call: Call) returns (resolved: Config)
    requires Answer(x, read, s, call).Success?
    ensures Answer(x, read, s, call).value.config == WithBootFields(s.config, resolved)
  {
    hide FromEnv, WithBootFields, BootDrift, Capture;
    var overlay := match call
      case ReloadCall(_) => map[]
      case AdoptCall(_) => s.overlay
      case PatchCall(updates) => Inserted(s.overlay, updates);
    var stored := if call.PatchCall? then s.stored else call.stored;
    resolved := ResolveWithCarry(x, read, s.config, overlay, stored).value.0;
  }

  lemma CallDescends(x: Surroundings, read: FileRead, boot: Config, s: State, call: Call)
    requires Descended(boot, s)
    ensures Descended(boot, After(x, read, s, call))
  {
    hide ResolveWithCarry, WithBootFields, BootDrift, CheckPinned, CheckFilters;
    if Answer(x, read, s, call).Success? {
      var earlier :| s.config == WithBootFields(boot, earlier);
      var resolved := ResolvedBy(x, read, s, call);
      MergeTwice(boot, earlier, resolved);
      if call.PatchCall? {
        InsertedLive(s.overlay, call.updates);
      }
    }
  }

  // ---- Patches compose --------------------------------------------------------------------

  lemma {:induction false} InsertedTwice(overlay: Layer, a: Updates, b: Updates)
    ensures Inserted(Inserted(overlay, a), b) == Inserted(overlay, a + b)
  {
    if b == [] {
      assert a + b == a;
    } else {
      InsertedTwice(overlay, a, b[..|b| - 1]);
      assert (a + b)[..|a + b| - 1] == a + b[..|b| - 1];
    }
  }

  lemma ChecksCompose(x: Surroundings, s: State, sources: Provenance, a: Updates, b: Updates)
    requires CheckPatch(x, s.sources, a).None? && CheckPatch(x, sources, b).None?
    requires forall p :: SourceIn(s.sources, p).IsPinned() <==> SourceIn(sources, p).IsPinned()
    ensures CheckPatch(x, s.sources, a + b).None?
  {
    var c := a + b;
    forall i | 0 <= i < |c|
      ensures c[i].0.Known? && ReloadOf(c[i].0.param) == Live
      ensures !SourceIn(s.sources, c[i].0.param).IsPinned()
      ensures c[i].0 == Known(LogLevel) ==> x.filterParses(c[i].1)
    {
      assert c[i] == if i < |a| then a[i] else b[i - |a|];
    }
  }

  // A resolution sees the running configuration only through its boot fields.
  lemma ResolveAfterMerge(x: Surroundings, read: FileRead, c: Config, resolved: Config, overlay: Layer, stored: Layer)
    ensures ResolveWithCarry(x, read, WithBootFields(c, resolved), overlay, stored)
            == ResolveWithCarry(x, read, c, overlay, stored)
  {
    hide FromEnv, Capture;
    MergeKeepsBoot(c, resolved);
  }

  /** Two successful patches in a row are one patch with the merged updates. */
  lemma PatchesCompose(x: Surroundings, read: FileRead, s: State, a: Updates, b: Updates)
    requires Unmasked(x, s)
    requires Patched(x, read, s, a).Success?
    requires Patched(x, read, Patched(x, read, s, a).value, b).Success?
    ensures Patched(x, read, s, a + b) == Patched(x, read, Patched(x, read, s, a).value, b)
  {
    hide FromEnv, WithBootFields, Capture;
    var t := Patched(x, read, s, a).value;
    CallKeepsUnmasked(x, read, s, PatchCall(a));
    assert Unmasked(x, t);
    ChecksCompose(x, s, t.sources, a, b);
    InsertedTwice(s.overlay, a, b);
    var resolved := ResolveWithCarry(x, read, s.config, t.overlay, s.stored).value.0;
    ResolveAfterMerge(x, read, s.config, resolved, Inserted(t.overlay, b), s.stored);
    MergeTwice(s.config, resolved, ResolveWithCarry(x, read, s.config, Inserted(t.overlay, b), s.stored).value.0);
  }

  /**
   A reload forgets: after any calls at all, reloading gives the very state that reloading at the
   start would have given, and fails exactly when that would have failed.
   */
  lemma {:induction false} ReloadForgets(x: Surroundings, s: State, calls: seq<(FileRead, Call)>,
                                         read: FileRead, stored: Layer)
    ensures Reloaded(x, read, RunOver(x, s, calls), stored) == Reloaded(x, read, s, stored)
  {
    if calls != [] {
      var init, last := calls[..|calls| - 1], calls[|calls| - 1];
      ReloadForgets(x, s, init, read, stored);
      CallForgotten(x, RunOver(x, s, init), last.0, last.1, read, stored);
    }
  }

  lemma CallForgotten(x: Surroundings, s: State, read: FileRead, call: Call, later: FileRead, stored: Layer)
    ensures Reloaded(x, later, After(x, read, s, call), stored) == Reloaded(x, later, s, stored)
  {
    hide FromEnv, WithBootFields, BootDrift, Capture, Answer;
    if Answer(x, read, s, call).Success? {
      var resolved := ResolvedBy(x, read, s, call);
      ResolveAfterMerge(x, later, s.config, resolved, map[], stored);
      MergeKeepsBoot(s.config, resolved);
      var again := ResolveWithCarry(x, later, s.config, map[], stored);
      if again.Success? {
        MergeTwice(s.config, resolved, again.value.0);
      }
    }
  }
}
