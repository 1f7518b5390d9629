/**
 What the next start makes of a server: it reads the files and the command line, secret files
 included, again, prepares the store, which may undo a generation still on trial, reads the layer that
 leaves, and applies it if it resolves. And what the pending-restart list says about that. Throughout,
 `x` and `files` are what the running process resolved with, `y` and `later` what the next start finds.
 */
module Restarts {
  import opened Wrappers
  import opened Params
  import opened Sources
  import opened Text
  import opened Configuration
  import opened Resolution
  import opened ConfigTables
  import opened Startup
  import opened Lifecycle
  import opened HandleState
  import opened HandleRuns
  import opened PendingRestart
  import opened AdminRequests
  import opened AdminRuns
  import Trials

  // The configuration a process started on these tables would run with, from the surroundings and
  // files it finds; none starts if the first pass does not resolve. `ignoring`: it was told to
  // ignore the store.
  function Restarted(x: Surroundings, files: Files, t: Tables, ignoring: bool): Result<Config, ConfigError> {
    var first :- FreshResolve(x, files, map[]);
    var (stored, generation) :=
      if ignoring then (map[], None)
      else var (t', outcome) := PrepareBoot(t); (Honoured(t'.settings), Generationed(outcome));
    Success(ApplyStored(first, layer => FreshResolve(x, files, layer), stored, generation).config.0)
  }

  // The newest generation has been tried and not confirmed: the next start undoes it.
  predicate OnTrial(t: Tables) {
    t.generations != [] && Newest(t).status == Pending && Newest(t).attempts > 0
  }

  // The layer the next start reads.
  function NextLayer(t: Tables, ignoring: bool): Layer {
    if ignoring then map[] else Honoured(if OnTrial(t) then KnownGood(t.generations) else t.settings)
  }

  // The stack the next start runs with.
  function NextStack(x: Surroundings, files: Files, t: Tables, ignoring: bool): LayeredEnv {
    RestartStack(x, files, Applied(x, files, NextLayer(t, ignoring)))
  }

  /** A start resolves the layer left for it, or nothing stored if that fails. */
  lemma RestartedIs(x: Surroundings, files: Files, t: Tables, ignoring: bool)
    requires FreshResolve(x, files, map[]).Success?
    ensures var layer := Applied(x, files, NextLayer(t, ignoring));
            && FreshResolve(x, files, layer).Success?
            && Restarted(x, files, t, ignoring) == Success(FreshResolve(x, files, layer).value.0)
  {
    hide FreshResolve, KnownGood;
    if !ignoring {
      assert Honoured(PrepareBoot(t).0.settings) == NextLayer(t, ignoring);
    }
  }

  lemma NextResolves(x: Surroundings, files: Files, t: Tables, ignoring: bool)
    requires FreshResolve(x, files, map[]).Success?
    ensures FromEnv(NextStack(x, files, t, ignoring).Answers()) == Restarted(x, files, t, ignoring)
  {
    hide FromEnv, Restarted, NextLayer, Capture;
    RestartedIs(x, files, t, ignoring);
  }

  // ---- What the list says -------------------------------------------------------------------

  // With this answer for it, field `p` takes the value it runs with.
  ghost predicate StaysAs(boot: Config, p: Param, answer: Option<string>, salt: string) {
    Canonical(p, answer, salt) == Success(FieldValue(boot, p))
  }

  // What the list tells of a field some source answers for now, and of one none does, holds when
  // the next start finds the answer `next` for it.
  ghost predicate Foretold(boot: Config, p: Param, now: Option<string>, next: Option<string>, salt: string) {
    if now.None? then StaysAs(boot, p, next, salt)
    else StaysAs(boot, p, now, salt) <==> StaysAs(boot, p, next, salt)
  }

  // The list names a boot field exactly when some source answers for it with another value.
  lemma ListedIff(x: Surroundings, files: Files, boot: Config, s: State, p: Param, salt: string)
    requires Coherent(x, files, boot, s) && ReloadOf(p) == Boot
    ensures var answer := RestartStack(x, files, s.stored).Get(p);
            p in s.pendingRestart <==> answer.Some? && !StaysAs(boot, p, answer, salt)
  {
    hide FromEnv, FieldValue, Canonical, WithBootFields, Capture, SameButCarried, BootLayer, LayeredEnv.Get, ReloadOf;
    var l, m := RunningStack(x, files, boot, s.overlay, s.stored), RestartStack(x, files, s.stored);
    FieldOfConfig(l.Answers(), p);
    RunningAnswer(x, files, boot, s.overlay, s.stored, p);
    if m.Get(p).Some? {
      AnsweredFieldIgnoresSalt(p, m.Get(p), Salt(l.Answers()), salt);
    } else {
      PrintedReadsBack(boot, p, Salt(l.Answers()));
    }
  }

  // A start from `layer` changes a boot field exactly when its answer there reads otherwise.
  lemma ChangedIff(x: Surroundings, files: Files, boot: Config, layer: Layer, p: Param)
    requires FreshResolve(x, files, layer).Success? && ReloadOf(p) == Boot
    ensures var m := RestartStack(x, files, layer);
            p in BootDrift(boot, FreshResolve(x, files, layer).value.0)
            <==> !StaysAs(boot, p, m.Get(p), Salt(m.Answers()))
  {
    hide FromEnv, FieldValue, Canonical, Capture, ReloadOf;
    FieldOfConfig(RestartStack(x, files, layer).Answers(), p);
  }

  lemma ListsBootOnly(x: Surroundings, files: Files, boot: Config, s: State, p: Param)
    requires Coherent(x, files, boot, s) && ReloadOf(p) != Boot
    ensures p !in s.pendingRestart
  {
    hide FromEnv, FieldValue, WithBootFields, Capture;
  }

  // The list names the boot fields for which `found` holds an answer of another value.
  ghost predicate ListedFrom(boot: Config, list: seq<Param>, found: LayeredEnv) {
    forall p :: p in list <==> ReloadOf(p) == Boot && found.Get(p).Some? && !StaysAs(boot, p, found.Get(p), "")
  }

  lemma CoherentLists(x: Surroundings, files: Files, boot: Config, s: State)
    requires Coherent(x, files, boot, s)
    ensures ListedFrom(boot, s.pendingRestart, RestartStack(x, files, s.stored))
  {
    hide Coherent, RestartStack, StaysAs;
    forall p
      ensures var answer := RestartStack(x, files, s.stored).Get(p);
              p in s.pendingRestart <==> ReloadOf(p) == Boot && answer.Some? && !StaysAs(boot, p, answer, "")
    {
      if ReloadOf(p) == Boot {
        ListedIff(x, files, boot, s, p, "");
      } else {
        ListsBootOnly(x, files, boot, s, p);
      }
    }
  }

  ghost predicate ListIsTrue(boot: Config, list: seq<Param>, restarted: Config) {
    forall p :: p in list <==> p in BootDrift(boot, restarted)
  }

  // Every boot field keeps, from `found` to `next`, the verdict the list gives it.
  ghost predicate AllForetold(boot: Config, found: LayeredEnv, next: LayeredEnv) {
    forall p :: ReloadOf(p) == Boot ==> Foretold(boot, p, found.Get(p), next.Get(p), Salt(next.Answers()))
  }

  lemma ListedIsTrueIff(boot: Config, list: seq<Param>, found: LayeredEnv,
                        y: Surroundings, later: Files, t: Tables, ignoring: bool)
    requires ListedFrom(boot, list, found) && FreshResolve(y, later, map[]).Success?
    ensures Restarted(y, later, t, ignoring).Success?
    ensures ListIsTrue(boot, list, Restarted(y, later, t, ignoring).value)
            <==> AllForetold(boot, found, NextStack(y, later, t, ignoring))
  {
    hide FreshResolve, RestartStack, Restarted, NextLayer, Canonical, FieldValue, LayeredEnv.Get, BootDrift;
    RestartedIs(y, later, t, ignoring);
    var next := NextStack(y, later, t, ignoring);
    var restarted := Restarted(y, later, t, ignoring).value;
    forall p
      ensures (p in list <==> p in BootDrift(boot, restarted))
              <==> (ReloadOf(p) == Boot ==> Foretold(boot, p, found.Get(p), next.Get(p), Salt(next.Answers())))
    {
      if ReloadOf(p) == Boot {
        ChangedIff(y, later, boot, Applied(y, later, NextLayer(t, ignoring)), p);
        if found.Get(p).Some? { AnsweredFieldIgnoresSalt(p, found.Get(p), "", Salt(next.Answers())); }
      } else {
        DriftsBootOnly(boot, restarted, p);
      }
    }
  }

  lemma DriftsBootOnly(boot: Config, c: Config, p: Param)
    requires ReloadOf(p) != Boot
    ensures p !in BootDrift(boot, c)
  {
    hide FieldValue;
  }

  /**
   The list tells the whole truth about the next start, whatever surroundings, files and tables that
   start finds, if and only if each boot field keeps, from what answered for it at the last resolve
   to what answers for it then, the verdict the list gives: a field that was answered for keeps
   differing, or agreeing, and one nothing answered for stays as it runs.
   */
  lemma PendingIsTrueIff(x: Surroundings, files: Files, boot: Config, s: State,
                         y: Surroundings, later: Files, t: Tables, ignoring: bool)
    requires Coherent(x, files, boot, s) && FreshResolve(y, later, map[]).Success?
    ensures Restarted(y, later, t, ignoring).Success?
    ensures ListIsTrue(boot, s.pendingRestart, Restarted(y, later, t, ignoring).value)
            <==> AllForetold(boot, RestartStack(x, files, s.stored), NextStack(y, later, t, ignoring))
  {
    hide Coherent, FreshResolve, Restarted, NextStack, ListedFrom, ListIsTrue, AllForetold;
    CoherentLists(x, files, boot, s);
    ListedIsTrueIff(boot, s.pendingRestart, RestartStack(x, files, s.stored), y, later, t, ignoring);
  }

  /**
   When every boot field is answered for at the next start as it was at the last resolve, the list is
   true if and only if each one nothing answers for runs with the value it has by default.
   */
  lemma PendingWhenUnchangedIff(x: Surroundings, files: Files, boot: Config, s: State,
                                y: Surroundings, later: Files, t: Tables, ignoring: bool)
    requires Coherent(x, files, boot, s) && FreshResolve(y, later, map[]).Success?
    requires forall p :: ReloadOf(p) == Boot ==>
               NextStack(y, later, t, ignoring).Get(p) == RestartStack(x, files, s.stored).Get(p)
    ensures Restarted(y, later, t, ignoring).Success?
    ensures var restarted := Restarted(y, later, t, ignoring).value;
            ListIsTrue(boot, s.pendingRestart, restarted)
            <==> (forall p :: ReloadOf(p) == Boot && RestartStack(x, files, s.stored).Get(p).None? ==>
                              FieldValue(boot, p) == FieldValue(restarted, p))
  {
    hide Coherent, FromEnv, RestartStack, Restarted, NextLayer, Canonical, FieldValue, LayeredEnv.Get, ListIsTrue;
    PendingIsTrueIff(x, files, boot, s, y, later, t, ignoring);
    RestartedIs(y, later, t, ignoring);
    var next := NextStack(y, later, t, ignoring);
    NextResolves(y, later, t, ignoring);
    forall p ensures StaysAs(boot, p, next.Get(p), Salt(next.Answers()))
                     <==> FieldValue(boot, p) == FieldValue(Restarted(y, later, t, ignoring).value, p)
    {
      FieldOfConfig(next.Answers(), p);
    }
  }

  // ---- Over any run of calls ----------------------------------------------------------------

  const NOTHING_FOUND := LayeredEnv(map[], map[], map[], map[], map[], map[], map[])

  // What the last reload or adoption to succeed found, and nothing before the first: an override
  // resolves anew but leaves the list as it was.
  function LastFound(x: Surroundings, s: State, calls: seq<(FileRead, Call)>): LayeredEnv {
    if calls == [] then NOTHING_FOUND
    else
      var (init, (read, call)) := (calls[..|calls| - 1], calls[|calls| - 1]);
      if read.Success? && !call.PatchCall? && Answer(x, read, RunOver(x, s, init), call).Success?
      then RestartStack(x, read.value, call.stored)
      else LastFound(x, s, init)
  }

  lemma CallLists(x: Surroundings, read: FileRead, boot: Config, s: State, call: Call)
    requires Descended(boot, s) && Answer(x, read, s, call).Success?
    ensures var s' := After(x, read, s, call);
            if call.PatchCall? then s'.pendingRestart == s.pendingRestart
            else read.Success? && ListedFrom(boot, s'.pendingRestart, RestartStack(x, read.value, call.stored))
  {
    hide FromEnv, WithBootFields, BootDrift, Capture, Coherent, Descended, ListedFrom, CheckPatch;
    if !call.PatchCall? {
      SuccessIsCoherent(x, read.value, boot, s, call);
      CoherentLists(x, read.value, boot, After(x, read, s, call));
    }
  }

  lemma {:induction false} ListOverRuns(x: Surroundings, boot: Config, s: State, calls: seq<(FileRead, Call)>)
    requires Descended(boot, s) && s.pendingRestart == []
    ensures var end := RunOver(x, s, calls);
            Descended(boot, end) && ListedFrom(boot, end.pendingRestart, LastFound(x, s, calls))
  {
    if calls != [] {
      hide Descended, Answer, ListedFrom;
      var init, last := calls[..|calls| - 1], calls[|calls| - 1];
      ListOverRuns(x, boot, s, init);
      var t := RunOver(x, s, init);
      CallDescends(x, last.0, boot, t, last.1);
      if Answer(x, last.0, t, last.1).Success? { CallLists(x, last.0, boot, t, last.1); }
    }
  }

  /**
   The same over any run: from any start, a skipped layer included, through any calls with the files
   as each finds them, to any next start. What counts is what the last reload or adoption found.
   */
  lemma PendingOverRunsIff(x: Surroundings, files: Files, stored: Layer, generation: Option<int>,
                           calls: seq<(FileRead, Call)>, y: Surroundings, later: Files, t: Tables, ignoring: bool)
    requires FreshResolve(x, files, map[]).Success? && FreshResolve(y, later, map[]).Success?
    ensures Restarted(y, later, t, ignoring).Success?
    ensures var start := StartedWith(x, files, FreshResolve(x, files, map[]).value, stored, generation);
            ListIsTrue(start.config, RunOver(x, start, calls).pendingRestart, Restarted(y, later, t, ignoring).value)
            <==> AllForetold(start.config, LastFound(x, start, calls), NextStack(y, later, t, ignoring))
  {
    hide FreshResolve, StartedWith, Restarted, NextStack, ListedFrom, ListIsTrue, AllForetold, RunOver, LastFound;
    var start := StartedWith(x, files, FreshResolve(x, files, map[]).value, stored, generation);
    StartsBare(x, files, stored, generation);
    ListOverRuns(x, start.config, start, calls);
    ListedIsTrueIff(start.config, RunOver(x, start, calls).pendingRestart, LastFound(x, start, calls),
                    y, later, t, ignoring);
  }

  /**
   A removal tells the truth about whether a restart would change its field if and only if the field
   keeps its verdict until that restart; and if the restart finds the same answer for it, it asks for
   one if and only if the restart would change the field and some source still answers for it.
   */
  lemma DeleteSaysRestartIff(x: Surroundings, files: Files, boot: Config, seen: FileReads, s: Server, p: Param,
                             y: Surroundings, later: Files, ignoring: bool)
    requires Descended(boot, s.handle) && seen.adopt == Success(files)
    requires DeleteStored(x, seen, s, Known(p)).1.Success? && FreshResolve(y, later, map[]).Success?
    ensures var (s', asks) := DeleteStored(x, seen, s, Known(p));
            var found := RestartStack(x, files, s.handle.stored - {Known(p)}).Get(p);
            var next := NextStack(y, later, s'.tables, ignoring);
            && Restarted(y, later, s'.tables, ignoring).Success?
            && var changes := p in BootDrift(boot, Restarted(y, later, s'.tables, ignoring).value);
            && ((asks.value <==> changes)
                <==> (ReloadOf(p) == Boot ==> Foretold(boot, p, found, next.Get(p), Salt(next.Answers()))))
            && (next.Get(p) == found ==> (asks.value <==> changes && found.Some?))
  {
    hide FreshResolve, RestartStack, Restarted, NextLayer, Canonical, FieldValue, LayeredEnv.Get, BootDrift;
    hide Adopted, Probed, Coherent, Descended, DeleteStored;
    var stored := s.handle.stored - {Known(p)};
    var s' := DeleteStored(x, seen, s, Known(p)).0;
    DeleteAdopts(x, seen, s, Known(p));
    CallLists(x, seen.adopt, boot, s.handle, AdoptCall(stored));
    RestartedIs(y, later, s'.tables, ignoring);
    var next := NextStack(y, later, s'.tables, ignoring);
    var found := RestartStack(x, files, stored).Get(p);
    if ReloadOf(p) == Boot {
      ChangedIff(y, later, boot, Applied(y, later, NextLayer(s'.tables, ignoring)), p);
      if found.Some? { AnsweredFieldIgnoresSalt(p, found, "", Salt(next.Answers())); }
    } else {
      DriftsBootOnly(boot, Restarted(y, later, s'.tables, ignoring).value, p);
    }
  }

  lemma DeleteAdopts(x: Surroundings, seen: FileReads, s: Server, name: Name)
    requires DeleteStored(x, seen, s, name).1.Success?
    ensures var (s', asks) := DeleteStored(x, seen, s, name);
            && Adopted(x, seen.adopt, s.handle, s.handle.stored - {name}) == Success(s'.handle)
            && name.Known? && (asks.value <==> name.param in s'.handle.pendingRestart)
  {
    hide Adopted, Probed;
  }

  // ---- Right after a start ------------------------------------------------------------------

  /**
   Right after a start the list is empty. The next start, with whatever it finds, then reads the
   layer this one read, unless this one was a trial: then it falls back on the last confirmed
   settings. So with nothing changed, and no trial, it comes back as it is.
   */
  lemma RestartAfterStart(x: Surroundings, files: Files, t: Tables, y: Surroundings, later: Files)
    requires FreshResolve(x, files, map[]).Success? && FreshResolve(y, later, map[]).Success?
    ensures var first := FreshResolve(x, files, map[]).value;
            var (t', outcome) := PrepareBoot(t);
            var s := StartedWith(x, files, first, Honoured(t'.settings), Generationed(outcome));
            var layer := if outcome.Trying? then Honoured(KnownGood(t.generations)) else s.stored;
            && s.pendingRestart == []
            && FreshResolve(y, later, Applied(y, later, layer)).Success?
            && Restarted(y, later, t', false) == Success(FreshResolve(y, later, Applied(y, later, layer)).value.0)
            && (!outcome.Trying? && y == x && later == files ==> Restarted(y, later, t', false) == Success(s.config))
  {
    hide FreshResolve, KnownGood, LastConfirmed;
    var (t', outcome) := PrepareBoot(t);
    RestartedIs(y, later, t', false);
    StartsFromApplied(x, files, Honoured(t'.settings), Generationed(outcome));
    if outcome.Trying? {
      TrialKeepsKnownGood(t);
    }
  }

  lemma TrialKeepsKnownGood(t: Tables)
    requires PrepareBoot(t).1.Trying?
    ensures KnownGood(PrepareBoot(t).0.generations) == KnownGood(t.generations)
  {
    var n := |t.generations| - 1;
    Trials.LastConfirmedIgnores(t.generations, n, t.generations[n].(attempts := 1));
  }

  // The tables of a store whose only write stored the port, at the process that tries it.
  function PortOnTrial(): Tables {
    PrepareBoot(Set(EMPTY, [(Known(ServerPort), "8080")]).0).0
  }

  /**
   A process on the trial of its first stored setting, a port of 8080: its list is empty, no source
   has gone away, and a restart now undoes the setting and comes back on 3000.
   */
  lemma TrialGoesUnreported(salt: string, master: string)
    requires ByteLen(salt) >= SECRET_MIN_BYTES && ByteLen(master) >= SECRET_MIN_BYTES
    ensures var (x, t) := (WithSecrets(salt, master), PortOnTrial());
            && OnTrial(t) && Honoured(t.settings) == STORED_PORT
            && FreshResolve(x, NO_FILES, STORED_PORT).Success?
            && var (boot, sources) := FreshResolve(x, NO_FILES, STORED_PORT).value;
            && FollowsTable(x, NO_FILES, boot, Server(t, State(boot, map[], sources, STORED_PORT, [])))
            && boot.serverPort == 8080
            && Restarted(x, NO_FILES, t, false).Success? && Restarted(x, NO_FILES, t, false).value.serverPort == 3000
  {
    hide FreshResolve, Coherent, ByteLen;
    var x, t := WithSecrets(salt, master), PortOnTrial();
    PortIsOnTrial();
    ResolvesWithSecrets(salt, master, STORED_PORT);
    ResolvesWithSecrets(salt, master, map[]);
    FreshIsCoherent(x, NO_FILES, STORED_PORT);
    RestartedIs(x, NO_FILES, t, false);
  }

  lemma PortIsOnTrial()
    ensures var t := PortOnTrial();
            && OnTrial(t) && Honoured(t.settings) == STORED_PORT && NextLayer(t, false) == map[]
  {
    var updates: Updates := [(Known(ServerPort), "8080")];
    assert updates[..0] == [];
    assert Inserted(map[], updates) == map[Known(ServerPort) := "8080"];
    assert CheckWritable(updates).None?;
    var row := Generation(1, STORED_PORT, Pending, 0);
    assert Set(EMPTY, updates).0 == Tables(STORED_PORT, [row], 1);
    var gs := PortOnTrial().generations;
    assert gs == [row.(attempts := 1)];
    assert gs[..0] == [];
    assert LastConfirmed(gs) == None;
  }

  // ---- What changes under a running process -------------------------------------------------

  /**
   A process whose salt comes from a file named on its command line, and whose file has been given
   another salt: its list is empty, and a restart, which reads the file again, changes the salt.
   */
  lemma RotatedSecretGoesUnreported(salt: string, other: string, master: string)
    requires ByteLen(salt) >= SECRET_MIN_BYTES && ByteLen(master) >= SECRET_MIN_BYTES
    requires ByteLen(other) >= SECRET_MIN_BYTES && salt != other
    ensures var (x, y) := (WithSecrets(salt, master), WithSecrets(other, master));
            && FreshResolve(x, NO_FILES, map[]).Success?
            && var (boot, sources) := FreshResolve(x, NO_FILES, map[]).value;
            && FollowsTable(x, NO_FILES, boot, Server(EMPTY, State(boot, map[], sources, map[], [])))
            && Restarted(y, NO_FILES, EMPTY, false).Success?
            && ApiKeySalt in BootDrift(boot, Restarted(y, NO_FILES, EMPTY, false).value)
  {
    hide FreshResolve, Coherent, ByteLen, BootDrift, Restarted, NextLayer;
    var x, y := WithSecrets(salt, master), WithSecrets(other, master);
    ResolvesWithSecrets(salt, master, map[]);
    ResolvesWithSecrets(other, master, map[]);
    FreshIsCoherent(x, NO_FILES, map[]);
    RestartedIs(y, NO_FILES, EMPTY, false);
    NextOfNothing();
    SaltIsSecret(salt, master);
    SaltIsSecret(other, master);
    DriftsIff(FreshResolve(x, NO_FILES, map[]).value.0, FreshResolve(y, NO_FILES, map[]).value.0, ApiKeySalt);
  }

  lemma NextOfNothing()
    ensures NextLayer(EMPTY, false) == map[]
  {
  }

  lemma SaltIsSecret(salt: string, master: string)
    requires FreshResolve(WithSecrets(salt, master), NO_FILES, map[]).Success?
    ensures FieldValue(FreshResolve(WithSecrets(salt, master), NO_FILES, map[]).value.0, ApiKeySalt) == salt
  {
    hide FromEnv, FieldValue;
    FieldOfConfig(RestartStack(WithSecrets(salt, master), NO_FILES, map[]).Answers(), ApiKeySalt);
  }

  lemma DriftsIff(boot: Config, c: Config, p: Param)
    ensures p in BootDrift(boot, c) <==> ReloadOf(p) == Boot && FieldValue(boot, p) != FieldValue(c, p)
  {
    hide FieldValue;
  }

  /**
   A process whose configuration file has since been given a port of 8080: an override resolves with
   the file as it now is and leaves the list empty, and a restart listens on 8080.
   */
  lemma EditedFileGoesUnreported(salt: string, master: string)
    requires ByteLen(salt) >= SECRET_MIN_BYTES && ByteLen(master) >= SECRET_MIN_BYTES
    ensures var x := WithSecrets(salt, master);
            && FreshResolve(x, NO_FILES, map[]).Success?
            && var (boot, sources) := FreshResolve(x, NO_FILES, map[]).value;
            && var patched := Patched(x, Success(PORT_FILE), State(boot, map[], sources, map[], []), OVERRIDE);
            && patched.Success? && patched.value.pendingRestart == [] && patched.value.config.serverPort == 3000
            && Restarted(x, PORT_FILE, EMPTY, false).Success?
            && Restarted(x, PORT_FILE, EMPTY, false).value.serverPort == 8080
  {
    hide FromEnv, ByteLen, BootDrift, Restarted, NextLayer, BootLayer, Capture, CheckPatch, Canonical, FieldValue;
    var x := WithSecrets(salt, master);
    ResolvesWithSecrets(salt, master, map[]);
    PortFileResolves(salt, master);
    NextOfNothing();
    RestartedIs(x, PORT_FILE, EMPTY, false);
    var (boot, sources) := FreshResolve(x, NO_FILES, map[]).value;
    OverrideIsAllowed(x, sources);
    var overlay := Inserted(map[], OVERRIDE);
    assert overlay == map[Known(DefaultSessionTtlSeconds) := "600"];
    OverrideResolves(x, PORT_FILE, boot, overlay, map[]);
  }

  lemma PortFileResolves(salt: string, master: string)
    requires ByteLen(salt) >= SECRET_MIN_BYTES && ByteLen(master) >= SECRET_MIN_BYTES
    ensures var r := FreshResolve(WithSecrets(salt, master), PORT_FILE, map[]);
            r.Success? && r.value.0.serverPort == 8080
  {
    hide FromEnv, Canonical, FieldValue, ByteLen;
    var x := WithSecrets(salt, master);
    var l, m := RestartStack(x, NO_FILES, STORED_PORT), RestartStack(x, PORT_FILE, map[]);
    ResolvesWithSecrets(salt, master, STORED_PORT);
    assert Known(ServerPort) in STORED_PORT;
    forall p ensures Field(l.Answers(), p) == Field(m.Answers(), p) {
      assert l.Get(p) == m.Get(p) && l.Get(ApiKeySalt) == m.Get(ApiKeySalt);
    }
    SameFieldsResolveAlike(l.Answers(), m.Answers());
  }
}
