/**
 What holds over runs of administration requests: the handle's stored layer is the settings
 table's, a refused request changes neither, what a write reports is what became of it, and
 exactly which accepted writes the next start can resolve.
 */
module AdminRuns {
  import opened Wrappers
  import opened Params
  import opened Sources
  import opened Text
  import opened Configuration
  import opened Resolution
  import opened ConfigTables
  import opened HandleState
  import opened HandleRuns
  import opened Startup
  import opened AdminRequests
  import opened PendingRestart

  // A confirmation comes from the task started at boot and touches generations only.
  datatype Request =
    | Putting(body: Body)
    | Deleting(name: Name)
    | Patching(body: Body)
    | Reloading
    | HangingUp
    | Confirming(id: int)

  // The server after a request, and whether the request was accepted.
  function Handled(x: Surroundings, seen: FileReads, s: Server, q: Request): (Server, bool) {
    match q
    case Putting(body) => var (s', r) := PutStored(x, seen, s, body); (s', r.Success?)
    case Deleting(name) => var (s', r) := DeleteStored(x, seen, s, name); (s', r.Success?)
    case Patching(body) => var (s', r) := PatchConfig(x, seen.adopt, s, body); (s', r.Success?)
    case Reloading => var (s', r) := ReloadConfig(x, seen.adopt, s); (s', r.Success?)
    case HangingUp => var (s', r) := Hangup(x, seen.adopt, s); (s', r.Success?)
    case Confirming(id) => (s.(tables := Confirm(s.tables, id, true).0), true)
  }

  function Serve(x: Surroundings, s: Server, qs: seq<(FileReads, Request)>): Server {
    if qs == [] then s
    else
      var last := qs[|qs| - 1];
      Handled(x, last.0, Serve(x, s, qs[..|qs| - 1]), last.1).0
  }

  // ---- The table and the handle stay in step ----------------------------------------------

  ghost predicate Agrees(s: Server) {
    s.handle.stored == Honoured(s.tables.settings)
  }

  // Translating the table commutes with writing to it.
  lemma {:induction false} HonouredInserts(settings: Settings, updates: Updates)
    requires forall i :: 0 <= i < |updates| ==> Storable(updates[i].0)
    ensures Honoured(Inserted(settings, updates)) == Inserted(Honoured(settings), updates)
  {
    if updates != [] {
      var init, last := updates[..|updates| - 1], updates[|updates| - 1];
      assert forall i :: 0 <= i < |init| ==> init[i] == updates[i];
      HonouredInserts(settings, init);
      assert Honoured(Inserted(settings, init)[last.0 := last.1])
             == Honoured(Inserted(settings, init))[last.0 := last.1];
    }
  }

  // The dry run and the adoption ask the same question.
  lemma ProbeDecides(x: Surroundings, read: FileRead, s: State, stored: Layer)
    ensures Probed(x, read, s, stored).Success? == Adopted(x, read, s, stored).Success?
  {
    hide ResolveWithCarry, WithBootFields, BootDrift;
  }

  /**
   A write passes its checks and its dry run, reaches the table, and is then refused by the
   adoption: the one way a refused request leaves something behind.
   */
  ghost predicate FailsHalfway(x: Surroundings, seen: FileReads, s: Server, q: Request) {
    match q
    case Putting(body) =>
      var checked := Checked(s.handle.config, body);
      checked.Success?
      && var candidate := Inserted(s.handle.stored, checked.value);
         Probed(x, seen.probe, s.handle, candidate).Success? && Adopted(x, seen.adopt, s.handle, candidate).Failure?
    case Deleting(name) =>
      s.handle.config.adminConfigWrite && name in s.tables.settings && name.Known?
      && var candidate := s.handle.stored - {name};
         Probed(x, seen.probe, s.handle, candidate).Success? && Adopted(x, seen.adopt, s.handle, candidate).Failure?
    case _ => false
  }

  /**
   A refused request changes nothing, unless the files change between its dry run and its
   adoption in such a way that only the second fails; then the table alone has moved.
   */
  lemma RefusedChangesNothingIff(x: Surroundings, seen: FileReads, s: Server, q: Request)
    requires !Handled(x, seen, s, q).1
    ensures Handled(x, seen, s, q).0 == s <==> !FailsHalfway(x, seen, s, q)
    ensures Handled(x, seen, s, q).0.handle == s.handle
  {
    hide Probed, Adopted, Patched, Reloaded, Checked, Overrides, Inserted, Report;
    match q {
      case Putting(body) =>
        if FailsHalfway(x, seen, s, q) {
          assert Handled(x, seen, s, q).0.tables.lastId == s.tables.lastId + 1;
        }
      case Deleting(name) =>
        if FailsHalfway(x, seen, s, q) {
          assert Handled(x, seen, s, q).0.tables.lastId == s.tables.lastId + 1;
        }
      case _ =>
    }
  }

  /** With the same files at both reads, a dry run that accepts is never followed by a refusal. */
  lemma AcceptedOnceProbed(x: Surroundings, seen: FileReads, s: Server, q: Request)
    requires seen.probe == seen.adopt
    ensures !FailsHalfway(x, seen, s, q)
  {
    hide Probed, Adopted, Checked, Inserted;
    match q {
      case Putting(body) =>
        var checked := Checked(s.handle.config, body);
        if checked.Success? {
          ProbeDecides(x, seen.probe, s.handle, Inserted(s.handle.stored, checked.value));
        }
      case Deleting(name) =>
        ProbeDecides(x, seen.probe, s.handle, s.handle.stored - {name});
      case _ =>
    }
  }

  /** One request, whatever its files: agreement survives unless the request fails halfway. */
  lemma HandledAgrees(x: Surroundings, seen: FileReads, s: Server, q: Request)
    requires Agrees(s) && !FailsHalfway(x, seen, s, q)
    ensures Agrees(Handled(x, seen, s, q).0)
  {
    hide Probed, ResolveWithCarry, Checked, Overrides, Report, WithBootFields, BootDrift, CheckPatch;
    match q {
      case Putting(body) =>
        var checked := Checked(s.handle.config, body);
        if checked.Success? {
          HonouredInserts(s.tables.settings, checked.value);
        }
      case Deleting(name) =>
        assert Honoured(s.tables.settings - {name}) == Honoured(s.tables.settings) - {name};
      case _ =>
    }
  }

  /**
   Over every sequential run of requests, each seeing the same files at both its reads, the
   handle's stored layer is the translation of the settings table.
   */
  lemma {:induction false} AgreementNeverBreaks(x: Surroundings, s: Server, qs: seq<(FileReads, Request)>)
    requires Agrees(s)
    requires forall i :: 0 <= i < |qs| ==> qs[i].0.probe == qs[i].0.adopt
    ensures Agrees(Serve(x, s, qs))
  {
    hide Handled, FailsHalfway, Agrees;
    if qs != [] {
      var init, last := qs[..|qs| - 1], qs[|qs| - 1];
      assert forall i :: 0 <= i < |init| ==> init[i] == qs[i];
      AgreementNeverBreaks(x, s, init);
      AcceptedOnceProbed(x, last.0, Serve(x, s, init), last.1);
      HandledAgrees(x, last.0, Serve(x, s, init), last.1);
    }
  }

  /**
   While they agree, reloading through the API is reloading on a hangup signal; and whatever
   parted them, a reload on a hangup signal that succeeds brings them back together.
   */
  lemma HangupRestoresAgreement(x: Surroundings, read: FileRead, s: Server)
    ensures Agrees(s) ==> ReloadConfig(x, read, s) == Hangup(x, read, s)
    ensures var (s', r) := Hangup(x, read, s);
            r.Success? ==> Agrees(s') && (Agrees(s) <==> s'.handle.stored == s.handle.stored)
  {
    hide ResolveWithCarry, WithBootFields, BootDrift;
  }

  // The call on the handle that an accepted request amounts to, if any.
  function CallOf(s: Server, q: Request): Option<Call> {
    match q
    case Putting(body) =>
      var checked := Checked(s.handle.config, body);
      if checked.Success? then Some(AdoptCall(Inserted(s.handle.stored, checked.value))) else None
    case Deleting(name) => Some(AdoptCall(s.handle.stored - {name}))
    case Patching(body) =>
      var overrides := Overrides(s.handle.sources, body);
      if overrides.Success? then Some(PatchCall(overrides.value)) else None
    case Reloading => Some(ReloadCall(s.handle.stored))
    case HangingUp => Some(ReloadCall(Honoured(s.tables.settings)))
    case Confirming(_) => None
  }

  lemma AcceptedIsACall(x: Surroundings, seen: FileReads, s: Server, q: Request)
    requires Handled(x, seen, s, q).1 && !q.Confirming?
    ensures CallOf(s, q).Some?
    ensures Answer(x, seen.adopt, s.handle, CallOf(s, q).value) == Success(Handled(x, seen, s, q).0.handle)
  {
    hide Probed, Adopted, Patched, Reloaded, Checked, Overrides, Inserted, Report;
  }

  // What the server is, as one statement about the settings table: the running configuration is
  // the boot fields it started with and the live fields of resolving the table's settings.
  ghost predicate FollowsTable(x: Surroundings, files: Files, boot: Config, s: Server) {
    Agrees(s) && Coherent(x, files, boot, s.handle)
  }

  lemma HandledFollows(x: Surroundings, files: Files, boot: Config, s: Server, q: Request)
    requires FollowsTable(x, files, boot, s)
    ensures FollowsTable(x, files, boot, Handled(x, FileReads(Success(files), Success(files)), s, q).0)
  {
    hide Coherent, Answer, Agrees, Handled, FailsHalfway, CallOf;
    var seen := FileReads(Success(files), Success(files));
    AcceptedOnceProbed(x, seen, s, q);
    HandledAgrees(x, seen, s, q);
    if !Handled(x, seen, s, q).1 {
      RefusedChangesNothingIff(x, seen, s, q);
    } else if q.Confirming? {
      ConfirmKeepsHandle(x, seen, s, q);
    } else {
      AcceptedIsACall(x, seen, s, q);
      CoherentDescends(x, files, boot, s.handle);
      SuccessIsCoherent(x, files, boot, s.handle, CallOf(s, q).value);
    }
  }

  lemma ConfirmKeepsHandle(x: Surroundings, seen: FileReads, s: Server, q: Request)
    requires q.Confirming?
    ensures Handled(x, seen, s, q).0.handle == s.handle
  {
  }

  /**
   Table, handle and running configuration stay one: from a start that applied the store, with
   the files fixed, any run of requests leaves the running configuration equal to resolving the
   settings table over the files and under the overrides.
   */
  lemma {:induction false} ServerFollowsTable(x: Surroundings, files: Files, tables: Tables, qs: seq<Request>)
    requires FreshResolve(x, files, Honoured(tables.settings)).Success?
    ensures var stored := Honoured(tables.settings);
            var (boot, sources) := FreshResolve(x, files, stored).value;
            var seen := FileReads(Success(files), Success(files));
            FollowsTable(x, files, boot,
                         Serve(x, Server(tables, State(boot, map[], sources, stored, [])),
                               seq(|qs|, i requires 0 <= i < |qs| => (seen, qs[i]))))
  {
    hide FromEnv, Handled, Coherent, Capture, FreshResolve;
    var stored := Honoured(tables.settings);
    var (boot, sources) := FreshResolve(x, files, stored).value;
    var seen := FileReads(Success(files), Success(files));
    var start := Server(tables, State(boot, map[], sources, stored, []));
    var all := seq(|qs|, i requires 0 <= i < |qs| => (seen, qs[i]));
    if qs == [] {
      FreshIsCoherent(x, files, stored);
    } else {
      var init := qs[..|qs| - 1];
      ServerFollowsTable(x, files, tables, init);
      assert all[..|all| - 1] == seq(|init|, i requires 0 <= i < |init| => (seen, init[i]));
      HandledFollows(x, files, boot, Serve(x, start, all[..|all| - 1]), qs[|qs| - 1]);
    }
  }

  // ---- What a write reports ---------------------------------------------------------------

  // Some layer above the store holds `n`.
  predicate Outranked(x: Surroundings, overlay: Layer, n: Name) {
    n in overlay || n in x.cli || n in x.env
  }

  // A request body is a map: it names no field twice.
  ghost predicate NamesOnce(body: Body) {
    forall i, j :: 0 <= i < j < |body| ==> body[i].0 != body[j].0
  }

  lemma {:induction false} InsertedLooksUp(layer: Layer, updates: Updates, i: nat)
    requires i < |updates|
    requires forall j, k :: 0 <= j < k < |updates| ==> updates[j].0 != updates[k].0
    ensures updates[i].0 in Inserted(layer, updates) && Inserted(layer, updates)[updates[i].0] == updates[i].1
  {
    var n := |updates| - 1;
    if i < n {
      InsertedLooksUp(layer, updates[..n], i);
    }
  }

  // The running value of `p` is what the text `raw` reads as.
  ghost predicate RunsWith(config: Config, p: Param, raw: string) {
    Canonical(p, Some(raw), config.apiKeySalt) == Success(FieldValue(config, p))
  }

  // A cache whose store answers for `p`: `p` drifts exactly when it does not run as stored.
  lemma DriftsUnlessRunning(x: Surroundings, files: Files, boot: Config, s: State, p: Param)
    requires Coherent(x, files, boot, s)
    requires Known(p) in s.stored && !Outranked(x, s.overlay, Known(p))
    ensures p in s.pendingRestart <==> !RunsWith(s.config, p, s.stored[Known(p)])
  {
    hide FromEnv, FieldValue, Canonical, Capture, WithBootFields, SameButCarried, BootLayer;
    var l := RunningStack(x, files, boot, s.overlay, s.stored);
    var resolved := FromEnv(l.Answers()).value;
    FieldOfConfig(l.Answers(), p);
    AnsweredFieldIgnoresSalt(p, Some(s.stored[Known(p)]), Salt(l.Answers()), s.config.apiKeySalt);
    MergeFollowsTheTable(boot, resolved, p);
  }

  lemma RecordedRank(l: LayeredEnv, p: Param)
    requires Known(p) in l.stored
    ensures l.SourceOf(p) != Stored <==> Known(p) in l.overlay || Known(p) in l.cli || Known(p) in l.env
    ensures !l.SourceOf(p).Default? && !l.SourceOf(p).Carried?
  {
  }

  // In a cache, a stored field is recorded as answered by another layer exactly when a higher
  // layer holds it.
  lemma MaskedIsOutranked(x: Surroundings, files: Files, boot: Config, s: State, p: Param)
    requires Coherent(x, files, boot, s) && Known(p) in s.stored
    ensures SourceIn(s.sources, p) != Stored <==> Outranked(x, s.overlay, Known(p))
  {
    hide FromEnv, FieldValue, WithBootFields, BootDrift, BootLayer;
    var l := RunningStack(x, files, boot, s.overlay, s.stored);
    RecordedRank(l, p);
    assert SourceIn(Capture(l), p) == l.SourceOf(p);
  }

  lemma AdoptedStores(x: Surroundings, read: FileRead, s: State, stored: Layer)
    requires Adopted(x, read, s, stored).Success?
    ensures Adopted(x, read, s, stored).value.stored == stored
    ensures Adopted(x, read, s, stored).value.overlay == s.overlay
  {
    hide ResolveWithCarry, WithBootFields, BootDrift;
  }

  // An accepted write: the adopted state, and the report made of it.
  lemma AcceptedWrite(x: Surroundings, seen: FileReads, s: Server, body: Body)
    requires PutStored(x, seen, s, body).1.Success?
    ensures Checked(s.handle.config, body).Success?
    ensures var (s', r) := PutStored(x, seen, s, body);
            var updates := Checked(s.handle.config, body).value;
            && Adopted(x, seen.adopt, s.handle, Inserted(s.handle.stored, updates)) == Success(s'.handle)
            && (forall p :: p in r.value.masked <==> p in Touched(updates) && SourceIn(s'.handle.sources, p) != Stored)
            && (forall p :: p in r.value.waiting <==>
                            p in Touched(updates) && p in s'.handle.pendingRestart && p !in r.value.masked)
  {
    hide Checked, Probed, Adopted, Inserted, Set, Masked, Waiting, Touched;
  }

  lemma AcceptedWriteIsCoherent(x: Surroundings, files: Files, boot: Config, seen: FileReads, s: Server, body: Body)
    requires Descended(boot, s.handle) && seen.adopt == Success(files)
    requires PutStored(x, seen, s, body).1.Success?
    ensures Checked(s.handle.config, body).Success?
    ensures var s' := PutStored(x, seen, s, body).0;
            && Coherent(x, files, boot, s'.handle)
            && s'.handle.stored == Inserted(s.handle.stored, Checked(s.handle.config, body).value)
  {
    hide PutStored, Checked, Adopted, Inserted, Coherent, Descended;
    AcceptedWrite(x, seen, s, body);
    var candidate := Inserted(s.handle.stored, Checked(s.handle.config, body).value);
    SuccessIsCoherent(x, files, boot, s.handle, AdoptCall(candidate));
    AdoptedStores(x, seen.adopt, s.handle, candidate);
  }

  /**
   An accepted write tells the truth about each field it touched, which has one of three fates:
   masked, when a higher layer answers for it; waiting, when the store answers but the process
   runs with something else; and otherwise in effect, the running value being what the stored
   text reads as. Nothing it did not touch is named.
   */
  lemma PutReportIsTrue(x: Surroundings, files: Files, boot: Config, seen: FileReads, s: Server, body: Body, i: nat)
    requires Descended(boot, s.handle) && seen.adopt == Success(files) && NamesOnce(body) && i < |body|
    requires PutStored(x, seen, s, body).1.Success?
    ensures var (s', r) := PutStored(x, seen, s, body);
            var (n, raw) := (body[i].0, RawText(body[i].1));
            && n.Known? && raw.Some? && n in s'.handle.stored && s'.handle.stored[n] == raw.value
            && (n.param in r.value.masked <==> Outranked(x, s'.handle.overlay, n))
            && (n.param in r.value.waiting <==>
                !Outranked(x, s'.handle.overlay, n) && !RunsWith(s'.handle.config, n.param, raw.value))
    ensures var r := PutStored(x, seen, s, body).1;
            forall p :: p in r.value.masked || p in r.value.waiting ==>
                        exists j :: 0 <= j < |body| && body[j].0 == Known(p)
  {
    hide PutStored, Adopted, Coherent, Descended, Inserted, RunsWith, Outranked, Checked, Coerced, Touched, RawText;
    var s' := PutStored(x, seen, s, body).0;
    AcceptedWrite(x, seen, s, body);
    AcceptedWriteIsCoherent(x, files, boot, seen, s, body);
    var updates := Checked(s.handle.config, body).value;
    InsertedLooksUp(s.handle.stored, updates, i);
    var p := updates[i].0.param;
    assert p in Touched(updates);
    MaskedIsOutranked(x, files, boot, s'.handle, p);
    if !Outranked(x, s'.handle.overlay, Known(p)) {
      DriftsUnlessRunning(x, files, boot, s'.handle, p);
    }
  }

  // ---- What the stored fields are reported as ---------------------------------------------

  // The recorded provenance credits the store with exactly the fields of `layer` nothing outranks.
  ghost predicate Credits(x: Surroundings, s: State, layer: Layer) {
    forall p :: SourceIn(s.sources, p) == Stored <==> Known(p) in layer && !Outranked(x, s.overlay, Known(p))
  }

  // The fields of `visible` are reported as shadowed exactly when a higher layer holds them.
  ghost predicate ShadowedTruly(x: Surroundings, s: State, visible: Layer) {
    Shadowed(visible, s.sources) == set n | n in visible && Outranked(x, s.overlay, n)
  }

  lemma ShadowedIff(x: Surroundings, s: State, visible: Layer, layer: Layer)
    requires Credits(x, s, layer) && forall n :: n in visible ==> n.Known?
    ensures ShadowedTruly(x, s, visible) <==> forall n :: n in visible && !Outranked(x, s.overlay, n) ==> n in layer
  {
    hide Outranked;
    forall n | n in visible
      ensures n in Shadowed(visible, s.sources) <==> !(n in layer && !Outranked(x, s.overlay, n))
    {
      assert SourceIn(s.sources, n.param) == Stored <==> Known(n.param) in layer && !Outranked(x, s.overlay, n);
    }
    var reported, outranked := Shadowed(visible, s.sources), set n | n in visible && Outranked(x, s.overlay, n);
    if forall n :: n in visible && !Outranked(x, s.overlay, n) ==> n in layer {
      forall n ensures n in reported <==> n in outranked {
      }
    } else {
      var n :| n in visible && !Outranked(x, s.overlay, n) && n !in layer;
      assert n in reported && n !in outranked;
    }
  }

  lemma CaptureCredits(x: Surroundings, files: Files, s: State, layer: Layer, carried: Layer)
    requires s.sources == Capture(Stack(x, files, s.overlay, layer, carried))
    ensures Credits(x, s, layer)
  {
  }

  lemma CallCredits(x: Surroundings, read: FileRead, s: State, call: Call)
    requires Answer(x, read, s, call).Success?
    ensures var s' := After(x, read, s, call); Credits(x, s', s'.stored)
  {
    hide FromEnv, WithBootFields, BootDrift, BootLayer, Capture, CheckPatch, Credits;
    var s' := After(x, read, s, call);
    CaptureCredits(x, read.value, s', s'.stored, BootLayer(s.config));
  }

  // The stored layer last resolved: what the start applied, until a call succeeds.
  function LastResolved(x: Surroundings, s: State, applied: Layer, calls: seq<(FileRead, Call)>): Layer {
    if calls == [] then applied
    else
      var (init, last) := (calls[..|calls| - 1], calls[|calls| - 1]);
      var answer := Answer(x, last.0, RunOver(x, s, init), last.1);
      if answer.Success? then answer.value.stored else LastResolved(x, s, applied, init)
  }

  lemma {:induction false} CreditsOverRuns(x: Surroundings, s: State, applied: Layer, calls: seq<(FileRead, Call)>)
    requires Credits(x, s, applied)
    ensures Credits(x, RunOver(x, s, calls), LastResolved(x, s, applied, calls))
  {
    if calls != [] {
      hide Credits, Answer;
      var init, last := calls[..|calls| - 1], calls[|calls| - 1];
      CreditsOverRuns(x, s, applied, init);
      if Answer(x, last.0, RunOver(x, s, init), last.1).Success? {
        CallCredits(x, last.0, RunOver(x, s, init), last.1);
      }
    }
  }

  /**
   From any start, through any calls with the files as each finds them, and whatever the table has
   come to hold: the fields reported as shadowed are those a higher layer answers for if and only if
   every stored field nothing outranks was in the stored layer that was last resolved.
   */
  lemma ShadowedIsTrueIff(x: Surroundings, files: Files, stored: Layer, generation: Option<int>,
                          calls: seq<(FileRead, Call)>, t: Tables)
    requires FreshResolve(x, files, map[]).Success?
    ensures var start := StartedWith(x, files, FreshResolve(x, files, map[]).value, stored, generation);
            var (s, visible) := (RunOver(x, start, calls), Honoured(t.settings));
            ShadowedTruly(x, s, visible)
            <==> forall n :: n in visible && !Outranked(x, s.overlay, n) ==>
                             n in LastResolved(x, start, Applied(x, files, stored), calls)
  {
    hide FromEnv, StartedWith, RunOver, LastResolved, Outranked, Capture, Credits, ShadowedTruly;
    var start := StartedWith(x, files, FreshResolve(x, files, map[]).value, stored, generation);
    var applied := Applied(x, files, stored);
    StartsBare(x, files, stored, generation);
    StartsFromApplied(x, files, stored, generation);
    CaptureCredits(x, files, start, applied, map[]);
    CreditsOverRuns(x, start, applied, calls);
    ShadowedIff(x, RunOver(x, start, calls), Honoured(t.settings), LastResolved(x, start, applied, calls));
  }

  /**
   In particular, before the first reload or write the report on the layer the start read is true if
   and only if the store was applied or every stored field is outranked anyway: a layer that was
   skipped is reported as shadowed throughout, though nothing stands above it.
   */
  lemma ShadowedAtStartIff(x: Surroundings, files: Files, stored: Layer, generation: Option<int>)
    requires FreshResolve(x, files, map[]).Success?
    requires forall n :: n in stored ==> Storable(n)
    ensures var first := FreshResolve(x, files, map[]).value;
            var booted := ApplyStored(first, layer => FreshResolve(x, files, layer), stored, generation);
            ShadowedTruly(x, StartedWith(x, files, first, stored, generation), stored)
            <==> booted.applied || forall n :: n in stored ==> Outranked(x, map[], n)
  {
    hide FreshResolve, Outranked, ShadowedTruly;
    ShadowedIsTrueIff(x, files, stored, generation, [], EMPTY.(settings := stored));
    assert Honoured(stored) == stored;
  }

  // ---- What the next start makes of an accepted write -------------------------------------

  lemma AnsweredBetween(m: LayeredEnv, overlay: Layer, carried: Layer, p: Param)
    requires m.overlay == map[] && m.carried == map[] && m.Get(p).Some? && Known(p) !in overlay
    ensures m.(overlay := overlay, carried := carried).Get(p) == m.Get(p)
  {
  }

  // What a dry run found under no override, and accepted, reads.
  lemma FoundReads(x: Surroundings, files: Files, s: State, stored: Layer, p: Param, salt: string)
    requires LiveKeysOnly(s.overlay) && Probed(x, Success(files), s, stored).Success? && Known(p) !in s.overlay
    requires RestartStack(x, files, stored).Get(p).Some?
    ensures Canonical(p, RestartStack(x, files, stored).Get(p), salt).Success?
  {
    hide FromEnv, Canonical, FieldValue, BootLayer, LayeredEnv.Get;
    var l, found := Stack(x, files, s.overlay, stored, BootLayer(s.config)), RestartStack(x, files, stored);
    AnsweredBetween(found, s.overlay, BootLayer(s.config), p);
    FieldOfConfig(l.Answers(), p);
    AnsweredFieldIgnoresSalt(p, found.Get(p), Salt(l.Answers()), salt);
  }

  // `m`: the stack of a later start.
  lemma RestartField(x: Surroundings, files: Files, s: State, stored: Layer, m: LayeredEnv, p: Param)
    requires LiveKeysOnly(s.overlay) && Probed(x, Success(files), s, stored).Success?
    ensures var reread := Known(p) in s.overlay || m.Get(p) != RestartStack(x, files, stored).Get(p);
            Field(m.Answers(), p).Success? <==>
            && (reread ==> Canonical(p, m.Get(p), Salt(m.Answers())).Success?)
            && (p == ApiKeySalt || p == MasterApiKey ==> m.Get(p).Some?)
  {
    hide FromEnv, Canonical, FieldValue, Probed, RestartStack, LayeredEnv.Get, Salt;
    DefaultsAreValid(p, Salt(m.Answers()));
    if m.Get(p).Some? && Known(p) !in s.overlay && m.Get(p) == RestartStack(x, files, stored).Get(p) {
      FoundReads(x, files, s, stored, p, Salt(m.Answers()));
    }
  }

  /**
   A dry run accepts a stored layer with the overrides on top and the running boot values
   underneath, and a later start has neither. A layer that start reads, this one or another, with
   whatever surroundings and files, resolves if and only if each field that lay under an override or
   is answered otherwise than at the dry run reads, and both required secrets have a source.
   */
  lemma AcceptedBootsIff(x: Surroundings, files: Files, s: State, stored: Layer,
                         y: Surroundings, later: Files, layer: Layer)
    requires LiveKeysOnly(s.overlay) && Probed(x, Success(files), s, stored).Success?
    ensures var (seen, m) := (RestartStack(x, files, stored), RestartStack(y, later, layer));
            FreshResolve(y, later, layer).Success? <==>
            && (forall p :: Known(p) in s.overlay || m.Get(p) != seen.Get(p) ==>
                            Canonical(p, m.Get(p), Salt(m.Answers())).Success?)
            && m.Get(ApiKeySalt).Some? && m.Get(MasterApiKey).Some?
  {
    hide FromEnv, Canonical, FieldValue, Field, Probed, Capture, LayeredEnv.Get;
    var m := RestartStack(y, later, layer);
    ResolvesFieldByField(m.Answers());
    forall p
      ensures var reread := Known(p) in s.overlay || m.Get(p) != RestartStack(x, files, stored).Get(p);
              Field(m.Answers(), p).Success? <==>
              && (reread ==> Canonical(p, m.Get(p), Salt(m.Answers())).Success?)
              && (p == ApiKeySalt || p == MasterApiKey ==> m.Get(p).Some?)
    {
      RestartField(x, files, s, stored, m, p);
    }
  }

  const OVERRIDE: Updates := [(Known(DefaultSessionTtlSeconds), "600")]
  const PORT_FILE := Files(map[], STORED_PORT)
  const MISTYPED: Layer := map[Known(DefaultSessionTtlSeconds) := "soon"]

  lemma OverrideReads(salt: string)
    ensures Canonical(DefaultSessionTtlSeconds, Some("600"), salt).Success?
    ensures Canonical(DefaultSessionTtlSeconds, Some("soon"), salt).Failure?
  {
    assert "600"[..2] == "60" && "60"[..1] == "6";
    assert Decimal("60") == Some(60);
    assert Decimal("600") == Some(600);
    assert "soon"[3] == 'n' && !IsDigit('n');
  }

  /**
   The law that an accepted write resolves at the next start is false: with an override of the
   session lifetime in place, a lifetime that is no number is accepted, and the next start
   cannot resolve it.
   */
  lemma OverrideHidesAMistake(salt: string, master: string)
    requires ByteLen(salt) >= SECRET_MIN_BYTES && ByteLen(master) >= SECRET_MIN_BYTES
    ensures var x := WithSecrets(salt, master);
            && FreshResolve(x, NO_FILES, map[]).Success?
            && var (boot, sources) := FreshResolve(x, NO_FILES, map[]).value;
            && var patched := Patched(x, Success(NO_FILES), State(boot, map[], sources, map[], []), OVERRIDE);
            && patched.Success?
            && Probed(x, Success(NO_FILES), patched.value, MISTYPED).Success?
            && FreshResolve(x, NO_FILES, MISTYPED).Failure?
  {
    hide FromEnv, Canonical, FieldValue, BootLayer, BootDrift, ByteLen, WithBootFields, Capture;
    var x := WithSecrets(salt, master);
    ResolvesWithSecrets(salt, master, map[]);
    var (boot, sources) := FreshResolve(x, NO_FILES, map[]).value;
    var overlay := Inserted(map[], OVERRIDE);
    assert overlay == map[Known(DefaultSessionTtlSeconds) := "600"];
    OverrideResolves(x, NO_FILES, boot, overlay, map[]);
    OverrideResolves(x, NO_FILES, boot, overlay, MISTYPED);
    var patched := Patched(x, Success(NO_FILES), State(boot, map[], sources, map[], []), OVERRIDE);
    OverrideIsAllowed(x, sources);
    var merged := FromEnv(Stack(x, NO_FILES, overlay, map[], BootLayer(boot)).Answers()).value;
    ResolveAfterMerge(x, Success(NO_FILES), boot, merged, overlay, MISTYPED);
    MistypedFails(salt, master);
  }

  lemma MistypedFails(salt: string, master: string)
    ensures FreshResolve(WithSecrets(salt, master), NO_FILES, MISTYPED).Failure?
  {
    hide FromEnv, Canonical;
    var m := RestartStack(WithSecrets(salt, master), NO_FILES, MISTYPED);
    OverrideReads(Salt(m.Answers()));
    ResolvesFieldByField(m.Answers());
    assert Field(m.Answers(), DefaultSessionTtlSeconds).Failure?;
  }

  /**
   A start that skips a stored session lifetime, because it is no number, reports it as shadowed
   though no layer stands above it.
   */
  lemma SkippedIsReportedShadowed(salt: string, master: string)
    requires ByteLen(salt) >= SECRET_MIN_BYTES && ByteLen(master) >= SECRET_MIN_BYTES
    ensures var x := WithSecrets(salt, master);
            && FreshResolve(x, NO_FILES, map[]).Success?
            && var first := FreshResolve(x, NO_FILES, map[]).value;
            && !ApplyStored(first, layer => FreshResolve(x, NO_FILES, layer), MISTYPED, None).applied
            && var s := StartedWith(x, NO_FILES, first, MISTYPED, None);
            && Shadowed(MISTYPED, s.sources) == {Known(DefaultSessionTtlSeconds)}
            && !Outranked(x, s.overlay, Known(DefaultSessionTtlSeconds))
  {
    hide FromEnv;
    ResolvesWithSecrets(salt, master, map[]);
    MistypedFails(salt, master);
  }

  lemma OverrideIsAllowed(x: Surroundings, sources: Provenance)
    requires !SourceIn(sources, DefaultSessionTtlSeconds).IsPinned()
    ensures CheckPatch(x, sources, OVERRIDE).None?
  {
  }

  // An override of the lifetime resolves, whatever the store says of it and the file of the port.
  lemma OverrideResolves(x: Surroundings, files: Files, boot: Config, overlay: Layer, stored: Layer)
    requires FreshResolve(x, NO_FILES, map[]).Success? && boot == FreshResolve(x, NO_FILES, map[]).value.0
    requires overlay == map[Known(DefaultSessionTtlSeconds) := "600"]
    requires stored == map[] || stored == MISTYPED
    requires files == NO_FILES || files == PORT_FILE
    ensures FromEnv(Stack(x, files, overlay, stored, BootLayer(boot)).Answers()).Success?
  {
    hide FromEnv, Canonical, FieldValue, BootLayer, Capture;
    var l, m := Stack(x, NO_FILES, map[], map[], map[]), Stack(x, files, overlay, stored, BootLayer(boot));
    CarryingIsFixpoint(l, boot);
    var carrying := Carrying(l, boot);
    ResolvesFieldByField(carrying.Answers());
    OverrideReads(Salt(m.Answers()));
    StoredPortParses(Salt(m.Answers()));
    assert m.Get(ApiKeySalt) == carrying.Get(ApiKeySalt);
    forall p ensures Field(m.Answers(), p).Success? {
      assert p != DefaultSessionTtlSeconds ==>
               m.Get(p) == carrying.Get(p) || (p == ServerPort && m.Get(p) == Some("8080"));
      assert Field(carrying.Answers(), p).Success?;
    }
    ResolvesFieldByField(m.Answers());
  }
}
