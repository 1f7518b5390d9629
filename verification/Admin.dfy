/**
 The administration requests, which keep the settings table and the configuration handle in step:
 check, dry run, write the table, adopt.

 The functions of `AdminRequests` say what each request does to the two together; the class
 `AdminApi` performs them and is proved against those functions.
 */
module AdminRequests {
  import opened Wrappers
  import opened Params
  import opened Sources
  import opened Configuration
  import opened ConfigTables
  import opened HandleState
  import Text

  // A number is its text: what is stored is how it prints.
  datatype Json = JsonString(text: string) | JsonNumber(text: string) | JsonBool(flag: bool) | JsonOther

  type Body = seq<(Name, Json)>

  datatype AdminError =
    | Forbidden
    | NoFields
    | NotScalar(name: Name)
    | NoSuchField(name: Name)
    | NotPersistable(param: Param)
    | NotReloadable(param: Param)
    | PinnedAt(param: Param, source: Source)
    | Rejected(error: HandleError)
    | NothingStored(name: Name)

  datatype Server = Server(tables: Tables, handle: State)

  // Resolution reads the files anew each time, so a request that resolves twice is given both.
  datatype FileReads = FileReads(probe: FileRead, adopt: FileRead)

  // What the answer to a write says became of the fields it touched.
  datatype PutReport = PutReport(generation: int, masked: seq<Param>, waiting: seq<Param>)

  function RawText(value: Json): (r: Option<string>)
    ensures r.None? <==> value.JsonOther?
  {
    match value
    case JsonString(s) => Some(s)
    case JsonNumber(n) => Some(n)
    case JsonBool(b) => Some(Text.PrintBool(b))
    case JsonOther => None
  }

  // The raw strings of a body, or its first value that is none.
  function Coerced(body: Body): (r: Result<Updates, AdminError>)
    ensures r.Success? <==> forall i :: 0 <= i < |body| ==> !body[i].1.JsonOther?
    ensures r.Success? ==> |r.value| == |body|
    ensures r.Success? ==> forall i :: 0 <= i < |body| ==>
                             r.value[i].0 == body[i].0 && RawText(body[i].1) == Some(r.value[i].1)
  {
    if body == [] then Success([])
    else
      var raw := RawText(body[0].1);
      if raw.None? then Failure(NotScalar(body[0].0))
      else
        var rest :- Coerced(body[1..]);
        Success([(body[0].0, raw.value)] + rest)
  }

  function Unstorable(e: StoreError): AdminError {
    match e
    case NotPersistable(name) => if name.Known? then AdminError.NotPersistable(name.param) else NoSuchField(name)
    case NotAField(name) => NoSuchField(name)
  }

  // The writes a body asks for, once everything that can be refused without resolving has been.
  function Checked(config: Config, body: Body): (r: Result<Updates, AdminError>)
    ensures r.Success? <==> config.adminConfigWrite && body != []
                            && forall i :: 0 <= i < |body| ==> !body[i].1.JsonOther? && Storable(body[i].0)
    ensures r.Success? ==> Coerced(body) == Success(r.value)
    ensures r.Success? ==> forall i :: 0 <= i < |r.value| ==> Storable(r.value[i].0)
  {
    if !config.adminConfigWrite then Failure(Forbidden)
    else if body == [] then Failure(NoFields)
    else
      var updates :- Coerced(body);
      match CheckWritable(updates)
      case Some(e) => Failure(Unstorable(e))
      case None => Success(updates)
  }

  function Touched(updates: Updates): (r: seq<Param>)
    ensures forall p :: p in r <==> exists i :: 0 <= i < |updates| && updates[i].0 == Known(p)
  {
    if updates == [] then []
    else
      (if updates[0].0.Known? then [updates[0].0.param] else []) + Touched(updates[1..])
  }

  // Those of `ps` some layer other than the store answered for.
  function Masked(ps: seq<Param>, sources: Provenance): (r: seq<Param>)
    ensures forall p :: p in r <==> p in ps && SourceIn(sources, p) != Stored
  {
    if ps == [] then []
    else (if SourceIn(sources, ps[0]) != Stored then [ps[0]] else []) + Masked(ps[1..], sources)
  }

  // Those of `drift` this write touched and nothing masks.
  function Waiting(drift: seq<Param>, touched: seq<Param>, masked: seq<Param>): (r: seq<Param>)
    ensures forall p :: p in r <==> p in drift && p in touched && p !in masked
  {
    if drift == [] then []
    else
      (if drift[0] in touched && drift[0] !in masked then [drift[0]] else []) + Waiting(drift[1..], touched, masked)
  }

  function Report(generation: int, updates: Updates, drift: seq<Param>, sources: Provenance): PutReport {
    var masked := Masked(Touched(updates), sources);
    PutReport(generation, masked, Waiting(drift, Touched(updates), masked))
  }

  function PutStored(x: Surroundings, seen: FileReads, s: Server, body: Body): (Server, Result<PutReport, AdminError>) {
    match Checked(s.handle.config, body)
    case Failure(e) => (s, Failure(e))
    case Success(updates) =>
      var candidate := Inserted(s.handle.stored, updates);
      match Probed(x, seen.probe, s.handle, candidate)
      case Failure(e) => (s, Failure(Rejected(e)))
      case Success(_) =>
        var (tables, written) := Set(s.tables, updates);
        match Adopted(x, seen.adopt, s.handle, candidate)
        case Failure(e) => (Server(tables, s.handle), Failure(Rejected(e)))
        case Success(handle) =>
          (Server(tables, handle),
           Success(Report(written.value, updates, handle.pendingRestart, handle.sources)))
  }

  // Success says whether the answer asks for a restart.
  function DeleteStored(x: Surroundings, seen: FileReads, s: Server, name: Name): (Server, Result<bool, AdminError>) {
    if !s.handle.config.adminConfigWrite then (s, Failure(Forbidden))
    else if name.Unknown? then (s, Failure(NoSuchField(name)))
    else
      var candidate := s.handle.stored - {name};
      match Probed(x, seen.probe, s.handle, candidate)
      case Failure(e) => (s, Failure(Rejected(e)))
      case Success(_) =>
        var (tables, deleted) := Unset(s.tables, name);
        if !deleted then (s, Failure(NothingStored(name)))
        else
          match Adopted(x, seen.adopt, s.handle, candidate)
          case Failure(e) => (Server(tables, s.handle), Failure(Rejected(e)))
          case Success(handle) => (Server(tables, handle), Success(name.param in handle.pendingRestart))
  }

  // The overrides a body asks for: for each field in turn it must exist, be live, not be pinned,
  // and have a scalar value.
  function Overrides(sources: Provenance, body: Body): (r: Result<Updates, AdminError>)
    ensures r.Success? ==> Coerced(body) == Success(r.value)
    ensures r.Success? <==> forall i :: 0 <= i < |body| ==>
                              && body[i].0.Known? && ReloadOf(body[i].0.param) == Live
                              && !SourceIn(sources, body[i].0.param).IsPinned() && !body[i].1.JsonOther?
  {
    if body == [] then Success([])
    else
      match body[0].0
      case Unknown(_) => Failure(NoSuchField(body[0].0))
      case Known(p) =>
        if ReloadOf(p) != Live then Failure(NotReloadable(p))
        else if SourceIn(sources, p).IsPinned() then Failure(PinnedAt(p, SourceIn(sources, p)))
        else if RawText(body[0].1).None? then Failure(NotScalar(body[0].0))
        else
          var rest :- Overrides(sources, body[1..]);
          Success([(body[0].0, RawText(body[0].1).value)] + rest)
  }

  function PatchConfig(x: Surroundings, read: FileRead, s: Server, body: Body): (Server, Result<Config, AdminError>) {
    if !s.handle.config.adminConfigWrite then (s, Failure(Forbidden))
    else if body == [] then (s, Failure(NoFields))
    else
      match Overrides(s.handle.sources, body)
      case Failure(e) => (s, Failure(e))
      case Success(updates) =>
        match Patched(x, read, s.handle, updates)
        case Failure(e) => (s, Failure(Rejected(e)))
        case Success(handle) => (s.(handle := handle), Success(handle.config))
  }

  function ReloadWith(x: Surroundings, read: FileRead, s: Server, stored: Layer)
    : (Server, Result<Outcome, AdminError>)
  {
    match Reloaded(x, read, s.handle, stored)
    case Failure(e) => (s, Failure(Rejected(e)))
    case Success(handle) => (s.(handle := handle), Success(Outcome(handle.config, handle.pendingRestart)))
  }

  // A reload through the API re-reads everything but the store.
  function ReloadConfig(x: Surroundings, read: FileRead, s: Server): (Server, Result<Outcome, AdminError>) {
    ReloadWith(x, read, s, s.handle.stored)
  }

  // A reload on a hangup signal re-reads the store too.
  function Hangup(x: Surroundings, read: FileRead, s: Server): (Server, Result<Outcome, AdminError>) {
    ReloadWith(x, read, s, Honoured(s.tables.settings))
  }

  // The stored fields reported as overridden.
  function Shadowed(visible: Layer, sources: Provenance): (r: set<Name>)
    ensures r <= visible.Keys
  {
    set n | n in visible && n.Known? && SourceIn(sources, n.param) != Stored
  }
}

module Admin {
  import opened Wrappers
  import opened Params
  import opened Sources
  import opened Configuration
  import opened ConfigTables
  import opened HandleState
  import opened AdminRequests
  import ConfigStore
  import Handle

  class AdminApi {
    const store: ConfigStore.ConfigStore
    const handle: Handle.ConfigHandle

    ghost function Contents(): Server
      reads this, store, handle
    {
      Server(store.Contents(), handle.Contents())
    }

    constructor (store: ConfigStore.ConfigStore, handle: Handle.ConfigHandle)
      ensures this.store == store && this.handle == handle
    {
      this.store, this.handle := store, handle;
    }

    static method Coerce(body: Body) returns (r: Result<Updates, AdminError>)
      ensures r == Coerced(body)
    {
      var updates: Updates := [];
      for i := 0 to |body|
        invariant |updates| == i
        invariant forall k :: 0 <= k < i ==>
                    updates[k].0 == body[k].0 && RawText(body[k].1) == Some(updates[k].1)
      {
        var raw := RawText(body[i].1);
        if raw.None? {
          FirstNonScalar(body, i);
          return Failure(NotScalar(body[i].0));
        }
        updates := updates + [(body[i].0, raw.value)];
      }
      assert Coerced(body).value == updates;
      return Success(updates);
    }

    static lemma {:induction false} FirstNonScalar(body: Body, i: nat)
      requires i < |body| && body[i].1.JsonOther?
      requires forall k :: 0 <= k < i ==> !body[k].1.JsonOther?
      ensures Coerced(body) == Failure(NotScalar(body[i].0))
    {
      if i > 0 {
        FirstNonScalar(body[1..], i - 1);
      }
    }

    static method Insert(layer: Layer, updates: Updates) returns (r: Layer)
      ensures r == Inserted(layer, updates)
    {
      r := layer;
      for i := 0 to |updates|
        invariant r == Inserted(layer, updates[..i])
      {
        assert updates[..i + 1][..i] == updates[..i];
        r := r[updates[i].0 := updates[i].1];
      }
      assert updates[..|updates|] == updates;
    }

    /** Persist settings: check, dry-run, write the table, and only then adopt. */
    method Put(seen: FileReads, body: Body) returns (r: Result<PutReport, AdminError>)
      modifies store, handle
      ensures (Contents(), r) == PutStored(handle.surroundings, seen, old(Contents()), body)
    {
      hide Probed, Adopted, Coerced, CheckWritable, Inserted, Report, OpenGeneration;
      if !handle.config.adminConfigWrite {
        return Failure(Forbidden);
      }
      if body == [] {
        return Failure(NoFields);
      }
      var coerced := Coerce(body);
      if coerced.Failure? {
        return Failure(coerced.error);
      }
      var updates := coerced.value;
      var refused := ConfigStore.ConfigStore.Check(updates);
      if refused.Some? {
        return Failure(Unstorable(refused.value));
      }
      var candidate := Insert(handle.stored, updates);
      var probe := handle.DryRun(seen.probe, candidate);
      if probe.Failure? {
        return Failure(Rejected(probe.error));
      }
      var written := store.Write(updates);
      var adopted := handle.AdoptStored(seen.adopt, candidate);
      if adopted.Failure? {
        return Failure(Rejected(adopted.error));
      }
      return Success(Report(written.value, updates, adopted.value.drift, handle.sources));
    }

    /** Remove one stored setting, validating what would be left before touching the table. */
    method Delete(seen: FileReads, name: Name) returns (r: Result<bool, AdminError>)
      modifies store, handle
      ensures (Contents(), r) == DeleteStored(handle.surroundings, seen, old(Contents()), name)
    {
      hide Probed, Adopted, OpenGeneration;
      if !handle.config.adminConfigWrite {
        return Failure(Forbidden);
      }
      if name.Unknown? {
        return Failure(NoSuchField(name));
      }
      var candidate := handle.stored - {name};
      var probe := handle.DryRun(seen.probe, candidate);
      if probe.Failure? {
        return Failure(Rejected(probe.error));
      }
      var deleted := store.Remove(name);
      if !deleted {
        return Failure(NothingStored(name));
      }
      var adopted := handle.AdoptStored(seen.adopt, candidate);
      if adopted.Failure? {
        return Failure(Rejected(adopted.error));
      }
      return Success(name.param in adopted.value.drift);
    }

    // `whole` is the result for a body of which `done` is what its first values came to and
    // `rest` the result for those that follow.
    static ghost predicate Continued(done: Updates, rest: Result<Updates, AdminError>,
                                     whole: Result<Updates, AdminError>)
    {
      && (rest.Failure? ==> whole == rest)
      && (rest.Success? ==> whole.Success? && whole.value == done + rest.value)
    }

    /** Override live fields in memory only. */
    method Patch(read: FileRead, body: Body) returns (r: Result<Config, AdminError>)
      modifies handle
      ensures (Contents(), r) == PatchConfig(handle.surroundings, read, old(Contents()), body)
    {
      hide Patched;
      if !handle.config.adminConfigWrite {
        return Failure(Forbidden);
      }
      if body == [] {
        return Failure(NoFields);
      }
      var updates: Updates := [];
      for i := 0 to |body|
        invariant unchanged(handle) && unchanged(store)
        invariant Continued(updates, Overrides(handle.sources, body[i..]), Overrides(handle.sources, body))
      {
        assert body[i..][1..] == body[i + 1..];
        match body[i].0 {
          case Unknown(_) =>
            return Failure(NoSuchField(body[i].0));
          case Known(p) =>
            if ReloadOf(p) != Live {
              return Failure(NotReloadable(p));
            }
            var source := SourceIn(handle.sources, p);
            if source.IsPinned() {
              return Failure(PinnedAt(p, source));
            }
            var raw := RawText(body[i].1);
            if raw.None? {
              return Failure(NotScalar(body[i].0));
            }
            updates := updates + [(body[i].0, raw.value)];
        }
      }
      assert body[|body|..] == [] && updates + [] == updates;
      var patched := handle.Patch(read, updates);
      if patched.Failure? {
        return Failure(Rejected(patched.error));
      }
      return Success(patched.value);
    }

    /** Re-read every source but the store, dropping the overrides. */
    method Reload(read: FileRead) returns (r: Result<Outcome, AdminError>)
      modifies handle
      ensures (Contents(), r) == ReloadConfig(handle.surroundings, read, old(Contents()))
    {
      hide Reloaded;
      var reloaded := handle.Reload(read, handle.stored);
      if reloaded.Failure? {
        return Failure(Rejected(reloaded.error));
      }
      return Success(reloaded.value);
    }

    /** What a hangup signal does: re-read every source, the store among them. */
    method HangUp(read: FileRead) returns (r: Result<Outcome, AdminError>)
      modifies handle
      ensures (Contents(), r) == Hangup(handle.surroundings, read, old(Contents()))
    {
      hide Reloaded;
      var stored := store.Load();
      var reloaded := handle.Reload(read, stored);
      if reloaded.Failure? {
        return Failure(Rejected(reloaded.error));
      }
      return Success(reloaded.value);
    }
  }
}
