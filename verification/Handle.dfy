/**
 The reloadable configuration handle: a published configuration together with the runtime
 overlay, the stored layer, the provenance and the pending-restart list it was resolved from.

 The functions of `HandleState` say what each call does to that state; the class `ConfigHandle`
 performs the calls and is proved against them.
 */
module HandleState {
  import opened Wrappers
  import opened Params
  import opened Sources
  import opened Configuration

  // What is handed to a process when it starts and cannot change while it runs. The syntax of log
  // filters belongs to a library, so which strings parse as one is a parameter.
  datatype Surroundings = Surroundings(cli: Layer, env: Layer, filterParses: string -> bool)

  datatype Files = Files(envFile: Layer, file: Layer)

  datatype HandleError =
    | Unreadable(text: string)
    | Unresolvable(reason: ConfigError)
    | NotLive(param: Param)
    | NotAKey(name: Name)
    | Pinned(param: Param, source: Source)
    | BadFilter(filter: string)

  // What reading the files named on the command line gives at some moment.
  type FileRead = Result<Files, string>

  datatype State = State(
    config: Config, overlay: Layer, sources: Provenance, stored: Layer, pendingRestart: seq<Param>)

  datatype Outcome = Outcome(config: Config, drift: seq<Param>)

  function Stack(x: Surroundings, files: Files, overlay: Layer, stored: Layer, carried: Layer): LayeredEnv {
    LayeredEnv(overlay, x.cli, x.env, stored, files.envFile, files.file, carried)
  }

  // Resolve from the process's own arguments, with the overlay on top and the running boot values
  // at the bottom.
  function ResolveWithCarry(x: Surroundings, read: FileRead, running: Config, overlay: Layer, stored: Layer)
    : Result<(Config, Provenance), HandleError>
  {
    if read.Failure? then Failure(Unreadable(read.error))
    else
      var l := Stack(x, read.value, overlay, stored, BootLayer(running));
      match FromEnv(l.Answers())
      case Success(config) => Success((config, Capture(l)))
      case Failure(e) => Failure(Unresolvable(e))
  }

  function Reloaded(x: Surroundings, read: FileRead, s: State, stored: Layer): Result<State, HandleError> {
    var (resolved, sources) :- ResolveWithCarry(x, read, s.config, map[], stored);
    Success(State(WithBootFields(s.config, resolved), map[], sources, stored, BootDrift(s.config, resolved)))
  }

  function Adopted(x: Surroundings, read: FileRead, s: State, stored: Layer): Result<State, HandleError> {
    var (resolved, sources) :- ResolveWithCarry(x, read, s.config, s.overlay, stored);
    Success(State(WithBootFields(s.config, resolved), s.overlay, sources, stored, BootDrift(s.config, resolved)))
  }

  function Probed(x: Surroundings, read: FileRead, s: State, stored: Layer): Result<Config, HandleError> {
    var (resolved, _) :- ResolveWithCarry(x, read, s.config, s.overlay, stored);
    Success(resolved)
  }

  // The first key that is not a live parameter's.
  function CheckLive(updates: Updates): (r: Option<HandleError>)
    ensures r.None? <==> forall i :: 0 <= i < |updates| ==>
                           updates[i].0.Known? && ReloadOf(updates[i].0.param) == Live
  {
    if updates == [] then None
    else
      match updates[0].0
      case Known(p) => if ReloadOf(p) == Live then CheckLive(updates[1..]) else Some(NotLive(p))
      case Unknown(_) => Some(NotAKey(updates[0].0))
  }

  // The first key answered by a layer that cannot change while the process runs.
  function CheckPinned(sources: Provenance, updates: Updates): (r: Option<HandleError>)
    ensures r.None? <==> forall i :: 0 <= i < |updates| && updates[i].0.Known? ==>
                           !SourceIn(sources, updates[i].0.param).IsPinned()
  {
    if updates == [] then None
    else
      match updates[0].0
      case Known(p) =>
        var source := SourceIn(sources, p);
        if source.IsPinned() then Some(Pinned(p, source)) else CheckPinned(sources, updates[1..])
      case Unknown(_) => CheckPinned(sources, updates[1..])
  }

  function CheckFilters(x: Surroundings, updates: Updates): (r: Option<HandleError>)
    ensures r.None? <==> forall i :: 0 <= i < |updates| && updates[i].0 == Known(LogLevel) ==>
                           x.filterParses(updates[i].1)
  {
    if updates == [] then None
    else if updates[0].0 == Known(LogLevel) && !x.filterParses(updates[0].1) then Some(BadFilter(updates[0].1))
    else CheckFilters(x, updates[1..])
  }

  function CheckPatch(x: Surroundings, sources: Provenance, updates: Updates): Option<HandleError> {
    var notLive := CheckLive(updates);
    if notLive.Some? then notLive
    else
      var pinned := CheckPinned(sources, updates);
      if pinned.Some? then pinned else CheckFilters(x, updates)
  }

  function Patched(x: Surroundings, read: FileRead, s: State, updates: Updates): Result<State, HandleError> {
    var refused := CheckPatch(x, s.sources, updates);
    if refused.Some? then Failure(refused.value)
    else
      var overlay := Inserted(s.overlay, updates);
      var (resolved, sources) :- ResolveWithCarry(x, read, s.config, overlay, s.stored);
      Success(State(WithBootFields(s.config, resolved), overlay, sources, s.stored, s.pendingRestart))
  }
}

module Handle {
  import opened Wrappers
  import opened Params
  import opened Sources
  import opened Configuration
  import opened HandleState

  class ConfigHandle {
    const surroundings: Surroundings
    var config: Config
    var overlay: Layer
    var sources: Provenance
    var stored: Layer
    var pendingRestart: seq<Param>

    ghost function Contents(): State
      reads this
    {
      State(config, overlay, sources, stored, pendingRestart)
    }

    // `next` is what the call is specified to do: on failure nothing changes.
    ghost predicate Became(next: Result<State, HandleError>, before: State)
      reads this
    {
      Contents() == if next.Success? then next.value else before
    }

    constructor (config: Config, surroundings: Surroundings, sources: Provenance, stored: Layer)
      ensures this.surroundings == surroundings
      ensures Contents() == State(config, map[], sources, stored, [])
    {
      this.surroundings := surroundings;
      this.config, this.sources, this.stored := config, sources, stored;
      overlay, pendingRestart := map[], [];
    }

    /** Re-read every source and publish the result; the overlay is dropped. */
    method Reload(read: FileRead, incoming: Layer) returns (r: Result<Outcome, HandleError>)
      modifies this
      ensures var next := Reloaded(surroundings, read, old(Contents()), incoming);
              && Became(next, old(Contents()))
              && (next.Success? ==> r == Success(Outcome(config, pendingRestart)))
              && (next.Failure? ==> r == Failure(next.error))
    {
      hide ResolveWithCarry, WithBootFields, BootDrift;
      var resolution := ResolveWithCarry(surroundings, read, config, map[], incoming);
      if resolution.Failure? {
        return Failure(resolution.error);
      }
      var (resolved, provenance) := resolution.value;
      var drift := BootDrift(config, resolved);
      config := WithBootFields(config, resolved);
      overlay := map[];
      sources := provenance;
      stored := incoming;
      pendingRestart := drift;
      return Success(Outcome(config, drift));
    }

    /** Adopt a new stored layer and keep the overlay. */
    method AdoptStored(read: FileRead, incoming: Layer) returns (r: Result<Outcome, HandleError>)
      modifies this
      ensures var next := Adopted(surroundings, read, old(Contents()), incoming);
              && Became(next, old(Contents()))
              && (next.Success? ==> r == Success(Outcome(config, pendingRestart)))
              && (next.Failure? ==> r == Failure(next.error))
    {
      hide ResolveWithCarry, WithBootFields, BootDrift;
      var resolution := ResolveWithCarry(surroundings, read, config, overlay, incoming);
      if resolution.Failure? {
        return Failure(resolution.error);
      }
      var (resolved, provenance) := resolution.value;
      var drift := BootDrift(config, resolved);
      config := WithBootFields(config, resolved);
      sources := provenance;
      stored := incoming;
      pendingRestart := drift;
      return Success(Outcome(config, drift));
    }

    /** What adopting `incoming` would resolve to; publishes nothing. */
    method DryRun(read: FileRead, incoming: Layer) returns (r: Result<Config, HandleError>)
      ensures r == Probed(surroundings, read, Contents(), incoming)
    {
      hide ResolveWithCarry, WithBootFields, BootDrift;
      var resolution := ResolveWithCarry(surroundings, read, config, overlay, incoming);
      if resolution.Failure? {
        return Failure(resolution.error);
      }
      return Success(resolution.value.0);
    }

    /** Override live fields in memory, on top of everything else. */
    method Patch(read: FileRead, updates: Updates) returns (r: Result<Config, HandleError>)
      modifies this
      ensures var next := Patched(surroundings, read, old(Contents()), updates);
              && Became(next, old(Contents()))
              && (next.Success? ==> r == Success(config))
              && (next.Failure? ==> r == Failure(next.error))
    {
      hide ResolveWithCarry, WithBootFields, BootDrift;
      for i := 0 to |updates|
        invariant CheckLive(updates) == CheckLive(updates[i..])
      {
        assert updates[i..][1..] == updates[i + 1..];
        match updates[i].0 {
          case Known(p) =>
            if ReloadOf(p) != Live {
              return Failure(NotLive(p));
            }
          case Unknown(_) =>
            return Failure(NotAKey(updates[i].0));
        }
      }
      for i := 0 to |updates|
        invariant CheckPinned(sources, updates) == CheckPinned(sources, updates[i..])
      {
        assert updates[i..][1..] == updates[i + 1..];
        if updates[i].0.Known? {
          var source := SourceIn(sources, updates[i].0.param);
          if source.IsPinned() {
            return Failure(Pinned(updates[i].0.param, source));
          }
        }
      }
      for i := 0 to |updates|
        invariant CheckFilters(surroundings, updates) == CheckFilters(surroundings, updates[i..])
      {
        assert updates[i..][1..] == updates[i + 1..];
        if updates[i].0 == Known(LogLevel) && !surroundings.filterParses(updates[i].1) {
          return Failure(BadFilter(updates[i].1));
        }
      }
      var patched := overlay;
      for i := 0 to |updates|
        invariant patched == Inserted(overlay, updates[..i])
      {
        assert updates[..i + 1][..i] == updates[..i];
        patched := patched[updates[i].0 := updates[i].1];
      }
      assert updates[..|updates|] == updates;
      var resolution := ResolveWithCarry(surroundings, read, config, patched, stored);
      if resolution.Failure? {
        return Failure(resolution.error);
      }
      var (resolved, provenance) := resolution.value;
      config := WithBootFields(config, resolved);
      overlay := patched;
      sources := provenance;
      return Success(config);
    }
  }
}
