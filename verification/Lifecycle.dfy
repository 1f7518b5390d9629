/**
 Server processes over one configuration store: at most one process at a time, which starts,
 may serve long enough to confirm the generation it booted with, and stops or crashes; writes
 arrive at any time.
 */
module Lifecycle {
  import opened Wrappers
  import opened Params
  import opened ConfigTables
  import opened Pruning
  import opened Startup

  // `due` is the generation the confirm task will confirm once the process has served.
  datatype Process = Process(due: Option<int>)

  datatype World = World(tables: Tables, process: Option<Process>)

  datatype Write = SetWrite(updates: Updates) | UnsetWrite(name: Name) | ClearWrite

  // A start carries what its arguments, environment and files make of the configuration: `first`
  // without the store, and `resolve` for every stored layer.
  datatype Event<C, E> =
    | Written(write: Write)
    | Started(ignoreStored: bool, first: C, resolve: Layer -> Result<C, E>)
    | Served
    | Stopped

  const INITIAL := World(EMPTY, None)

  function Apply(t: Tables, w: Write): Tables {
    match w
    case SetWrite(updates) => Set(t, updates).0
    case UnsetWrite(name) => Unset(t, name).0
    case ClearWrite => Clear(t).0
  }

  function Generationed(outcome: BootOutcome): Option<int> {
    match outcome
    case Clean(current) => current
    case Trying(trial) => Some(trial)
    case RolledBackTo(_, _) => None
  }

  // A start told to ignore the store neither reads nor writes it.
  function Start<C, E>(t: Tables, ignoreStored: bool, first: C, resolve: Layer -> Result<C, E>): World {
    if ignoreStored then World(t, Some(Process(None)))
    else
      var (t', outcome) := PrepareBoot(t);
      var booted := ApplyStored(first, resolve, Honoured(t'.settings), Generationed(outcome));
      World(t', Some(Process(booted.confirmable)))
  }

  function Next<C, E>(w: World, e: Event<C, E>): World {
    match e
    case Written(write) => w.(tables := Apply(w.tables, write))
    case Started(ignoreStored, first, resolve) =>
      if w.process.Some? then w else Start(w.tables, ignoreStored, first, resolve)
    case Served =>
      if w.process.Some? && w.process.value.due.Some? then
        World(Confirm(w.tables, w.process.value.due.value, true).0, Some(Process(None)))
      else w
    case Stopped => w.(process := None)
  }

  // The world before event `n`.
  function At<C, E>(es: seq<Event<C, E>>, n: nat): World
    requires n <= |es|
  {
    if n == 0 then INITIAL else Next(At(es, n - 1), es[n - 1])
  }

  // Event `i` is a start that consults the store.
  ghost predicate Boots<C, E>(es: seq<Event<C, E>>, i: nat)
    requires i < |es|
  {
    es[i].Started? && !es[i].ignoreStored && At(es, i).process.None?
  }

  ghost function Outcome<C, E>(es: seq<Event<C, E>>, i: nat): BootOutcome
    requires i < |es|
  {
    PrepareBoot(At(es, i).tables).1
  }

  function Newest(t: Tables): Generation
    requires t.generations != []
  {
    t.generations[|t.generations| - 1]
  }

  // ---- What every reachable world satisfies ------------------------------------------------

  /** The settings are those the newest generation stands for. */
  ghost predicate SettingsMatch(t: Tables) {
    t.settings ==
    if t.generations == [] then map[]
    else if Newest(t).status == RolledBack then KnownGood(t.generations)
    else Newest(t).snapshot
  }

  // Confirming deletes what is older, so only the oldest row can be a confirmed one.
  ghost predicate OldestConfirmed(gs: seq<Generation>) {
    forall i :: 0 < i < |gs| ==> gs[i].status != Confirmed
  }

  ghost predicate Sound(w: World) {
    && w.tables.Valid()
    && SettingsMatch(w.tables)
    && (w.tables.generations != [] ==> Newest(w.tables).id == w.tables.lastId)
    && (w.tables.generations == [] ==> w.tables.lastId == 0)
    && OldestConfirmed(w.tables.generations)
    // A confirmation still to come concerns a rolled-back store only if it will miss.
    && (w.process.Some? && w.process.value.due.Some? && w.tables.generations != []
        && PendingAt(w.tables.generations, w.process.value.due.value)
        ==> Newest(w.tables).status != RolledBack)
  }

  lemma {:induction false} OpenSound(t: Tables, process: Option<Process>)
    requires t.Valid()
    requires t.generations != [] ==> Newest(t).id == t.lastId
    requires OldestConfirmed(t.generations)
    ensures Sound(World(OpenGeneration(t), process))
  {
  }

  lemma {:induction false} TrialSound(t: Tables, process: Process)
    requires Sound(World(t, None)) && PrepareBoot(t).1.Trying?
    ensures Sound(World(PrepareBoot(t).0, Some(process)))
  {
    SameIdsValid(t, PrepareBoot(t).0.generations);
  }

  lemma {:induction false} RollbackSound(t: Tables)
    requires Sound(World(t, None)) && PrepareBoot(t).1.RolledBackTo?
    ensures Sound(World(PrepareBoot(t).0, Some(Process(None))))
  {
    var gs' := PrepareBoot(t).0.generations;
    SameIdsValid(t, gs');
    assert gs'[..|gs'| - 1] == t.generations[..|gs'| - 1];
  }

  lemma {:induction false} CleanSound(t: Tables, due: Option<int>)
    requires Sound(World(t, None)) && PrepareBoot(t).1.Clean?
    requires due.Some? ==> PrepareBoot(t).1 == Clean(due)
    ensures Sound(World(t, Some(Process(due))))
  {
    if due.Some? && PendingAt(t.generations, due.value) {
      var i := PendingIndex(t.generations, due.value);
      assert t.generations[|t.generations| - 1].id == due.value;
      assert i == |t.generations| - 1;
    }
  }

  lemma {:induction false} StartSound<C, E>(t: Tables, ignoreStored: bool, first: C, resolve: Layer -> Result<C, E>)
    requires Sound(World(t, None))
    ensures Sound(Start(t, ignoreStored, first, resolve))
  {
    var process := Start(t, ignoreStored, first, resolve).process.value;
    if !ignoreStored {
      match PrepareBoot(t).1 {
        case Clean(_) => CleanSound(t, process.due);
        case Trying(_) => TrialSound(t, process);
        case RolledBackTo(_, _) => RollbackSound(t);
      }
    }
  }

  lemma {:induction false} ConfirmedNewest(gs: seq<Generation>, i: nat)
    requires i < |gs| && OldestConfirmed(gs)
    ensures var kept := AfterConfirm(gs, i, true);
            && kept != [] && OldestConfirmed(kept)
            && kept[|kept| - 1] == if i == |gs| - 1 then gs[i].(status := Confirmed) else gs[|gs| - 1]
  {
  }

  lemma {:induction false} ServeSound(t: Tables, id: int)
    requires Sound(World(t, Some(Process(Some(id)))))
    ensures Sound(World(Confirm(t, id, true).0, Some(Process(None))))
  {
    if PendingAt(t.generations, id) {
      var i := PendingIndex(t.generations, id);
      ConfirmAt(t, id, i, true);
      ConfirmValid(t, id, true);
      ConfirmedNewest(t.generations, i);
    }
  }

  lemma {:induction false} WriteSound(w: World, write: Write)
    requires Sound(w)
    ensures Sound(w.(tables := Apply(w.tables, write)))
  {
    match write {
      case SetWrite(updates) =>
        OpenSound(w.tables.(settings := Inserted(w.tables.settings, updates)), w.process);
      case UnsetWrite(name) =>
        OpenSound(w.tables.(settings := w.tables.settings - {name}), w.process);
      case ClearWrite =>
        OpenSound(w.tables.(settings := map[]), w.process);
    }
  }

  lemma {:induction false} NextSound<C, E>(w: World, e: Event<C, E>)
    requires Sound(w)
    ensures Sound(Next(w, e))
  {
    match e {
      case Written(write) =>
        WriteSound(w, write);
      case Started(ignoreStored, first, resolve) =>
        if w.process.None? {
          StartSound(w.tables, ignoreStored, first, resolve);
        }
      case Served =>
        if w.process.Some? && w.process.value.due.Some? {
          ServeSound(w.tables, w.process.value.due.value);
        }
      case Stopped =>
    }
  }

  /** In every reachable world the settings are those the newest generation stands for. */
  lemma {:induction false} SettingsAlwaysMatch<C, E>(es: seq<Event<C, E>>, n: nat)
    requires n <= |es|
    ensures Sound(At(es, n))
  {
    if n > 0 {
      SettingsAlwaysMatch(es, n - 1);
      NextSound(At(es, n - 1), es[n - 1]);
    }
  }
}
