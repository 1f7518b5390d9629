/**
 The persisted configuration: the settings table, and the generations that let a configuration
 which prevents startup be undone at the next boot.

 `Tables` and the functions over it say what each operation does to the two tables; the class
 `ConfigStore` performs the operations and is proved against them.
 */
module ConfigTables {
  import opened Wrappers
  import opened Params

  type Settings = map<Name, string>

  datatype Status = Pending | Confirmed | RolledBack

  datatype Generation = Generation(id: int, snapshot: Settings, status: Status, attempts: nat)

  // `generations` lists the rows in id order. `lastId` is the largest id ever given out: the id
  // column is AUTOINCREMENT, so an id is never given out twice even after its row is deleted.
  datatype Tables = Tables(settings: Settings, generations: seq<Generation>, lastId: nat) {
    predicate Valid() {
      && (forall i :: 0 <= i < |generations| ==> 1 <= generations[i].id <= lastId)
      && (forall i, j :: 0 <= i < j < |generations| ==> generations[i].id < generations[j].id)
    }
  }

  const EMPTY := Tables(map[], [], 0)

  datatype StoreError = NotPersistable(name: Name) | NotAField(name: Name)

  datatype BootOutcome =
    | Clean(current: Option<int>)
    | Trying(trial: int)
    | RolledBackTo(undone: int, restoredFields: nat)

  // The first name the store refuses, if any.
  function CheckWritable(updates: Updates): (r: Option<StoreError>)
    ensures r.None? <==> forall i :: 0 <= i < |updates| ==> Storable(updates[i].0)
  {
    if updates == [] then None
    else
      match updates[0].0
      case Known(p) =>
        if PersistOf(p) == Allowed then CheckWritable(updates[1..])
        else Some(NotPersistable(updates[0].0))
      case Unknown(_) => Some(NotAField(updates[0].0))
  }

  function OpenGeneration(t: Tables): Tables {
    t.(generations := t.generations + [Generation(t.lastId + 1, t.settings, Pending, 0)],
       lastId := t.lastId + 1)
  }

  function Set(t: Tables, updates: Updates): (Tables, Result<int, StoreError>) {
    var refused := CheckWritable(updates);
    if refused.Some? then (t, Failure(refused.value))
    else (OpenGeneration(t.(settings := Inserted(t.settings, updates))), Success(t.lastId + 1))
  }

  function Unset(t: Tables, name: Name): (Tables, bool) {
    if name in t.settings then (OpenGeneration(t.(settings := t.settings - {name})), true)
    else (t, false)
  }

  function Clear(t: Tables): (Tables, nat) {
    if t.settings == map[] then (t, 0)
    else (OpenGeneration(t.(settings := map[])), |t.settings|)
  }

  // The snapshot of the newest confirmed generation.
  function LastConfirmed(gs: seq<Generation>): Option<Settings> {
    if gs == [] then None
    else if gs[|gs| - 1].status == Confirmed then Some(gs[|gs| - 1].snapshot)
    else LastConfirmed(gs[..|gs| - 1])
  }

  // What a rollback restores: the last settings a process was seen to run with, or none at all.
  function KnownGood(gs: seq<Generation>): Settings {
    match LastConfirmed(gs)
    case Some(snapshot) => snapshot
    case None => map[]
  }

  function PrepareBoot(t: Tables): (Tables, BootOutcome) {
    if t.generations == [] then (t, Clean(None))
    else
      var n := |t.generations| - 1;
      var newest := t.generations[n];
      if newest.status != Pending then (t, Clean(Some(newest.id)))
      else if newest.attempts == 0 then
        (t.(generations := t.generations[n := newest.(attempts := 1)]), Trying(newest.id))
      else
        var restore := KnownGood(t.generations);
        (t.(settings := restore,
            generations := t.generations[n := newest.(status := RolledBack)]),
         RolledBackTo(newest.id, |restore|))
  }

  function ConfirmRow(g: Generation, id: int): Generation {
    if g.id == id && g.status == Pending then g.(status := Confirmed) else g
  }

  // UPDATE ... SET status = 'confirmed' WHERE id = ? AND status = 'pending'
  function ConfirmRows(gs: seq<Generation>, id: int): (r: seq<Generation>) {
    seq(|gs|, i requires 0 <= i < |gs| => ConfirmRow(gs[i], id))
  }

  predicate PendingAt(gs: seq<Generation>, id: int) {
    exists i :: 0 <= i < |gs| && gs[i].id == id && gs[i].status == Pending
  }

  // The rows left by `DELETE ... WHERE id < ?`.
  function NotOlder(gs: seq<Generation>, id: int): seq<Generation> {
    if gs == [] then []
    else if gs[0].id < id then NotOlder(gs[1..], id)
    else [gs[0]] + NotOlder(gs[1..], id)
  }

  // `prune` is true of the store; false describes one that keeps every generation for ever.
  function Confirm(t: Tables, id: int, prune: bool): (Tables, bool) {
    if !PendingAt(t.generations, id) then (t, false)
    else
      var marked := ConfirmRows(t.generations, id);
      (t.(generations := if prune then NotOlder(marked, id) else marked), true)
  }

  // The rows the configuration stack honours.
  function Honoured(s: Settings): (r: Layer)
    ensures forall n :: n in r <==> n in s && Storable(n)
    ensures forall n :: n in r ==> r[n] == s[n]
  {
    map n | n in s && Storable(n) :: s[n]
  }
}

module ConfigStore {
  import opened Wrappers
  import opened Params
  import opened ConfigTables

  class ConfigStore {
    var settings: Settings
    var generations: seq<Generation>
    var lastId: nat

    ghost function Contents(): Tables
      reads this
    {
      Tables(settings, generations, lastId)
    }

    constructor ()
      ensures Contents() == EMPTY
    {
      settings, generations, lastId := map[], [], 0;
    }

    /** The stored settings as a configuration layer: every row naming a storable field. */
    method Load() returns (kept: Layer)
      ensures kept == Honoured(settings)
    {
      kept := map[];
      var rest := settings.Keys;
      while rest != {}
        invariant rest <= settings.Keys
        invariant kept == map n | n in settings && n !in rest && Storable(n) :: settings[n]
        decreases |rest|
      {
        var name :| name in rest;
        if name.Known? && PersistOf(name.param) == Allowed {
          kept := kept[name := settings[name]];
        }
        rest := rest - {name};
      }
    }

    static method Check(updates: Updates) returns (refused: Option<StoreError>)
      ensures refused == CheckWritable(updates)
    {
      for i := 0 to |updates|
        invariant CheckWritable(updates) == CheckWritable(updates[i..])
      {
        match updates[i].0 {
          case Known(p) =>
            if PersistOf(p) != Allowed {
              return Some(NotPersistable(updates[i].0));
            }
          case Unknown(_) =>
            return Some(NotAField(updates[i].0));
        }
        assert updates[i..][1..] == updates[i + 1..];
      }
      return None;
    }

    method Open() returns (id: int)
      modifies this
      ensures Contents() == OpenGeneration(old(Contents()))
      ensures id == lastId
    {
      id := lastId + 1;
      generations := generations + [Generation(id, settings, Pending, 0)];
      lastId := id;
    }

    /** Write settings and open a generation holding the table as it stands after the write. */
    method Write(updates: Updates) returns (r: Result<int, StoreError>)
      modifies this
      ensures (Contents(), r) == Set(old(Contents()), updates)
    {
      var refused := Check(updates);
      if refused.Some? {
        return Failure(refused.value);
      }
      for i := 0 to |updates|
        invariant settings == Inserted(old(settings), updates[..i])
        invariant generations == old(generations) && lastId == old(lastId)
      {
        settings := settings[updates[i].0 := updates[i].1];
        assert updates[..i + 1][..i] == updates[..i];
      }
      assert updates[..|updates|] == updates;
      var id := Open();
      return Success(id);
    }

    /** Remove one setting; a generation is opened only when a row was there to remove. */
    method Remove(name: Name) returns (deleted: bool)
      modifies this
      ensures (Contents(), deleted) == Unset(old(Contents()), name)
    {
      deleted := name in settings;
      settings := settings - {name};
      if deleted {
        var _ := Open();
      }
      assert !deleted ==> settings == old(settings);
    }

    method RemoveAll() returns (deleted: nat)
      modifies this
      ensures (Contents(), deleted) == Clear(old(Contents()))
    {
      deleted := |settings|;
      settings := map[];
      if deleted > 0 {
        var _ := Open();
      }
      assert deleted == 0 ==> old(settings) == map[];
    }

    /** Decide what this boot does about the newest generation: try it, undo it, or leave it. */
    method Prepare() returns (outcome: BootOutcome)
      modifies this
      ensures (Contents(), outcome) == PrepareBoot(old(Contents()))
    {
      if generations == [] {
        return Clean(None);
      }
      var n := |generations| - 1;
      var newest := generations[n];
      if newest.status != Pending {
        return Clean(Some(newest.id));
      }
      if newest.attempts == 0 {
        generations := generations[n := newest.(attempts := newest.attempts + 1)];
        return Trying(newest.id);
      }
      var restore := KnownGood(generations);
      settings := map[];
      var rest := restore.Keys;
      while rest != {}
        invariant rest <= restore.Keys
        invariant settings == map f | f in restore && f !in rest :: restore[f]
        invariant generations == old(generations) && lastId == old(lastId)
        decreases |rest|
      {
        var field :| field in rest;
        settings := settings[field := restore[field]];
        rest := rest - {field};
      }
      assert settings == restore;
      generations := generations[n := newest.(status := RolledBack)];
      return RolledBackTo(newest.id, |restore|);
    }

    /** Mark a generation as one a process ran with, and delete the rows it supersedes. */
    method Approve(id: int) returns (updated: bool)
      modifies this
      ensures (Contents(), updated) == Confirm(old(Contents()), id, true)
    {
      updated := PendingAt(generations, id);
      if updated {
        generations := ConfirmRows(generations, id);
        generations := NotOlder(generations, id);
      }
    }
  }
}
