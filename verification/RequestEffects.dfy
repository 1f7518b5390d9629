/**
 What a request leaves behind is what it said: the texts a write stores, the overrides a patch sets,
 and nothing at all where writes are disabled.
 */
module RequestEffects {
  import opened Wrappers
  import opened Params
  import opened Text
  import opened Configuration
  import opened ConfigTables
  import opened HandleState
  import opened AdminRequests
  import opened AdminRuns
  import Pruning

  // `text` says what the value does: a string or a number as it stands, and a flag as a text that
  // every parser of flags reads back.
  ghost predicate Says(value: Json, text: string) {
    match value
    case JsonString(s) => text == s
    case JsonNumber(n) => text == n
    case JsonBool(b) => ParseBoolStrict(text) == Some(b) && ParseBoolLenient(text) == Some(b)
    case JsonOther => false
  }

  lemma TextSays(value: Json)
    ensures RawText(value).Some? ==> Says(value, RawText(value).value)
  {
    hide ParseBoolStrict, ParseBoolLenient, PrintBool;
    if value.JsonBool? {
      BoolRoundTrip(value.flag);
    }
  }

  // `after` is `before` with every field of the body set to what the body says, and no other changed.
  ghost predicate SetAsSaid(before: map<Name, string>, after: map<Name, string>, body: Body) {
    && (forall i :: 0 <= i < |body| ==> body[i].0 in after && Says(body[i].1, after[body[i].0]))
    && (forall n :: (forall i :: 0 <= i < |body| ==> body[i].0 != n) ==>
          (n in after <==> n in before) && (n in after ==> after[n] == before[n]))
  }

  lemma InsertedAsSaid(before: map<Name, string>, body: Body)
    requires NamesOnce(body) && Coerced(body).Success?
    ensures SetAsSaid(before, Inserted(before, Coerced(body).value), body)
  {
    hide Says, RawText, Coerced, Inserted;
    var updates := Coerced(body).value;
    forall i | 0 <= i < |body|
      ensures body[i].0 in Inserted(before, updates) && Says(body[i].1, Inserted(before, updates)[body[i].0])
    {
      InsertedLooksUp(before, updates, i);
      TextSays(body[i].1);
    }
    forall n | forall i :: 0 <= i < |body| ==> body[i].0 != n
      ensures (n in Inserted(before, updates) <==> n in before)
              && (n in before ==> Inserted(before, updates)[n] == before[n])
    {
      InsertedLeaves(before, updates, n);
    }
  }

  lemma {:induction false} InsertedLeaves(layer: Layer, updates: Updates, n: Name)
    requires forall i :: 0 <= i < |updates| ==> updates[i].0 != n
    ensures (n in Inserted(layer, updates) <==> n in layer)
            && (n in layer ==> Inserted(layer, updates)[n] == layer[n])
  {
    if updates != [] {
      InsertedLeaves(layer, updates[..|updates| - 1], n);
    }
  }

  /**
   An accepted write sets each field of its body, in the table and in the handle's stored layer, to
   what the body says, changes no other, and answers with the generation it opened on the result.
   */
  lemma PutStoresWhatItSays(x: Surroundings, seen: FileReads, s: Server, body: Body)
    requires NamesOnce(body) && PutStored(x, seen, s, body).1.Success?
    ensures var (s', r) := PutStored(x, seen, s, body);
            && SetAsSaid(s.tables.settings, s'.tables.settings, body)
            && SetAsSaid(s.handle.stored, s'.handle.stored, body)
            && s'.handle.overlay == s.handle.overlay
            && s'.tables.generations
               == s.tables.generations + [Generation(r.value.generation, s'.tables.settings, Pending, 0)]
            && r.value.generation == s'.tables.lastId == s.tables.lastId + 1
  {
    hide SetAsSaid, Probed, Adopted, Inserted, Masked, Waiting, Touched, Coerced;
    var updates := Checked(s.handle.config, body).value;
    InsertedAsSaid(s.tables.settings, body);
    InsertedAsSaid(s.handle.stored, body);
    AdoptedStores(x, seen.adopt, s.handle, Inserted(s.handle.stored, updates));
    assert CheckWritable(updates).None?;
  }

  lemma {:induction false} FirstNonScalar(body: Body)
    requires Coerced(body).Failure?
    ensures exists i :: 0 <= i < |body| && Coerced(body) == Failure(NotScalar(body[i].0)) && body[i].1.JsonOther?
                        && forall j :: 0 <= j < i ==> !body[j].1.JsonOther?
  {
    if RawText(body[0].1).Some? {
      FirstNonScalar(body[1..]);
      var i :| 0 <= i < |body[1..]| && Coerced(body[1..]) == Failure(NotScalar(body[1..][i].0))
               && body[1..][i].1.JsonOther? && forall j :: 0 <= j < i ==> !body[1..][j].1.JsonOther?;
      assert body[i + 1] == body[1..][i];
      assert forall j :: 1 <= j < i + 1 ==> body[j] == body[1..][j - 1];
    }
  }

  lemma {:induction false} FirstUnstorable(updates: Updates)
    requires CheckWritable(updates).Some?
    ensures exists i :: 0 <= i < |updates| && !Storable(updates[i].0)
                        && CheckWritable(updates).value
                           == (if updates[i].0.Known? then StoreError.NotPersistable(updates[i].0)
                               else NotAField(updates[i].0))
                        && forall j :: 0 <= j < i ==> Storable(updates[j].0)
  {
    if Storable(updates[0].0) {
      FirstUnstorable(updates[1..]);
      var i :| 0 <= i < |updates[1..]| && !Storable(updates[1..][i].0)
               && CheckWritable(updates[1..]).value
                  == (if updates[1..][i].0.Known? then StoreError.NotPersistable(updates[1..][i].0)
                      else NotAField(updates[1..][i].0))
               && forall j :: 0 <= j < i ==> Storable(updates[1..][j].0);
      assert updates[i + 1] == updates[1..][i];
      assert forall j :: 1 <= j < i + 1 ==> updates[j] == updates[1..][j - 1];
    }
  }

  // Field `i` is the first of the body that may not be stored.
  ghost predicate FirstRefused(body: Body, i: nat) {
    i < |body| && !Storable(body[i].0) && forall j :: 0 <= j < i ==> Storable(body[j].0)
  }

  /**
   A write refused before its dry run is told the first thing wrong with it: that writes are disabled,
   that it names nothing, the first value that is no scalar, and then the first field that is none, or
   that is one never stored.
   */
  lemma RefusalNamesTheFault(config: Config, body: Body)
    requires Checked(config, body).Failure?
    ensures match Checked(config, body).error
            case Forbidden => !config.adminConfigWrite
            case NoFields => config.adminConfigWrite && body == []
            case NotScalar(n) =>
              config.adminConfigWrite
              && exists i :: 0 <= i < |body| && body[i].0 == n && body[i].1.JsonOther?
                             && forall j :: 0 <= j < i ==> !body[j].1.JsonOther?
            case NoSuchField(n) =>
              config.adminConfigWrite && Coerced(body).Success? && n.Unknown?
              && exists i: nat :: FirstRefused(body, i) && body[i].0 == n
            case NotPersistable(p) =>
              config.adminConfigWrite && Coerced(body).Success? && PersistOf(p) == Never
              && exists i: nat :: FirstRefused(body, i) && body[i].0 == Known(p)
            case _ => false
  {
    if config.adminConfigWrite && body != [] {
      if Coerced(body).Failure? {
        FirstNonScalar(body);
      } else {
        var updates := Coerced(body).value;
        FirstUnstorable(updates);
        var i :| 0 <= i < |updates| && !Storable(updates[i].0)
                 && CheckWritable(updates).value
                    == (if updates[i].0.Known? then StoreError.NotPersistable(updates[i].0)
                        else NotAField(updates[i].0))
                 && forall j :: 0 <= j < i ==> Storable(updates[j].0);
        assert FirstRefused(body, i);
      }
    }
  }

  /** An accepted patch sets each override to what the body says, changes no other, and stores nothing. */
  lemma PatchSetsWhatItSays(x: Surroundings, read: FileRead, s: Server, body: Body)
    requires NamesOnce(body) && PatchConfig(x, read, s, body).1.Success?
    ensures var s' := PatchConfig(x, read, s, body).0;
            && SetAsSaid(s.handle.overlay, s'.handle.overlay, body)
            && s'.handle.stored == s.handle.stored && s'.tables == s.tables
  {
    hide SetAsSaid, Inserted, Coerced, Overrides, CheckPatch, ResolveWithCarry, WithBootFields;
    InsertedAsSaid(s.handle.overlay, body);
  }

  /** An accepted removal takes its one field out of both and opens a generation on the result. */
  lemma DeleteTakesOut(x: Surroundings, seen: FileReads, s: Server, name: Name)
    requires DeleteStored(x, seen, s, name).1.Success?
    ensures var s' := DeleteStored(x, seen, s, name).0;
            && name in s.tables.settings && name.Known?
            && s'.tables.settings == s.tables.settings - {name}
            && s'.handle.stored == s.handle.stored - {name} && s'.handle.overlay == s.handle.overlay
            && s'.tables.generations
               == s.tables.generations + [Generation(s.tables.lastId + 1, s'.tables.settings, Pending, 0)]
  {
    hide Probed, Adopted;
    AdoptedStores(x, seen.adopt, s.handle, s.handle.stored - {name});
  }

  /** A confirmation marks the pending generation it names, and leaves settings and handle alone. */
  lemma ConfirmingMarks(x: Surroundings, seen: FileReads, s: Server, id: int)
    requires s.tables.Valid() && PendingAt(s.tables.generations, id)
    ensures var s' := Handled(x, seen, s, Confirming(id)).0;
            && s'.tables.generations != [] && s'.tables.generations[0].id == id
            && s'.tables.generations[0].status == Confirmed
            && s'.tables.settings == s.tables.settings && s'.handle == s.handle
  {
    Pruning.ConfirmLeavesOnlyNewer(s.tables, id);
  }

  // ---- Where writes are disabled ------------------------------------------------------------

  // Writing, removing and patching are what the setting disables.
  predicate Writes(q: Request) {
    q.Putting? || q.Deleting? || q.Patching?
  }

  lemma DisabledStep(x: Surroundings, seen: FileReads, s: Server, q: Request)
    requires !s.handle.config.adminConfigWrite
    ensures var (s', accepted) := Handled(x, seen, s, q);
            && !s'.handle.config.adminConfigWrite
            && s'.tables.settings == s.tables.settings && s'.tables.lastId == s.tables.lastId
            && (s'.handle.overlay == s.handle.overlay || s'.handle.overlay == map[])
            && (Writes(q) ==> !accepted && s' == s)
  {
    hide ResolveWithCarry, BootDrift;
  }

  /**
   Where writes are disabled they stay disabled: over every run of requests, whatever the files come
   to hold, no write, removal or patch is accepted, and the settings, the generations opened and the
   overrides are those from before, but for overrides a reload has dropped.
   */
  lemma {:induction false} DisabledForGood(x: Surroundings, s: Server, qs: seq<(FileReads, Request)>)
    requires !s.handle.config.adminConfigWrite
    ensures var end := Serve(x, s, qs);
            && !end.handle.config.adminConfigWrite
            && end.tables.settings == s.tables.settings && end.tables.lastId == s.tables.lastId
            && (end.handle.overlay == s.handle.overlay || end.handle.overlay == map[])
    ensures forall i :: 0 <= i < |qs| && Writes(qs[i].1) ==>
              !Handled(x, qs[i].0, Serve(x, s, qs[..i]), qs[i].1).1
  {
    hide Handled;
    if qs != [] {
      var init, last := qs[..|qs| - 1], qs[|qs| - 1];
      DisabledForGood(x, s, init);
      DisabledStep(x, last.0, Serve(x, s, init), last.1);
      forall i | 0 <= i < |qs| && Writes(qs[i].1)
        ensures !Handled(x, qs[i].0, Serve(x, s, qs[..i]), qs[i].1).1
      {
        if i < |init| {
          assert init[..i] == qs[..i] && init[i] == qs[i];
        }
      }
    }
  }
}
