/**
 Which generations get confirmed, and how a start that does not survive is undone: every
 statement is about every run of writes, starts, confirmations and stops.
 */
module Trials {
  import opened Wrappers
  import opened Params
  import opened ConfigTables
  import opened Pruning
  import opened Startup
  import opened Lifecycle

  // ---- One operation on the rows ----------------------------------------------------------

  // Row `r` of the later table is row `q` of the earlier one, further along.
  ghost predicate Continues(q: Generation, r: Generation) {
    && r.id == q.id && r.snapshot == q.snapshot && q.attempts <= r.attempts
    && (r.status == Pending ==> q.status == Pending)
  }

  // Every row of `t'` is or continues a row of `t`, or was opened in between and is untried.
  ghost predicate Descends(t: Tables, t': Tables) {
    && t.lastId <= t'.lastId
    && forall r :: r in t'.generations && r !in t.generations ==>
         || (exists q :: q in t.generations && Continues(q, r))
         || (t.lastId < r.id && r.status == Pending && r.attempts == 0)
  }

  lemma {:induction false} Ancestor(t: Tables, t': Tables, r: Generation) returns (q: Generation)
    requires Descends(t, t') && r in t'.generations && r.id <= t.lastId
    ensures q in t.generations && Continues(q, r)
  {
    if r in t.generations {
      q := r;
    } else {
      q :| q in t.generations && Continues(q, r);
    }
  }

  lemma {:induction false} OpenDescends(t: Tables, s: Settings)
    ensures Descends(t, OpenGeneration(t.(settings := s)))
  {
  }

  lemma {:induction false} BootDescends(t: Tables)
    ensures Descends(t, PrepareBoot(t).0)
  {
    var gs' := PrepareBoot(t).0.generations;
    forall r | r in gs' && r !in t.generations
      ensures exists q :: q in t.generations && Continues(q, r)
    {
      var i :| 0 <= i < |gs'| && gs'[i] == r;
      assert Continues(t.generations[i], r);
    }
  }

  // A confirmation changes the status of the row it names and of no other.
  lemma {:induction false} ConfirmDescends(t: Tables, id: int)
    requires t.Valid()
    ensures Descends(t, Confirm(t, id, true).0)
    ensures forall r :: r in Confirm(t, id, true).0.generations && r !in t.generations
                        ==> r.id == id && PendingAt(t.generations, id)
  {
    if PendingAt(t.generations, id) {
      var i := PendingIndex(t.generations, id);
      ConfirmAt(t, id, i, true);
      assert Continues(t.generations[i], t.generations[i].(status := Confirmed));
      forall r | r in AfterConfirm(t.generations, i, true) && r !in t.generations
        ensures r == t.generations[i].(status := Confirmed)
      {
      }
    }
  }

  lemma {:induction false} WriteDescends(t: Tables, write: Write)
    ensures Descends(t, Apply(t, write))
  {
    match write {
      case SetWrite(updates) => OpenDescends(t, Inserted(t.settings, updates));
      case UnsetWrite(name) => OpenDescends(t, t.settings - {name});
      case ClearWrite => OpenDescends(t, map[]);
    }
  }

  lemma {:induction false} NextDescends<C, E>(w: World, e: Event<C, E>)
    requires w.tables.Valid()
    ensures Descends(w.tables, Next(w, e).tables)
  {
    match e {
      case Written(write) => WriteDescends(w.tables, write);
      case Started(_, _, _) => BootDescends(w.tables);
      case Served =>
        if w.process.Some? && w.process.value.due.Some? {
          ConfirmDescends(w.tables, w.process.value.due.value);
        }
      case Stopped =>
    }
  }

  // ---- Where a confirmation comes from ----------------------------------------------------

  // Start `j` put row `r` on trial: it was the newest row, the settings were its snapshot, and
  // the honoured part of them resolved (or was empty, and the first pass already had).
  ghost predicate Tried<C, E>(es: seq<Event<C, E>>, j: nat, r: Generation)
    requires j < |es|
  {
    && Boots(es, j)
    && Outcome(es, j) == Trying(r.id)
    && var t := At(es, j).tables;
    && t.generations != [] && Newest(t).id == r.id && Newest(t).snapshot == r.snapshot == t.settings
    && var stored := Honoured(r.snapshot);
    && (stored == map[] || es[j].resolve(stored).Success?)
  }

  // The process started at `j` is still running before event `n`.
  ghost predicate Alive<C, E>(es: seq<Event<C, E>>, j: nat, n: nat)
    requires n <= |es|
  {
    j < n && forall m :: j < m < n ==> !es[m].Stopped?
  }

  // The process started at `j` served until event `k` and confirmed row `r`.
  ghost predicate ConfirmedBy<C, E>(es: seq<Event<C, E>>, j: nat, k: nat, r: Generation)
    requires k < |es|
  {
    && Alive(es, j, k) && Tried(es, j, r) && es[k].Served?
    && At(es, k).process == Some(Process(Some(r.id)))
    && PendingAt(At(es, k).tables.generations, r.id)
  }

  ghost predicate OnTrial<C, E>(es: seq<Event<C, E>>, n: nat, r: Generation)
    requires n <= |es|
  {
    exists j: nat :: j < n && Alive(es, j, n) && Tried(es, j, r)
  }

  // A process that still means to confirm a pending row is the one that put it on trial.
  ghost predicate DueIsOnTrial<C, E>(es: seq<Event<C, E>>, n: nat)
    requires n <= |es|
  {
    var w := At(es, n);
    w.process.Some? && w.process.value.due.Some? ==>
      && w.process.value.due.value <= w.tables.lastId
      && forall r :: r in w.tables.generations && r.status == Pending && r.id == w.process.value.due.value
                 ==> OnTrial(es, n, r)
  }

  lemma {:induction false} StartPutsOnTrial<C, E>(es: seq<Event<C, E>>, n: nat)
    requires n < |es| && Boots(es, n)
    ensures DueIsOnTrial(es, n + 1)
  {
    SettingsAlwaysMatch(es, n);
    var t := At(es, n).tables;
    var w := At(es, n + 1);
    if w.process.value.due.Some? {
      forall r | r in w.tables.generations && r.status == Pending && r.id == w.process.value.due.value
        ensures OnTrial(es, n + 1, r)
      {
        var i :| 0 <= i < |w.tables.generations| && w.tables.generations[i] == r;
        var m := |t.generations| - 1;
        assert t.generations[m].id == r.id == t.generations[i].id;
        assert i == m;
        assert Tried(es, n, r);
        assert Alive(es, n, n + 1);
      }
    }
  }

  lemma {:induction false} TrialContinues<C, E>(es: seq<Event<C, E>>, n: nat, q: Generation, r: Generation)
    requires n < |es| && OnTrial(es, n, q) && Continues(q, r) && !es[n].Stopped?
    ensures OnTrial(es, n + 1, r)
  {
    var j: nat :| j < n && Alive(es, j, n) && Tried(es, j, q);
    assert Tried(es, j, r) && Alive(es, j, n + 1);
  }

  lemma {:induction false} DueIsUnchanged<C, E>(w: World, e: Event<C, E>)
    requires w.process.Some? && Next(w, e).process.Some? && Next(w, e).process.value.due.Some?
    ensures w.process == Next(w, e).process
  {
  }

  lemma {:induction false} DueStaysOnTrial<C, E>(es: seq<Event<C, E>>, n: nat)
    requires n < |es| && DueIsOnTrial(es, n) && At(es, n).process.Some? && !es[n].Stopped?
    ensures DueIsOnTrial(es, n + 1)
  {
    var w, w' := At(es, n), At(es, n + 1);
    if w'.process.Some? && w'.process.value.due.Some? {
      DueIsUnchanged(w, es[n]);
      var due := w.process.value.due.value;
      assert Descends(w.tables, w'.tables) by {
        SettingsAlwaysMatch(es, n);
        NextDescends(w, es[n]);
      }
      forall r | r in w'.tables.generations && r.status == Pending && r.id == due
        ensures OnTrial(es, n + 1, r)
      {
        var q := Ancestor(w.tables, w'.tables, r);
        TrialContinues(es, n, q, r);
      }
    }
  }

  lemma {:induction false} DueAlwaysOnTrial<C, E>(es: seq<Event<C, E>>, n: nat)
    requires n <= |es|
    ensures DueIsOnTrial(es, n)
  {
    if n > 0 {
      DueAlwaysOnTrial(es, n - 1);
      if Boots(es, n - 1) {
        StartPutsOnTrial(es, n - 1);
      } else if At(es, n - 1).process.Some? && !es[n - 1].Stopped? {
        DueStaysOnTrial(es, n - 1);
      }
    }
  }

  lemma {:induction false} JustConfirmed<C, E>(es: seq<Event<C, E>>, k: nat, r: Generation) returns (j: nat)
    requires k < |es| && es[k].Served? && At(es, k).process == Some(Process(Some(r.id)))
    requires PendingAt(At(es, k).tables.generations, r.id)
    requires r in At(es, k + 1).tables.generations
    ensures j < k && ConfirmedBy(es, j, k, r)
  {
    var t := At(es, k).tables;
    assert t.Valid() by { SettingsAlwaysMatch(es, k); }
    var i := PendingIndex(t.generations, r.id);
    ConfirmAt(t, r.id, i, true);
    ConfirmedRowIs(t, i, r);
    DueAlwaysOnTrial(es, k);
    var q := t.generations[i];
    assert OnTrial(es, k, q);
    j :| j < k && Alive(es, j, k) && Tried(es, j, q);
    assert Tried(es, j, r);
  }

  /**
   Every confirmed generation was the newest at a start that put it on trial, its settings
   resolved in that very process, and that process went on to serve for the confirm delay.
   */
  lemma {:induction false} ConfirmedWasTried<C, E>(es: seq<Event<C, E>>, n: nat, r: Generation)
      returns (j: nat, k: nat)
    requires n <= |es|
    requires r in At(es, n).tables.generations && r.status == Confirmed
    ensures j < k < n && ConfirmedBy(es, j, k, r)
  {
    var w := At(es, n - 1);
    if r in w.tables.generations {
      j, k := ConfirmedWasTried(es, n - 1, r);
    } else {
      assert w.tables.Valid() by { SettingsAlwaysMatch(es, n - 1); }
      OnlyServingConfirms(w, es[n - 1], r);
      k := n - 1;
      j := JustConfirmed(es, k, r);
    }
  }

  lemma {:induction false} ConfirmedRowIs(t: Tables, i: nat, r: Generation)
    requires t.Valid() && i < |t.generations|
    requires r in AfterConfirm(t.generations, i, true) && r.id == t.generations[i].id
    ensures r == t.generations[i].(status := Confirmed)
  {
  }

  // A row that an event makes confirmed was pending, and the event is the confirm task's.
  lemma {:induction false} OnlyServingConfirms<C, E>(w: World, e: Event<C, E>, r: Generation)
    requires w.tables.Valid()
    requires r in Next(w, e).tables.generations && r.status == Confirmed && r !in w.tables.generations
    ensures e.Served? && w.process == Some(Process(Some(r.id))) && PendingAt(w.tables.generations, r.id)
  {
    if e.Served? {
      if w.process.Some? && w.process.value.due.Some? {
        ConfirmDescends(w.tables, w.process.value.due.value);
      }
    }
  }

  /** A generation opened while a process runs is not one that process ever confirms. */
  lemma {:induction false} WrittenWhileRunningNotConfirmed<C, E>(
      es: seq<Event<C, E>>, j: nat, m: nat, k: nat, r: Generation)
    requires j < m < k < |es| && es[m].Written? && At(es, m + 1).tables.lastId > At(es, m).tables.lastId
    requires ConfirmedBy(es, j, k, r)
    ensures r.id != At(es, m + 1).tables.lastId
  {
    SettingsAlwaysMatch(es, j);
    LastIdGrows(es, j, m);
  }

  lemma {:induction false} LastIdGrows<C, E>(es: seq<Event<C, E>>, i: nat, n: nat)
    requires i <= n <= |es|
    ensures At(es, i).tables.lastId <= At(es, n).tables.lastId
  {
    if i < n {
      LastIdGrows(es, i, n - 1);
      SettingsAlwaysMatch(es, n - 1);
      NextDescends(At(es, n - 1), es[n - 1]);
    }
  }

  // ---- No wedge ---------------------------------------------------------------------------

  // Row `id` exists no more, or has been attempted, and its id is not given out again.
  ghost predicate Attempted(t: Tables, id: int) {
    id <= t.lastId && forall r :: r in t.generations && r.id == id ==> r.attempts > 0
  }

  lemma {:induction false} TrialIsAttempted(t: Tables)
    requires t.Valid() && PrepareBoot(t).1.Trying?
    ensures Attempted(PrepareBoot(t).0, PrepareBoot(t).1.trial)
  {
    var gs := PrepareBoot(t).0.generations;
    forall r | r in gs && r.id == PrepareBoot(t).1.trial
      ensures r.attempts > 0
    {
      var k :| 0 <= k < |gs| && gs[k] == r;
      assert t.generations[k].id == t.generations[|gs| - 1].id;
    }
  }

  lemma {:induction false} AttemptedDescends(t: Tables, t': Tables, id: int)
    requires Attempted(t, id) && Descends(t, t')
    ensures Attempted(t', id)
  {
    forall r | r in t'.generations && r.id == id
      ensures r.attempts > 0
    {
      var q := Ancestor(t, t', r);
    }
  }

  lemma {:induction false} AttemptedStep<C, E>(w: World, e: Event<C, E>, id: int)
    requires w.tables.Valid() && Attempted(w.tables, id)
    ensures Attempted(Next(w, e).tables, id)
  {
    NextDescends(w, e);
    AttemptedDescends(w.tables, Next(w, e).tables, id);
  }

  lemma {:induction false} TriedStaysTried<C, E>(es: seq<Event<C, E>>, i: nat, n: nat, id: int)
    requires i < n <= |es| && Boots(es, i) && Outcome(es, i) == Trying(id)
    ensures Attempted(At(es, n).tables, id)
  {
    var w := At(es, n - 1);
    assert w.tables.Valid() by { SettingsAlwaysMatch(es, n - 1); }
    if n == i + 1 {
      TrialIsAttempted(w.tables);
    } else {
      TriedStaysTried(es, i, n - 1, id);
      AttemptedStep(w, es[n - 1], id);
    }
  }

  /** Over any run each generation is put on trial at most once. */
  lemma {:induction false} OneTrialEach<C, E>(es: seq<Event<C, E>>, i: nat, j: nat, id: int)
    requires i < |es| && Boots(es, i) && Outcome(es, i) == Trying(id)
    requires j < |es| && Boots(es, j) && Outcome(es, j) == Trying(id)
    ensures i == j
  {
    if i < j {
      TriedStaysTried(es, i, j, id);
    } else if j < i {
      TriedStaysTried(es, j, i, id);
    }
  }

  // No write, and no confirmation that finds its row, at events i..n.
  ghost predicate Quiet<C, E>(es: seq<Event<C, E>>, i: nat, n: nat)
    requires n <= |es|
  {
    forall m :: i <= m < n ==>
      && !es[m].Written?
      && !(es[m].Served? && At(es, m).process.Some? && At(es, m).process.value.due.Some?
           && PendingAt(At(es, m).tables.generations, At(es, m).process.value.due.value))
  }

  lemma {:induction false} QuietWithoutStarts<C, E>(es: seq<Event<C, E>>, i: nat, n: nat)
    requires i <= n <= |es| && Quiet(es, i, n)
    requires forall m :: i <= m < n ==> !Boots(es, m)
    ensures At(es, n).tables == At(es, i).tables
  {
    if i < n {
      QuietWithoutStarts(es, i, n - 1);
      assert !Boots(es, n - 1);
    }
  }

  lemma {:induction false} LastConfirmedIgnores(gs: seq<Generation>, n: nat, g: Generation)
    requires n < |gs| && g.status != Confirmed && gs[n].status != Confirmed
    ensures LastConfirmed(gs[n := g]) == LastConfirmed(gs)
  {
    if n < |gs| - 1 {
      assert gs[n := g][..|gs| - 1] == gs[..|gs| - 1][n := g];
      LastConfirmedIgnores(gs[..|gs| - 1], n, g);
    } else {
      assert gs[n := g][..n] == gs[..n];
    }
  }

  /**
   A generation whose trial was not confirmed is undone by the next start: with nothing written
   or confirmed in between, the start after the trial restores the last confirmed settings.
   */
  lemma {:induction false} SecondStartRollsBack<C, E>(es: seq<Event<C, E>>, i: nat, j: nat, id: int)
    requires i < j < |es| && Boots(es, i) && Outcome(es, i) == Trying(id)
    requires Boots(es, j) && Quiet(es, i + 1, j) && forall m :: i < m < j ==> !Boots(es, m)
    ensures var good := KnownGood(At(es, i).tables.generations);
            && Outcome(es, j) == RolledBackTo(id, |good|)
            && At(es, j + 1).tables.settings == good
            && Newest(At(es, j + 1).tables).status == RolledBack
  {
    hide PrepareBoot, KnownGood, Quiet;
    StartPrepares(es, i);
    StartPrepares(es, j);
    assert At(es, j).tables == At(es, i + 1).tables by { QuietWithoutStarts(es, i + 1, j); }
    TriedTwice(At(es, i).tables, id);
  }

  lemma {:induction false} StartPrepares<C, E>(es: seq<Event<C, E>>, i: nat)
    requires i < |es| && Boots(es, i)
    ensures At(es, i + 1).tables == PrepareBoot(At(es, i).tables).0
  {
    hide PrepareBoot;
  }

  // Preparing twice undoes what the first time put on trial.
  lemma TriedTwice(t: Tables, id: int)
    requires PrepareBoot(t).1 == Trying(id)
    ensures var good := KnownGood(t.generations);
            var (t', outcome) := PrepareBoot(PrepareBoot(t).0);
            && outcome == RolledBackTo(id, |good|) && t'.settings == good
            && t'.generations != [] && Newest(t').status == RolledBack
  {
    var gs := t.generations;
    var n := |gs| - 1;
    LastConfirmedIgnores(gs, n, gs[n].(attempts := 1));
  }

  lemma {:induction false} LastConfirmedIsARow(gs: seq<Generation>) returns (r: Generation)
    requires LastConfirmed(gs).Some?
    ensures r in gs && r.status == Confirmed && r.snapshot == LastConfirmed(gs).value
  {
    if gs[|gs| - 1].status == Confirmed {
      r := gs[|gs| - 1];
    } else {
      r := LastConfirmedIsARow(gs[..|gs| - 1]);
    }
  }

  // What the start `n` makes of the settings it finds after preparing.
  ghost predicate Applies<C, E>(es: seq<Event<C, E>>, n: nat)
    requires n < |es| && es[n].Started?
  {
    ApplyStored(es[n].first, es[n].resolve, Honoured(PrepareBoot(At(es, n).tables).0.settings),
                Generationed(Outcome(es, n))).applied
  }

  /**
   A rollback is to something that worked: when every start resolves alike, the settings restored
   for the start that rolls back are ones it applies, because the process that confirmed them did.
   */
  lemma {:induction false} RollbackApplies<C, E>(es: seq<Event<C, E>>, i: nat, j: nat, id: int)
    requires i < j < |es| && Boots(es, i) && Outcome(es, i) == Trying(id)
    requires Boots(es, j) && Quiet(es, i + 1, j) && forall m :: i < m < j ==> !Boots(es, m)
    requires forall m, layer :: 0 <= m < j && es[m].Started? ==> es[m].resolve(layer) == es[j].resolve(layer)
    ensures Applies(es, j)
  {
    hide Quiet, ConfirmedBy, At, Honoured;
    SecondStartRollsBack(es, i, j, id);
    RestoredBy(es, i, j, id);
    var gs := At(es, i).tables.generations;
    if LastConfirmed(gs).Some? {
      var r := LastConfirmedIsARow(gs);
      var k, _ := ConfirmedWasTried(es, i, r);
      ConfirmedResolved(es, i, r, k);
    } else {
      NothingHonoured();
    }
  }

  lemma {:induction false} RestoredBy<C, E>(es: seq<Event<C, E>>, i: nat, j: nat, id: int)
    requires i < j < |es| && Boots(es, i) && Outcome(es, i) == Trying(id)
    requires Boots(es, j) && Quiet(es, i + 1, j) && forall m :: i < m < j ==> !Boots(es, m)
    ensures PrepareBoot(At(es, j).tables).0.settings == KnownGood(At(es, i).tables.generations)
  {
    SecondStartRollsBack(es, i, j, id);
  }

  lemma NothingHonoured()
    ensures Honoured(map[]) == map[]
  {
  }

  lemma ConfirmedResolved<C, E>(es: seq<Event<C, E>>, n: nat, r: Generation, j: nat)
    requires n <= |es| && exists k :: j < k < n && ConfirmedBy(es, j, k, r)
    ensures j < n && es[j].Started? && (Honoured(r.snapshot) == map[] || es[j].resolve(Honoured(r.snapshot)).Success?)
  {
  }

  ghost predicate Settled(t: Tables) {
    t.generations != [] ==> Newest(t).status != Pending
  }

  lemma {:induction false} NothingPendingToConfirm(w: World, id: int)
    requires Sound(w) && w.process == Some(Process(Some(id))) && Settled(w.tables)
    ensures !PendingAt(w.tables.generations, id)
  {
    var gs := w.tables.generations;
    if gs != [] && Newest(w.tables).status == Confirmed {
      assert |gs| == 1;
    }
  }

  lemma {:induction false} SettledStep<C, E>(w: World, e: Event<C, E>)
    requires Sound(w) && Settled(w.tables) && !e.Written?
    ensures Next(w, e).tables == w.tables
  {
    if e.Served? && w.process.Some? && w.process.value.due.Some? {
      NothingPendingToConfirm(w, w.process.value.due.value);
    }
  }

  lemma {:induction false} SettledOutcome(t: Tables)
    requires Settled(t)
    ensures PrepareBoot(t) == (t, Clean(if t.generations == [] then None else Some(Newest(t).id)))
  {
  }

  /**
   From a store whose newest generation is not pending, every start is clean and nothing but a
   write changes the store again.
   */
  lemma {:induction false} SettledUntilWritten<C, E>(es: seq<Event<C, E>>, i: nat, n: nat)
    requires i <= n <= |es| && forall m :: i <= m < n ==> !es[m].Written?
    requires Settled(At(es, i).tables)
    ensures At(es, n).tables == At(es, i).tables
    ensures n < |es| && Boots(es, n) ==>
            Outcome(es, n) == Clean(if At(es, i).tables.generations == [] then None
                                    else Some(Newest(At(es, i).tables).id))
  {
    hide Next, PrepareBoot, Sound;
    if i < n {
      SettledUntilWritten(es, i, n - 1);
      SettingsAlwaysMatch(es, n - 1);
      SettledStep(At(es, n - 1), es[n - 1]);
    }
    SettledOutcome(At(es, i).tables);
  }

  /**
   No wedge: after the start that undid a generation, the store holds the last confirmed settings
   and every later start is clean, until somebody writes.
   */
  lemma {:induction false} NoWedge<C, E>(es: seq<Event<C, E>>, i: nat, j: nat, n: nat, id: int)
    requires i < j < n <= |es| && Boots(es, i) && Outcome(es, i) == Trying(id)
    requires Boots(es, j) && Quiet(es, i + 1, j) && forall m :: i < m < j ==> !Boots(es, m)
    requires forall m :: j < m < n ==> !es[m].Written?
    ensures At(es, n).tables.settings == KnownGood(At(es, i).tables.generations)
    ensures At(es, n).tables == At(es, j + 1).tables
    ensures n < |es| && Boots(es, n) ==> Outcome(es, n) == Clean(Some(id))
  {
    SecondStartRollsBack(es, i, j, id);
    SettledUntilWritten(es, j + 1, n);
  }

  // ---- What works is kept -------------------------------------------------------------------

  // What a write leaves in the settings table: a batch naming anything that may not be stored is
  // refused whole.
  function Wanted(s: Settings, write: Write): Settings {
    match write
    case SetWrite(updates) =>
      if forall i :: 0 <= i < |updates| ==> Storable(updates[i].0) then Inserted(s, updates) else s
    case UnsetWrite(name) => s - {name}
    case ClearWrite => map[]
  }

  // A batch accepted is a new configuration even when it changes no value.
  predicate Effective(s: Settings, write: Write) {
    match write
    case SetWrite(updates) => forall i :: 0 <= i < |updates| ==> Storable(updates[i].0)
    case _ => Wanted(s, write) != s
  }

  // Row `id` is the newest, untried and awaiting its first start.
  ghost predicate AwaitsTrial(t: Tables, id: int) {
    t.generations != [] && Newest(t) == Generation(id, t.settings, Pending, 0)
  }

  lemma WriteOpens(t: Tables, write: Write)
    ensures var t' := Apply(t, write);
            && t'.settings == Wanted(t.settings, write)
            && (if Effective(t.settings, write) then AwaitsTrial(t', t.lastId + 1) else t' == t)
  {
  }

  lemma {:induction false} AwaitsUntilStarted<C, E>(es: seq<Event<C, E>>, m: nat, n: nat, id: int)
    requires m <= n <= |es| && AwaitsTrial(At(es, m).tables, id)
    requires forall k :: m <= k < n ==> !es[k].Written? && !Boots(es, k)
    requires At(es, m).process.Some? && At(es, m).process.value.due.Some? ==> At(es, m).process.value.due.value < id
    ensures AwaitsTrial(At(es, n).tables, id)
    ensures At(es, n).tables.settings == At(es, m).tables.settings
    ensures At(es, n).process.Some? && At(es, n).process.value.due.Some? ==> At(es, n).process.value.due.value < id
  {
    if m < n {
      AwaitsUntilStarted(es, m, n - 1, id);
      SettingsAlwaysMatch(es, n - 1);
      AwaitsStep(At(es, n - 1), es[n - 1], id);
    }
  }

  lemma {:induction false} AwaitsStep<C, E>(w: World, e: Event<C, E>, id: int)
    requires w.tables.Valid() && AwaitsTrial(w.tables, id) && !e.Written?
    requires e.Started? && !e.ignoreStored ==> w.process.Some?
    requires w.process.Some? && w.process.value.due.Some? ==> w.process.value.due.value < id
    ensures AwaitsTrial(Next(w, e).tables, id) && Next(w, e).tables.settings == w.tables.settings
    ensures var w' := Next(w, e);
            w'.process.Some? && w'.process.value.due.Some? ==> w'.process.value.due.value < id
  {
    if e.Served? && w.process.Some? && w.process.value.due.Some?
       && PendingAt(w.tables.generations, w.process.value.due.value) {
      var i := PendingIndex(w.tables.generations, w.process.value.due.value);
      ConfirmAt(w.tables, w.process.value.due.value, i, true);
    }
  }

  /**
   A write leaves in the table what it asks for, and if it is effective the next start that consults
   the store, with nothing written in between, puts the result on trial.
   */
  lemma {:induction false} WriteIsTriedNext<C, E>(es: seq<Event<C, E>>, m: nat, n: nat)
    requires m < n < |es| && es[m].Written? && Boots(es, n)
    requires forall k :: m < k < n ==> !es[k].Written? && !Boots(es, k)
    ensures At(es, m + 1).tables.settings == Wanted(At(es, m).tables.settings, es[m].write)
    ensures Effective(At(es, m).tables.settings, es[m].write) ==>
              && Outcome(es, n) == Trying(At(es, m).tables.lastId + 1)
              && At(es, n).tables.settings == At(es, m + 1).tables.settings
  {
    var t := At(es, m).tables;
    WriteOpens(t, es[m].write);
    if Effective(t.settings, es[m].write) {
      DueAlwaysOnTrial(es, m);
      AwaitsUntilStarted(es, m + 1, n, t.lastId + 1);
    }
  }

  // The process means to confirm row `id`, which is pending with this snapshot.
  ghost predicate WillConfirm(w: World, id: int, snapshot: Settings) {
    && w.process == Some(Process(Some(id)))
    && exists g :: g in w.tables.generations && g.id == id && g.status == Pending && g.snapshot == snapshot
  }

  // The honoured part of the settings found by start `i` is empty, or resolves there.
  ghost predicate Works<C, E>(es: seq<Event<C, E>>, i: nat)
    requires i < |es| && es[i].Started?
  {
    var layer := Honoured(At(es, i).tables.settings);
    layer == map[] || es[i].resolve(layer).Success?
  }

  /**
   What a process means to confirm is what its start found: the generation on trial, or the settled one
   again; nothing after a rollback, and nothing when its settings did not apply or were ignored.
   */
  lemma {:induction false} ConfirmsWhatItBooted<C, E>(es: seq<Event<C, E>>, i: nat)
    requires i < |es| && es[i].Started? && At(es, i).process.None?
    ensures At(es, i + 1).process.Some?
    ensures var due := At(es, i + 1).process.value.due;
            if es[i].ignoreStored || Outcome(es, i).RolledBackTo? || !Works(es, i) then due.None?
            else if Outcome(es, i).Trying? then due == Some(Outcome(es, i).trial)
            else due == Outcome(es, i).current
  {
  }

  lemma {:induction false} TrialWillConfirm<C, E>(es: seq<Event<C, E>>, i: nat, id: int)
    requires i < |es| && Boots(es, i) && Outcome(es, i) == Trying(id) && Works(es, i)
    ensures WillConfirm(At(es, i + 1), id, At(es, i).tables.settings)
  {
    SettingsAlwaysMatch(es, i);
    var t := At(es, i + 1).tables;
    assert Newest(t) in t.generations;
  }

  lemma {:induction false} StillWillConfirm<C, E>(es: seq<Event<C, E>>, i: nat, n: nat, id: int)
    requires i < n <= |es| && Boots(es, i) && Outcome(es, i) == Trying(id) && Works(es, i)
    requires forall m :: i < m < n ==> !es[m].Stopped? && !es[m].Served?
    ensures WillConfirm(At(es, n), id, At(es, i).tables.settings)
  {
    if n == i + 1 {
      TrialWillConfirm(es, i, id);
    } else {
      StillWillConfirm(es, i, n - 1, id);
      var w, e := At(es, n - 1), es[n - 1];
      assert !e.Stopped? && !e.Served?;
      var g :| g in w.tables.generations && g.id == id && g.status == Pending
               && g.snapshot == At(es, i).tables.settings;
      RowStays(w, e, g);
    }
  }

  lemma {:induction false} RowStays<C, E>(w: World, e: Event<C, E>, g: Generation)
    requires w.process.Some? && !e.Stopped? && !e.Served? && g in w.tables.generations
    ensures Next(w, e).process == w.process && g in Next(w, e).tables.generations
  {
    if e.Written? {
      WriteKeepsRows(w.tables, e.write);
    }
  }

  lemma WriteKeepsRows(t: Tables, write: Write)
    ensures forall g :: g in t.generations ==> g in Apply(t, write).generations
  {
  }

  /**
   A generation that works is kept: put on trial by a start that could apply its settings, it is
   confirmed, with those settings, once that process has served for the confirm delay, whatever is
   written meanwhile.
   */
  lemma {:induction false} GoodTrialIsConfirmed<C, E>(es: seq<Event<C, E>>, i: nat, k: nat, id: int)
    requires i < k < |es| && Boots(es, i) && Outcome(es, i) == Trying(id) && Works(es, i)
    requires es[k].Served? && forall m :: i < m < k ==> !es[m].Stopped? && !es[m].Served?
    ensures exists g :: g in At(es, k + 1).tables.generations && g.id == id && g.status == Confirmed
                        && g.snapshot == At(es, i).tables.settings
  {
    StillWillConfirm(es, i, k, id);
    SettingsAlwaysMatch(es, k);
    var t := At(es, k).tables;
    var g :| g in t.generations && g.id == id && g.status == Pending && g.snapshot == At(es, i).tables.settings;
    var n :| 0 <= n < |t.generations| && t.generations[n] == g;
    ConfirmAt(t, id, n, true);
    assert AfterConfirm(t.generations, n, true)[0] == g.(status := Confirmed);
  }

  lemma {:induction false} ConfirmsNewest(t: Tables, id: int)
    requires t.Valid() && t.generations != [] && Newest(t).id == id && Newest(t).status == Pending
    ensures var t' := Confirm(t, id, true).0;
            && t'.generations == [Newest(t).(status := Confirmed)] && t'.settings == t.settings
  {
    ConfirmAt(t, id, |t.generations| - 1, true);
  }

  // With nothing written, the trial's row is the newest at the confirmation, and all that is left by it.
  lemma {:induction false} TrialStaysNewest<C, E>(es: seq<Event<C, E>>, i: nat, k: nat, id: int)
    requires i < k <= |es| && Boots(es, i) && Outcome(es, i) == Trying(id) && Works(es, i)
    requires forall m :: i < m < k ==> !es[m].Stopped? && !es[m].Served? && !es[m].Written?
    ensures var t := At(es, k).tables;
            && t.generations != [] && Newest(t).id == id && Newest(t).status == Pending
            && t.settings == At(es, i).tables.settings
  {
    forall m | i < m < k ensures !Boots(es, m) {
      hide Works;
      StillWillConfirm(es, i, m, id);
    }
    QuietWithoutStarts(es, i + 1, k);
  }

  lemma {:induction false} GoodIsLeft<C, E>(es: seq<Event<C, E>>, i: nat, k: nat, id: int)
    requires i < k < |es| && Boots(es, i) && Outcome(es, i) == Trying(id) && Works(es, i)
    requires es[k].Served? && forall m :: i < m < k ==> !es[m].Stopped? && !es[m].Served? && !es[m].Written?
    ensures var t := At(es, k + 1).tables;
            && t.settings == At(es, i).tables.settings
            && t.generations != [] && Newest(t).id == id && Newest(t).status == Confirmed
  {
    hide Boots, Outcome, Works, PrepareBoot;
    TrialStaysNewest(es, i, k, id);
    StillWillConfirm(es, i, k, id);
    SettingsAlwaysMatch(es, k);
    ConfirmsNewest(At(es, k).tables, id);
  }

  /**
   And with nothing written since that start, it is what every later start finds, cleanly, with the
   settings it was tried with.
   */
  lemma {:induction false} GoodSettingsStay<C, E>(es: seq<Event<C, E>>, i: nat, k: nat, n: nat, id: int)
    requires i < k < n <= |es| && Boots(es, i) && Outcome(es, i) == Trying(id) && Works(es, i)
    requires es[k].Served? && forall m :: i < m < k ==> !es[m].Stopped? && !es[m].Served?
    requires forall m :: i < m < n ==> !es[m].Written?
    ensures At(es, n).tables.settings == At(es, i).tables.settings
    ensures n < |es| && Boots(es, n) ==> Outcome(es, n) == Clean(Some(id))
  {
    hide Boots, Outcome, Works, PrepareBoot, Next, At;
    GoodIsLeft(es, i, k, id);
    SettledUntilWritten(es, k + 1, n);
  }

  // ---- Why the process lifecycle matters ---------------------------------------------------

  /**
   With a confirmation from nowhere the settings need not be those the store would restore:
   confirming any pending row while the newest is rolled back keeps the match exactly when that
   row's snapshot is what the rollback left behind.
   */
  lemma {:induction false} StrayConfirmKeepsMatch(t: Tables, id: int, i: nat)
    requires t.Valid() && SettingsMatch(t)
    requires i < |t.generations| && t.generations[i].id == id && t.generations[i].status == Pending
    requires Newest(t).status == RolledBack
    requires OldestConfirmed(t.generations)
    ensures SettingsMatch(Confirm(t, id, true).0) <==> t.settings == t.generations[i].snapshot
  {
    ConfirmAt(t, id, i, true);
    var kept := AfterConfirm(t.generations, i, true);
    NoneConfirmedAfter(kept);
  }

  lemma {:induction false} NoneConfirmedAfter(gs: seq<Generation>)
    requires gs != [] && gs[0].status == Confirmed
    requires forall m :: 0 < m < |gs| ==> gs[m].status != Confirmed
    ensures LastConfirmed(gs) == Some(gs[0].snapshot)
  {
    if |gs| > 1 {
      NoneConfirmedAfter(gs[..|gs| - 1]);
    }
  }
}
