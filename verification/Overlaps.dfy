/**
 Administration requests that overlap. A write or a removal takes its candidate layer, has it
 vetted, writes the table and adopts the candidate in four steps, and a reload takes its layer and
 installs it in two; between them other requests run. One request at a time keeps table and handle
 in agreement; these lemmas say exactly what overlapping ones leave behind.
 */
module Overlaps {
  import opened Wrappers
  import opened Params
  import opened Sources
  import opened Text
  import opened Configuration
  import opened Resolution
  import opened ConfigTables
  import Lifecycle
  import opened HandleState
  import opened HandleRuns
  import opened PendingRestart
  import opened AdminRequests
  import opened AdminRuns

  datatype Edit = Put(updates: Updates) | Take(name: Name)

  // A request under way: with a candidate not yet vetted, vetted and not yet written, written and
  // not yet adopted; or a reload holding the layer it will install.
  datatype Job =
    | Drafted(edit: Edit, candidate: Layer)
    | Vetted(edit: Edit, candidate: Layer)
    | Written(candidate: Layer)
    | Holding(layer: Layer)

  datatype World = World(server: Server, jobs: map<nat, Job>)

  // `ReadingTable` begins what a hangup signal does, `ReadingHandle` a reload through the API.
  // `Outside` is a write by another process, and a request dropped by its client never gets to write.
  datatype Step =
    | Drafting(job: nat, edit: Edit)
    | Vetting(job: nat, read: FileRead)
    | Writing(job: nat)
    | ReadingTable(job: nat)
    | ReadingHandle(job: nat)
    | Installing(job: nat, read: FileRead)
    | Dropping(job: nat)
    | Overriding(read: FileRead, updates: Updates)
    | Outside(write: Lifecycle.Write)
    | Confirming(id: int)

  // What a request is refused for before it takes a candidate is not an edit.
  predicate Allowed(e: Edit) {
    match e
    case Put(updates) => updates != [] && CheckWritable(updates).None?
    case Take(name) => name.Known?
  }

  function Edited(layer: Layer, e: Edit): Layer {
    match e
    case Put(updates) => Inserted(layer, updates)
    case Take(name) => layer - {name}
  }

  // The tables after the write, and whether there was anything to write.
  function Recorded(t: Tables, e: Edit): (Tables, bool) {
    match e
    case Put(updates) => (Set(t, updates).0, true)
    case Take(name) => Unset(t, name)
  }

  // What installing does to the handle, for a job that has a layer to install.
  function Installed(x: Surroundings, read: FileRead, s: State, j: Job): Result<State, HandleError>
    requires j.Written? || j.Holding?
  {
    if j.Written? then Adopted(x, read, s, j.candidate) else Reloaded(x, read, s, j.layer)
  }

  function LayerOf(j: Job): Layer
    requires j.Written? || j.Holding?
  {
    if j.Written? then j.candidate else j.layer
  }

  function Next(x: Surroundings, w: World, step: Step): World {
    var s := w.server;
    match step
    case Drafting(job, edit) =>
      if job in w.jobs || !s.handle.config.adminConfigWrite || !Allowed(edit) then w
      else w.(jobs := w.jobs[job := Drafted(edit, Edited(s.handle.stored, edit))])
    case Vetting(job, read) =>
      if job !in w.jobs || !w.jobs[job].Drafted? then w
      else if Probed(x, read, s.handle, w.jobs[job].candidate).Failure? then w.(jobs := w.jobs - {job})
      else w.(jobs := w.jobs[job := Vetted(w.jobs[job].edit, w.jobs[job].candidate)])
    case Writing(job) =>
      if job !in w.jobs || !w.jobs[job].Vetted? then w
      else
        var (t, written) := Recorded(s.tables, w.jobs[job].edit);
        if written then World(s.(tables := t), w.jobs[job := Written(w.jobs[job].candidate)])
        else w.(jobs := w.jobs - {job})
    case ReadingTable(job) =>
      if job in w.jobs then w else w.(jobs := w.jobs[job := Holding(Honoured(s.tables.settings))])
    case ReadingHandle(job) =>
      if job in w.jobs then w else w.(jobs := w.jobs[job := Holding(s.handle.stored)])
    case Installing(job, read) =>
      if job !in w.jobs || !(w.jobs[job].Written? || w.jobs[job].Holding?) then w
      else
        var next := Installed(x, read, s.handle, w.jobs[job]);
        World(if next.Success? then s.(handle := next.value) else s, w.jobs - {job})
    case Dropping(job) =>
      if job in w.jobs && (w.jobs[job].Drafted? || w.jobs[job].Vetted?) then w.(jobs := w.jobs - {job}) else w
    case Overriding(read, updates) =>
      var next := Patched(x, read, s.handle, updates);
      if next.Success? then w.(server := s.(handle := next.value)) else w
    case Outside(write) => w.(server := s.(tables := Lifecycle.Apply(s.tables, write)))
    case Confirming(id) => w.(server := s.(tables := Confirm(s.tables, id, true).0))
  }

  function Run(x: Surroundings, w: World, steps: seq<Step>): World {
    if steps == [] then w
    else Next(x, Run(x, w, steps[..|steps| - 1]), steps[|steps| - 1])
  }

  // ---- A request alone is the undisturbed one ----------------------------------------------

  lemma RunTwo(x: Surroundings, w: World, a: Step, b: Step)
    ensures Run(x, w, [a, b]) == Next(x, Next(x, w, a), b)
  {
    assert [a, b][..1] == [a] && [a][..0] == [];
    assert Run(x, w, [a]) == Next(x, w, a);
  }

  lemma RunThree(x: Surroundings, w: World, a: Step, b: Step, c: Step)
    ensures Run(x, w, [a, b, c]) == Next(x, Next(x, Next(x, w, a), b), c)
  {
    hide Next;
    RunTwo(x, w, a, b);
    assert [a, b, c][..2] == [a, b];
  }

  lemma RunFour(x: Surroundings, w: World, a: Step, b: Step, c: Step, d: Step)
    ensures Run(x, w, [a, b, c, d]) == Next(x, Next(x, Next(x, Next(x, w, a), b), c), d)
  {
    hide Next;
    RunThree(x, w, a, b, c);
    assert [a, b, c, d][..3] == [a, b, c];
  }

  lemma {:induction false} RunAppends(x: Surroundings, w: World, a: seq<Step>, b: seq<Step>)
    ensures Run(x, w, a + b) == Run(x, Run(x, w, a), b)
  {
    hide Next;
    if b == [] {
      assert a + b == a;
    } else {
      RunAppends(x, w, a, b[..|b| - 1]);
      assert (a + b)[..|a + b| - 1] == a + b[..|b| - 1];
    }
  }

  // The four steps of an edit, with nothing in between.
  function Steps(job: nat, e: Edit, seen: FileReads): seq<Step> {
    [Drafting(job, e), Vetting(job, seen.probe), Writing(job), Installing(job, seen.adopt)]
  }

  /** A write whose steps nothing interrupts is the write; its refusals are the write's refusals. */
  lemma PutAlone(x: Surroundings, seen: FileReads, s: Server, jobs: map<nat, Job>, job: nat, body: Body)
    requires job !in jobs && Checked(s.handle.config, body).Success?
    ensures var e := Put(Checked(s.handle.config, body).value);
            Run(x, World(s, jobs), Steps(job, e, seen)) == World(PutStored(x, seen, s, body).0, jobs)
  {
    hide Probed, Adopted, Inserted, Set, Checked, Report, Coerced;
    var updates := Checked(s.handle.config, body).value;
    CheckedIsAllowed(s.handle.config, body);
    var e := Put(updates);
    RunFour(x, World(s, jobs), Drafting(job, e), Vetting(job, seen.probe), Writing(job), Installing(job, seen.adopt));
    var candidate := Inserted(s.handle.stored, updates);
    JobsRestored(jobs, job, Drafted(e, candidate), Vetted(e, candidate), Written(candidate));
  }

  lemma CheckedIsAllowed(config: Config, body: Body)
    requires Checked(config, body).Success?
    ensures config.adminConfigWrite && Allowed(Put(Checked(config, body).value))
  {
  }

  lemma JobsRestored(jobs: map<nat, Job>, job: nat, a: Job, b: Job, c: Job)
    requires job !in jobs
    ensures jobs[job := a] - {job} == jobs
    ensures jobs[job := a][job := b] - {job} == jobs
    ensures jobs[job := a][job := b][job := c] - {job} == jobs
  {
  }

  /** The same for a removal. */
  lemma DeleteAlone(x: Surroundings, seen: FileReads, s: Server, jobs: map<nat, Job>, job: nat, name: Name)
    requires job !in jobs && s.handle.config.adminConfigWrite && name.Known?
    ensures Run(x, World(s, jobs), Steps(job, Take(name), seen)) == World(DeleteStored(x, seen, s, name).0, jobs)
  {
    hide Probed, Adopted, OpenGeneration;
    var e := Take(name);
    RunFour(x, World(s, jobs), Drafting(job, e), Vetting(job, seen.probe), Writing(job), Installing(job, seen.adopt));
    JobsRestored(jobs, job, Drafted(e, s.handle.stored - {name}), Vetted(e, s.handle.stored - {name}),
                 Written(s.handle.stored - {name}));
  }

  /** And for both kinds of reload. */
  lemma ReloadsAlone(x: Surroundings, read: FileRead, s: Server, jobs: map<nat, Job>, job: nat)
    requires job !in jobs
    ensures Run(x, World(s, jobs), [ReadingHandle(job), Installing(job, read)])
            == World(ReloadConfig(x, read, s).0, jobs)
    ensures Run(x, World(s, jobs), [ReadingTable(job), Installing(job, read)]) == World(Hangup(x, read, s).0, jobs)
  {
    hide Reloaded, Honoured;
    RunTwo(x, World(s, jobs), ReadingHandle(job), Installing(job, read));
    RunTwo(x, World(s, jobs), ReadingTable(job), Installing(job, read));
    var held := Holding(s.handle.stored);
    JobsRestored(jobs, job, held, held, held);
    JobsRestored(jobs, job, Holding(Honoured(s.tables.settings)), held, held);
  }

  /**
   The other steps are what they are called, and leave what is under way alone: a patch, the
   confirmation of a generation, a write by another process, and a request dropped before it writes.
   */
  lemma OthersAlone(x: Surroundings, read: FileRead, s: Server, jobs: map<nat, Job>, job: nat, body: Body, id: int,
                    write: Lifecycle.Write)
    ensures s.handle.config.adminConfigWrite && body != [] && Overrides(s.handle.sources, body).Success? ==>
              Next(x, World(s, jobs), Overriding(read, Overrides(s.handle.sources, body).value))
              == World(PatchConfig(x, read, s, body).0, jobs)
    ensures Next(x, World(s, jobs), Step.Confirming(id))
            == World(Server(Confirm(s.tables, id, true).0, s.handle), jobs)
    ensures Next(x, World(s, jobs), Outside(write)) == World(Server(Lifecycle.Apply(s.tables, write), s.handle), jobs)
    ensures job in jobs && (jobs[job].Drafted? || jobs[job].Vetted?) ==>
              Next(x, World(s, jobs), Dropping(job)) == World(s, jobs - {job})
  {
    hide Patched, Overrides, Confirm, Lifecycle.Apply;
  }

  // Nothing under way means to write, and nothing has written.
  ghost predicate OnlyReloads(jobs: map<nat, Job>) {
    forall job :: job in jobs ==> jobs[job].Holding?
  }

  lemma DisabledStays(x: Surroundings, w: World, step: Step)
    requires !w.server.handle.config.adminConfigWrite && OnlyReloads(w.jobs) && !step.Outside?
    ensures var w' := Next(x, w, step);
            && !w'.server.handle.config.adminConfigWrite && OnlyReloads(w'.jobs)
            && w'.server.tables.settings == w.server.tables.settings
            && w'.server.tables.lastId == w.server.tables.lastId
  {
    hide ResolveWithCarry, BootDrift, CheckPatch, Honoured, Allowed, Edited;
  }

  /** Where writes are disabled, no interleaving of any requests writes the table. */
  lemma {:induction false} DisabledInterleavings(x: Surroundings, w: World, steps: seq<Step>)
    requires !w.server.handle.config.adminConfigWrite && OnlyReloads(w.jobs)
    requires forall i :: 0 <= i < |steps| ==> !steps[i].Outside?
    ensures var end := Run(x, w, steps);
            && !end.server.handle.config.adminConfigWrite && OnlyReloads(end.jobs)
            && end.server.tables.settings == w.server.tables.settings
            && end.server.tables.lastId == w.server.tables.lastId
  {
    if steps != [] {
      hide Next, OnlyReloads;
      DisabledInterleavings(x, w, steps[..|steps| - 1]);
      DisabledStays(x, Run(x, w, steps[..|steps| - 1]), steps[|steps| - 1]);
    }
  }

  // ---- Any overlap --------------------------------------------------------------------------

  // The step has a layer to install and succeeds in installing it.
  predicate Installs(x: Surroundings, w: World, step: Step) {
    && step.Installing? && step.job in w.jobs && (w.jobs[step.job].Written? || w.jobs[step.job].Holding?)
    && Installed(x, step.read, w.server.handle, w.jobs[step.job]).Success?
  }

  // The layer installed last.
  function LastInstalled(x: Surroundings, w: World, steps: seq<Step>): Layer {
    if steps == [] then w.server.handle.stored
    else
      var (init, step) := (steps[..|steps| - 1], steps[|steps| - 1]);
      if Installs(x, Run(x, w, init), step) then LayerOf(Run(x, w, init).jobs[step.job]) else LastInstalled(x, w, init)
  }

  lemma StepStores(x: Surroundings, w: World, step: Step)
    ensures Next(x, w, step).server.handle.stored
            == if Installs(x, w, step) then LayerOf(w.jobs[step.job]) else w.server.handle.stored
  {
    hide Probed, ResolveWithCarry, WithBootFields, BootDrift, CheckPatch, Recorded, Edited;
  }

  /**
   However requests overlap, table and handle agree if and only if the layer installed last is what
   the table now translates to.
   */
  lemma {:induction false} AgreesIff(x: Surroundings, w: World, steps: seq<Step>)
    ensures Run(x, w, steps).server.handle.stored == LastInstalled(x, w, steps)
    ensures Agrees(Run(x, w, steps).server) <==>
            LastInstalled(x, w, steps) == Honoured(Run(x, w, steps).server.tables.settings)
  {
    if steps != [] {
      hide Next, Installs;
      AgreesIff(x, w, steps[..|steps| - 1]);
      StepStores(x, Run(x, w, steps[..|steps| - 1]), steps[|steps| - 1]);
    }
  }

  // The calls the handle gets, in order, with the files each finds.
  function CallsOf(x: Surroundings, w: World, steps: seq<Step>): seq<(FileRead, Call)> {
    if steps == [] then []
    else
      var (init, step) := (steps[..|steps| - 1], steps[|steps| - 1]);
      CallsOf(x, w, init) + CallOfStep(Run(x, w, init), step)
  }

  function CallOfStep(w: World, step: Step): seq<(FileRead, Call)> {
    match step
    case Overriding(read, updates) => [(read, PatchCall(updates))]
    case Installing(job, read) =>
      if job !in w.jobs || !(w.jobs[job].Written? || w.jobs[job].Holding?) then []
      else if w.jobs[job].Written? then [(read, AdoptCall(w.jobs[job].candidate))]
      else [(read, ReloadCall(w.jobs[job].layer))]
    case _ => []
  }

  lemma StepCalls(x: Surroundings, w: World, step: Step)
    ensures var calls := CallOfStep(w, step);
            Next(x, w, step).server.handle
            == if calls == [] then w.server.handle else After(x, calls[0].0, w.server.handle, calls[0].1)
    ensures |CallOfStep(w, step)| <= 1
  {
    hide Probed, Adopted, Reloaded, Patched, Recorded, Edited, Honoured, Allowed;
  }

  /**
   However requests overlap, the handle goes through a run of calls: what holds over every run of
   calls, with the files as each finds them, holds over every interleaving.
   */
  lemma {:induction false} HandleIsItsCalls(x: Surroundings, w: World, steps: seq<Step>)
    ensures Run(x, w, steps).server.handle == RunOver(x, w.server.handle, CallsOf(x, w, steps))
  {
    if steps != [] {
      hide Next, After, CallOfStep;
      var init, step := steps[..|steps| - 1], steps[|steps| - 1];
      HandleIsItsCalls(x, w, init);
      StepCalls(x, Run(x, w, init), step);
      var before, more := CallsOf(x, w, init), CallOfStep(Run(x, w, init), step);
      if more == [] {
        assert before + more == before;
      } else {
        assert (before + more)[..|before + more| - 1] == before;
      }
    }
  }

  // Translating the table commutes with every edit.
  lemma HonouredEdits(t: Tables, e: Edit)
    requires Allowed(e)
    ensures Honoured(Recorded(t, e).0.settings)
            == if Recorded(t, e).1 then Edited(Honoured(t.settings), e) else Honoured(t.settings)
  {
    match e {
      case Put(updates) => HonouredInserts(t.settings, updates);
      case Take(name) => assert Honoured(t.settings - {name}) == Honoured(t.settings) - {name};
    }
  }

  // The step writes an edit.
  predicate WritesEdit(w: World, step: Step) {
    && step.Writing? && step.job in w.jobs && w.jobs[step.job].Vetted?
    && Recorded(w.server.tables, w.jobs[step.job].edit).1
  }

  // The edits written, in the order they reached the table.
  function EditsOf(x: Surroundings, w: World, steps: seq<Step>): seq<Edit> {
    if steps == [] then []
    else
      var (init, step) := (steps[..|steps| - 1], steps[|steps| - 1]);
      EditsOf(x, w, init) + if WritesEdit(Run(x, w, init), step) then [Run(x, w, init).jobs[step.job].edit] else []
  }

  function EditedAll(layer: Layer, es: seq<Edit>): Layer {
    if es == [] then layer else Edited(EditedAll(layer, es[..|es| - 1]), es[|es| - 1])
  }

  predicate AllAllowed(jobs: map<nat, Job>) {
    forall job :: job in jobs && (jobs[job].Drafted? || jobs[job].Vetted?) ==> Allowed(jobs[job].edit)
  }

  lemma StepAllows(x: Surroundings, w: World, step: Step)
    requires AllAllowed(w.jobs)
    ensures AllAllowed(Next(x, w, step).jobs)
  {
    hide Allowed, Probed, Installed, Patched, Recorded, Edited, Honoured;
  }

  lemma StepRecords(x: Surroundings, w: World, step: Step)
    requires AllAllowed(w.jobs) && !step.Outside?
    ensures var was, now := Honoured(w.server.tables.settings), Honoured(Next(x, w, step).server.tables.settings);
            now == if WritesEdit(w, step) then Edited(was, w.jobs[step.job].edit) else was
  {
    hide Allowed, Probed, Installed, Patched, Recorded, Edited, Honoured;
    if step.Writing? && step.job in w.jobs && w.jobs[step.job].Vetted? {
      HonouredEdits(w.server.tables, w.jobs[step.job].edit);
    }
  }

  /**
   Whatever runs in between, the table comes to the edits written, in the order they were written.
   */
  lemma {:induction false} TableIsItsEdits(x: Surroundings, w: World, steps: seq<Step>)
    requires AllAllowed(w.jobs) && forall i :: 0 <= i < |steps| ==> !steps[i].Outside?
    ensures AllAllowed(Run(x, w, steps).jobs)
    ensures Honoured(Run(x, w, steps).server.tables.settings)
            == EditedAll(Honoured(w.server.tables.settings), EditsOf(x, w, steps))
  {
    if steps != [] {
      hide Next, AllAllowed, WritesEdit, Edited;
      var init, step := steps[..|steps| - 1], steps[|steps| - 1];
      TableIsItsEdits(x, w, init);
      StepAllows(x, Run(x, w, init), step);
      StepRecords(x, Run(x, w, init), step);
      var es := EditsOf(x, w, init);
      if WritesEdit(Run(x, w, init), step) {
        var e := Run(x, w, init).jobs[step.job].edit;
        assert (es + [e])[..|es|] == es;
      } else {
        assert es + [] == es;
      }
    }
  }

  // ---- What the handle can hold -------------------------------------------------------------

  // `l` is `layer` with some of the edits applied, in their order.
  ghost predicate SomeOf(layer: Layer, es: seq<Edit>, l: Layer) {
    if es == [] then l == layer
    else
      var (init, last) := (es[..|es| - 1], es[|es| - 1]);
      SomeOf(layer, init, l) || exists k :: SomeOf(layer, init, k) && l == Edited(k, last)
  }

  lemma SomeOfMore(layer: Layer, es: seq<Edit>, e: Edit, l: Layer)
    requires SomeOf(layer, es, l)
    ensures SomeOf(layer, es + [e], l) && SomeOf(layer, es + [e], Edited(l, e))
  {
    hide Edited;
    assert (es + [e])[..|es|] == es;
  }

  lemma {:induction false} AllIsSome(layer: Layer, es: seq<Edit>)
    ensures SomeOf(layer, es, EditedAll(layer, es))
  {
    hide Edited;
    if es != [] {
      AllIsSome(layer, es[..|es| - 1]);
    }
  }

  // A candidate is some of the edits and then its own.
  ghost predicate OneMore(layer: Layer, es: seq<Edit>, e: Edit, candidate: Layer) {
    exists k :: SomeOf(layer, es, k) && candidate == Edited(k, e)
  }

  ghost predicate JobFrom(layer: Layer, es: seq<Edit>, j: Job) {
    match j
    case Drafted(edit, candidate) => OneMore(layer, es, edit, candidate)
    case Vetted(edit, candidate) => OneMore(layer, es, edit, candidate)
    case Written(candidate) => SomeOf(layer, es, candidate)
    case Holding(held) => SomeOf(layer, es, held)
  }

  // Every layer in play comes from `layer` and the edits written so far.
  ghost predicate AllFrom(w: World, layer: Layer, es: seq<Edit>) {
    && SomeOf(layer, es, w.server.handle.stored)
    && Honoured(w.server.tables.settings) == EditedAll(layer, es)
    && (forall job :: job in w.jobs ==> JobFrom(layer, es, w.jobs[job]))
  }

  lemma JobFromMore(layer: Layer, es: seq<Edit>, e: Edit, j: Job)
    requires JobFrom(layer, es, j)
    ensures JobFrom(layer, es + [e], j)
    ensures j.Vetted? && j.edit == e ==> SomeOf(layer, es + [e], j.candidate)
  {
    hide SomeOf, Edited;
    match j {
      case Written(candidate) => SomeOfMore(layer, es, e, candidate);
      case Holding(held) => SomeOfMore(layer, es, e, held);
      case _ =>
        var k :| SomeOf(layer, es, k) && j.candidate == Edited(k, j.edit);
        SomeOfMore(layer, es, e, k);
    }
  }

  lemma WriteFrom(x: Surroundings, w: World, step: Step, layer: Layer, es: seq<Edit>)
    requires AllFrom(w, layer, es) && AllAllowed(w.jobs) && WritesEdit(w, step)
    ensures AllFrom(Next(x, w, step), layer, es + [w.jobs[step.job].edit])
  {
    hide Next, SomeOf, Edited, Honoured, Allowed, Recorded, JobFrom;
    var e := w.jobs[step.job].edit;
    WritesInTurn(x, w, step.job);
    StepRecords(x, w, step);
    SomeOfMore(layer, es, e, w.server.handle.stored);
    assert (es + [e])[..|es|] == es;
    forall job | job in w.jobs ensures JobFrom(layer, es + [e], w.jobs[job]) {
      JobFromMore(layer, es, e, w.jobs[job]);
    }
    JobFromMore(layer, es, e, w.jobs[step.job]);
    WrittenFrom(layer, es + [e], w.jobs[step.job].candidate);
  }

  lemma WrittenFrom(layer: Layer, es: seq<Edit>, candidate: Layer)
    requires SomeOf(layer, es, candidate)
    ensures JobFrom(layer, es, Written(candidate))
  {
    hide SomeOf;
  }

  lemma StepFrom(x: Surroundings, w: World, step: Step, layer: Layer, es: seq<Edit>)
    requires AllFrom(w, layer, es) && AllAllowed(w.jobs) && !step.Outside? && !WritesEdit(w, step)
    ensures AllFrom(Next(x, w, step), layer, es)
  {
    hide Next, SomeOf, Edited, EditedAll, Honoured, Allowed, Recorded, JobFrom, Installs;
    StepRecords(x, w, step);
    StoredFrom(x, w, step, layer, es);
    forall job | job in Next(x, w, step).jobs ensures JobFrom(layer, es, Next(x, w, step).jobs[job]) {
      StepJobFrom(x, w, step, layer, es, job);
    }
  }

  lemma StoredFrom(x: Surroundings, w: World, step: Step, layer: Layer, es: seq<Edit>)
    requires AllFrom(w, layer, es)
    ensures SomeOf(layer, es, Next(x, w, step).server.handle.stored)
  {
    hide Next, SomeOf, Edited, EditedAll, Honoured, Installed;
    StepStores(x, w, step);
    if Installs(x, w, step) {
      assert JobFrom(layer, es, w.jobs[step.job]);
    }
  }

  lemma StepJobFrom(x: Surroundings, w: World, step: Step, layer: Layer, es: seq<Edit>, job: nat)
    requires AllFrom(w, layer, es) && !WritesEdit(w, step) && job in Next(x, w, step).jobs
    ensures JobFrom(layer, es, Next(x, w, step).jobs[job])
  {
    hide SomeOf, Edited, EditedAll, Honoured, Allowed, Recorded, Probed, Installed, Patched;
    AllIsSome(layer, es);
    if job in w.jobs {
      assert JobFrom(layer, es, w.jobs[job]);
    }
  }

  /**
   However requests that start from agreement overlap, the handle holds the layer from before them
   with some of the edits written since, in the order they were written, and never anything else.
   */
  lemma {:induction false} HandleHoldsSomeEdits(x: Surroundings, w: World, steps: seq<Step>)
    requires Agrees(w.server) && w.jobs == map[] && forall i :: 0 <= i < |steps| ==> !steps[i].Outside?
    ensures AllFrom(Run(x, w, steps), w.server.handle.stored, EditsOf(x, w, steps))
    ensures SomeOf(w.server.handle.stored, EditsOf(x, w, steps), LastInstalled(x, w, steps))
  {
    hide Next, SomeOf, WritesEdit, JobFrom, Honoured, LastInstalled, AllAllowed, AllFrom;
    AgreesIff(x, w, steps);
    if steps == [] {
      NothingEdited(w);
    } else {
      var init, step := steps[..|steps| - 1], steps[|steps| - 1];
      var v, es := Run(x, w, init), EditsOf(x, w, init);
      HandleHoldsSomeEdits(x, w, init);
      NoneUnderWay(w);
      TableIsItsEdits(x, w, init);
      if WritesEdit(v, step) {
        WriteFrom(x, v, step, w.server.handle.stored, es);
      } else {
        StepFrom(x, v, step, w.server.handle.stored, es);
        assert es + [] == es;
      }
    }
    HoldsFrom(Run(x, w, steps), w.server.handle.stored, EditsOf(x, w, steps));
  }

  lemma HoldsFrom(w: World, layer: Layer, es: seq<Edit>)
    requires AllFrom(w, layer, es)
    ensures SomeOf(layer, es, w.server.handle.stored)
  {
    hide SomeOf, JobFrom;
  }

  lemma NothingEdited(w: World)
    requires Agrees(w.server) && w.jobs == map[]
    ensures AllFrom(w, w.server.handle.stored, [])
  {
  }

  lemma NoneUnderWay(w: World)
    requires w.jobs == map[]
    ensures AllAllowed(w.jobs)
  {
  }

  // ---- One at a time ------------------------------------------------------------------------

  // What holds while one request is under way.
  ghost predicate Phased(s: Server, j: Job) {
    match j
    case Drafted(edit, candidate) => Agrees(s) && Allowed(edit) && candidate == Edited(s.handle.stored, edit)
    case Vetted(edit, candidate) => Agrees(s) && Allowed(edit) && candidate == Edited(s.handle.stored, edit)
    case Written(candidate) => candidate == Honoured(s.tables.settings)
    case Holding(layer) => Agrees(s) && layer == Honoured(s.tables.settings)
  }

  ghost predicate AtMostOne(w: World) {
    && (w.jobs == map[] ==> Agrees(w.server))
    && (forall job :: job in w.jobs ==> w.jobs == map[job := w.jobs[job]] && Phased(w.server, w.jobs[job]))
  }

  // A request starts only when none is under way, no other process writes, and no adoption fails
  // after its write.
  ghost predicate Orderly(x: Surroundings, w: World, steps: seq<Step>) {
    steps == [] ||
    var (init, step) := (steps[..|steps| - 1], steps[|steps| - 1]);
    var v := Run(x, w, init);
    && Orderly(x, w, init)
    && !step.Outside?
    && (step.Drafting? || step.ReadingTable? || step.ReadingHandle? ==> v.jobs == map[])
    && (step.Installing? && step.job in v.jobs && v.jobs[step.job].Written? ==> Installs(x, v, step))
  }

  lemma WritesInTurn(x: Surroundings, w: World, job: nat)
    requires job in w.jobs && w.jobs[job].Vetted? && Recorded(w.server.tables, w.jobs[job].edit).1
    ensures Next(x, w, Writing(job))
            == World(w.server.(tables := Recorded(w.server.tables, w.jobs[job].edit).0),
                     w.jobs[job := Written(w.jobs[job].candidate)])
  {
    hide Recorded;
  }

  lemma LeavesInTurn(x: Surroundings, w: World, job: nat)
    requires job in w.jobs && w.jobs[job].Vetted? && !Recorded(w.server.tables, w.jobs[job].edit).1
    ensures Next(x, w, Writing(job)) == w.(jobs := w.jobs - {job})
  {
    hide Recorded;
  }

  lemma TheJob(w: World, job: nat)
    requires AtMostOne(w) && job in w.jobs
    ensures w.jobs == map[job := w.jobs[job]] && Phased(w.server, w.jobs[job])
  {
  }

  lemma OneJob(s: Server, job: nat, j: Job)
    requires Phased(s, j)
    ensures AtMostOne(World(s, map[job := j]))
  {
    hide Phased;
    var jobs := map[job := j];
    assert job in jobs && forall k :: k in jobs ==> k == job && jobs[k] == j;
  }

  lemma WriteStep(x: Surroundings, w: World, job: nat)
    requires AtMostOne(w)
    ensures AtMostOne(Next(x, w, Writing(job)))
  {
    hide Edited, Honoured, Recorded, Allowed;
    if job in w.jobs && w.jobs[job].Vetted? {
      hide AtMostOne, Next;
      TheJob(w, job);
      var j := w.jobs[job];
      if Recorded(w.server.tables, j.edit).1 {
        HonouredEdits(w.server.tables, j.edit);
        WritesInTurn(x, w, job);
        var s := w.server.(tables := Recorded(w.server.tables, j.edit).0);
        assert w.jobs[job := Written(j.candidate)] == map[job := Written(j.candidate)];
        OneJob(s, job, Written(j.candidate));
      } else {
        LeavesInTurn(x, w, job);
        assert w.jobs - {job} == map[];
        NoJob(w.server);
      }
    }
  }

  lemma NoJob(s: Server)
    requires Agrees(s)
    ensures AtMostOne(World(s, map[]))
  {
  }

  lemma InstallStep(x: Surroundings, w: World, job: nat, read: FileRead)
    requires AtMostOne(w)
    requires job in w.jobs && w.jobs[job].Written? ==> Installs(x, w, Installing(job, read))
    ensures AtMostOne(Next(x, w, Installing(job, read)))
  {
    hide ResolveWithCarry, WithBootFields, BootDrift, Honoured, Allowed, Edited;
    StepStores(x, w, Installing(job, read));
  }

  lemma OverrideStep(x: Surroundings, w: World, read: FileRead, updates: Updates)
    requires AtMostOne(w)
    ensures AtMostOne(Next(x, w, Overriding(read, updates)))
  {
    hide ResolveWithCarry, WithBootFields, BootDrift, CheckPatch, Honoured, Allowed, Edited;
  }

  lemma StartStep(x: Surroundings, w: World, step: Step)
    requires AtMostOne(w) && w.jobs == map[]
    requires step.Drafting? || step.ReadingTable? || step.ReadingHandle?
    ensures AtMostOne(Next(x, w, step))
  {
    hide Honoured, Allowed, Edited;
  }

  lemma VettingStep(x: Surroundings, w: World, step: Step)
    requires AtMostOne(w) && step.Vetting?
    ensures AtMostOne(Next(x, w, step))
  {
    hide Probed, Honoured, Allowed, Edited;
    if step.job in w.jobs {
      assert w.jobs - {step.job} == map[];
    }
  }

  lemma OtherStep(x: Surroundings, w: World, step: Step)
    requires AtMostOne(w) && (step.Dropping? || step.Confirming?)
    ensures AtMostOne(Next(x, w, step))
  {
    hide Honoured, Allowed, Edited;
    if step.Dropping? && step.job in w.jobs {
      assert w.jobs - {step.job} == map[];
    }
  }

  lemma OneStep(x: Surroundings, w: World, step: Step)
    requires AtMostOne(w) && !step.Outside?
    requires step.Drafting? || step.ReadingTable? || step.ReadingHandle? ==> w.jobs == map[]
    requires step.Installing? && step.job in w.jobs && w.jobs[step.job].Written? ==> Installs(x, w, step)
    ensures AtMostOne(Next(x, w, step))
  {
    hide Next, Installs, AtMostOne;
    match step {
      case Writing(job) => WriteStep(x, w, job);
      case Installing(job, read) => InstallStep(x, w, job, read);
      case Overriding(read, updates) => OverrideStep(x, w, read, updates);
      case Drafting(_, _) => StartStep(x, w, step);
      case ReadingTable(_) => StartStep(x, w, step);
      case ReadingHandle(_) => StartStep(x, w, step);
      case Vetting(_, _) => VettingStep(x, w, step);
      case _ => OtherStep(x, w, step);
    }
  }

  /**
   One request at a time, patches and confirmations at any time: whenever none is under way, table
   and handle agree.
   */
  lemma {:induction false} OneAtATimeAgrees(x: Surroundings, w: World, steps: seq<Step>)
    requires w.jobs == map[] && Agrees(w.server) && Orderly(x, w, steps)
    ensures AtMostOne(Run(x, w, steps))
    ensures Run(x, w, steps).jobs == map[] ==> Agrees(Run(x, w, steps).server)
  {
    if steps != [] {
      hide Next, Installs, Phased;
      OneAtATimeAgrees(x, w, steps[..|steps| - 1]);
      OneStep(x, Run(x, w, steps[..|steps| - 1]), steps[|steps| - 1]);
    }
  }

  // ---- Two edits that overlap ---------------------------------------------------------------

  ghost predicate Touches(e: Edit, n: Name) {
    match e
    case Put(updates) => exists i :: 0 <= i < |updates| && updates[i].0 == n
    case Take(name) => n == name
  }

  ghost predicate SameAt(l: Layer, m: Layer, n: Name) {
    (n in l <==> n in m) && (n in l ==> l[n] == m[n])
  }

  // What a name is left with depends on the layer only if the edit does not touch it.
  lemma EditedAt(layer: Layer, other: Layer, e: Edit, n: Name)
    ensures if Touches(e, n) then SameAt(Edited(layer, e), Edited(other, e), n) else SameAt(Edited(layer, e), layer, n)
  {
    if e.Put? {
      InsertedAt(layer, other, e.updates, n);
    }
  }

  lemma {:induction false} InsertedAt(layer: Layer, other: Layer, updates: Updates, n: Name)
    ensures if Touches(Put(updates), n) then SameAt(Inserted(layer, updates), Inserted(other, updates), n)
            else SameAt(Inserted(layer, updates), layer, n)
  {
    if updates != [] {
      var init := updates[..|updates| - 1];
      InsertedAt(layer, other, init, n);
      if Touches(Put(init), n) {
        var i :| 0 <= i < |init| && init[i].0 == n;
        assert updates[i].0 == n;
      }
      assert updates[|updates| - 1].0 == n ==> Touches(Put(updates), n);
    }
  }

  lemma SameEverywhere(l: Layer, m: Layer)
    requires forall n :: SameAt(l, m, n)
    ensures l == m
  {
    forall n ensures (n in l <==> n in m) && (n in l ==> l[n] == m[n]) {
      assert SameAt(l, m, n);
    }
  }

  /**
   Two edits written, in any interleaving of any requests: what table and handle then agree on, told
   by which layer was installed last. The second's candidate, taken before the first was adopted: the
   first must have changed nothing the second does not touch. The first's: the second must have left
   what it touches as the first did. The second's, taken after: they agree. The layer from before
   both, brought back by a reload: the two together must have changed nothing. There is no other.
   */
  lemma TwoEditsIff(x: Surroundings, w: World, steps: seq<Step>, a: Edit, b: Edit)
    requires Agrees(w.server) && AllAllowed(w.jobs) && forall i :: 0 <= i < |steps| ==> !steps[i].Outside?
    requires EditsOf(x, w, steps) == [a, b]
    ensures var (stored, agree) := (w.server.handle.stored, Agrees(Run(x, w, steps).server));
            var (after, last) := (Edited(stored, a), LastInstalled(x, w, steps));
            && (last == Edited(stored, b) ==>
                  (agree <==> forall n :: !Touches(b, n) ==> SameAt(after, stored, n)))
            && (last == after ==>
                  (agree <==> forall n :: Touches(b, n) ==> SameAt(Edited(after, b), after, n)))
            && (last == Edited(after, b) ==> agree)
            && (last == stored ==>
                  (agree <==> forall n :: Touches(a, n) || Touches(b, n) ==> SameAt(Edited(after, b), stored, n)))
            && (w.jobs == map[] ==>
                  last == stored || last == after || last == Edited(stored, b) || last == Edited(after, b))
  {
    hide Run, Edited, Touches, SameAt, LastInstalled, EditsOf, AllAllowed, Honoured, AllFrom;
    var stored := w.server.handle.stored;
    AgreesIff(x, w, steps);
    TableIsItsEdits(x, w, steps);
    assert [a, b][..1] == [a] && [a][..0] == [];
    assert EditedAll(stored, [a]) == Edited(stored, a);
    assert EditedAll(stored, [a, b]) == Edited(Edited(stored, a), b);
    LastWriterIff(stored, a, b);
    UnchangedIff(Edited(stored, a), b);
    UndoneIff(stored, a, b);
    if w.jobs == map[] {
      HandleHoldsSomeEdits(x, w, steps);
      SomeOfTwo(stored, a, b, LastInstalled(x, w, steps));
    }
  }

  lemma SomeOfTwo(layer: Layer, a: Edit, b: Edit, l: Layer)
    requires SomeOf(layer, [a, b], l)
    ensures l == layer || l == Edited(layer, a) || l == Edited(layer, b) || l == Edited(Edited(layer, a), b)
  {
    hide Edited;
    assert [a, b][..1] == [a];
    if SomeOf(layer, [a], l) {
      SomeOfOne(layer, a, l);
    } else {
      var k :| SomeOf(layer, [a], k) && l == Edited(k, b);
      SomeOfOne(layer, a, k);
    }
  }

  lemma SomeOfOne(layer: Layer, e: Edit, l: Layer)
    requires SomeOf(layer, [e], l)
    ensures l == layer || l == Edited(layer, e)
  {
    hide Edited;
    assert [e][..0] == [];
    forall k | SomeOf(layer, [], k) ensures k == layer {
    }
  }

  lemma UndoneIff(stored: Layer, a: Edit, b: Edit)
    ensures var both := Edited(Edited(stored, a), b);
            both == stored <==> forall n :: Touches(a, n) || Touches(b, n) ==> SameAt(both, stored, n)
  {
    hide Edited, Touches;
    var both := Edited(Edited(stored, a), b);
    forall n | !Touches(a, n) && !Touches(b, n) ensures SameAt(both, stored, n) {
      EditedAt(stored, stored, a, n);
      EditedAt(Edited(stored, a), stored, b, n);
    }
    if forall n :: Touches(a, n) || Touches(b, n) ==> SameAt(both, stored, n) {
      SameEverywhere(both, stored);
    }
  }

  /**
   One edit written while reloads come and go: if what was installed last is the layer from before
   the edit, they agree if and only if the edit changed nothing; if it is the edited layer, they do.
   There is no other.
   */
  lemma OneEditIff(x: Surroundings, w: World, steps: seq<Step>, e: Edit)
    requires Agrees(w.server) && AllAllowed(w.jobs) && forall i :: 0 <= i < |steps| ==> !steps[i].Outside?
    requires EditsOf(x, w, steps) == [e]
    ensures var (stored, agree) := (w.server.handle.stored, Agrees(Run(x, w, steps).server));
            var last := LastInstalled(x, w, steps);
            && (last == stored ==>
                  (agree <==> forall n :: Touches(e, n) ==> SameAt(Edited(stored, e), stored, n)))
            && (last == Edited(stored, e) ==> agree)
            && (w.jobs == map[] ==> last == stored || last == Edited(stored, e))
  {
    hide Run, Edited, Touches, SameAt, LastInstalled, EditsOf, AllAllowed, Honoured, AllFrom;
    var stored := w.server.handle.stored;
    AgreesIff(x, w, steps);
    TableIsItsEdits(x, w, steps);
    assert [e][..0] == [];
    assert EditedAll(stored, [e]) == Edited(stored, e);
    UnchangedIff(stored, e);
    if w.jobs == map[] {
      HandleHoldsSomeEdits(x, w, steps);
      SomeOfOne(stored, e, LastInstalled(x, w, steps));
    }
  }

  // ---- Schedules under which each happens ---------------------------------------------------

  // Both edits took their candidates from the layer the handle holds and were vetted.
  ghost predicate BothVetted(s: Server, a: Edit, b: Edit, w: World) {
    && Agrees(s) && Allowed(a) && Allowed(b)
    && w == World(s, map[0 := Vetted(a, Edited(s.handle.stored, a)), 1 := Vetted(b, Edited(s.handle.stored, b))])
  }

  /** Two requests that each take a candidate before the other writes reach that point. */
  lemma BothGetVetted(x: Surroundings, s: Server, a: Edit, b: Edit, first: FileRead, second: FileRead)
    requires Agrees(s) && Allowed(a) && Allowed(b) && s.handle.config.adminConfigWrite
    requires Probed(x, first, s.handle, Edited(s.handle.stored, a)).Success?
    requires Probed(x, second, s.handle, Edited(s.handle.stored, b)).Success?
    ensures var steps := [Drafting(0, a), Drafting(1, b), Vetting(0, first), Vetting(1, second)];
            BothVetted(s, a, b, Run(x, World(s, map[]), steps))
  {
    hide Probed, Edited, Allowed, Honoured;
    RunFour(x, World(s, map[]), Drafting(0, a), Drafting(1, b), Vetting(0, first), Vetting(1, second));
    var ca, cb := Edited(s.handle.stored, a), Edited(s.handle.stored, b);
    assert map[0 := Drafted(a, ca)][1 := Drafted(b, cb)][0 := Vetted(a, ca)][1 := Vetted(b, cb)]
           == map[0 := Vetted(a, ca), 1 := Vetted(b, cb)];
  }

  // Both find something to write, in this order.
  ghost predicate BothWrite(s: Server, a: Edit, b: Edit) {
    Recorded(s.tables, a).1 && Recorded(Recorded(s.tables, a).0, b).1
  }

  lemma AfterBothWrite(x: Surroundings, s: Server, a: Edit, b: Edit, w: World)
    requires BothVetted(s, a, b, w) && BothWrite(s, a, b)
    ensures var v := Next(x, Next(x, w, Writing(0)), Writing(1));
            && v.jobs == map[0 := Written(Edited(s.handle.stored, a)), 1 := Written(Edited(s.handle.stored, b))]
            && v.server.handle == s.handle
            && Honoured(v.server.tables.settings) == Edited(Edited(s.handle.stored, a), b)
  {
    hide Next, Recorded, Edited, Allowed, Honoured;
    WritesInTurn(x, w, 0);
    WritesInTurn(x, Next(x, w, Writing(0)), 1);
    HonouredEdits(s.tables, a);
    HonouredEdits(Recorded(s.tables, a).0, b);
  }

  // The step at which job `job` adopts succeeds.
  lemma AdoptsInTurn(x: Surroundings, w: World, job: nat, read: FileRead)
    requires job in w.jobs && w.jobs[job].Written? && Installs(x, w, Installing(job, read))
    ensures var v := Next(x, w, Installing(job, read));
            && v.server.tables == w.server.tables && v.jobs == w.jobs - {job}
            && v.server.handle.stored == w.jobs[job].candidate
  {
    hide ResolveWithCarry, WithBootFields, BootDrift;
  }

  /**
   Two edits that overlap, adopted in the order they were written: table and handle agree afterwards
   if and only if the first changed nothing but what the second touches.
   */
  lemma OverlapInOrderIff(x: Surroundings, s: Server, a: Edit, b: Edit, w: World, first: FileRead, second: FileRead)
    requires BothVetted(s, a, b, w) && BothWrite(s, a, b)
    requires var v := Next(x, Next(x, w, Writing(0)), Writing(1));
             && Installs(x, v, Installing(0, first))
             && Installs(x, Next(x, v, Installing(0, first)), Installing(1, second))
    ensures var end := Run(x, w, [Writing(0), Writing(1), Installing(0, first), Installing(1, second)]);
            && end.jobs == map[]
            && (Agrees(end.server) <==>
                forall n :: !Touches(b, n) ==> SameAt(Edited(s.handle.stored, a), s.handle.stored, n))
  {
    hide Next, Installs, BothWrite, Edited, Touches, SameAt, Honoured;
    var stored := s.handle.stored;
    var v := Next(x, Next(x, w, Writing(0)), Writing(1));
    AfterBothWrite(x, s, a, b, w);
    AdoptsInTurn(x, v, 0, first);
    AdoptsInTurn(x, Next(x, v, Installing(0, first)), 1, second);
    RunFour(x, w, Writing(0), Writing(1), Installing(0, first), Installing(1, second));
    LastWriterIff(stored, a, b);
  }

  lemma LastWriterIff(stored: Layer, a: Edit, b: Edit)
    ensures Edited(Edited(stored, a), b) == Edited(stored, b) <==>
            forall n :: !Touches(b, n) ==> SameAt(Edited(stored, a), stored, n)
  {
    hide Edited, Touches;
    var both, last := Edited(Edited(stored, a), b), Edited(stored, b);
    forall n
      ensures SameAt(both, last, n) <==> (Touches(b, n) || SameAt(Edited(stored, a), stored, n))
    {
      EditedAt(Edited(stored, a), stored, b, n);
      EditedAt(stored, stored, b, n);
    }
    if forall n :: !Touches(b, n) ==> SameAt(Edited(stored, a), stored, n) {
      SameEverywhere(both, last);
    }
  }

  /**
   The same two edits adopted the other way round, which nothing prevents: they agree if and only if
   the second left what it touches as the first did.
   */
  lemma OverlapReversedIff(x: Surroundings, s: Server, a: Edit, b: Edit, w: World, first: FileRead, second: FileRead)
    requires BothVetted(s, a, b, w) && BothWrite(s, a, b)
    requires var v := Next(x, Next(x, w, Writing(0)), Writing(1));
             && Installs(x, v, Installing(1, first))
             && Installs(x, Next(x, v, Installing(1, first)), Installing(0, second))
    ensures var end := Run(x, w, [Writing(0), Writing(1), Installing(1, first), Installing(0, second)]);
            && end.jobs == map[]
            && (Agrees(end.server) <==>
                var after := Edited(s.handle.stored, a);
                forall n :: Touches(b, n) ==> SameAt(Edited(after, b), after, n))
  {
    hide Next, Installs, BothWrite, Edited, Touches, SameAt, Honoured;
    var v := Next(x, Next(x, w, Writing(0)), Writing(1));
    AfterBothWrite(x, s, a, b, w);
    AdoptsInTurn(x, v, 1, first);
    AdoptsInTurn(x, Next(x, v, Installing(1, first)), 0, second);
    RunFour(x, w, Writing(0), Writing(1), Installing(1, first), Installing(0, second));
    UnchangedIff(Edited(s.handle.stored, a), b);
  }

  lemma UnchangedIff(layer: Layer, e: Edit)
    ensures Edited(layer, e) == layer <==> forall n :: Touches(e, n) ==> SameAt(Edited(layer, e), layer, n)
  {
    hide Edited, Touches;
    forall n | !Touches(e, n) ensures SameAt(Edited(layer, e), layer, n) {
      EditedAt(layer, layer, e, n);
    }
    if forall n :: Touches(e, n) ==> SameAt(Edited(layer, e), layer, n) {
      SameEverywhere(Edited(layer, e), layer);
    }
  }

  // ---- A reload that overlaps an edit -------------------------------------------------------

  lemma ReloadsInTurn(x: Surroundings, w: World, job: nat, read: FileRead)
    requires job in w.jobs && w.jobs[job].Holding? && Installs(x, w, Installing(job, read))
    ensures var v := Next(x, w, Installing(job, read));
            && v.server.tables == w.server.tables && v.jobs == w.jobs - {job}
            && v.server.handle.stored == w.jobs[job].layer
  {
    hide ResolveWithCarry, WithBootFields, BootDrift;
  }

  // A vetted edit and a reload that has read the table, or the handle, before the edit is written.
  ghost predicate EditAndReload(s: Server, e: Edit, w: World) {
    && Agrees(s) && Allowed(e) && Recorded(s.tables, e).1
    && w == World(s, map[0 := Vetted(e, Edited(s.handle.stored, e)), 1 := Holding(s.handle.stored)])
  }

  lemma AfterWrite(x: Surroundings, s: Server, e: Edit, w: World)
    requires EditAndReload(s, e, w)
    ensures var v := Next(x, w, Writing(0));
            && v.jobs == map[0 := Written(Edited(s.handle.stored, e)), 1 := Holding(s.handle.stored)]
            && v.server.handle == s.handle
            && Honoured(v.server.tables.settings) == Edited(s.handle.stored, e)
  {
    hide Next, Recorded, Edited, Allowed, Honoured;
    WritesInTurn(x, w, 0);
    HonouredEdits(s.tables, e);
  }

  /**
   A reload that read before an edit was written and installs after it was adopted brings the old
   layer back: they agree afterwards if and only if the edit changed nothing. Installed before the
   adoption, it does no harm.
   */
  lemma StaleReloadIff(x: Surroundings, s: Server, e: Edit, w: World, first: FileRead, second: FileRead)
    requires EditAndReload(s, e, w)
    ensures var v := Next(x, w, Writing(0));
            Installs(x, v, Installing(0, first)) && Installs(x, Next(x, v, Installing(0, first)), Installing(1, second))
            ==> var end := Run(x, w, [Writing(0), Installing(0, first), Installing(1, second)]);
                Agrees(end.server) <==>
                forall n :: Touches(e, n) ==> SameAt(Edited(s.handle.stored, e), s.handle.stored, n)
    ensures var v := Next(x, w, Writing(0));
            Installs(x, v, Installing(1, first)) && Installs(x, Next(x, v, Installing(1, first)), Installing(0, second))
            ==> Agrees(Run(x, w, [Writing(0), Installing(1, first), Installing(0, second)]).server)
  {
    hide Next, Installs, Edited, Touches, SameAt, Honoured, Recorded, Allowed;
    var v := Next(x, w, Writing(0));
    AfterWrite(x, s, e, w);
    RunThree(x, w, Writing(0), Installing(0, first), Installing(1, second));
    RunThree(x, w, Writing(0), Installing(1, first), Installing(0, second));
    UnchangedIff(s.handle.stored, e);
    if Installs(x, v, Installing(0, first)) && Installs(x, Next(x, v, Installing(0, first)), Installing(1, second)) {
      AdoptsInTurn(x, v, 0, first);
      ReloadsInTurn(x, Next(x, v, Installing(0, first)), 1, second);
    }
    if Installs(x, v, Installing(1, first)) && Installs(x, Next(x, v, Installing(1, first)), Installing(0, second)) {
      ReloadsInTurn(x, v, 1, first);
      AdoptsInTurn(x, Next(x, v, Installing(1, first)), 0, second);
    }
  }

  // ---- An instance --------------------------------------------------------------------------

  function Lifetime(text: string): Layer {
    map[Known(DefaultSessionTtlSeconds) := text]
  }

  function SetLifetime(text: string): Edit {
    Put([(Known(DefaultSessionTtlSeconds), text)])
  }

  lemma LifetimeReads(salt: string)
    ensures Canonical(DefaultSessionTtlSeconds, Some("600"), salt).Success?
    ensures Canonical(DefaultSessionTtlSeconds, Some("700"), salt).Success?
  {
    assert "600"[..2] == "60" && "60"[..1] == "6" && "700"[..2] == "70" && "70"[..1] == "7";
    assert Decimal("60") == Some(60) && Decimal("70") == Some(70);
  }

  // A stored lifetime that reads resolves over the secrets, whatever the process booted with.
  lemma LifetimeResolves(salt: string, master: string, boot: Config, text: string)
    requires var first := FreshResolve(WithSecrets(salt, master), NO_FILES, map[]);
             first.Success? && boot == first.value.0
    requires text == "600" || text == "700"
    ensures FromEnv(RunningStack(WithSecrets(salt, master), NO_FILES, boot, map[], Lifetime(text)).Answers()).Success?
  {
    hide FromEnv, Canonical, FieldValue, BootLayer;
    var x := WithSecrets(salt, master);
    var m := RunningStack(x, NO_FILES, boot, map[], Lifetime(text));
    var l := Stack(x, NO_FILES, map[], map[], map[]);
    CarryingIsFixpoint(l, boot);
    var carrying := Carrying(l, boot);
    ResolvesFieldByField(carrying.Answers());
    LifetimeReads(Salt(m.Answers()));
    assert m.Get(ApiKeySalt) == carrying.Get(ApiKeySalt);
    forall p ensures Field(m.Answers(), p).Success? {
      assert p != DefaultSessionTtlSeconds ==> m.Get(p) == carrying.Get(p);
      assert Field(carrying.Answers(), p).Success?;
    }
    ResolvesFieldByField(m.Answers());
  }

  lemma LifetimeAdopts(salt: string, master: string, boot: Config, s: State, text: string)
    requires var first := FreshResolve(WithSecrets(salt, master), NO_FILES, map[]);
             first.Success? && boot == first.value.0
    requires text == "600" || text == "700"
    requires Descended(boot, s) && s.overlay == map[]
    ensures var next := Adopted(WithSecrets(salt, master), Success(NO_FILES), s, Lifetime(text));
            next.Success? && Descended(boot, next.value) && next.value.overlay == map[]
  {
    hide FromEnv, WithBootFields, BootDrift, RunningStack, FreshResolve, Coherent, Descended, Lifetime;
    var x := WithSecrets(salt, master);
    hide WithSecrets;
    LifetimeResolves(salt, master, boot, text);
    ResolvesFromBoot(x, NO_FILES, boot, s, map[], Lifetime(text));
    SuccessIsCoherent(x, NO_FILES, boot, s, AdoptCall(Lifetime(text)));
  }

  lemma LifetimesWrite()
    ensures Edited(map[], SetLifetime("600")) == Lifetime("600")
    ensures Edited(map[], SetLifetime("700")) == Lifetime("700")
    ensures Edited(Lifetime("600"), SetLifetime("700")) == Lifetime("700")
    ensures Allowed(SetLifetime("600")) && Allowed(SetLifetime("700"))
    ensures Lifetime("600") != Lifetime("700")
  {
    var a: Updates := [(Known(DefaultSessionTtlSeconds), "600")];
    var b: Updates := [(Known(DefaultSessionTtlSeconds), "700")];
    assert a[..0] == [] && b[..0] == [];
    assert CheckWritable(a).None? && CheckWritable(b).None?;
    assert Lifetime("600")[Known(DefaultSessionTtlSeconds)] == "600";
    assert Lifetime("700")[Known(DefaultSessionTtlSeconds)] == "700";
    assert "600"[0] != "700"[0];
  }

  lemma LifetimesFindWriting(s: Server)
    ensures BothWrite(s, SetLifetime("600"), SetLifetime("700"))
  {
  }

  // A process that has just started with nothing stored.
  function Fresh(salt: string, master: string): State
    requires FreshResolve(WithSecrets(salt, master), NO_FILES, map[]).Success?
  {
    var (boot, sources) := FreshResolve(WithSecrets(salt, master), NO_FILES, map[]).value;
    State(boot, map[], sources, map[], [])
  }

  // It takes writes, and a lifetime passes its dry run.
  lemma FreshVets(salt: string, master: string, text: string)
    requires FreshResolve(WithSecrets(salt, master), NO_FILES, map[]).Success?
    requires text == "600" || text == "700"
    ensures var s := Fresh(salt, master);
            && s.config.adminConfigWrite && Descended(s.config, s)
            && Probed(WithSecrets(salt, master), Success(NO_FILES), s, Lifetime(text)).Success?
  {
    hide FromEnv, Canonical, FieldValue, Descended, Adopted, Probed, Lifetime;
    var x, s := WithSecrets(salt, master), Fresh(salt, master);
    StartDescends(s.config, s);
    LifetimeAdopts(salt, master, s.config, s, text);
    ProbeDecides(x, Success(NO_FILES), s, Lifetime(text));
    var m := RestartStack(x, NO_FILES, map[]);
    FieldOfConfig(m.Answers(), AdminConfigWrite);
    WritesByDefault(s.config, Salt(m.Answers()));
  }

  lemma WritesByDefault(c: Config, salt: string)
    requires Canonical(AdminConfigWrite, None, salt) == Success(FieldValue(c, AdminConfigWrite))
    ensures c.adminConfigWrite
  {
    BoolRoundTrip(true);
    BoolRoundTrip(c.adminConfigWrite);
  }

  // Both writes at once, up to the table; then the adoptions, the other way round.
  function BothDrafted(): seq<Step> {
    var read := Success(NO_FILES);
    [Drafting(0, SetLifetime("600")), Drafting(1, SetLifetime("700")), Vetting(0, read), Vetting(1, read)]
  }

  function AdoptedReversed(): seq<Step> {
    [Writing(0), Writing(1), Installing(1, Success(NO_FILES)), Installing(0, Success(NO_FILES))]
  }

  /**
   Two writes of the session lifetime at once, 600 and then 700, adopted the other way round, with
   every step succeeding: the table holds 700 and the handle 600.
   */
  lemma ReversedAdoptionsDisagree(salt: string, master: string)
    requires ByteLen(salt) >= SECRET_MIN_BYTES && ByteLen(master) >= SECRET_MIN_BYTES
    ensures var x := WithSecrets(salt, master);
            && FreshResolve(x, NO_FILES, map[]).Success?
            && var end := Run(x, World(Server(EMPTY, Fresh(salt, master)), map[]), BothDrafted() + AdoptedReversed());
            && end.jobs == map[]
            && Honoured(end.server.tables.settings) == Lifetime("700")
            && end.server.handle.stored == Lifetime("600")
            && !Agrees(end.server)
  {
    hide FreshResolve, Next, Installs, Honoured, ByteLen, Edited, Allowed, Lifetime, SetLifetime, Descended, BothWrite;
    hide Fresh, Probed;
    var x, read := WithSecrets(salt, master), Success(NO_FILES);
    ResolvesWithSecrets(salt, master, map[]);
    var s := Server(EMPTY, Fresh(salt, master));
    FreshHolds(salt, master);
    LifetimesWrite();
    NothingStored();
    LifetimesFindWriting(s);
    FreshVets(salt, master, "600");
    FreshVets(salt, master, "700");
    BothGetVetted(x, s, SetLifetime("600"), SetLifetime("700"), read, read);
    RunAppends(x, World(s, map[]), BothDrafted(), AdoptedReversed());
    var w := Run(x, World(s, map[]), BothDrafted());
    AfterBothWrite(x, s, SetLifetime("600"), SetLifetime("700"), w);
    var v := Next(x, Next(x, w, Writing(0)), Writing(1));
    LifetimeInstalls(salt, master, s.handle.config, v, 1, "700");
    LifetimeInstalls(salt, master, s.handle.config, Next(x, v, Installing(1, read)), 0, "600");
    RunFour(x, w, Writing(0), Writing(1), Installing(1, read), Installing(0, read));
  }

  lemma FreshHolds(salt: string, master: string)
    requires FreshResolve(WithSecrets(salt, master), NO_FILES, map[]).Success?
    ensures var s := Fresh(salt, master);
            && s.config == FreshResolve(WithSecrets(salt, master), NO_FILES, map[]).value.0
            && s.overlay == map[] && s.stored == map[]
  {
    hide FreshResolve;
  }

  // A write vetted, and a reload that has read the table meanwhile.
  function VettedAndRead(e: Edit, read: FileRead): seq<Step> {
    [Drafting(0, e), Vetting(0, read), ReadingTable(1)]
  }

  lemma ReloadGetsAhead(x: Surroundings, s: Server, e: Edit, read: FileRead)
    requires Agrees(s) && Allowed(e) && Recorded(s.tables, e).1 && s.handle.config.adminConfigWrite
    requires Probed(x, read, s.handle, Edited(s.handle.stored, e)).Success?
    ensures EditAndReload(s, e, Run(x, World(s, map[]), VettedAndRead(e, read)))
  {
    hide Probed, Edited, Allowed, Honoured, Recorded;
    RunThree(x, World(s, map[]), Drafting(0, e), Vetting(0, read), ReadingTable(1));
    var candidate := Edited(s.handle.stored, e);
    assert map[0 := Drafted(e, candidate)][0 := Vetted(e, candidate)] == map[0 := Vetted(e, candidate)];
    assert map[0 := Vetted(e, candidate)][1 := Holding(s.handle.stored)]
           == map[0 := Vetted(e, candidate), 1 := Holding(s.handle.stored)];
  }

  function WrittenThenReloaded(read: FileRead): seq<Step> {
    [Writing(0), Installing(0, read), Installing(1, read)]
  }

  /**
   A write of the session lifetime and a reload on a hangup signal that read the table before it, on a
   server whose start applied all there was: the table ends with the lifetime, which is reported as
   shadowed though no layer stands above it.
   */
  lemma StaleReloadIsReportedShadowed(salt: string, master: string)
    requires ByteLen(salt) >= SECRET_MIN_BYTES && ByteLen(master) >= SECRET_MIN_BYTES
    ensures var (x, read) := (WithSecrets(salt, master), Success(NO_FILES));
            && FreshResolve(x, NO_FILES, map[]).Success?
            && var steps := VettedAndRead(SetLifetime("600"), read) + WrittenThenReloaded(read);
            && var end := Run(x, World(Server(EMPTY, Fresh(salt, master)), map[]), steps);
            && end.jobs == map[] && Honoured(end.server.tables.settings) == Lifetime("600")
            && Shadowed(Lifetime("600"), end.server.handle.sources) == {Known(DefaultSessionTtlSeconds)}
            && !Outranked(x, end.server.handle.overlay, Known(DefaultSessionTtlSeconds))
  {
    hide FreshResolve, Next, Installs, Honoured, ByteLen, Edited, Allowed, SetLifetime, Descended, Recorded;
    hide Fresh, Probed, Adopted, Reloaded;
    var x, read, e := WithSecrets(salt, master), Success(NO_FILES), SetLifetime("600");
    ResolvesWithSecrets(salt, master, map[]);
    var s := Server(EMPTY, Fresh(salt, master));
    FreshHolds(salt, master);
    LifetimesWrite();
    NothingStored();
    LifetimesFindWriting(s);
    FreshVets(salt, master, "600");
    OneWrites(s);
    ReloadGetsAhead(x, s, e, read);
    RunAppends(x, World(s, map[]), VettedAndRead(e, read), WrittenThenReloaded(read));
    var w := Run(x, World(s, map[]), VettedAndRead(e, read));
    AfterWrite(x, s, e, w);
    var v := Next(x, w, Writing(0));
    LifetimeInstalls(salt, master, s.handle.config, v, 0, "600");
    StaleReloadInstalls(salt, master, v, Next(x, v, Installing(0, read)));
    RunThree(x, w, Writing(0), Installing(0, read), Installing(1, read));
  }

  lemma OneWrites(s: Server)
    ensures Recorded(s.tables, SetLifetime("600")).1
  {
  }

  // The reload that installs the empty layer over an adopted lifetime.
  lemma StaleReloadInstalls(salt: string, master: string, v: World, w: World)
    requires FreshResolve(WithSecrets(salt, master), NO_FILES, map[]).Success?
    requires v.server.handle == Fresh(salt, master) && 0 in v.jobs && v.jobs[0] == Written(Lifetime("600"))
    requires w == Next(WithSecrets(salt, master), v, Installing(0, Success(NO_FILES)))
    requires w.jobs == map[1 := Holding(map[])]
    ensures var x := WithSecrets(salt, master);
            var end := Next(x, w, Installing(1, Success(NO_FILES)));
            && end.jobs == map[] && end.server.tables == w.server.tables
            && Shadowed(Lifetime("600"), end.server.handle.sources) == {Known(DefaultSessionTtlSeconds)}
            && !Outranked(x, end.server.handle.overlay, Known(DefaultSessionTtlSeconds))
  {
    hide FreshResolve, Adopted, Reloaded;
    var x, read := WithSecrets(salt, master), Success(NO_FILES);
    ReloadAfterStart(x, NO_FILES, map[]);
    CallForgotten(x, v.server.handle, read, AdoptCall(Lifetime("600")), read, map[]);
    var reloaded := Reloaded(x, read, w.server.handle, map[]);
    assert reloaded.Success?;
    ReloadedBare(x, read, w.server.handle, map[]);
    CallCredits(x, read, w.server.handle, ReloadCall(map[]));
    assert SourceIn(reloaded.value.sources, DefaultSessionTtlSeconds) != Stored;
  }

  lemma ReloadedBare(x: Surroundings, read: FileRead, s: State, stored: Layer)
    requires Reloaded(x, read, s, stored).Success?
    ensures Reloaded(x, read, s, stored).value.overlay == map[] && Reloaded(x, read, s, stored).value.stored == stored
  {
    hide ResolveWithCarry, WithBootFields, BootDrift;
  }

  // One adoption of a lifetime, from any handle that has no overrides.
  lemma LifetimeInstalls(salt: string, master: string, boot: Config, w: World, job: nat, text: string)
    requires var first := FreshResolve(WithSecrets(salt, master), NO_FILES, map[]);
             first.Success? && boot == first.value.0
    requires text == "600" || text == "700"
    requires Descended(boot, w.server.handle) && w.server.handle.overlay == map[]
    requires job in w.jobs && w.jobs[job] == Written(Lifetime(text))
    ensures var v := Next(WithSecrets(salt, master), w, Installing(job, Success(NO_FILES)));
            && v.server.tables == w.server.tables && v.jobs == w.jobs - {job}
            && v.server.handle.stored == Lifetime(text)
            && Descended(boot, v.server.handle) && v.server.handle.overlay == map[]
  {
    hide FreshResolve, Next, Installs, Adopted, Lifetime, Descended;
    var x, read := WithSecrets(salt, master), Success(NO_FILES);
    LifetimeAdopts(salt, master, boot, w.server.handle, text);
    InstallsIf(x, w, job, read);
    AdoptsInTurn(x, w, job, read);
    InstalledHandle(x, w, job, read);
  }

  lemma NothingStored()
    ensures Honoured(map[]) == map[]
  {
  }

  lemma StartDescends(boot: Config, s: State)
    requires s.config == boot && s.overlay == map[]
    ensures Descended(boot, s)
  {
    MergeTwice(boot, boot, boot);
  }

  lemma InstallsIf(x: Surroundings, w: World, job: nat, read: FileRead)
    requires job in w.jobs && w.jobs[job].Written?
    requires Adopted(x, read, w.server.handle, w.jobs[job].candidate).Success?
    ensures Installs(x, w, Installing(job, read))
  {
    hide Adopted;
  }

  lemma InstalledHandle(x: Surroundings, w: World, job: nat, read: FileRead)
    requires job in w.jobs && w.jobs[job].Written?
    requires Adopted(x, read, w.server.handle, w.jobs[job].candidate).Success?
    ensures Next(x, w, Installing(job, read)).server.handle
            == Adopted(x, read, w.server.handle, w.jobs[job].candidate).value
  {
    hide Adopted;
  }
}
