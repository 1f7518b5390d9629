/**
 Requests on one sessions table, interleaved one statement at a time. A request reads its row,
 decides, and issues at most one more statement later; in between, anything may happen.
 */
module SessionRuns {
  import opened Wrappers
  import opened Bytes
  import opened SessionTables
  import opened Text

  // What a request has decided and still has to write: delete a row it found expired, delete one
  // it found at the limit, delete one whose solution it was given, or count a wrong answer.
  datatype Flight = Expiring(id: Bytes) | Exhausting(id: Bytes) | Solving(id: Bytes) | Counting(id: Bytes)

  // `created` remembers every session ever created: ids are never handed out twice. `next` numbers
  // requests, and the clock `now` only moves forward.
  datatype World = World(table: Sessions, created: Sessions, flights: map<nat, Flight>, next: nat, now: int)

  datatype Event =
    | Elapse(seconds: nat)
    | Create(session: Session)
    | Validate(id: Bytes, solution: Bytes, max: int)
    | Fetch(id: Bytes)
    | Finish(request: nat)
    | Abandon(request: nat)
    | Remove(id: Bytes)
    | Sweep

  const INITIAL := World(map[], map[], map[], 0, 0)

  // What a request that reads `id` now will answer. Nothing it does later changes that.
  datatype Answer = NotFound | Shown(session: Session) | Judged(outcome: ValidationOutcome)

  function Judge(verify: Verifier, s: Session, solution: Bytes, max: int): (Flight, ValidationOutcome) {
    if s.attemptCount >= max then (Exhausting(s.id), MaxAttemptsExceeded)
    else if verify(s.id, solution, s.solutionHash) then (Solving(s.id), Correct)
    else
      var remaining := max - s.attemptCount - 1;
      (Counting(s.id), Wrong(if remaining > 0 then remaining else 0))
  }

  // The flight and the answer of a request reading now; no flight if it has nothing to write.
  function Reading(verify: Verifier, w: World, e: Event): (r: (Option<Flight>, Answer))
    requires e.Validate? || e.Fetch?
  {
    match Lookup(w.table, e.id)
    case None => (None, NotFound)
    case Some(s) =>
      if Expired(s, w.now) then (Some(Expiring(e.id)), NotFound)
      else if e.Fetch? then (None, Shown(s))
      else
        var (flight, outcome) := Judge(verify, s, e.solution, e.max);
        (Some(flight), Judged(outcome))
  }

  // The statement a request was left to issue.
  function Written(t: Sessions, f: Flight): Sessions {
    if f.Counting? then Incremented(t, f.id) else t - {f.id}
  }

  function Next(verify: Verifier, w: World, e: Event): World {
    match e
    case Elapse(seconds) => w.(now := w.now + seconds)
    case Create(s) =>
      if s.id in w.created || s.attemptCount != 0 then w
      else w.(table := w.table[s.id := s], created := w.created[s.id := s])
    case Validate(_, _, _) => Started(w, Reading(verify, w, e).0)
    case Fetch(_) => Started(w, Reading(verify, w, e).0)
    case Finish(request) =>
      if request !in w.flights then w
      else w.(table := Written(w.table, w.flights[request]), flights := w.flights - {request})
    case Abandon(request) => w.(flights := w.flights - {request})
    case Remove(id) => w.(table := w.table - {id})
    case Sweep => w.(table := Swept(w.table, w.now))
  }

  function Started(w: World, flight: Option<Flight>): World {
    w.(next := w.next + 1, flights := if flight.Some? then w.flights[w.next := flight.value] else w.flights)
  }

  function Run(verify: Verifier, es: seq<Event>): World {
    if es == [] then INITIAL
    else Next(verify, Run(verify, es[..|es| - 1]), es[|es| - 1])
  }

  /** A request nobody interrupts is the undisturbed operation. */
  lemma AloneIsSequential(verify: Verifier, w: World, id: Bytes, solution: Bytes, max: int)
    requires w.next !in w.flights && (id in w.table ==> w.table[id].id == id)
    ensures var (after, outcome) := Validated(verify, w.table, id, solution, max, w.now);
            var e := Validate(id, solution, max);
            && Next(verify, Next(verify, w, e), Finish(w.next)).table == after
            && Reading(verify, w, e).1 == (if outcome.Some? then Judged(outcome.value) else NotFound)
  {
  }

  /** So is a fetch: what it leaves to write is the deletion of a row it found expired. */
  lemma FetchAloneIsSequential(verify: Verifier, w: World, id: Bytes)
    requires w.next !in w.flights
    ensures var (after, found) := Fetched(w.table, id, w.now);
            && Next(verify, Next(verify, w, Fetch(id)), Finish(w.next)).table == after
            && Reading(verify, w, Fetch(id)).1 == (if found.Some? then Shown(found.value) else NotFound)
  {
  }

  /** Every session made under an id never used before is admitted, and nothing else is touched. */
  lemma CreationIsAdmitted(verify: Verifier, w: World, id: Bytes, hash: string, image: Bytes, ttl: u64,
                           difficulty: int, width: int, height: int, darkMode: bool)
    requires id !in w.created && I64_MIN <= w.now <= I64_MAX
    ensures var s := NewSession(id, hash, image, ttl, difficulty, width, height, darkMode, w.now);
            Next(verify, w, Create(s)) == w.(table := w.table[id := s], created := w.created[id := s])
  {
  }

  /**
   A session is there for the lifetime asked for, and no longer: created and left alone, it is shown
   until that many seconds have gone by, and then there is none.
   */
  lemma ShownForItsLifetime(verify: Verifier, w: World, id: Bytes, hash: string, image: Bytes, ttl: u64,
                            difficulty: int, width: int, height: int, darkMode: bool, seconds: nat)
    requires id !in w.created && w.now >= 0 && w.now + ttl <= I64_MAX
    ensures var s := NewSession(id, hash, image, ttl, difficulty, width, height, darkMode, w.now);
            var later := Next(verify, Next(verify, w, Create(s)), Elapse(seconds));
            Reading(verify, later, Fetch(id)).1 == if seconds <= ttl then Shown(s) else NotFound
  {
  }

  /** A sweep is the storage's deletion of expired rows at that time, and a removal that of one row. */
  lemma DeletionsAreStorage(verify: Verifier, w: World, id: Bytes)
    ensures var swept := Next(verify, w, Sweep);
            && swept == w.(table := Swept(w.table, w.now))
            && (forall other :: other in swept.table <==> other in w.table && !Expired(w.table[other], w.now))
    ensures id !in Next(verify, w, Remove(id)).table
    ensures forall other :: other != id ==> Lookup(Next(verify, w, Remove(id)).table, other) == Lookup(w.table, other)
    ensures forall request :: var dropped := Next(verify, w, Abandon(request));
                              dropped.table == w.table && request !in dropped.flights
  {
  }

  // ---- What every reachable world satisfies ------------------------------------------------

  ghost predicate Sound(w: World) {
    && (forall id :: id in w.created ==> w.created[id].id == id)
    && w.table.Keys <= w.created.Keys
    && (forall id :: id in w.table ==> w.table[id].attemptCount >= 0)
    && (forall id :: id in w.table ==> w.table[id] == w.created[id].(attemptCount := w.table[id].attemptCount))
    && (forall v :: v in w.flights ==> v < w.next && w.flights[v].id in w.created)
    && (forall v :: v in w.flights && w.flights[v].Expiring? ==> Expired(w.created[w.flights[v].id], w.now))
  }

  lemma ReadSound(verify: Verifier, w: World, e: Event)
    requires Sound(w) && (e.Validate? || e.Fetch?)
    ensures Sound(Next(verify, w, e))
  {
  }

  lemma FinishSound(verify: Verifier, w: World, v: nat)
    requires Sound(w)
    ensures Sound(Next(verify, w, Finish(v)))
  {
  }

  lemma NextSound(verify: Verifier, w: World, e: Event)
    requires Sound(w)
    ensures Sound(Next(verify, w, e))
  {
    match e {
      case Validate(_, _, _) => ReadSound(verify, w, e);
      case Fetch(_) => ReadSound(verify, w, e);
      case Finish(v) => FinishSound(verify, w, v);
      case _ =>
    }
  }

  lemma {:induction false} AlwaysSound(verify: Verifier, es: seq<Event>)
    ensures Sound(Run(verify, es))
  {
    if es != [] {
      AlwaysSound(verify, es[..|es| - 1]);
      NextSound(verify, Run(verify, es[..|es| - 1]), es[|es| - 1]);
    }
  }

  /**
   A deleted session never comes back, whatever requests were still under way on it: in
   particular a late increment finds no row.
   */
  lemma {:induction false} DeletedStaysDeleted(verify: Verifier, es: seq<Event>, n: nat, id: Bytes)
    requires n <= |es| && id in Run(verify, es[..n]).created && id !in Run(verify, es[..n]).table
    ensures id in Run(verify, es).created && id !in Run(verify, es).table
  {
    hide Next;
    if n == |es| {
      assert es[..n] == es;
    } else {
      var init := es[..|es| - 1];
      assert init[..n] == es[..n];
      DeletedStaysDeleted(verify, init, n, id);
      CreatesOnlyNew(verify, Run(verify, init), es[|es| - 1], id);
    }
  }

  lemma CreatesOnlyNew(verify: Verifier, w: World, e: Event, id: Bytes)
    requires id in w.created && id !in w.table
    ensures id in Next(verify, w, e).created && id !in Next(verify, w, e).table
  {
  }

  // ---- How many solutions are ever checked ------------------------------------------------

  // A request that reads `id` now compares its solution with the stored hash.
  ghost predicate Checks(verify: Verifier, w: World, e: Event, id: Bytes) {
    e.Validate? && e.id == id && Reading(verify, w, e).1.Judged?
    && !Reading(verify, w, e).1.outcome.MaxAttemptsExceeded?
  }

  // Has compared a solution and not yet written what follows from it.
  predicate Undecided(f: Flight, id: Bytes) {
    f == Solving(id) || f == Counting(id)
  }

  ghost predicate Flies(w: World, v: nat, holds: Flight -> bool) {
    v in w.flights && holds(w.flights[v])
  }

  ghost function Checked(verify: Verifier, es: seq<Event>, id: Bytes): nat {
    if es == [] then 0
    else
      var init := es[..|es| - 1];
      Checked(verify, init, id) + if Checks(verify, Run(verify, init), es[|es| - 1], id) then 1 else 0
  }

  // Requests that compared a solution and were dropped before writing anything.
  ghost function Lost(verify: Verifier, es: seq<Event>, id: Bytes): nat {
    if es == [] then 0
    else
      var (init, e) := (es[..|es| - 1], es[|es| - 1]);
      Lost(verify, init, id) + if e.Abandon? && Flies(Run(verify, init), e.request, UndecidedOn(id)) then 1 else 0
  }

  // Requests that accepted a solution and deleted the session for it.
  ghost function Accepted(verify: Verifier, es: seq<Event>, id: Bytes): nat {
    if es == [] then 0
    else
      var (init, e) := (es[..|es| - 1], es[|es| - 1]);
      Accepted(verify, init, id) + if e.Finish? && Flies(Run(verify, init), e.request, SolvingOn(id)) then 1 else 0
  }

  function On(id: Bytes): Flight -> bool {
    (f: Flight) => f.id == id
  }

  function UndecidedOn(id: Bytes): Flight -> bool {
    (f: Flight) => Undecided(f, id)
  }

  function SolvingOn(id: Bytes): Flight -> bool {
    (f: Flight) => f == Solving(id)
  }

  // The requests under way whose flight is of a kind.
  ghost function Those(flights: map<nat, Flight>, holds: Flight -> bool): set<nat> {
    set v | v in flights && holds(flights[v])
  }

  // At no moment of the run are more than `k` requests on `id` under way.
  ghost predicate AtMost(verify: Verifier, es: seq<Event>, id: Bytes, k: nat) {
    |Those(Run(verify, es).flights, On(id))| <= k && (es != [] ==> AtMost(verify, es[..|es| - 1], id, k))
  }

  ghost predicate Limited(es: seq<Event>, id: Bytes, max: int) {
    forall i :: 0 <= i < |es| && es[i].Validate? && es[i].id == id ==> es[i].max <= max
  }

  ghost function Bound(max: int, k: nat): int {
    if max >= 1 then max + k - 1 else 0
  }

  // `checked`, `lost` and `accepted` are the counts for `id` up to the world `w`.
  ghost predicate Tally(w: World, id: Bytes, max: int, k: nat, checked: nat, lost: nat, accepted: nat) {
    && (id !in w.created ==> checked == 0 && lost == 0 && accepted == 0)
    && (id in w.table ==>
          checked == w.table[id].attemptCount + |Those(w.flights, UndecidedOn(id))| + lost && accepted == 0)
    && checked <= Bound(max, k) + lost
    && accepted + |Those(w.flights, SolvingOn(id))| <= k
  }

  lemma FlightAdded(flights: map<nat, Flight>, v: nat, f: Flight, holds: Flight -> bool)
    requires v !in flights
    ensures |Those(flights[v := f], holds)| == |Those(flights, holds)| + if holds(f) then 1 else 0
  {
    var after := flights[v := f];
    assert forall u :: u in after <==> u in flights || u == v;
    assert forall u :: u in flights ==> after[u] == flights[u];
    assert Those(after, holds) == Those(flights, holds) + if holds(f) then {v} else {};
  }

  lemma FlightDone(flights: map<nat, Flight>, v: nat, holds: Flight -> bool)
    ensures |Those(flights - {v}, holds)|
            == |Those(flights, holds)| - if v in flights && holds(flights[v]) then 1 else 0
  {
    assert Those(flights - {v}, holds) == Those(flights, holds) - {v};
  }

  lemma FewerOfAKind(w: World, id: Bytes)
    ensures |Those(w.flights, UndecidedOn(id))| <= |Those(w.flights, On(id))|
    ensures |Those(w.flights, SolvingOn(id))| <= |Those(w.flights, On(id))|
  {
    SubsetIsSmaller(Those(w.flights, UndecidedOn(id)), Those(w.flights, On(id)));
    SubsetIsSmaller(Those(w.flights, SolvingOn(id)), Those(w.flights, On(id)));
  }

  lemma SubsetIsSmaller(a: set<nat>, b: set<nat>)
    requires a <= b
    ensures |a| <= |b|
  {
    assert |b| == |a| + |b - a| by { assert b == a + (b - a); }
  }

  // One read: a solution is compared only below the limit.
  lemma ReadTally(verify: Verifier, w: World, e: Event, id: Bytes, max: int, k: nat,
                  checked: nat, lost: nat, accepted: nat)
    requires Sound(w) && Tally(w, id, max, k, checked, lost, accepted)
    requires e.Fetch? || (e.Validate? && (e.id == id ==> e.max <= max))
    requires |Those(Next(verify, w, e).flights, On(id))| <= k
    ensures var more := if Checks(verify, w, e, id) then 1 else 0;
            Tally(Next(verify, w, e), id, max, k, checked + more, lost, accepted)
  {
    var w' := Next(verify, w, e);
    var flight := Reading(verify, w, e).0;
    if flight.Some? {
      FlightAdded(w.flights, w.next, flight.value, UndecidedOn(id));
      FlightAdded(w.flights, w.next, flight.value, SolvingOn(id));
      FewerOfAKind(w', id);
    }
  }

  lemma FinishTally(verify: Verifier, w: World, v: nat, id: Bytes, max: int, k: nat,
                    checked: nat, lost: nat, accepted: nat)
    requires Sound(w) && Tally(w, id, max, k, checked, lost, accepted)
    ensures var accepts := if Flies(w, v, SolvingOn(id)) then 1 else 0;
            Tally(Next(verify, w, Finish(v)), id, max, k, checked, lost, accepted + accepts)
  {
    if v in w.flights {
      FlightDone(w.flights, v, UndecidedOn(id));
      FlightDone(w.flights, v, SolvingOn(id));
    }
  }

  lemma AbandonTally(verify: Verifier, w: World, v: nat, id: Bytes, max: int, k: nat,
                     checked: nat, lost: nat, accepted: nat)
    requires Sound(w) && Tally(w, id, max, k, checked, lost, accepted)
    ensures var losses := if Flies(w, v, UndecidedOn(id)) then 1 else 0;
            Tally(Next(verify, w, Abandon(v)), id, max, k, checked, lost + losses, accepted)
  {
    FlightDone(w.flights, v, UndecidedOn(id));
    FlightDone(w.flights, v, SolvingOn(id));
  }

  lemma NextTally(verify: Verifier, w: World, e: Event, id: Bytes, max: int, k: nat,
                  checked: nat, lost: nat, accepted: nat)
    requires Sound(w) && Tally(w, id, max, k, checked, lost, accepted)
    requires e.Validate? && e.id == id ==> e.max <= max
    requires |Those(Next(verify, w, e).flights, On(id))| <= k
    ensures var checks := if Checks(verify, w, e, id) then 1 else 0;
            var losses := if e.Abandon? && Flies(w, e.request, UndecidedOn(id)) then 1 else 0;
            var accepts := if e.Finish? && Flies(w, e.request, SolvingOn(id)) then 1 else 0;
            Tally(Next(verify, w, e), id, max, k, checked + checks, lost + losses, accepted + accepts)
  {
    match e {
      case Validate(_, _, _) => ReadTally(verify, w, e, id, max, k, checked, lost, accepted);
      case Fetch(_) => ReadTally(verify, w, e, id, max, k, checked, lost, accepted);
      case Finish(v) => FinishTally(verify, w, v, id, max, k, checked, lost, accepted);
      case Abandon(v) => AbandonTally(verify, w, v, id, max, k, checked, lost, accepted);
      case Create(s) => assert id !in w.created ==> Those(w.flights, UndecidedOn(id)) == {};
      case _ =>
    }
  }

  lemma {:induction false} AlwaysTallies(verify: Verifier, es: seq<Event>, id: Bytes, max: int, k: nat)
    requires k >= 1 && AtMost(verify, es, id, k) && Limited(es, id, max)
    ensures Tally(Run(verify, es), id, max, k, Checked(verify, es, id), Lost(verify, es, id), Accepted(verify, es, id))
  {
    hide Tally, Next, Checks, Flies;
    if es == [] {
      EmptyTally(id, max, k);
    } else {
      var init, e := es[..|es| - 1], es[|es| - 1];
      assert Limited(init, id, max) by { assert forall i :: 0 <= i < |init| ==> init[i] == es[i]; }
      AlwaysTallies(verify, init, id, max, k);
      AlwaysSound(verify, init);
      NextTally(verify, Run(verify, init), e, id, max, k,
                Checked(verify, init, id), Lost(verify, init, id), Accepted(verify, init, id));
    }
  }

  lemma EmptyTally(id: Bytes, max: int, k: nat)
    requires k >= 1
    ensures Tally(INITIAL, id, max, k, 0, 0, 0)
  {
    assert Those(INITIAL.flights, SolvingOn(id)) == {};
  }

  /**
   With at most `k` requests on a session under way at any moment, at most max + k - 1 solutions
   are ever compared with its answer, not counting those whose request was dropped before its
   write, and at most `k` are accepted.
   */
  lemma ChecksAreBounded(verify: Verifier, es: seq<Event>, id: Bytes, max: int, k: nat)
    requires k >= 1 && AtMost(verify, es, id, k) && Limited(es, id, max)
    ensures Checked(verify, es, id) <= Lost(verify, es, id) + if max >= 1 then max + k - 1 else 0
    ensures Accepted(verify, es, id) <= k
  {
    hide Checked, Lost, Accepted, AtMost, Limited, Next;
    AlwaysTallies(verify, es, id, max, k);
  }
}
