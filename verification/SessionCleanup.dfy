/**
 Removing expired sessions, in the background or on demand: no fetch, no validation and no image
 can tell that it happened. And the task that does it on a timer.
 */
module SessionCleanup {
  import opened Bytes
  import opened SessionTables
  import opened SessionRuns

  // ---- Sweeps are unobservable --------------------------------------------------------------

  function WithoutSweeps(es: seq<Event>): seq<Event> {
    if es == [] then []
    else
      var rest := WithoutSweeps(es[..|es| - 1]);
      if es[|es| - 1].Sweep? then rest else rest + [es[|es| - 1]]
  }

  // What the fetches and validations of a run are answered, in order. (A fetch answers for an
  // image too: decrypting it takes nothing but the row.)
  function Answers(verify: Verifier, es: seq<Event>): seq<Answer> {
    if es == [] then []
    else
      var (init, e) := (es[..|es| - 1], es[|es| - 1]);
      Answers(verify, init)
      + if e.Validate? || e.Fetch? then [Reading(verify, Run(verify, init), e).1] else []
  }

  // The flights but for those that only delete an expired row.
  function Mattering(flights: map<nat, Flight>): map<nat, Flight> {
    map v | v in flights && !flights[v].Expiring? :: flights[v]
  }

  // Two worlds that differ in rows that have expired, and in requests about to delete such rows.
  ghost predicate Alike(p: World, k: World) {
    && Swept(p.table, p.now) == Swept(k.table, k.now)
    && p.now == k.now && p.next == k.next && p.created == k.created
    && Mattering(p.flights) == Mattering(k.flights)
  }

  lemma ReadsAlike(verify: Verifier, p: World, k: World, e: Event)
    requires Sound(p) && Sound(k) && Alike(p, k) && (e.Validate? || e.Fetch?)
    ensures Reading(verify, p, e).1 == Reading(verify, k, e).1
    ensures var (f, g) := (Reading(verify, p, e).0, Reading(verify, k, e).0);
            f == g || ((f.Some? ==> f.value.Expiring?) && (g.Some? ==> g.value.Expiring?))
  {
    hide Judge;
    assert e.id in Swept(p.table, p.now) <==> e.id in Swept(k.table, k.now);
    if e.id in Swept(p.table, p.now) {
      assert p.table[e.id] == Swept(p.table, p.now)[e.id] == k.table[e.id];
    }
  }

  lemma MatteringAdds(flights: map<nat, Flight>, v: nat, f: Flight)
    requires v !in flights
    ensures Mattering(flights[v := f]) == if f.Expiring? then Mattering(flights) else Mattering(flights)[v := f]
  {
  }

  lemma StartedAlike(verify: Verifier, p: World, k: World, e: Event)
    requires Sound(p) && Sound(k) && Alike(p, k) && (e.Validate? || e.Fetch?)
    ensures Alike(Next(verify, p, e), Next(verify, k, e))
  {
    hide Reading, Mattering;
    ReadsAlike(verify, p, k, e);
    var f, g := Reading(verify, p, e).0, Reading(verify, k, e).0;
    if f.Some? { MatteringAdds(p.flights, p.next, f.value); }
    if g.Some? { MatteringAdds(k.flights, k.next, g.value); }
  }

  // Sweeping and a request's statement commute.
  lemma SweptWrites(t: Sessions, f: Flight, now: int)
    ensures Swept(Written(t, f), now) == Written(Swept(t, now), f)
  {
  }

  lemma SweptInserts(t: Sessions, s: Session, now: int)
    requires s.id !in t
    ensures Swept(t[s.id := s], now) == if Expired(s, now) then Swept(t, now) else Swept(t, now)[s.id := s]
  {
    var after := t[s.id := s];
    assert forall id :: id in after <==> id in t || id == s.id;
    assert forall id :: id in t ==> after[id] == t[id];
  }

  lemma ExpiringWritesNothing(w: World, f: Flight)
    requires Sound(w) && f.Expiring? && f.id in w.created && Expired(w.created[f.id], w.now)
    ensures Swept(Written(w.table, f), w.now) == Swept(w.table, w.now)
  {
  }

  lemma FinishedAlike(verify: Verifier, p: World, k: World, v: nat)
    requires Sound(p) && Sound(k) && Alike(p, k)
    ensures Alike(Next(verify, p, Finish(v)), Next(verify, k, Finish(v)))
  {
    hide Written, Swept;
    assert v in Mattering(p.flights) <==> v in Mattering(k.flights);
    if v in Mattering(p.flights) {
      assert Mattering(p.flights)[v] == Mattering(k.flights)[v];
      SweptWrites(p.table, p.flights[v], p.now);
      SweptWrites(k.table, p.flights[v], k.now);
    } else {
      if v in p.flights { ExpiringWritesNothing(p, p.flights[v]); }
      if v in k.flights { ExpiringWritesNothing(k, k.flights[v]); }
    }
    MatteringDrops(p.flights, v);
    MatteringDrops(k.flights, v);
  }

  lemma MatteringDrops(flights: map<nat, Flight>, v: nat)
    ensures Mattering(flights - {v}) == Mattering(flights) - {v}
    ensures v !in flights ==> Mattering(flights) == Mattering(flights) - {v}
  {
  }

  lemma ElapsedAlike(p: World, k: World, seconds: nat)
    requires Alike(p, k)
    ensures Swept(p.table, p.now + seconds) == Swept(k.table, k.now + seconds)
  {
    SweepsCompose(p.table, p.now, p.now + seconds);
    SweepsCompose(k.table, k.now, k.now + seconds);
  }

  lemma AbandonedAlike(verify: Verifier, p: World, k: World, v: nat)
    requires Alike(p, k)
    ensures Alike(Next(verify, p, Abandon(v)), Next(verify, k, Abandon(v)))
  {
    hide Swept, Mattering;
    MatteringDrops(p.flights, v);
    MatteringDrops(k.flights, v);
  }

  lemma RemovedAlike(verify: Verifier, p: World, k: World, id: Bytes)
    requires Alike(p, k)
    ensures Alike(Next(verify, p, Remove(id)), Next(verify, k, Remove(id)))
  {
    hide Swept, Mattering;
    SweptWrites(p.table, Solving(id), p.now);
    SweptWrites(k.table, Solving(id), k.now);
  }

  lemma NextAlike(verify: Verifier, p: World, k: World, e: Event)
    requires Sound(p) && Sound(k) && Alike(p, k) && !e.Sweep?
    ensures Alike(Next(verify, p, e), Next(verify, k, e))
  {
    hide Swept, Reading, Mattering;
    match e {
      case Elapse(seconds) => ElapsedAlike(p, k, seconds);
      case Create(s) =>
        if s.id !in p.created {
          SweptInserts(p.table, s, p.now);
          SweptInserts(k.table, s, k.now);
        }
      case Validate(_, _, _) => StartedAlike(verify, p, k, e);
      case Fetch(_) => StartedAlike(verify, p, k, e);
      case Finish(v) => FinishedAlike(verify, p, k, v);
      case Abandon(v) => AbandonedAlike(verify, p, k, v);
      case Remove(id) => RemovedAlike(verify, p, k, id);
    }
  }

  /**
   Sweeping expired sessions at any points of any run, between any two statements of any
   requests, changes no answer to a fetch or a validation.
   */
  lemma {:induction false} SweepsAreUnobservable(verify: Verifier, es: seq<Event>)
    ensures Alike(Run(verify, es), Run(verify, WithoutSweeps(es)))
    ensures Answers(verify, es) == Answers(verify, WithoutSweeps(es))
  {
    hide Alike, Next, Reading;
    if es == [] {
      SameIsAlike(INITIAL);
    } else {
      var init, e := es[..|es| - 1], es[|es| - 1];
      var rest := WithoutSweeps(init);
      SweepsAreUnobservable(verify, init);
      AlwaysSound(verify, init);
      AlwaysSound(verify, rest);
      if e.Sweep? {
        SweptIsAlike(verify, Run(verify, init), Run(verify, rest));
      } else {
        assert (rest + [e])[..|rest + [e]| - 1] == rest;
        NextAlike(verify, Run(verify, init), Run(verify, rest), e);
        if e.Validate? || e.Fetch? {
          ReadsAlike(verify, Run(verify, init), Run(verify, rest), e);
        }
      }
    }
  }

  lemma SameIsAlike(w: World)
    ensures Alike(w, w)
  {
  }

  lemma SweptIsAlike(verify: Verifier, p: World, k: World)
    requires Alike(p, k)
    ensures Alike(Next(verify, p, Sweep), k)
  {
    SweepsCompose(p.table, p.now, p.now);
  }
}

/** The background task: sweep on a timer whose period follows the configuration. */
module CleanupTask {
  import opened Wrappers
  import opened Bytes
  import opened Text
  import opened SessionTables
  import Sessions

  // What the loop can be woken by. Once the configuration channel has closed it is not asked
  // again, so nothing it would say reaches the loop.
  datatype Wake =
    | ShuttingDown(now: int)
    | Changed(seconds: u64, now: int)
    | ChannelClosed
    | Ticked(now: int)

  // The first tick comes a full period after the timer is set.
  datatype Timer = Timer(first: int, period: nat)

  function TimerFor(seconds: u64, now: int): Timer {
    var period := if seconds < 1 then 1 else seconds;
    Timer(now + period, period)
  }

  datatype Loop = Loop(period: u64, timer: Timer, closed: bool, stopped: bool)

  function Woken(l: Loop, wake: Wake): Loop {
    if l.stopped then l
    else
      match wake
      case ShuttingDown(_) => l.(stopped := true)
      case Changed(seconds, now) =>
        if l.closed || seconds == l.period then l
        else l.(period := seconds, timer := TimerFor(seconds, now))
      case ChannelClosed => l.(closed := true)
      case Ticked(_) => l
  }

  function After(l: Loop, wakes: seq<Wake>): Loop {
    if wakes == [] then l else Woken(After(l, wakes[..|wakes| - 1]), wakes[|wakes| - 1])
  }

  // The table after the loop has served wake-ups: swept on every tick, and on shutting down.
  function SweptBy(t: SessionTables.Sessions, l: Loop, wakes: seq<Wake>): SessionTables.Sessions {
    if wakes == [] then t
    else
      var (init, wake) := (wakes[..|wakes| - 1], wakes[|wakes| - 1]);
      if After(l, init).stopped || !SweepsOn(wake) then SweptBy(t, l, init)
      else Swept(SweptBy(t, l, init), wake.now)
  }

  predicate SweepsOn(wake: Wake) {
    wake.Ticked? || wake.ShuttingDown?
  }

  function SweptAt(t: SessionTables.Sessions, times: seq<int>): SessionTables.Sessions {
    if times == [] then t else Swept(SweptAt(t, times[..|times| - 1]), times[|times| - 1])
  }

  class Task {
    const storage: Sessions.StorageService
    var period: u64
    var timer: Timer
    var configClosed: bool
    var stopped: bool

    ghost function Contents(): Loop
      reads this
    {
      Loop(period, timer, configClosed, stopped)
    }

    constructor (storage: Sessions.StorageService, seconds: u64, now: int)
      ensures this.storage == storage && Contents() == Loop(seconds, TimerFor(seconds, now), false, false)
    {
      this.storage := storage;
      period, timer, configClosed, stopped := seconds, TimerFor(seconds, now), false, false;
    }

    // One pass through the loop.
    method Handle(wake: Wake)
      requires !stopped
      modifies this, storage
      ensures Contents() == Woken(old(Contents()), wake)
      ensures storage.sessions
              == if SweepsOn(wake) then Swept(old(storage.sessions), wake.now) else old(storage.sessions)
    {
      match wake {
        case ShuttingDown(now) =>
          var _ := storage.DeleteExpiredSessions(now);
          stopped := true;
        case Changed(seconds, now) =>
          if !configClosed && seconds != period {
            period := seconds;
            timer := TimerFor(seconds, now);
          }
        case ChannelClosed =>
          configClosed := true;
        case Ticked(now) =>
          var _ := storage.DeleteExpiredSessions(now);
      }
    }

    /** Serve wake-ups until told to shut down, sweeping once more on the way out. */
    method Serve(wakes: seq<Wake>)
      requires !stopped
      modifies this, storage
      ensures Contents() == After(old(Contents()), wakes)
      ensures storage.sessions == SweptBy(old(storage.sessions), old(Contents()), wakes)
    {
      hide Woken, Swept;
      var i := 0;
      while i < |wakes| && !stopped
        invariant 0 <= i <= |wakes|
        invariant Contents() == After(old(Contents()), wakes[..i])
        invariant storage.sessions == SweptBy(old(storage.sessions), old(Contents()), wakes[..i])
      {
        assert wakes[..i + 1][..i] == wakes[..i];
        Handle(wakes[i]);
        i := i + 1;
      }
      assert wakes[..|wakes|] == wakes;
      if stopped {
        StoppedForGood(old(storage.sessions), old(Contents()), wakes, i);
      }
    }
  }

  lemma {:induction false} StoppedForGood(t: SessionTables.Sessions, l: Loop, wakes: seq<Wake>, n: nat)
    requires n <= |wakes| && After(l, wakes[..n]).stopped
    ensures After(l, wakes) == After(l, wakes[..n]) && SweptBy(t, l, wakes) == SweptBy(t, l, wakes[..n])
  {
    if n == |wakes| {
      assert wakes[..n] == wakes;
    } else {
      assert wakes[..|wakes| - 1][..n] == wakes[..n];
      StoppedForGood(t, l, wakes[..|wakes| - 1], n);
    }
  }

  // The last period the configuration was seen to ask for, while the channel was open.
  function Asked(initial: u64, wakes: seq<Wake>): u64 {
    if wakes == [] then initial
    else
      var (init, wake) := (wakes[..|wakes| - 1], wakes[|wakes| - 1]);
      if wake.Changed? && !Deaf(init) then wake.seconds else Asked(initial, init)
  }

  predicate Deaf(wakes: seq<Wake>) {
    exists i :: 0 <= i < |wakes| && (wakes[i].ChannelClosed? || wakes[i].ShuttingDown?)
  }

  /**
   The timer always runs with the period last asked for, at least a second; and a change of
   configuration that asks for the same period neither restarts it nor makes it fire.
   */
  lemma {:induction false} TimerFollowsConfiguration(seconds: u64, start: int, wakes: seq<Wake>)
    ensures var l := After(Loop(seconds, TimerFor(seconds, start), false, false), wakes);
            && l.period == Asked(seconds, wakes)
            && l.timer.period == (if l.period < 1 then 1 else l.period)
            && (l.closed || l.stopped <==> Deaf(wakes))
            && ((forall i :: 0 <= i < |wakes| && wakes[i].Changed? ==> wakes[i].seconds == seconds)
                ==> l.period == seconds && l.timer == TimerFor(seconds, start))
  {
    if wakes != [] {
      var init := wakes[..|wakes| - 1];
      TimerFollowsConfiguration(seconds, start, init);
      assert forall i :: 0 <= i < |init| ==> init[i] == wakes[i];
      assert Deaf(wakes) <==> Deaf(init) || wakes[|wakes| - 1].ChannelClosed? || wakes[|wakes| - 1].ShuttingDown?;
    }
  }

  // When the timer was last set: at the start, or by the last change heard that asked for another
  // period.
  function SetAt(initial: u64, start: int, wakes: seq<Wake>): int {
    if wakes == [] then start
    else
      var (init, wake) := (wakes[..|wakes| - 1], wakes[|wakes| - 1]);
      if wake.Changed? && !Deaf(init) && wake.seconds != Asked(initial, init) then wake.now
      else SetAt(initial, start, init)
  }

  /** It fires for the first time a full period after it was set. */
  lemma {:induction false} TimerFiresAfterAPeriod(seconds: u64, start: int, wakes: seq<Wake>)
    ensures var timer := After(Loop(seconds, TimerFor(seconds, start), false, false), wakes).timer;
            timer.first == SetAt(seconds, start, wakes) + timer.period && timer.period >= 1
  {
    if wakes != [] {
      TimerFiresAfterAPeriod(seconds, start, wakes[..|wakes| - 1]);
      TimerFollowsConfiguration(seconds, start, wakes[..|wakes| - 1]);
    }
  }

  // The wake-ups that reach the loop: up to the one that stops it.
  function Heard(wakes: seq<Wake>): seq<Wake> {
    if wakes == [] then []
    else
      var (init, wake) := (Heard(wakes[..|wakes| - 1]), wakes[|wakes| - 1]);
      if exists i :: 0 <= i < |init| && init[i].ShuttingDown? then init else init + [wake]
  }

  lemma {:induction false} StoppedIff(l: Loop, wakes: seq<Wake>)
    requires !l.stopped
    ensures After(l, wakes).stopped <==> exists i :: 0 <= i < |Heard(wakes)| && Heard(wakes)[i].ShuttingDown?
  {
    if wakes != [] {
      var init, wake := wakes[..|wakes| - 1], wakes[|wakes| - 1];
      StoppedIff(l, init);
      var before, now := Heard(init), Heard(wakes);
      if now != before {
        assert now == before + [wake];
        assert now[|before|] == wake;
      }
    }
  }

  /**
   A session expired at a tick or at the stop that reaches the loop is gone for good, and nothing else
   is ever removed: what is left is what every such moment left.
   */
  lemma {:induction false} SweepsAtTicksAndStop(t: SessionTables.Sessions, l: Loop, wakes: seq<Wake>, id: Bytes)
    requires !l.stopped
    ensures id in SweptBy(t, l, wakes) <==>
            id in t && forall i :: 0 <= i < |Heard(wakes)| && (Heard(wakes)[i].Ticked? || Heard(wakes)[i].ShuttingDown?)
                                   ==> !Expired(t[id], Heard(wakes)[i].now)
    ensures id in SweptBy(t, l, wakes) ==> SweptBy(t, l, wakes)[id] == t[id]
  {
    if wakes != [] {
      var init, wake := wakes[..|wakes| - 1], wakes[|wakes| - 1];
      SweepsAtTicksAndStop(t, l, init, id);
      StoppedIff(l, init);
      var before, now := Heard(init), Heard(wakes);
      if now != before {
        assert now == before + [wake];
        assert now[|before|] == wake && forall i :: 0 <= i < |before| ==> now[i] == before[i];
      }
    }
  }

  // The time of the last sweep, if there was one.
  function LastSweep(l: Loop, wakes: seq<Wake>): Option<int> {
    if wakes == [] then None
    else
      var (init, wake) := (wakes[..|wakes| - 1], wakes[|wakes| - 1]);
      if After(l, init).stopped || !SweepsOn(wake) then LastSweep(l, init) else Some(wake.now)
  }

  /** Under a clock that does not go back, all the sweeps of a run amount to the last of them. */
  lemma {:induction false} LastSweepDecides(t: SessionTables.Sessions, l: Loop, wakes: seq<Wake>)
    requires forall i, j :: 0 <= i < j < |wakes| && SweepsOn(wakes[i]) && SweepsOn(wakes[j]) ==>
                            wakes[i].now <= wakes[j].now
    ensures var last := LastSweep(l, wakes);
            && SweptBy(t, l, wakes) == (if last.Some? then Swept(t, last.value) else t)
            && (last.Some? ==> exists i :: 0 <= i < |wakes| && SweepsOn(wakes[i]) && wakes[i].now == last.value)
  {
    hide After, Swept;
    if wakes != [] {
      var init, wake := wakes[..|wakes| - 1], wakes[|wakes| - 1];
      assert forall i :: 0 <= i < |init| ==> init[i] == wakes[i];
      LastSweepDecides(t, l, init);
      if !After(l, init).stopped && SweepsOn(wake) {
        assert wakes[|wakes| - 1].now == wake.now;
        if LastSweep(l, init).Some? {
          SweepsCompose(t, LastSweep(l, init).value, wake.now);
        }
      }
    }
  }
}
