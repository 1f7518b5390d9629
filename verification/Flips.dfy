/**
 The within-text comparison behind the test: for each text and model, was it solved with the
 setting on, off, both ways or neither.
 */
module Flips {
  import opened Wrappers

  datatype Attempt = Attempt(pair: string, model: string, on: bool, difficulty: int, solved: bool)

  datatype Verdicts = Verdicts(off: Option<bool>, on: Option<bool>)

  datatype Flip = Both | Neither | Lost | Gained

  type Text = (string, string)

  // What a text, as seen by one model, is filed under.
  function TextOf(a: Attempt): Text {
    (a.pair, a.model)
  }

  function TextAtDifficulty(a: Attempt): (int, Text) {
    (a.difficulty, TextOf(a))
  }

  function Recorded(v: Verdicts, a: Attempt): Verdicts {
    if a.on then v.(on := Some(a.solved)) else v.(off := Some(a.solved))
  }

  function Filed<K(==)>(key: Attempt -> K, attempts: seq<Attempt>): map<K, Verdicts> {
    if attempts == [] then map[]
    else
      var (outcomes, a) := (Filed(key, attempts[..|attempts| - 1]), attempts[|attempts| - 1]);
      var before := if key(a) in outcomes then outcomes[key(a)] else Verdicts(None, None);
      outcomes[key(a) := Recorded(before, a)]
  }

  method File<K(==)>(key: Attempt -> K, attempts: seq<Attempt>) returns (outcomes: map<K, Verdicts>)
    ensures outcomes == Filed(key, attempts)
  {
    outcomes := map[];
    for i := 0 to |attempts|
      invariant outcomes == Filed(key, attempts[..i])
    {
      assert attempts[..i + 1][..i] == attempts[..i];
      var k := key(attempts[i]);
      if k !in outcomes {
        outcomes := outcomes[k := Verdicts(None, None)];
      }
      outcomes := outcomes[k := Recorded(outcomes[k], attempts[i])];
    }
    assert attempts[..|attempts|] == attempts;
  }

  // Whether the last attempt filed under `k` in one condition was solved.
  function LastVerdict<K(==)>(key: Attempt -> K, attempts: seq<Attempt>, k: K, on: bool): Option<bool> {
    if attempts == [] then None
    else
      var a := attempts[|attempts| - 1];
      if key(a) == k && a.on == on then Some(a.solved)
      else LastVerdict(key, attempts[..|attempts| - 1], k, on)
  }

  /** What is filed is each text's last verdict in each condition, and no text without an attempt. */
  lemma {:induction false} LastAttemptDecides<K>(key: Attempt -> K, attempts: seq<Attempt>, k: K)
    ensures var outcomes := Filed(key, attempts);
            && (k in outcomes <==> exists a :: a in attempts && key(a) == k)
            && (k in outcomes ==> outcomes[k] == Verdicts(LastVerdict(key, attempts, k, false),
                                                          LastVerdict(key, attempts, k, true)))
            && (k !in outcomes ==> LastVerdict(key, attempts, k, false) == LastVerdict(key, attempts, k, true) == None)
  {
    if attempts != [] {
      var init, a := attempts[..|attempts| - 1], attempts[|attempts| - 1];
      LastAttemptDecides(key, init, k);
      assert attempts == init + [a];
    }
  }

  // The flip a text shows, if it was attempted both ways.
  function FlipOf(v: Verdicts): Option<Flip> {
    match v
    case Verdicts(Some(off), Some(on)) =>
      Some(if off && on then Both else if !off && !on then Neither else if off then Lost else Gained)
    case _ => None
  }

  ghost function Showing<K>(outcomes: map<K, Verdicts>, flip: Flip): set<K> {
    set k | k in outcomes && FlipOf(outcomes[k]) == Some(flip)
  }

  ghost function Compared<K>(outcomes: map<K, Verdicts>): set<K> {
    set k | k in outcomes && FlipOf(outcomes[k]).Some?
  }

  function Tally(count: map<Flip, nat>, flip: Flip): nat {
    if flip in count then count[flip] else 0
  }

  // The outcomes not yet counted do not matter to those that have been.
  lemma CountedOneMore<K>(outcomes: map<K, Verdicts>, done: set<K>, k: K, flip: Flip)
    requires k in outcomes && k !in done
    ensures var was := set j | j in Showing(outcomes, flip) && j in done;
            var now := set j | j in Showing(outcomes, flip) && j in done + {k};
            |now| == |was| + if FlipOf(outcomes[k]) == Some(flip) then 1 else 0
  {
    var was := set j | j in Showing(outcomes, flip) && j in done;
    var now := set j | j in Showing(outcomes, flip) && j in done + {k};
    assert now == was + if FlipOf(outcomes[k]) == Some(flip) then {k} else {};
  }

  /** The counter holds, for each kind of flip, how many texts show it. */
  method CountFlips<K(==)>(outcomes: map<K, Verdicts>) returns (count: map<Flip, nat>)
    ensures forall flip :: Tally(count, flip) == |Showing(outcomes, flip)|
  {
    count := map[];
    var rest := outcomes.Keys;
    ghost var done: set<K> := {};
    forall flip ensures (set j | j in Showing(outcomes, flip) && j in done) == {} { }
    while rest != {}
      invariant rest <= outcomes.Keys && done == outcomes.Keys - rest
      invariant forall flip :: Tally(count, flip) == |set j | j in Showing(outcomes, flip) && j in done|
      decreases |rest|
    {
      hide Showing, FlipOf;
      var k :| k in rest;
      forall flip { CountedOneMore(outcomes, done, k, flip); }
      var flip := FlipOf(outcomes[k]);
      if flip.Some? {
        count := count[flip.value := Tally(count, flip.value) + 1];
      }
      rest := rest - {k};
      done := done + {k};
    }
    forall flip ensures (set j | j in Showing(outcomes, flip) && j in done) == Showing(outcomes, flip) { }
  }

  /** Every text compared shows exactly one of the four flips. */
  lemma FlipsPartition<K>(outcomes: map<K, Verdicts>)
    ensures |Showing(outcomes, Both)| + |Showing(outcomes, Neither)| + |Showing(outcomes, Lost)|
            + |Showing(outcomes, Gained)| == |Compared(outcomes)|
  {
    var same := Showing(outcomes, Both) + Showing(outcomes, Neither);
    var moved := Showing(outcomes, Lost) + Showing(outcomes, Gained);
    assert Showing(outcomes, Both) !! Showing(outcomes, Neither);
    assert Showing(outcomes, Lost) !! Showing(outcomes, Gained);
    assert same !! moved;
    assert Compared(outcomes) == same + moved;
  }

  // The last verdict on a text by a model in one condition, read off the attempts.
  function LastSolved(attempts: seq<Attempt>, pair: string, model: string, on: bool): Option<bool> {
    if attempts == [] then None
    else
      var a := attempts[|attempts| - 1];
      if a.pair == pair && a.model == model && a.on == on then Some(a.solved)
      else LastSolved(attempts[..|attempts| - 1], pair, model, on)
  }

  lemma {:induction false} LastVerdictIs(attempts: seq<Attempt>, pair: string, model: string, on: bool)
    ensures LastVerdict(TextOf, attempts, (pair, model), on) == LastSolved(attempts, pair, model, on)
  {
    if attempts != [] {
      LastVerdictIs(attempts[..|attempts| - 1], pair, model, on);
    }
  }

  /**
   What is counted, from the attempts themselves: a text is lost when its last attempt without the
   setting solved it and its last with it did not, gained the other way round, and otherwise solved
   both ways or neither; a text not attempted both ways by the model shows nothing.
   */
  lemma FlipsAreOfAttempts(attempts: seq<Attempt>, pair: string, model: string)
    ensures var outcomes := Filed(TextOf, attempts);
            var (off, on) := (LastSolved(attempts, pair, model, false), LastSolved(attempts, pair, model, true));
            && ((pair, model) in Showing(outcomes, Lost) <==> off == Some(true) && on == Some(false))
            && ((pair, model) in Showing(outcomes, Gained) <==> off == Some(false) && on == Some(true))
            && ((pair, model) in Showing(outcomes, Both) <==> off == Some(true) && on == Some(true))
            && ((pair, model) in Showing(outcomes, Neither) <==> off == Some(false) && on == Some(false))
  {
    hide Filed;
    LastAttemptDecides(TextOf, attempts, (pair, model));
    LastVerdictIs(attempts, pair, model, false);
    LastVerdictIs(attempts, pair, model, true);
  }

  // ---- By difficulty -----------------------------------------------------------------------

  ghost predicate OneDifficultyEach(attempts: seq<Attempt>, level: string -> int) {
    forall a :: a in attempts ==> a.difficulty == level(a.pair)
  }

  lemma {:induction false} FiledAlike(attempts: seq<Attempt>, level: string -> int, t: Text, d: int)
    requires OneDifficultyEach(attempts, level)
    ensures var all, split := Filed(TextOf, attempts), Filed(TextAtDifficulty, attempts);
            && ((d, t) in split <==> t in all && d == level(t.0))
            && ((d, t) in split ==> split[(d, t)] == all[t])
  {
    if attempts != [] {
      var init, a := attempts[..|attempts| - 1], attempts[|attempts| - 1];
      assert attempts == init + [a];
      assert a in attempts && forall b :: b in init ==> b in attempts;
      FiledAlike(init, level, t, d);
    }
  }

  lemma {:induction false} PairedCount(ts: set<Text>, level: string -> int)
    ensures |set t | t in ts :: (level(t.0), t)| == |ts|
  {
    if ts != {} {
      var t :| t in ts;
      PairedCount(ts - {t}, level);
      assert (set u | u in ts :: (level(u.0), u)) == (set u | u in ts - {t} :: (level(u.0), u)) + {(level(t.0), t)};
    }
  }

  /**
   Filing by difficulty loses and doubles nothing: when each text is drawn at one difficulty, the
   flips of a kind at a difficulty are as many as the overall flips of that kind among its texts.
   */
  lemma DifficultiesSplit(attempts: seq<Attempt>, level: string -> int, flip: Flip, d: int)
    requires OneDifficultyEach(attempts, level)
    ensures var all, split := Filed(TextOf, attempts), Filed(TextAtDifficulty, attempts);
            |set k | k in Showing(split, flip) && k.0 == d| == |set t | t in Showing(all, flip) && level(t.0) == d|
  {
    hide Filed;
    var all, split := Filed(TextOf, attempts), Filed(TextAtDifficulty, attempts);
    var ts := set t | t in Showing(all, flip) && level(t.0) == d;
    PairedCount(ts, level);
    forall k: (int, Text)
      ensures k in Showing(split, flip) && k.0 == d <==> k.1 in ts && k.0 == level(k.1.0)
    {
      FiledAlike(attempts, level, k.1, k.0);
    }
    assert (set k | k in Showing(split, flip) && k.0 == d) == set t | t in ts :: (level(t.0), t);
  }
}
