/**
 How tight the bound on compared solutions is, and what a session holds for as long as it lives.
 */
module SessionBounds {
  import opened Wrappers
  import opened Bytes
  import opened SessionTables
  import opened SessionRuns
  import SolutionHash
  import ImageCipher

  // ---- The bound is reached ----------------------------------------------------------------

  // `n` wrong answers, each request finished before the next.
  function OneByOne(s: Session, wrong: Bytes, max: int, n: nat): seq<Event> {
    if n == 0 then [Create(s)]
    else OneByOne(s, wrong, max, n - 1) + [Validate(s.id, wrong, max)] + [Finish(n - 1)]
  }

  // Then `j` more at once.
  function AtOnce(s: Session, wrong: Bytes, max: int, n: nat, j: nat): seq<Event> {
    if j == 0 then OneByOne(s, wrong, max, n)
    else AtOnce(s, wrong, max, n, j - 1) + [Validate(s.id, wrong, max)]
  }

  lemma RunAppends(verify: Verifier, es: seq<Event>, e: Event, id: Bytes, k: nat)
    ensures Run(verify, es + [e]) == Next(verify, Run(verify, es), e)
    ensures Checked(verify, es + [e], id)
            == Checked(verify, es, id) + if Checks(verify, Run(verify, es), e, id) then 1 else 0
    ensures !e.Abandon? ==> Lost(verify, es + [e], id) == Lost(verify, es, id)
    ensures AtMost(verify, es + [e], id, k) <==>
            AtMost(verify, es, id, k) && |Those(Run(verify, es + [e]).flights, On(id))| <= k
  {
    assert (es + [e])[..|es + [e]| - 1] == es;
  }

  lemma {:induction false} AfterOneByOne(verify: Verifier, s: Session, wrong: Bytes, max: int, n: nat)
    requires s.attemptCount == 0 && !Expired(s, 0) && !verify(s.id, wrong, s.solutionHash) && n < max
    ensures var es := OneByOne(s, wrong, max, n);
            && Run(verify, es) == World(map[s.id := s.(attemptCount := n)], map[s.id := s], map[], n, 0)
            && Checked(verify, es, s.id) == n && Lost(verify, es, s.id) == 0 && AtMost(verify, es, s.id, 1)
  {
    hide Run, Checked, Lost, AtMost, On;
    if n == 0 {
      RunAppends(verify, [], Create(s), s.id, 1);
      assert [] + [Create(s)] == [Create(s)];
      NothingYet(verify, s.id);
      assert Those(map[], On(s.id)) == {};
    } else {
      var es := OneByOne(s, wrong, max, n - 1);
      AfterOneByOne(verify, s, wrong, max, n - 1);
      RunAppends(verify, es, Validate(s.id, wrong, max), s.id, 1);
      RunAppends(verify, es + [Validate(s.id, wrong, max)], Finish(n - 1), s.id, 1);
      var w := Run(verify, es + [Validate(s.id, wrong, max)]);
      assert w.flights == map[n - 1 := Counting(s.id)];
      assert Those(w.flights, On(s.id)) <= {n - 1};
      SubsetIsSmaller(Those(w.flights, On(s.id)), {n - 1});
      assert Those(map[], On(s.id)) == {};
      assert w.flights - {n - 1} == map[];
    }
  }

  lemma NothingYet(verify: Verifier, id: Bytes)
    ensures Run(verify, []) == INITIAL
    ensures Checked(verify, [], id) == 0 && Lost(verify, [], id) == 0 && Accepted(verify, [], id) == 0
    ensures AtMost(verify, [], id, 1)
  {
    assert Those(INITIAL.flights, On(id)) == {};
  }

  lemma {:induction false} AfterAtOnce(verify: Verifier, s: Session, wrong: Bytes, max: int, n: nat, j: nat, k: nat)
    requires s.attemptCount == 0 && !Expired(s, 0) && !verify(s.id, wrong, s.solutionHash) && n < max
    requires j <= k && 1 <= k
    ensures var es := AtOnce(s, wrong, max, n, j);
            && Run(verify, es) == World(map[s.id := s.(attemptCount := n)], map[s.id := s],
                                        Burst(Counting(s.id), n, n + j), n + j, 0)
            && Checked(verify, es, s.id) == n + j && Lost(verify, es, s.id) == 0 && AtMost(verify, es, s.id, k)
  {
    hide Run, Checked, Lost, AtMost, On;
    if j == 0 {
      AfterOneByOne(verify, s, wrong, max, n);
      MoreAllowed(verify, OneByOne(s, wrong, max, n), s.id, k);
    } else {
      var es := AtOnce(s, wrong, max, n, j - 1);
      AfterAtOnce(verify, s, wrong, max, n, j - 1, k);
      RunAppends(verify, es, Validate(s.id, wrong, max), s.id, k);
      BurstIsCounted(Counting(s.id), n, n + j - 1);
      BurstIsCounted(Counting(s.id), n, n + j);
    }
  }

  // Requests `n` up to `m`, each with the same left to write.
  function Burst(f: Flight, n: nat, m: nat): map<nat, Flight>
    requires n <= m
  {
    if n == m then map[] else Burst(f, n, m - 1)[m - 1 := f]
  }

  lemma {:induction false} BurstIsCounted(f: Flight, n: nat, m: nat)
    requires n <= m
    ensures forall v :: v in Burst(f, n, m) ==> n <= v < m && Burst(f, n, m)[v] == f
    ensures |Those(Burst(f, n, m), On(f.id))| == m - n
    decreases m
  {
    if n == m {
      assert Those(map[], On(f.id)) == {};
    } else {
      BurstIsCounted(f, n, m - 1);
      FlightAdded(Burst(f, n, m - 1), m - 1, f, On(f.id));
    }
  }

  lemma {:induction false} BurstShrinks(f: Flight, n: nat, m: nat)
    requires n < m
    ensures n in Burst(f, n, m) && Burst(f, n, m) - {n} == Burst(f, n + 1, m)
    decreases m
  {
    BurstIsCounted(f, n, m - 1);
    if n < m - 1 {
      BurstShrinks(f, n, m - 1);
    }
  }

  lemma {:induction false} MoreAllowed(verify: Verifier, es: seq<Event>, id: Bytes, k: nat)
    requires AtMost(verify, es, id, 1) && k >= 1
    ensures AtMost(verify, es, id, k)
  {
    if es != [] {
      MoreAllowed(verify, es[..|es| - 1], id, k);
    }
  }

  /**
   The bound cannot be improved: for every limit and every number of requests at once there is a
   run, losing no request, that compares exactly max + k - 1 solutions.
   */
  lemma BoundIsReached(verify: Verifier, s: Session, wrong: Bytes, max: int, k: nat)
    requires s.attemptCount == 0 && !Expired(s, 0) && !verify(s.id, wrong, s.solutionHash)
    requires max >= 1 && k >= 1
    ensures var es := AtOnce(s, wrong, max, max - 1, k);
            && AtMost(verify, es, s.id, k) && Limited(es, s.id, max) && Lost(verify, es, s.id) == 0
            && Checked(verify, es, s.id) == max + k - 1
  {
    AfterAtOnce(verify, s, wrong, max, max - 1, k, k);
    SameLimit(s, wrong, max, max - 1, k);
  }

  lemma {:induction false} SameLimit(s: Session, wrong: Bytes, max: int, n: nat, j: nat)
    ensures Limited(AtOnce(s, wrong, max, n, j), s.id, max)
    decreases j, n
  {
    if j > 0 {
      SameLimit(s, wrong, max, n, j - 1);
    } else if n > 0 {
      SameLimit(s, wrong, max, n - 1, 0);
      assert AtOnce(s, wrong, max, n - 1, 0) == OneByOne(s, wrong, max, n - 1);
    }
  }

  // ---- As many can be accepted ---------------------------------------------------------------

  // `k` right answers at once, and then the first `j` of their deletions.
  function Settling(s: Session, right: Bytes, max: int, k: nat, j: nat): seq<Event> {
    if j == 0 then AtOnce(s, right, max, 0, k) else Settling(s, right, max, k, j - 1) + [Finish(j - 1)]
  }

  lemma AcceptsAppended(verify: Verifier, es: seq<Event>, e: Event, id: Bytes)
    ensures Accepted(verify, es + [e], id)
            == Accepted(verify, es, id) + if e.Finish? && Flies(Run(verify, es), e.request, SolvingOn(id)) then 1 else 0
  {
    assert (es + [e])[..|es + [e]| - 1] == es;
  }

  lemma {:induction false} AfterRight(verify: Verifier, s: Session, right: Bytes, max: int, j: nat, k: nat)
    requires s.attemptCount == 0 && !Expired(s, 0) && verify(s.id, right, s.solutionHash) && max >= 1
    requires j <= k && 1 <= k
    ensures var es := AtOnce(s, right, max, 0, j);
            && Run(verify, es) == World(map[s.id := s], map[s.id := s], Burst(Solving(s.id), 0, j), j, 0)
            && Accepted(verify, es, s.id) == 0 && Lost(verify, es, s.id) == 0 && AtMost(verify, es, s.id, k)
  {
    hide Run, Checked, Lost, Accepted, AtMost, On;
    if j == 0 {
      NothingYet(verify, s.id);
      MoreAllowed(verify, [], s.id, k);
      RunAppends(verify, [], Create(s), s.id, k);
      AcceptsAppended(verify, [], Create(s), s.id);
      assert [] + [Create(s)] == [Create(s)];
      BurstIsCounted(Solving(s.id), 0, 0);
    } else {
      var es := AtOnce(s, right, max, 0, j - 1);
      AfterRight(verify, s, right, max, j - 1, k);
      RunAppends(verify, es, Validate(s.id, right, max), s.id, k);
      AcceptsAppended(verify, es, Validate(s.id, right, max), s.id);
      BurstIsCounted(Solving(s.id), 0, j);
    }
  }

  lemma {:induction false} AfterSettling(verify: Verifier, s: Session, right: Bytes, max: int, k: nat, j: nat)
    requires s.attemptCount == 0 && !Expired(s, 0) && verify(s.id, right, s.solutionHash) && max >= 1
    requires j <= k && 1 <= k
    ensures var es := Settling(s, right, max, k, j);
            && Run(verify, es) == World(if j == 0 then map[s.id := s] else map[], map[s.id := s],
                                        Burst(Solving(s.id), j, k), k, 0)
            && Accepted(verify, es, s.id) == j && Lost(verify, es, s.id) == 0 && AtMost(verify, es, s.id, k)
  {
    hide Run, Checked, Lost, Accepted, AtMost, On;
    if j == 0 {
      AfterRight(verify, s, right, max, k, k);
    } else {
      var es := Settling(s, right, max, k, j - 1);
      AfterSettling(verify, s, right, max, k, j - 1);
      RunAppends(verify, es, Finish(j - 1), s.id, k);
      AcceptsAppended(verify, es, Finish(j - 1), s.id);
      BurstIsCounted(Solving(s.id), j - 1, k);
      BurstShrinks(Solving(s.id), j - 1, k);
      BurstIsCounted(Solving(s.id), j, k);
    }
  }

  /**
   So many can be accepted too: k requests that all read the session before the first of them deletes
   it, each with the right answer, are all told it is correct.
   */
  lemma AcceptancesAreReached(verify: Verifier, s: Session, right: Bytes, max: int, k: nat)
    requires s.attemptCount == 0 && !Expired(s, 0) && verify(s.id, right, s.solutionHash)
    requires max >= 1 && k >= 1
    ensures var es := Settling(s, right, max, k, k);
            && AtMost(verify, es, s.id, k) && Limited(es, s.id, max) && Lost(verify, es, s.id) == 0
            && Accepted(verify, es, s.id) == k
  {
    AfterSettling(verify, s, right, max, k, k);
    SettlingLimit(s, right, max, k, k);
  }

  lemma {:induction false} SettlingLimit(s: Session, right: Bytes, max: int, k: nat, j: nat)
    ensures Limited(Settling(s, right, max, k, j), s.id, max)
  {
    if j == 0 {
      SameLimit(s, right, max, 0, k);
    } else {
      SettlingLimit(s, right, max, k, j - 1);
    }
  }

  /** With one request at a time, at most max wrong answers and one right one. */
  lemma OneAtATime(verify: Verifier, es: seq<Event>, id: Bytes, max: int)
    requires AtMost(verify, es, id, 1) && Limited(es, id, max) && max >= 1 && Lost(verify, es, id) == 0
    ensures Checked(verify, es, id) <= max && Accepted(verify, es, id) <= 1
  {
    ChecksAreBounded(verify, es, id, max, 1);
  }

  // ---- What a live session holds -----------------------------------------------------------

  /**
   For as long as a session is there, whatever else goes on, its image decrypts to the image it
   was created with and its answer is the one it was created with: only the attempt count moves.
   */
  lemma LiveSessionIsIntact(verify: Verifier, es: seq<Event>, id: Bytes, hash: Hash, key: Digest,
                            aead: ImageCipher.Aead, master: Digest, nonce: ImageCipher.Nonce, text: Bytes, image: Bytes)
    requires aead.Authentic()
    requires id in Run(verify, es).table && id in Run(verify, es).created
    requires var s := Run(verify, es).created[id];
             && s.solutionHash == SolutionHash.Hashed(hash, key, id, text)
             && ImageCipher.Encrypted(aead, hash, master, id, nonce, image) == Success(s.imageEncrypted)
    ensures var s := Run(verify, es).table[id];
            && ImageCipher.Decrypted(aead, hash, master, s.id, s.imageEncrypted) == Success(image)
            && SolutionHash.Verified(hash, key, s.id, text, s.solutionHash)
  {
    AlwaysSound(verify, es);
    ImageCipher.DecryptUndoesEncrypt(aead, hash, master, id, nonce, image);
  }
}
