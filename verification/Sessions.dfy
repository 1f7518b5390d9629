/**
 CAPTCHA sessions: the table they live in, one statement at a time, and the operations made of
 those statements.

 The functions of `SessionTables` say what each statement and each undisturbed operation does; the
 class `SessionService` performs them and is proved against those functions.
 */
module SessionTables {
  import opened Wrappers
  import opened Bytes
  import opened Text

  datatype Session = Session(
    id: Bytes, solutionHash: string, imageEncrypted: Bytes, createdAt: int, expiresAt: int,
    attemptCount: int, difficulty: int, width: int, height: int, darkMode: bool)

  // The rows by primary key.
  type Sessions = map<Bytes, Session>

  predicate Expired(s: Session, now: int) {
    now > s.expiresAt
  }

  // ---- Creating ---------------------------------------------------------------------------

  // 64-bit two's complement: what a release build leaves of a sum or a cast.
  function Wrapped(n: int): i64 {
    var low := n % 0x1_0000_0000_0000_0000;
    if low > I64_MAX then low - 0x1_0000_0000_0000_0000 else low
  }

  function NewSession(id: Bytes, solutionHash: string, imageEncrypted: Bytes, ttl: u64, difficulty: int,
                      width: int, height: int, darkMode: bool, now: i64): Session
  {
    Session(id, solutionHash, imageEncrypted, now, Wrapped(now + Wrapped(ttl)), 0, difficulty, width, height, darkMode)
  }

  /**
   A session lives for as long as was asked for, counted in seconds from its creation, exactly
   when its expiry fits the column; one asked to live longer is born expired.
   */
  lemma LivesAsAskedIff(id: Bytes, hash: string, image: Bytes, ttl: u64, difficulty: int, width: int, height: int,
                        darkMode: bool, now: i64)
    requires now >= 0
    ensures var s := NewSession(id, hash, image, ttl, difficulty, width, height, darkMode, now);
            && (now + ttl <= I64_MAX ==> forall t :: Expired(s, t) <==> t > now + ttl)
            && (now + ttl > I64_MAX ==> Expired(s, now))
  {
  }

  // ---- Statements -------------------------------------------------------------------------

  function Lookup(t: Sessions, id: Bytes): Option<Session> {
    if id in t then Some(t[id]) else None
  }

  function Incremented(t: Sessions, id: Bytes): Sessions {
    if id in t then t[id := t[id].(attemptCount := t[id].attemptCount + 1)] else t
  }

  // DELETE ... WHERE expires_at < now
  function Swept(t: Sessions, now: int): (r: Sessions)
    ensures forall id :: id in r <==> id in t && !Expired(t[id], now)
    ensures forall id :: id in r ==> r[id] == t[id]
  {
    map id | id in t && !(t[id].expiresAt < now) :: t[id]
  }

  // ---- Undisturbed operations -------------------------------------------------------------

  // Whether a submitted solution matches a stored hash, for a session.
  type Verifier = (Bytes, Bytes, string) -> bool

  datatype ValidationOutcome = Correct | Wrong(attemptsRemaining: int) | MaxAttemptsExceeded

  function Fetched(t: Sessions, id: Bytes, now: int): (Sessions, Option<Session>) {
    match Lookup(t, id)
    case None => (t, None)
    case Some(s) => if Expired(s, now) then (t - {id}, None) else (t, Some(s))
  }

  // None is the answer that there is no such session.
  function Validated(verify: Verifier, t: Sessions, id: Bytes, solution: Bytes, max: int, now: int)
    : (Sessions, Option<ValidationOutcome>)
  {
    match Fetched(t, id, now)
    case (t', None) => (t', None)
    case (t', Some(s)) =>
      if s.attemptCount >= max then (t' - {id}, Some(MaxAttemptsExceeded))
      else if verify(s.id, solution, s.solutionHash) then (t' - {id}, Some(Correct))
      else
        var remaining := max - s.attemptCount - 1;
        (Incremented(t', id), Some(Wrong(if remaining > 0 then remaining else 0)))
  }

  // ---- One validator at a time ------------------------------------------------------------

  // The table after submitting each solution in turn, each at its own time.
  function Submitted(verify: Verifier, t: Sessions, id: Bytes, tries: seq<(Bytes, int)>, max: int): Sessions {
    if tries == [] then t
    else
      var last := tries[|tries| - 1];
      Validated(verify, Submitted(verify, t, id, tries[..|tries| - 1], max), id, last.0, max, last.1).0
  }

  ghost predicate AllWrong(verify: Verifier, s: Session, tries: seq<(Bytes, int)>) {
    forall i :: 0 <= i < |tries| ==> !verify(s.id, tries[i].0, s.solutionHash) && !Expired(s, tries[i].1)
  }

  lemma {:induction false} WrongAnswersAreCounted(verify: Verifier, t: Sessions, id: Bytes,
                                                  tries: seq<(Bytes, int)>, max: int)
    requires id in t && t[id].attemptCount == 0 && AllWrong(verify, t[id], tries)
    ensures var after := Submitted(verify, t, id, tries, max);
            if |tries| <= max || tries == [] then after == t[id := t[id].(attemptCount := |tries|)]
            else after == t - {id}
  {
    if tries == [] {
      assert t == t[id := t[id].(attemptCount := 0)];
    } else {
      var init := tries[..|tries| - 1];
      assert forall i :: 0 <= i < |init| ==> init[i] == tries[i];
      WrongAnswersAreCounted(verify, t, id, init, max);
    }
  }

  /**
   Wrong answers one after another: the i-th leaves max - i more, the answer after the last of
   them finds the limit reached and the session destroyed, and from then on there is none. A right
   answer is accepted at any point before the limit, and once. A limit below zero counts as zero.
   */
  lemma SequentialValidation(verify: Verifier, t: Sessions, id: Bytes, tries: seq<(Bytes, int)>,
                             solution: Bytes, max: int, now: int)
    requires id in t && t[id].attemptCount == 0
    requires AllWrong(verify, t[id], tries) && !Expired(t[id], now)
    ensures var n := |tries|;
            var (after, outcome) := Validated(verify, Submitted(verify, t, id, tries, max), id, solution, max, now);
            var right := verify(t[id].id, solution, t[id].solutionHash);
            var limit := if max < 0 then 0 else max;
            && outcome == (if n < limit then (if right then Some(Correct) else Some(Wrong(limit - n - 1)))
                           else if n == limit then Some(MaxAttemptsExceeded)
                           else None)
            && (id in after <==> n < limit && !right)
  {
    WrongAnswersAreCounted(verify, t, id, tries, max);
  }

  // `s` is a session newly made with these parameters, at this time.
  ghost predicate AsAsked(s: Session, id: Bytes, difficulty: int, width: int, height: int, darkMode: bool, now: int) {
    && s.id == id && s.createdAt == now && s.attemptCount == 0
    && s.difficulty == difficulty && s.width == width && s.height == height && s.darkMode == darkMode
  }

  /**
   A session just created, under an id that is free, has all its attempts: the answers to it are
   those of `SequentialValidation`, from the first.
   */
  lemma CreatedHasAllAttempts(verify: Verifier, t: Sessions, id: Bytes, hash: string, image: Bytes, ttl: u64,
                              difficulty: int, width: int, height: int, darkMode: bool, created: i64,
                              tries: seq<(Bytes, int)>, solution: Bytes, max: int, now: int)
    requires id !in t
    requires var s := NewSession(id, hash, image, ttl, difficulty, width, height, darkMode, created);
             AllWrong(verify, s, tries) && !Expired(s, now)
    ensures var s := NewSession(id, hash, image, ttl, difficulty, width, height, darkMode, created);
            var before := Submitted(verify, t[id := s], id, tries, max);
            var (after, outcome) := Validated(verify, before, id, solution, max, now);
            var right := verify(id, solution, hash);
            var limit := if max < 0 then 0 else max;
            && AsAsked(s, id, difficulty, width, height, darkMode, created)
            && outcome == (if |tries| < limit
                           then (if right then Some(Correct) else Some(Wrong(limit - |tries| - 1)))
                           else if |tries| == limit then Some(MaxAttemptsExceeded)
                           else None)
            && (id in after <==> |tries| < limit && !right)
  {
    var s := NewSession(id, hash, image, ttl, difficulty, width, height, darkMode, created);
    SequentialValidation(verify, t[id := s], id, tries, solution, max, now);
  }

  // ---- What a sweep changes ---------------------------------------------------------------

  /**
   A sweep changes no fetch and no validation made at or after it; it does change what deleting
   the session answers, exactly when the session was there and had expired.
   */
  lemma SweepChangesOnlyDeletion(verify: Verifier, t: Sessions, id: Bytes, solution: Bytes, max: int,
                                 swept: int, now: int)
    requires swept <= now
    ensures Fetched(Swept(t, swept), id, now).1 == Fetched(t, id, now).1
    ensures Validated(verify, Swept(t, swept), id, solution, max, now).1
            == Validated(verify, t, id, solution, max, now).1
    ensures (id in Swept(t, swept) <==> id in t) <==> !(id in t && Expired(t[id], swept))
  {
  }

  /** Sweeping twice is sweeping once, at the later time. */
  lemma SweepsCompose(t: Sessions, first: int, second: int)
    ensures Swept(Swept(t, first), second) == Swept(t, if first < second then second else first)
  {
  }
}

module Sessions {
  import opened Wrappers
  import opened Bytes
  import opened Text
  import opened SessionTables
  import SolutionHash
  import ImageCipher

  datatype SessionError = SessionNotFound | DuplicateId | Internal(error: ImageCipher.CipherError)

  class StorageService {
    var sessions: Sessions

    constructor ()
      ensures sessions == map[]
    {
      sessions := map[];
    }

    // The id is the primary key: inserting one that is taken fails.
    method CreateSession(session: Session) returns (inserted: bool)
      modifies this
      ensures inserted == (session.id !in old(sessions))
      ensures sessions == if inserted then old(sessions)[session.id := session] else old(sessions)
    {
      inserted := session.id !in sessions;
      if inserted {
        sessions := sessions[session.id := session];
      }
    }

    method GetSession(id: Bytes) returns (s: Option<Session>)
      ensures s == Lookup(sessions, id)
    {
      s := if id in sessions then Some(sessions[id]) else None;
    }

    /** Fetch a session, deleting it at once when it has expired. */
    method GetActiveSession(id: Bytes, now: int) returns (s: Option<Session>)
      modifies this
      ensures (sessions, s) == Fetched(old(sessions), id, now)
    {
      s := GetSession(id);
      if s.None? {
        return None;
      }
      if Expired(s.value, now) {
        var _ := DeleteSession(id);
        return None;
      }
    }

    method IncrementAttemptCount(id: Bytes)
      modifies this
      ensures sessions == Incremented(old(sessions), id)
    {
      if id in sessions {
        sessions := sessions[id := sessions[id].(attemptCount := sessions[id].attemptCount + 1)];
      }
    }

    method DeleteSession(id: Bytes) returns (deleted: bool)
      modifies this
      ensures sessions == old(sessions) - {id}
      ensures deleted == (id in old(sessions))
    {
      deleted := id in sessions;
      sessions := sessions - {id};
    }

    method DeleteExpiredSessions(now: int) returns (count: nat)
      modifies this
      ensures sessions == Swept(old(sessions), now)
      ensures count == |old(sessions)| - |sessions|
    {
      var kept := Swept(sessions, now);
      KeptAreFewer(sessions, kept);
      count := |sessions| - |kept|;
      sessions := kept;
    }
  }

  lemma KeptAreFewer(t: Sessions, kept: Sessions)
    requires kept.Keys <= t.Keys
    ensures |kept| <= |t|
  {
    assert t.Keys == kept.Keys + (t.Keys - kept.Keys);
    assert |t.Keys| == |kept.Keys| + |t.Keys - kept.Keys|;
  }

  class SessionService {
    const storage: StorageService
    const hasher: SolutionHash.SolutionHasher
    const cipher: ImageCipher.ImageCipher

    constructor (storage: StorageService, hasher: SolutionHash.SolutionHasher, cipher: ImageCipher.ImageCipher)
      ensures this.storage == storage && this.hasher == hasher && this.cipher == cipher
    {
      this.storage, this.hasher, this.cipher := storage, hasher, cipher;
    }

    ghost function Verify(): Verifier {
      (id, solution, stored) => SolutionHash.Verified(hasher.hash, hasher.key, id, solution, stored)
    }

    /**
     Create a session for a generated text and image. The id and the nonce are what the random
     sources gave.
     */
    method Create(id: Bytes, nonce: ImageCipher.Nonce, text: Bytes, image: Bytes, ttl: u64, difficulty: int,
                  width: int, height: int, darkMode: bool, now: i64)
      returns (r: Result<Session, SessionError>)
      modifies storage
      ensures var encrypted := ImageCipher.Encrypted(cipher.aead, cipher.hash, cipher.masterKey, id, nonce, image);
              match encrypted
              case Success(blob) =>
                var hash := SolutionHash.Hashed(hasher.hash, hasher.key, id, text);
                var s := NewSession(id, hash, blob, ttl, difficulty, width, height, darkMode, now);
                if id in old(storage.sessions)
                then r == Failure(DuplicateId) && storage.sessions == old(storage.sessions)
                else r == Success(s) && storage.sessions == old(storage.sessions)[id := s]
              case Failure(e) => r == Failure(Internal(e)) && storage.sessions == old(storage.sessions)
      ensures r.Success? ==> AsAsked(r.value, id, difficulty, width, height, darkMode, now)
    {
      var hash := hasher.HashSolution(id, text);
      var encrypted := cipher.Encrypt(id, nonce, image);
      if encrypted.Failure? {
        return Failure(Internal(encrypted.error));
      }
      var s := NewSession(id, hash, encrypted.value, ttl, difficulty, width, height, darkMode, now);
      var inserted := storage.CreateSession(s);
      return if inserted then Success(s) else Failure(DuplicateId);
    }

    /** The session's image, decrypted. */
    method GetImage(id: Bytes, now: int) returns (r: Result<(Session, Bytes), SessionError>)
      modifies storage
      ensures var (after, found) := Fetched(old(storage.sessions), id, now);
              && storage.sessions == after
              && match found
                 case None => r == Failure(SessionNotFound)
                 case Some(s) =>
                   match ImageCipher.Decrypted(cipher.aead, cipher.hash, cipher.masterKey, s.id, s.imageEncrypted)
                   case Success(image) => r == Success((s, image))
                   case Failure(e) => r == Failure(Internal(e))
    {
      var s := storage.GetActiveSession(id, now);
      if s.None? {
        return Failure(SessionNotFound);
      }
      var image := cipher.Decrypt(s.value.id, s.value.imageEncrypted);
      if image.Failure? {
        return Failure(Internal(image.error));
      }
      return Success((s.value, image.value));
    }

    /** Check a solution: read, compare, then delete the session or count the attempt. */
    method Validate(id: Bytes, solution: Bytes, max: int, now: int) returns (r: Result<ValidationOutcome, SessionError>)
      modifies storage
      ensures var (after, outcome) := Validated(Verify(), old(storage.sessions), id, solution, max, now);
              && storage.sessions == after
              && r == if outcome.Some? then Success(outcome.value) else Failure(SessionNotFound)
    {
      var s := storage.GetActiveSession(id, now);
      if s.None? {
        return Failure(SessionNotFound);
      }
      var session := s.value;
      if session.attemptCount >= max {
        var _ := storage.DeleteSession(id);
        return Success(MaxAttemptsExceeded);
      }
      var valid := hasher.Verify(session.id, solution, session.solutionHash);
      if valid {
        var _ := storage.DeleteSession(id);
        return Success(Correct);
      }
      storage.IncrementAttemptCount(id);
      var remaining := max - session.attemptCount - 1;
      return Success(Wrong(if remaining > 0 then remaining else 0));
    }
  }
}
