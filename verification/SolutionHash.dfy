/** The keyed one-way hash of a session's answer. */
module SolutionHash {
  import opened Bytes
  import opened Hmac

  // The bytes of an ASCII text.
  function Ascii(s: string): Bytes
    requires forall i :: 0 <= i < |s| ==> s[i] < 128 as char
  {
    seq(|s|, i requires 0 <= i < |s| => s[i] as bv8)
  }

  const KEY_DERIVATION_DOMAIN: Bytes := Ascii("captchapi:solution-hash:v1")

  // ---- Hexadecimal text -------------------------------------------------------------------

  function HexDigit(n: bv8): char {
    match n
    case 0 => '0' case 1 => '1' case 2 => '2' case 3 => '3'
    case 4 => '4' case 5 => '5' case 6 => '6' case 7 => '7'
    case 8 => '8' case 9 => '9' case 10 => 'a' case 11 => 'b'
    case 12 => 'c' case 13 => 'd' case 14 => 'e' case _ => 'f'
  }

  function Hex(bytes: Bytes): string {
    if bytes == [] then ""
    else [HexDigit(bytes[0] >> 4), HexDigit(bytes[0] & 15)] + Hex(bytes[1..])
  }

  lemma NibblesAreSmall(a: byte)
    ensures a >> 4 <= 15 && a & 15 <= 15
  {
  }

  // The value of a hexadecimal digit: 0-9, then a-f.
  function HexValue(c: char): int {
    if '0' <= c <= '9' then c as int - '0' as int
    else if 'a' <= c <= 'f' then c as int - 'a' as int + 10
    else -1
  }

  lemma HexDigitReads(n: bv8)
    requires n <= 15
    ensures HexValue(HexDigit(n)) == n as int
  {
  }

  /** The text is the bytes in base 16, two digits each, high digit first. */
  lemma {:induction false} HexReads(bytes: Bytes, i: nat)
    requires i < |bytes|
    ensures |Hex(bytes)| == 2 * |bytes|
    ensures 16 * HexValue(Hex(bytes)[2 * i]) + HexValue(Hex(bytes)[2 * i + 1]) == bytes[i] as int
  {
    HexLength(bytes);
    if i == 0 {
      NibblesAreSmall(bytes[0]);
      HexDigitReads(bytes[0] >> 4);
      HexDigitReads(bytes[0] & 15);
      NibblesAdd(bytes[0]);
    } else {
      HexReads(bytes[1..], i - 1);
      assert Hex(bytes)[2..] == Hex(bytes[1..]);
    }
  }

  lemma {:induction false} HexLength(bytes: Bytes)
    ensures |Hex(bytes)| == 2 * |bytes|
  {
    if bytes != [] {
      HexLength(bytes[1..]);
    }
  }

  lemma NibblesAdd(a: byte)
    ensures 16 * ((a >> 4) as int) + (a & 15) as int == a as int
  {
  }

  lemma HexDigitDetermines(m: bv8, n: bv8)
    requires m <= 15 && n <= 15 && HexDigit(m) == HexDigit(n)
    ensures m == n
  {
  }

  lemma NibblesDetermine(a: byte, b: byte)
    requires a >> 4 == b >> 4 && a & 15 == b & 15
    ensures a == b
  {
  }

  lemma {:induction false} HexDetermines(a: Bytes, b: Bytes)
    requires Hex(a) == Hex(b)
    ensures a == b
  {
    if a == [] || b == [] {
      assert |Hex(a)| == 0 <==> a == [];
      assert |Hex(b)| == 0 <==> b == [];
    } else {
      assert Hex(a)[0] == Hex(b)[0] && Hex(a)[1] == Hex(b)[1];
      assert Hex(a)[2..] == Hex(a[1..]) && Hex(b)[2..] == Hex(b[1..]);
      NibblesAreSmall(a[0]);
      NibblesAreSmall(b[0]);
      HexDigitDetermines(a[0] >> 4, b[0] >> 4);
      HexDigitDetermines(a[0] & 15, b[0] & 15);
      NibblesDetermine(a[0], b[0]);
      HexDetermines(a[1..], b[1..]);
    }
  }

  // ---- Hashing and verifying --------------------------------------------------------------

  function DerivedKey(hash: Hash, secret: Bytes): Digest {
    hash(KEY_DERIVATION_DOMAIN + secret)
  }

  // What is authenticated for one session's answer.
  function Message(id: Bytes, solution: Bytes): Bytes {
    id + [0] + solution
  }

  function Hashed(hash: Hash, key: Digest, id: Bytes, solution: Bytes): string {
    Hex(Mac(hash, key, Message(id, solution)))
  }

  predicate Verified(hash: Hash, key: Digest, id: Bytes, solution: Bytes, stored: string) {
    Hashed(hash, key, id, solution) == stored
  }

  class SolutionHasher {
    const hash: Hash
    const key: Digest

    constructor (hash: Hash, secret: Bytes)
      ensures this.hash == hash && key == DerivedKey(hash, secret) == hash(Ascii("captchapi:solution-hash:v1") + secret)
    {
      var hasher := new Hasher(hash);
      hasher.Update(KEY_DERIVATION_DOMAIN);
      hasher.Update(secret);
      var digest := hasher.Finalize();
      assert hasher.absorbed == KEY_DERIVATION_DOMAIN + secret;
      this.hash, key := hash, digest;
    }

    method HashSolution(id: Bytes, solution: Bytes) returns (hex: string)
      ensures hex == Hashed(hash, key, id, solution)
    {
      var parts := [id, [0], solution];
      var mac := HmacSha256(hash, key, parts);
      ConcatThree(id, [0], solution);
      hex := Hex(mac);
    }

    method Verify(id: Bytes, solution: Bytes, stored: string) returns (ok: bool)
      ensures ok == Verified(hash, key, id, solution, stored)
    {
      var expected := HashSolution(id, solution);
      ok := expected == stored;
    }
  }

  ghost predicate ZeroFree(s: Bytes) {
    0 !in s
  }

  /** The framing is unambiguous: ids without a zero byte are told apart from their answers. */
  lemma FramingIsInjective(a: Bytes, s: Bytes, b: Bytes, t: Bytes)
    requires ZeroFree(a) && ZeroFree(b)
    ensures Message(a, s) == Message(b, t) <==> a == b && s == t
  {
    var m, n := Message(a, s), Message(b, t);
    if m == n {
      assert m[|a|] == 0 && n[|b|] == 0;
      assert forall i :: 0 <= i < |a| ==> m[i] == a[i];
      assert forall i :: 0 <= i < |b| ==> n[i] == b[i];
      assert |a| == |b|;
      assert m[..|a|] == a && n[..|b|] == b;
      assert m[|a| + 1..] == s && n[|b| + 1..] == t;
    }
  }

  /** Without that condition two sessions share messages: a zero byte in the id moves the frame. */
  lemma FramingNeedsZeroFreeIds(a: Bytes, s: Bytes)
    ensures Message(a + [0], s) == Message(a, [0] + s)
  {
    assert a + [0] + [0] + s == a + [0] + ([0] + s);
  }

  /**
   The right answer is accepted, and anything else, for this session or another, only if the hash
   collides on two strings that can be written down.
   */
  lemma AcceptsOnlyTheAnswer(hash: Hash, key: Digest, id: Bytes, solution: Bytes, other: Bytes, guess: Bytes)
    returns (a: Bytes, b: Bytes)
    requires ZeroFree(id) && ZeroFree(other)
    ensures Verified(hash, key, id, solution, Hashed(hash, key, id, solution))
    ensures Verified(hash, key, other, guess, Hashed(hash, key, id, solution)) ==>
              (other == id && guess == solution) || Collision(hash, a, b)
  {
    a, b := [], [];
    if Verified(hash, key, other, guess, Hashed(hash, key, id, solution)) && (other != id || guess != solution) {
      FramingIsInjective(other, guess, id, solution);
      HexDetermines(Mac(hash, key, Message(other, guess)), Mac(hash, key, Message(id, solution)));
      a, b := SameMacCollides(hash, key, Message(other, guess), Message(id, solution));
    }
  }
}
