/** Byte strings and the hash function they are fed to. */
module Bytes {
  type byte = bv8

  // A text is its UTF-8 bytes.
  type Bytes = seq<byte>

  type Digest = d: Bytes | |d| == 32 witness seq(32, _ => 0)

  // SHA-256 enters only as a function from byte strings to 32-byte digests.
  type Hash = Bytes -> Digest

  function Concat(parts: seq<Bytes>): Bytes {
    if parts == [] then [] else Concat(parts[..|parts| - 1]) + parts[|parts| - 1]
  }

  lemma ConcatThree(a: Bytes, b: Bytes, c: Bytes)
    ensures Concat([a, b, c]) == a + b + c
  {
    assert [a][..0] == [] && [a, b][..1] == [a] && [a, b, c][..2] == [a, b];
    assert Concat([a]) == [] + a == a;
    assert Concat([a, b]) == a + b;
    assert Concat([a, b, c]) == Concat([a, b]) + c;
  }

  // A hash function fed piece by piece.
  class Hasher {
    const hash: Hash
    var absorbed: Bytes

    constructor (hash: Hash)
      ensures this.hash == hash && absorbed == []
    {
      this.hash, absorbed := hash, [];
    }

    method Update(part: Bytes)
      modifies this
      ensures absorbed == old(absorbed) + part
    {
      absorbed := absorbed + part;
    }

    method Finalize() returns (digest: Digest)
      ensures digest == hash(absorbed)
    {
      digest := hash(absorbed);
    }
  }
}

/** HMAC as section 2 of RFC 2104 defines it, and the streaming implementation of it. */
module Hmac {
  import opened Bytes

  const BLOCK_SIZE := 64

  type Block = b: Bytes | |b| == BLOCK_SIZE witness seq(64, _ => 0)

  function Zeros(n: nat): (z: Bytes)
    ensures |z| == n && forall i :: 0 <= i < n ==> z[i] == 0
  {
    seq(n, _ => 0)
  }

  // The key brought to block length: hashed first if it is longer, then padded with zeros.
  function PaddedKey(hash: Hash, key: Bytes): Block {
    var short: Bytes := if |key| > BLOCK_SIZE then hash(key) else key;
    short + Zeros(BLOCK_SIZE - |short|)
  }

  function Xored(block: Block, pad: byte): Block {
    seq(BLOCK_SIZE, i requires 0 <= i < BLOCK_SIZE => block[i] ^ pad)
  }

  // H(K xor opad, H(K xor ipad, text))
  function Mac(hash: Hash, key: Bytes, text: Bytes): Digest {
    var k := PaddedKey(hash, key);
    hash(Xored(k, 0x5c) + hash(Xored(k, 0x36) + text))
  }

  // The zero-filled key array with the key, or its digest, copied over its start.
  method FillKey(hash: Hash, key: Bytes) returns (padded: array<byte>)
    ensures fresh(padded) && padded[..] == PaddedKey(hash, key)
  {
    padded := new byte[BLOCK_SIZE](_ => 0);
    var short: Bytes := key;
    if |key| > BLOCK_SIZE {
      short := hash(key);
    }
    for i := 0 to |short|
      invariant padded[..] == short[..i] + Zeros(BLOCK_SIZE - i)
    {
      padded[i] := short[i];
    }
    assert short[..|short|] == short;
  }

  // Both pad arrays, xored with the key byte by byte.
  method FillPads(padded: array<byte>) returns (innerPad: array<byte>, outerPad: array<byte>)
    requires padded.Length == BLOCK_SIZE
    ensures innerPad[..] == Xored(padded[..], 0x36)
    ensures outerPad[..] == Xored(padded[..], 0x5c)
  {
    innerPad := new byte[BLOCK_SIZE](_ => 0x36);
    outerPad := new byte[BLOCK_SIZE](_ => 0x5c);
    ghost var key := padded[..];
    for i := 0 to BLOCK_SIZE
      invariant padded[..] == key
      invariant forall k :: 0 <= k < BLOCK_SIZE ==> innerPad[k] == if k < i then key[k] ^ 0x36 else 0x36
      invariant forall k :: 0 <= k < BLOCK_SIZE ==> outerPad[k] == if k < i then key[k] ^ 0x5c else 0x5c
    {
      innerPad[i] := innerPad[i] ^ padded[i];
      outerPad[i] := outerPad[i] ^ padded[i];
    }
  }

  /**
   The streamed form over any split of the message is the one-shot formula over the whole of it.
   */
  method HmacSha256(hash: Hash, key: Bytes, parts: seq<Bytes>) returns (mac: Digest)
    ensures mac == Mac(hash, key, Concat(parts))
  {
    var padded := FillKey(hash, key);
    var innerPad, outerPad := FillPads(padded);
    ghost var ipad, opad := innerPad[..], outerPad[..];

    var inner := new Hasher(hash);
    inner.Update(innerPad[..]);
    for i := 0 to |parts|
      invariant inner.absorbed == ipad + Concat(parts[..i]) && outerPad[..] == opad
    {
      inner.Update(parts[i]);
      assert parts[..i + 1][..i] == parts[..i];
    }
    assert parts[..|parts|] == parts;
    var digest := inner.Finalize();
    var outer := new Hasher(hash);
    outer.Update(outerPad[..]);
    outer.Update(digest);
    assert outer.absorbed == opad + digest;
    mac := outer.Finalize();
  }

  // ---- When two codes coincide ------------------------------------------------------------

  /** Two different byte strings the hash sends to one digest. */
  ghost predicate Collision(hash: Hash, a: Bytes, b: Bytes) {
    a != b && hash(a) == hash(b)
  }

  /**
   Under one key, different texts get different codes unless the hash itself collides, on two
   strings that can be written down.
   */
  lemma SameMacCollides(hash: Hash, key: Bytes, t: Bytes, u: Bytes) returns (a: Bytes, b: Bytes)
    requires t != u && Mac(hash, key, t) == Mac(hash, key, u)
    ensures Collision(hash, a, b)
  {
    var k := PaddedKey(hash, key);
    var inner, outer := Xored(k, 0x36), Xored(k, 0x5c);
    if hash(inner + t) == hash(inner + u) {
      a, b := inner + t, inner + u;
      assert a[BLOCK_SIZE..] == t && b[BLOCK_SIZE..] == u;
    } else {
      a, b := outer + hash(inner + t), outer + hash(inner + u);
      assert a[BLOCK_SIZE..] == hash(inner + t) && b[BLOCK_SIZE..] == hash(inner + u);
    }
  }

  // The key without its trailing zeros.
  function Stripped(key: Bytes): Bytes {
    if key != [] && key[|key| - 1] == 0 then Stripped(key[..|key| - 1]) else key
  }

  lemma {:induction false} StrippedIsShorter(key: Bytes)
    ensures |Stripped(key)| <= |key| && key == Stripped(key) + Zeros(|key| - |Stripped(key)|)
    ensures Stripped(key) == [] || Stripped(key)[|Stripped(key)| - 1] != 0
  {
    if key != [] && key[|key| - 1] == 0 {
      StrippedIsShorter(key[..|key| - 1]);
    }
  }

  // Texts that end in no zero and fill out to the same block are the same.
  lemma SamePaddingSameText(s: Bytes, t: Bytes)
    requires |s| <= |t| <= BLOCK_SIZE && (t == [] || t[|t| - 1] != 0)
    requires s + Zeros(BLOCK_SIZE - |s|) == t + Zeros(BLOCK_SIZE - |t|)
    ensures s == t
  {
    var block := s + Zeros(BLOCK_SIZE - |s|);
    assert block[..|s|] == s && block[..|t|] == t;
    if t != [] {
      assert block[|t| - 1] == t[|t| - 1];
    }
  }

  lemma StrippedFillsAlike(hash: Hash, key: Bytes)
    requires |key| <= BLOCK_SIZE
    ensures |Stripped(key)| <= BLOCK_SIZE
    ensures PaddedKey(hash, key) == Stripped(key) + Zeros(BLOCK_SIZE - |Stripped(key)|)
  {
    StrippedIsShorter(key);
  }

  /**
   Two keys of at most a block fill the same block exactly when they differ in nothing but
   trailing zeros.
   */
  lemma SameBlockIff(hash: Hash, a: Bytes, b: Bytes)
    requires |a| <= BLOCK_SIZE && |b| <= BLOCK_SIZE
    ensures PaddedKey(hash, a) == PaddedKey(hash, b) <==> Stripped(a) == Stripped(b)
  {
    hide PaddedKey, Stripped;
    StrippedIsShorter(a);
    StrippedIsShorter(b);
    StrippedFillsAlike(hash, a);
    StrippedFillsAlike(hash, b);
    if PaddedKey(hash, a) == PaddedKey(hash, b) {
      if |Stripped(a)| <= |Stripped(b)| {
        SamePaddingSameText(Stripped(a), Stripped(b));
      } else {
        SamePaddingSameText(Stripped(b), Stripped(a));
      }
    }
  }
}
