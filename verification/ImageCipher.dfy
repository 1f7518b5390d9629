/** Authenticated encryption of a session's image, and the layout it is stored in. */
module ImageCipher {
  import opened Wrappers
  import opened Bytes
  import opened Hmac
  import SolutionHash

  const KEY_DERIVATION_DOMAIN: Bytes := SolutionHash.Ascii("captchapi:image-encryption:v1")
  const SESSION_KEY_INFO: Bytes := SolutionHash.Ascii("captchapi:image-key:v1")

  const FORMAT_VERSION: byte := 2
  const NONCE_LEN := 12
  const TAG_LEN := 16
  const OVERHEAD := 1 + NONCE_LEN + TAG_LEN

  type Nonce = n: Bytes | |n| == NONCE_LEN witness seq(12, _ => 0)

  // The cipher of section 2.8 of RFC 8439 enters only as the two functions it offers:
  // key, nonce, associated data, and then the text to seal or to open.
  datatype Aead = Aead(
    seal: (Digest, Nonce, Bytes, Bytes) -> Option<Bytes>,
    open: (Digest, Nonce, Bytes, Bytes) -> Option<Bytes>)
  {
    // Opening undoes sealing and accepts nothing else, and a sealed text carries a tag.
    ghost predicate Authentic() {
      && (forall k, n, a, m :: seal(k, n, a, m).Some? ==> |seal(k, n, a, m).value| == |m| + TAG_LEN)
      && (forall k, n, a, m :: seal(k, n, a, m).Some? ==> open(k, n, a, seal(k, n, a, m).value) == Some(m))
      && (forall k, n, a, c :: open(k, n, a, c).Some? ==> seal(k, n, a, open(k, n, a, c).value) == Some(c))
    }
  }

  datatype CipherError = SealFailed | TooShort | UnsupportedVersion(version: byte) | OpenFailed

  function MasterKey(hash: Hash, secret: Bytes): Digest {
    hash(KEY_DERIVATION_DOMAIN + secret)
  }

  function SessionKey(hash: Hash, master: Digest, id: Bytes): Digest {
    Mac(hash, master, SESSION_KEY_INFO + [0] + id)
  }

  function Encrypted(aead: Aead, hash: Hash, master: Digest, id: Bytes, nonce: Nonce, image: Bytes)
    : Result<Bytes, CipherError>
  {
    match aead.seal(SessionKey(hash, master, id), nonce, id, image)
    case Some(sealed) => Success([FORMAT_VERSION] + nonce + sealed)
    case None => Failure(SealFailed)
  }

  function Decrypted(aead: Aead, hash: Hash, master: Digest, id: Bytes, stored: Bytes): Result<Bytes, CipherError> {
    if |stored| < OVERHEAD then Failure(TooShort)
    else if stored[0] != FORMAT_VERSION then Failure(UnsupportedVersion(stored[0]))
    else
      match aead.open(SessionKey(hash, master, id), stored[1..1 + NONCE_LEN], id, stored[1 + NONCE_LEN..])
      case Some(image) => Success(image)
      case None => Failure(OpenFailed)
  }

  class ImageCipher {
    const aead: Aead
    const hash: Hash
    const masterKey: Digest

    constructor (aead: Aead, hash: Hash, secret: Bytes)
      ensures this.aead == aead && this.hash == hash
      ensures masterKey == MasterKey(hash, secret)
                        == hash(SolutionHash.Ascii("captchapi:image-encryption:v1") + secret)
    {
      var hasher := new Hasher(hash);
      hasher.Update(KEY_DERIVATION_DOMAIN);
      hasher.Update(secret);
      var digest := hasher.Finalize();
      assert hasher.absorbed == KEY_DERIVATION_DOMAIN + secret;
      this.aead, this.hash, masterKey := aead, hash, digest;
    }

    method DeriveKey(id: Bytes) returns (key: Digest)
      ensures key == SessionKey(hash, masterKey, id)
                  == Mac(hash, masterKey, SolutionHash.Ascii("captchapi:image-key:v1") + [0] + id)
    {
      var parts := [SESSION_KEY_INFO, [0], id];
      key := HmacSha256(hash, masterKey, parts);
      ConcatThree(SESSION_KEY_INFO, [0], id);
    }

    /** Encrypt under the session's own key; `nonce` is what the random source gave. */
    method Encrypt(id: Bytes, nonce: Nonce, image: Bytes) returns (r: Result<Bytes, CipherError>)
      ensures r == Encrypted(aead, hash, masterKey, id, nonce, image)
    {
      var key := DeriveKey(id);
      var sealed := aead.seal(key, nonce, id, image);
      if sealed.None? {
        return Failure(SealFailed);
      }
      var stored: Bytes := [];
      stored := stored + [FORMAT_VERSION];
      stored := stored + nonce;
      stored := stored + sealed.value;
      assert stored == [FORMAT_VERSION] + nonce + sealed.value;
      return Success(stored);
    }

    method Decrypt(id: Bytes, stored: Bytes) returns (r: Result<Bytes, CipherError>)
      ensures r == Decrypted(aead, hash, masterKey, id, stored)
    {
      if |stored| < OVERHEAD {
        return Failure(TooShort);
      }
      if stored[0] != FORMAT_VERSION {
        return Failure(UnsupportedVersion(stored[0]));
      }
      var nonce := new byte[NONCE_LEN](_ => 0);
      forall i | 0 <= i < NONCE_LEN {
        nonce[i] := stored[1 + i];
      }
      assert nonce[..] == stored[1..1 + NONCE_LEN];
      var key := DeriveKey(id);
      var image := aead.open(key, nonce[..], id, stored[1 + NONCE_LEN..]);
      if image.None? {
        return Failure(OpenFailed);
      }
      return Success(image.value);
    }
  }

  /**
   Decryption accepts exactly what encryption under the same secret and session produces, and
   gives back the image it was produced from; the stored form is always 29 bytes longer.
   */
  lemma DecryptsExactlyTheEncrypted(aead: Aead, hash: Hash, master: Digest, id: Bytes, stored: Bytes, image: Bytes)
    requires aead.Authentic()
    ensures Decrypted(aead, hash, master, id, stored) == Success(image) <==>
            exists nonce: Nonce :: Encrypted(aead, hash, master, id, nonce, image) == Success(stored)
    ensures Decrypted(aead, hash, master, id, stored) == Success(image) ==> |stored| == |image| + 29
  {
    if Decrypted(aead, hash, master, id, stored) == Success(image) {
      var nonce: Nonce := stored[1..1 + NONCE_LEN];
      assert stored == [FORMAT_VERSION] + nonce + stored[1 + NONCE_LEN..];
      assert Encrypted(aead, hash, master, id, nonce, image) == Success(stored);
    }
    if nonce: Nonce :| Encrypted(aead, hash, master, id, nonce, image) == Success(stored) {
      DecryptUndoesEncrypt(aead, hash, master, id, nonce, image);
    }
  }

  /** An image encrypted for storage decrypts to itself, whatever the nonce. */
  lemma DecryptUndoesEncrypt(aead: Aead, hash: Hash, master: Digest, id: Bytes, nonce: Nonce, image: Bytes)
    requires aead.Authentic() && Encrypted(aead, hash, master, id, nonce, image).Success?
    ensures var stored := Encrypted(aead, hash, master, id, nonce, image).value;
            && |stored| == |image| + 29 && stored[0] == 2 && stored[1..13] == nonce
            && Decrypted(aead, hash, master, id, stored) == Success(image)
  {
    var sealed := aead.seal(SessionKey(hash, master, id), nonce, id, image).value;
    var stored := [FORMAT_VERSION] + nonce + sealed;
    assert stored[1..1 + NONCE_LEN] == nonce && stored[1 + NONCE_LEN..] == sealed;
  }

  /** Two sessions share an image key only if the hash collides. */
  lemma SessionKeysDiffer(hash: Hash, master: Digest, id: Bytes, other: Bytes) returns (a: Bytes, b: Bytes)
    requires id != other && SessionKey(hash, master, id) == SessionKey(hash, master, other)
    ensures Collision(hash, a, b)
  {
    var t, u := SESSION_KEY_INFO + [0] + id, SESSION_KEY_INFO + [0] + other;
    assert t[|SESSION_KEY_INFO| + 1..] == id && u[|SESSION_KEY_INFO| + 1..] == other;
    a, b := SameMacCollides(hash, master, t, u);
  }

  /**
   The key for answers and the key for images coincide only if the hash collides, even when one
   secret serves for both.
   */
  lemma DerivedKeysDiffer(hash: Hash, secret: Bytes, other: Bytes) returns (a: Bytes, b: Bytes)
    requires MasterKey(hash, secret) == SolutionHash.DerivedKey(hash, other)
    ensures Collision(hash, a, b)
  {
    a, b := KEY_DERIVATION_DOMAIN + secret, SolutionHash.KEY_DERIVATION_DOMAIN + other;
    assert a[10] == 'i' as bv8 && b[10] == 's' as bv8;
  }
}
