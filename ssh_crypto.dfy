/**
 * The at-rest envelope of private keys (ssh/crypto.go): a 32-byte AES key
 * derived from the master key by PBKDF2, AES-GCM with a random 12-byte
 * nonce, and the text `base64(nonce ‖ sealed)` with the standard padded
 * alphabet. The nonce and the salt are inputs (what the random source gave).
 */
module SshCrypto {
  import opened Base
  import opened GoStrings
  import opened Primitives
  import Base64
  import opened SshKey

  const IterationCount := 100000
  const KeyLength := 32
  const SaltLength := 16

  /** `gcm.NonceSize()` for the standard GCM mode. */
  const NonceSize := 12

  /** `KeyEncryption`: the derived key never changes after construction. */
  datatype KeyEncryption = KeyEncryption(lib: Library, masterKey: Bytes) {

    /**
     * `aes.NewCipher` of the derived key: AES takes 16-, 24- or 32-byte keys.
     * `cipher.NewGCM` cannot fail on an AES block.
     */
    function CipherError(): (e: Option<string>)
      ensures e.None? <==> |masterKey| == 16 || |masterKey| == 24 || |masterKey| == 32
    {
      if |masterKey| == 16 || |masterKey| == 24 || |masterKey| == 32 then None
      else Some("failed to create cipher block: crypto/aes: invalid key size " + NatToString(|masterKey|))
    }

    /** `gcm.Seal(nonce, nonce, data, nil)`: the nonce followed by the sealed data. */
    function Sealed(nonce: Bytes, data: Bytes): Bytes
    {
      nonce + lib.seal(masterKey, nonce, data)
    }

    /** The envelope as the bytes of its base64 text. */
    function Envelope(nonce: Bytes, data: Bytes): (b: Bytes)
      ensures BytesToString(b) == Base64.Encode(Sealed(nonce, data))
    {
      EncodedIsByteString(Sealed(nonce, data));
      StringBytesRoundTrip(Base64.Encode(Sealed(nonce, data)));
      StringToBytes(Base64.Encode(Sealed(nonce, data)))
    }

    /**
     * `Encrypt`: `nonce` is what reading 12 random bytes gave, or its error.
     * The result is the base64 text, as bytes.
     */
    function Encrypt(data: Bytes, nonce: Result<Bytes>): (r: Result<Bytes>)
      requires nonce.Ok? ==> |nonce.value| == NonceSize
      ensures r.Ok? ==> CipherError().None? && nonce.Ok?
      ensures r.Ok? ==> r.value == Envelope(nonce.value, data)
      ensures CipherError().None? && nonce.Ok? ==> r.Ok?
    {
      if CipherError().Some? then Err(CipherError().value)
      else if nonce.Err? then Err("failed to generate nonce: " + nonce.error)
      else Ok(Envelope(nonce.value, data))
    }

    /** `Decrypt`, with its checks in the code's order. */
    function Decrypt(data: Bytes): (r: Result<Bytes>)
      ensures Base64.Decode(BytesToString(data)).None? ==> r.Err? && HasPrefix(r.error, "failed to decode base64: ")
      ensures r.Ok? ==> Base64.Decode(BytesToString(data)).Some?
    {
      var decoded := Base64.Decode(BytesToString(data));
      if decoded.None? then Err("failed to decode base64: illegal base64 data")
      else if CipherError().Some? then Err(CipherError().value)
      else if |decoded.value| < NonceSize then Err("ciphertext too short")
      else
        var nonce, sealed := decoded.value[..NonceSize], decoded.value[NonceSize..];
        var plain := lib.open(masterKey, nonce, sealed);
        if plain.None? then Err("failed to decrypt: cipher: message authentication failed")
        else Ok(plain.value)
    }

    /** `EncryptKey` on a record value: only the private key changes. */
    function EncryptRecord(key: SSHKey, nonce: Result<Bytes>): (r: Result<SSHKey>)
      requires nonce.Ok? ==> |nonce.value| == NonceSize
      ensures r.Ok? <==> Encrypt(key.privateKey, nonce).Ok?
      ensures r.Ok? ==> r.value == key.(privateKey := Encrypt(key.privateKey, nonce).value)
    {
      match Encrypt(key.privateKey, nonce)
      case Err(e) => Err("failed to encrypt private key: " + e)
      case Ok(c) => Ok(key.(privateKey := c))
    }

    /** `DecryptKey` on a record value: only the private key changes. */
    function DecryptRecord(key: SSHKey): (r: Result<SSHKey>)
      ensures r.Ok? <==> Decrypt(key.privateKey).Ok?
      ensures r.Ok? ==> r.value == key.(privateKey := Decrypt(key.privateKey).value)
    {
      match Decrypt(key.privateKey)
      case Err(e) => Err("failed to decrypt private key: " + e)
      case Ok(p) => Ok(key.(privateKey := p))
    }

    /** `EncryptKey`: overwrites the private key of the record in place; on error the record is untouched. */
    method EncryptKey(ref: KeyRef, nonce: Result<Bytes>) returns (err: Option<string>)
      requires nonce.Ok? ==> |nonce.value| == NonceSize
      modifies ref
      ensures err.None? <==> EncryptRecord(old(ref.key), nonce).Ok?
      ensures err.None? ==> ref.key == EncryptRecord(old(ref.key), nonce).value
      ensures err.Some? ==> ref.key == old(ref.key) && err.value == EncryptRecord(old(ref.key), nonce).error
    {
      var r := EncryptRecord(ref.key, nonce);
      if r.Err? {
        return Some(r.error);
      }
      ref.key := r.value;
      return None;
    }

    /** `DecryptKey`: overwrites the private key of the record in place; on error the record is untouched. */
    method DecryptKey(ref: KeyRef) returns (err: Option<string>)
      modifies ref
      ensures err.None? <==> DecryptRecord(old(ref.key)).Ok?
      ensures err.None? ==> ref.key == DecryptRecord(old(ref.key)).value
      ensures err.Some? ==> ref.key == old(ref.key) && err.value == DecryptRecord(old(ref.key)).error
    {
      var r := DecryptRecord(ref.key);
      if r.Err? {
        return Some(r.error);
      }
      ref.key := r.value;
      return None;
    }
  }

  /**
   * `NewKeyEncryption`: the AES key is PBKDF2-HMAC-SHA256 of the master key
   * with a fresh 16-byte salt and 100000 iterations. The salt is not kept,
   * so two instances built from one master key disagree unless their salts do.
   */
  function NewKeyEncryption(lib: Library, masterKey: string, salt: Bytes): (k: KeyEncryption)
    requires |salt| == SaltLength
    ensures k.lib == lib && k.masterKey == lib.pbkdf2(masterKey, salt, IterationCount, KeyLength)
    ensures Lawful(lib) ==> k.CipherError().None?
  {
    KeyEncryption(lib, lib.pbkdf2(masterKey, salt, IterationCount, KeyLength))
  }

  /** `GenerateRandomKey`: the base64 text of 32 random bytes, 44 characters long. */
  function GenerateRandomKey(random: Bytes): (s: string)
    requires |random| == KeyLength
    ensures |s| == 44
    ensures Base64.Decode(s) == Some(random)
  {
    EncodedKey(random);
    Base64.Encode(random)
  }

  lemma EncodedKey(random: Bytes)
    requires |random| == KeyLength
    ensures |Base64.Encode(random)| == 44
    ensures Base64.Decode(Base64.Encode(random)) == Some(random)
  {
    Base64.EncodeLength(random);
    assert 4 * ((|random| + 2) / 3) == 44;
    Base64.DecodeEncode(random);
  }

  lemma EncodedIsByteString(b: Bytes)
    ensures IsByteString(Base64.Encode(b))
  {
    Base64.EncodeAlphabet(b);
  }

  /** Within one instance, decryption undoes encryption (ssh/ssh_test.go:70-87). */
  lemma DecryptEncrypt(k: KeyEncryption, data: Bytes, nonce: Bytes)
    requires Lawful(k.lib) && |nonce| == NonceSize
    requires k.Encrypt(data, Ok(nonce)).Ok?
    ensures k.Decrypt(k.Encrypt(data, Ok(nonce)).value) == Ok(data)
  {
    var sealed := k.Sealed(nonce, data);
    Base64.DecodeEncode(sealed);
    assert sealed[..NonceSize] == nonce && sealed[NonceSize..] == k.lib.seal(k.masterKey, nonce, data);
  }

  /**
   * Two instances built from one master key with different salts: when no
   * text sealed under the first derived key is a text sealed under the
   * second (GCM authentication tells the keys apart), an instance opened
   * later cannot decrypt what the earlier one wrote.
   */
  lemma StaleInstanceCannotDecrypt(lib: Library, masterKey: string, salt1: Bytes, salt2: Bytes, data: Bytes, nonce: Bytes)
    requires Lawful(lib) && |salt1| == SaltLength && |salt2| == SaltLength && |nonce| == NonceSize
    requires forall n, p, q :: lib.seal(NewKeyEncryption(lib, masterKey, salt1).masterKey, n, p)
                                != lib.seal(NewKeyEncryption(lib, masterKey, salt2).masterKey, n, q)
    ensures NewKeyEncryption(lib, masterKey, salt1).Encrypt(data, Ok(nonce)).Ok?
    ensures NewKeyEncryption(lib, masterKey, salt2).Decrypt(NewKeyEncryption(lib, masterKey, salt1).Encrypt(data, Ok(nonce)).value)
            == Err("failed to decrypt: cipher: message authentication failed")
  {
    var earlier, later := NewKeyEncryption(lib, masterKey, salt1), NewKeyEncryption(lib, masterKey, salt2);
    var sealed := earlier.Sealed(nonce, data);
    Base64.DecodeEncode(sealed);
    assert sealed[..NonceSize] == nonce && sealed[NonceSize..] == lib.seal(earlier.masterKey, nonce, data);
    assert lib.open(later.masterKey, nonce, sealed[NonceSize..]).None?;
  }

  /** The envelope is longer than the plaintext, so it never equals it (ssh/ssh_test.go:74-77). */
  lemma EncryptLonger(k: KeyEncryption, data: Bytes, nonce: Bytes)
    requires Lawful(k.lib) && |nonce| == NonceSize
    requires k.Encrypt(data, Ok(nonce)).Ok?
    ensures |k.Encrypt(data, Ok(nonce)).value| > |data|
    ensures k.Encrypt(data, Ok(nonce)).value != data
  {
    var sealed := k.Sealed(nonce, data);
    Base64.EncodeLength(sealed);
    assert |k.Envelope(nonce, data)| == |BytesToString(k.Envelope(nonce, data))|;
    assert |sealed| == |data| + NonceSize + TagSize;
  }

  /**
   * Decryption fails closed: a plaintext comes back only from a text whose
   * decoded payload is a nonce followed by that plaintext sealed with that nonce.
   */
  lemma DecryptAuthentic(k: KeyEncryption, data: Bytes)
    requires Lawful(k.lib)
    requires k.Decrypt(data).Ok?
    ensures var decoded := Base64.Decode(BytesToString(data)).value;
      && |decoded| >= NonceSize
      && decoded == k.Sealed(decoded[..NonceSize], k.Decrypt(data).value)
  {
    var decoded := Base64.Decode(BytesToString(data)).value;
    assert decoded == decoded[..NonceSize] + decoded[NonceSize..];
  }

  /** A decoded text shorter than the nonce is "ciphertext too short". */
  lemma DecryptTooShort(k: KeyEncryption, data: Bytes)
    requires k.CipherError().None?
    requires Base64.Decode(BytesToString(data)).Some? && |Base64.Decode(BytesToString(data)).value| < NonceSize
    ensures k.Decrypt(data) == Err("ciphertext too short")
  {
  }

  /** `EncryptKey` and `DecryptKey` change the private key and nothing else of a record. */
  lemma RecordFieldsKept(k: KeyEncryption, key: SSHKey, nonce: Result<Bytes>)
    requires nonce.Ok? ==> |nonce.value| == NonceSize
    ensures k.EncryptRecord(key, nonce).Ok? ==> k.EncryptRecord(key, nonce).value.(privateKey := key.privateKey) == key
    ensures k.DecryptRecord(key).Ok? ==> k.DecryptRecord(key).value.(privateKey := key.privateKey) == key
  {
  }

  /** Decrypting an encrypted record gives back the record (ssh/storage.go:41-81 relies on it). */
  lemma DecryptRecordEncryptRecord(k: KeyEncryption, key: SSHKey, nonce: Bytes)
    requires Lawful(k.lib) && |nonce| == NonceSize
    requires k.EncryptRecord(key, Ok(nonce)).Ok?
    ensures k.DecryptRecord(k.EncryptRecord(key, Ok(nonce)).value) == Ok(key)
  {
    DecryptEncrypt(k, key.privateKey, nonce);
  }
}
