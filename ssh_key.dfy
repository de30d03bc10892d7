/**
 * SSH key records and how they are made (ssh/key.go): generating an
 * Ed25519 or a 4096-bit RSA key, importing a PEM-framed private key, and
 * the random key id. Randomness and the clock are inputs: `random` is what
 * the random source produced (or its error), `idBytes` the 16 bytes read for
 * the id, `now` the current time.
 */
module SshKey {
  import opened Base
  import opened GoStrings
  import opened Primitives

  const KeyTypeEd25519 := "ed25519"
  const KeyTypeRsa := "rsa"

  /** The PEM block types the generator writes and the importer accepts. */
  const Ed25519BlockType := "OPENSSH PRIVATE KEY"
  const RsaBlockType := "RSA PRIVATE KEY"

  const RsaBits := 4096

  /** An `SSHKey`; `privateKey` holds PEM text in clear or, once stored, ciphertext. */
  datatype SSHKey = SSHKey(
    id: string,
    name: string,
    keyType: string,
    publicKey: string,
    privateKey: Bytes,
    fingerprint: string,
    added: Time,
    lastUsed: Time)

  /** A `*SSHKey`: a record that callees may update in place. */
  class KeyRef {
    var key: SSHKey

    constructor (key: SSHKey)
      ensures this.key == key
    {
      this.key := key;
    }
  }

  /**
   * `generateKeyID`: "key_" and the lower-case hex digits of 16 random
   * bytes. The error of `rand.Read` is ignored, so any 16 bytes are possible.
   */
  function KeyId(idBytes: Bytes): (id: string)
    requires |idBytes| == 16
    ensures |id| == 36 && HasPrefix(id, "key_")
    ensures forall k | 4 <= k < 36 :: IsLowerHex(id[k])
    ensures Unhex(id[4..]) == idBytes
  {
    var id := "key_" + Hex(idBytes);
    assert id[4..] == Hex(idBytes);
    UnhexHex(idBytes);
    id
  }

  /** The record the code builds around a public key (ssh/key.go:90-98, 125-133, 181-189). */
  function NewRecord(lib: Library, name: string, keyType: string, pk: PublicKey,
                     privateKey: Bytes, idBytes: Bytes, now: Time): SSHKey
    requires |idBytes| == 16
  {
    SSHKey(KeyId(idBytes), name, keyType, AuthorizedKey(pk), privateKey, Fingerprint(lib, pk), now, Zero)
  }

  /** `generateED25519`. */
  function GenerateEd25519(lib: Library, name: string, random: Result<Bytes>, idBytes: Bytes, now: Time): (r: Result<SSHKey>)
    requires |idBytes| == 16
    ensures random.Err? ==> r == Err("failed to generate ED25519 key: " + random.error)
    ensures random.Ok? && lib.newPublicKey(Ed25519Private(random.value)).Err? ==>
              r == Err("failed to convert ED25519 public key: " + lib.newPublicKey(Ed25519Private(random.value)).error)
    ensures random.Ok? && lib.newPublicKey(Ed25519Private(random.value)).Ok? && lib.marshalPKCS8(Ed25519Private(random.value)).Err? ==>
              r == Err("failed to marshal ED25519 private key: " + lib.marshalPKCS8(Ed25519Private(random.value)).error)
    ensures r.Ok? ==>
              && random.Ok? && r.value.keyType == KeyTypeEd25519 && r.value.name == name
              && lib.marshalPKCS8(Ed25519Private(random.value)).Ok?
              && r.value.privateKey == lib.pemEncode(PemBlock(Ed25519BlockType, lib.marshalPKCS8(Ed25519Private(random.value)).value))
              && lib.newPublicKey(Ed25519Private(random.value)).Ok?
              && r.value.publicKey == AuthorizedKey(lib.newPublicKey(Ed25519Private(random.value)).value)
              && r.value.fingerprint == Fingerprint(lib, lib.newPublicKey(Ed25519Private(random.value)).value)
  {
    if random.Err? then Err("failed to generate ED25519 key: " + random.error)
    else
      var priv := Ed25519Private(random.value);
      var pub := lib.newPublicKey(priv);
      if pub.Err? then Err("failed to convert ED25519 public key: " + pub.error)
      else
        var der := lib.marshalPKCS8(priv);
        if der.Err? then Err("failed to marshal ED25519 private key: " + der.error)
        else
          var pem := lib.pemEncode(PemBlock(Ed25519BlockType, der.value));
          Ok(NewRecord(lib, name, KeyTypeEd25519, pub.value, pem, idBytes, now))
  }

  /** `generateRSA`. */
  function GenerateRsa(lib: Library, name: string, random: Result<Bytes>, idBytes: Bytes, now: Time): (r: Result<SSHKey>)
    requires |idBytes| == 16
    ensures random.Err? ==> r == Err("failed to generate RSA key: " + random.error)
    ensures random.Ok? && lib.newPublicKey(RsaPrivate(RsaBits, random.value)).Err? ==>
              r == Err("failed to convert RSA public key: " + lib.newPublicKey(RsaPrivate(RsaBits, random.value)).error)
    ensures r.Ok? ==>
              && random.Ok? && r.value.keyType == KeyTypeRsa && r.value.name == name
              && r.value.privateKey == lib.pemEncode(PemBlock(RsaBlockType, lib.marshalPKCS1(RsaPrivate(RsaBits, random.value))))
              && lib.newPublicKey(RsaPrivate(RsaBits, random.value)).Ok?
              && r.value.publicKey == AuthorizedKey(lib.newPublicKey(RsaPrivate(RsaBits, random.value)).value)
              && r.value.fingerprint == Fingerprint(lib, lib.newPublicKey(RsaPrivate(RsaBits, random.value)).value)
  {
    if random.Err? then Err("failed to generate RSA key: " + random.error)
    else
      var priv := RsaPrivate(RsaBits, random.value);
      var pub := lib.newPublicKey(priv);
      if pub.Err? then Err("failed to convert RSA public key: " + pub.error)
      else
        var pem := lib.pemEncode(PemBlock(RsaBlockType, lib.marshalPKCS1(priv)));
        Ok(NewRecord(lib, name, KeyTypeRsa, pub.value, pem, idBytes, now))
  }

  /** `KeyGenerator.Generate`: dispatch on the requested key type. */
  function Generate(lib: Library, name: string, keyType: string, random: Result<Bytes>,
                    idBytes: Bytes, now: Time): (r: Result<SSHKey>)
    requires |idBytes| == 16
    ensures keyType != KeyTypeEd25519 && keyType != KeyTypeRsa ==> r == Err("unsupported key type: " + keyType)
    ensures random.Err? ==> r.Err?
    ensures r.Ok? ==> r.value.name == name && r.value.keyType == keyType
    ensures r.Ok? ==> r.value.id == KeyId(idBytes) && r.value.added == now && r.value.lastUsed == Zero
  {
    if keyType == KeyTypeEd25519 then GenerateEd25519(lib, name, random, idBytes, now)
    else if keyType == KeyTypeRsa then GenerateRsa(lib, name, random, idBytes, now)
    else Err("unsupported key type: " + keyType)
  }

  /** What the importer makes of a PEM block: the key type and the public key. */
  function Classify(lib: Library, block: PemBlock): (r: Result<(string, PublicKey)>)
    ensures block.blockType != Ed25519BlockType && block.blockType != RsaBlockType ==>
              r == Err("unsupported key type: " + block.blockType)
    ensures block.blockType == Ed25519BlockType ==>
              var parsed := lib.parsePKCS8(block.body);
              && (parsed.Err? ==> r == Err("failed to parse ED25519 private key: " + parsed.error))
              && (parsed.Ok? && !parsed.value.Ed25519Private? ==> r == Err("unsupported private key type"))
              && (parsed.Ok? && parsed.value.Ed25519Private? && lib.newPublicKey(parsed.value).Err? ==>
                    r == Err("failed to convert ED25519 public key: " + lib.newPublicKey(parsed.value).error))
              && (r.Ok? ==> parsed.Ok? && parsed.value.Ed25519Private?
                            && r.value == (KeyTypeEd25519, lib.newPublicKey(parsed.value).value))
    ensures block.blockType == RsaBlockType ==>
              var parsed := lib.parsePKCS1(block.body);
              && (parsed.Err? ==> r == Err("failed to parse RSA private key: " + parsed.error))
              && (parsed.Ok? && lib.newPublicKey(parsed.value).Err? ==>
                    r == Err("failed to convert RSA public key: " + lib.newPublicKey(parsed.value).error))
              && (r.Ok? ==> parsed.Ok? && r.value == (KeyTypeRsa, lib.newPublicKey(parsed.value).value))
    ensures r.Ok? <==> match block.blockType
      case "OPENSSH PRIVATE KEY" => lib.parsePKCS8(block.body).Ok? && lib.parsePKCS8(block.body).value.Ed25519Private?
                                    && lib.newPublicKey(lib.parsePKCS8(block.body).value).Ok?
      case "RSA PRIVATE KEY" => lib.parsePKCS1(block.body).Ok? && lib.newPublicKey(lib.parsePKCS1(block.body).value).Ok?
      case _ => false
  {
    if block.blockType == Ed25519BlockType then
      var parsed := lib.parsePKCS8(block.body);
      if parsed.Err? then Err("failed to parse ED25519 private key: " + parsed.error)
      else if !parsed.value.Ed25519Private? then Err("unsupported private key type")
      else
        var pub := lib.newPublicKey(parsed.value);
        if pub.Err? then Err("failed to convert ED25519 public key: " + pub.error)
        else Ok((KeyTypeEd25519, pub.value))
    else if block.blockType == RsaBlockType then
      var parsed := lib.parsePKCS1(block.body);
      if parsed.Err? then Err("failed to parse RSA private key: " + parsed.error)
      else
        var pub := lib.newPublicKey(parsed.value);
        if pub.Err? then Err("failed to convert RSA public key: " + pub.error)
        else Ok((KeyTypeRsa, pub.value))
    else Err("unsupported key type: " + block.blockType)
  }

  /** `KeyGenerator.Import`. */
  function Import(lib: Library, name: string, data: Bytes, idBytes: Bytes, now: Time): (r: Result<SSHKey>)
    requires |idBytes| == 16
    ensures lib.pemDecode(data).None? ==> r == Err("failed to decode PEM block")
    ensures lib.pemDecode(data).Some?
      && lib.pemDecode(data).value.blockType != Ed25519BlockType
      && lib.pemDecode(data).value.blockType != RsaBlockType
      ==> r == Err("unsupported key type: " + lib.pemDecode(data).value.blockType)
    ensures var b := lib.pemDecode(data);
      b.Some? && b.value.blockType == Ed25519BlockType ==>
        var parsed := lib.parsePKCS8(b.value.body);
        && (parsed.Err? ==> r == Err("failed to parse ED25519 private key: " + parsed.error))
        && (parsed.Ok? && !parsed.value.Ed25519Private? ==> r == Err("unsupported private key type"))
        && (parsed.Ok? && parsed.value.Ed25519Private? && lib.newPublicKey(parsed.value).Err? ==>
              r == Err("failed to convert ED25519 public key: " + lib.newPublicKey(parsed.value).error))
    ensures var b := lib.pemDecode(data);
      b.Some? && b.value.blockType == RsaBlockType ==>
        var parsed := lib.parsePKCS1(b.value.body);
        && (parsed.Err? ==> r == Err("failed to parse RSA private key: " + parsed.error))
        && (parsed.Ok? && lib.newPublicKey(parsed.value).Err? ==>
              r == Err("failed to convert RSA public key: " + lib.newPublicKey(parsed.value).error))
    ensures r.Ok? <==> lib.pemDecode(data).Some? && Classify(lib, lib.pemDecode(data).value).Ok?
    ensures r.Ok? ==> r.value.privateKey == data && r.value.name == name
    ensures r.Ok? ==> r.value.keyType == (if lib.pemDecode(data).value.blockType == Ed25519BlockType then KeyTypeEd25519 else KeyTypeRsa)
    ensures r.Ok? ==> r.value.id == KeyId(idBytes) && r.value.added == now && r.value.lastUsed == Zero
  {
    var block := lib.pemDecode(data);
    if block.None? then Err("failed to decode PEM block")
    else
      var c := Classify(lib, block.value);
      if c.Err? then Err(c.error)
      else Ok(NewRecord(lib, name, c.value.0, c.value.1, data, idBytes, now))
  }

  /** The public-key text and the fingerprint of `k` come from one public key. */
  ghost predicate Derived(lib: Library, k: SSHKey)
  {
    exists pk: PublicKey :: ' ' !in pk.algo && k.publicKey == AuthorizedKey(pk) && k.fingerprint == Fingerprint(lib, pk)
  }

  /** A generated key has its name and type and non-empty key texts (ssh/ssh_test.go:34-49). */
  lemma GenerateSucceeds(lib: Library, name: string, keyType: string, seed: Bytes, idBytes: Bytes, now: Time)
    requires Lawful(lib) && |idBytes| == 16
    requires keyType == KeyTypeEd25519 || keyType == KeyTypeRsa
    ensures var r := Generate(lib, name, keyType, Ok(seed), idBytes, now);
      && r.Ok? && r.value.name == name && r.value.keyType == keyType
      && |r.value.publicKey| > 0 && |r.value.privateKey| > 0 && |r.value.fingerprint| > 0
      && Derived(lib, r.value)
  {
    var priv := if keyType == KeyTypeEd25519 then Ed25519Private(seed) else RsaPrivate(RsaBits, seed);
    var pk := lib.newPublicKey(priv).value;
    assert ' ' !in pk.algo;
    FingerprintLength(lib, pk);
  }

  /**
   * The private key of a generated record is a PEM block of the fixed type:
   * PKCS#8 of the Ed25519 key, or PKCS#1 of a 4096-bit RSA key.
   */
  lemma GeneratedPem(lib: Library, name: string, keyType: string, seed: Bytes, idBytes: Bytes, now: Time)
    requires Lawful(lib) && |idBytes| == 16
    requires Generate(lib, name, keyType, Ok(seed), idBytes, now).Ok?
    ensures var k := Generate(lib, name, keyType, Ok(seed), idBytes, now).value;
      var block := lib.pemDecode(k.privateKey);
      && block.Some?
      && (keyType == KeyTypeEd25519 ==>
            block.value.blockType == Ed25519BlockType && lib.parsePKCS8(block.value.body) == Ok(Ed25519Private(seed)))
      && (keyType == KeyTypeRsa ==>
            block.value.blockType == RsaBlockType && lib.parsePKCS1(block.value.body) == Ok(RsaPrivate(RsaBits, seed)))
  {
  }

  /** Importing a generated private key gives the same type, public key and fingerprint (ssh/ssh_test.go:174-201). */
  lemma ImportGenerated(lib: Library, name: string, keyType: string, seed: Bytes, idBytes: Bytes, now: Time,
                        name2: string, idBytes2: Bytes, now2: Time)
    requires Lawful(lib) && |idBytes| == 16 && |idBytes2| == 16
    requires Generate(lib, name, keyType, Ok(seed), idBytes, now).Ok?
    ensures var g := Generate(lib, name, keyType, Ok(seed), idBytes, now).value;
      var i := Import(lib, name2, g.privateKey, idBytes2, now2);
      i.Ok? && i.value.keyType == g.keyType && i.value.publicKey == g.publicKey && i.value.fingerprint == g.fingerprint
  {
    GeneratedPem(lib, name, keyType, seed, idBytes, now);
  }

  /** An imported key's texts come from the public key of the parsed private key. */
  lemma {:induction false} ImportDerived(lib: Library, name: string, data: Bytes, idBytes: Bytes, now: Time)
    requires Lawful(lib) && |idBytes| == 16
    requires Import(lib, name, data, idBytes, now).Ok?
    ensures Derived(lib, Import(lib, name, data, idBytes, now).value)
  {
    var block := lib.pemDecode(data).value;
    var c := Classify(lib, block).value;
    var parsed := if block.blockType == Ed25519BlockType then lib.parsePKCS8(block.body) else lib.parsePKCS1(block.body);
    assert lib.newPublicKey(parsed.value) == Ok(c.1);
    assert ' ' !in c.1.algo;
  }

  /** Equal public-key texts mean equal fingerprints, for any two records the code makes. */
  lemma SamePublicKeySameFingerprint(lib: Library, a: SSHKey, b: SSHKey)
    requires Derived(lib, a) && Derived(lib, b)
    requires a.publicKey == b.publicKey
    ensures a.fingerprint == b.fingerprint
  {
    var p: PublicKey :| ' ' !in p.algo && a.publicKey == AuthorizedKey(p) && a.fingerprint == Fingerprint(lib, p);
    var q: PublicKey :| ' ' !in q.algo && b.publicKey == AuthorizedKey(q) && b.fingerprint == Fingerprint(lib, q);
    SameAuthorizedKeySameFingerprint(lib, p, q);
  }
}
