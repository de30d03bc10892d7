/**
 * The cryptographic library calls behind the SSH key code, as parameters:
 * key parsing and marshalling (`crypto/x509`), PEM framing (RFC 7468),
 * public-key conversion and SHA-256 (`golang.org/x/crypto/ssh`),
 * PBKDF2-HMAC-SHA256 (section 5.2 of RFC 8018) and AES-256-GCM. `Lawful`
 * states only the facts about them that the modelled code relies on.
 *
 * The text forms the code builds from a public key are written out:
 * `ssh.MarshalAuthorizedKey` and `ssh.FingerprintSHA256`.
 */
module Primitives {
  import opened Base
  import Base64

  /** A private key as `x509` hands it back: the kind decides what the code accepts. */
  datatype PrivateKey =
    | Ed25519Private(seed: Bytes)
    | RsaPrivate(bits: nat, material: Bytes)
    | OtherPrivate(material: Bytes)

  /** An `ssh.PublicKey`: its `Type()` and its wire form `Marshal()`. */
  datatype PublicKey = PublicKey(algo: string, blob: Bytes)

  /** A `pem.Block` with no headers. */
  datatype PemBlock = PemBlock(blockType: string, body: Bytes)

  datatype Library = Library(
    newPublicKey: PrivateKey -> Result<PublicKey>,
    marshalPKCS8: PrivateKey -> Result<Bytes>,
    parsePKCS8: Bytes -> Result<PrivateKey>,
    marshalPKCS1: PrivateKey -> Bytes,
    parsePKCS1: Bytes -> Result<PrivateKey>,
    pemEncode: PemBlock -> Bytes,
    pemDecode: Bytes -> Option<PemBlock>,
    sha256: Bytes -> Bytes,
    pbkdf2: (string, Bytes, nat, nat) -> Bytes,
    seal: (Bytes, Bytes, Bytes) -> Bytes,
    open: (Bytes, Bytes, Bytes) -> Option<Bytes>)

  /** The bytes AES-GCM adds to a plaintext: its authentication tag. */
  const TagSize := 16

  /** The facts about the library that the key code relies on. */
  ghost predicate Lawful(lib: Library)
  {
    // `ssh.NewPublicKey` accepts Ed25519 and RSA keys and names their algorithm.
    && (forall k: PrivateKey :: k.Ed25519Private? ==> lib.newPublicKey(k).Ok? && lib.newPublicKey(k).value.algo == "ssh-ed25519")
    && (forall k: PrivateKey :: k.RsaPrivate? ==> lib.newPublicKey(k).Ok? && lib.newPublicKey(k).value.algo == "ssh-rsa")
    && (forall k :: lib.newPublicKey(k).Ok? ==> ' ' !in lib.newPublicKey(k).value.algo)
    // PKCS#8 and PKCS#1 read back what they wrote.
    && (forall k :: lib.marshalPKCS8(k).Ok? ==> lib.parsePKCS8(lib.marshalPKCS8(k).value) == Ok(k))
    && (forall k: PrivateKey :: k.Ed25519Private? ==> lib.marshalPKCS8(k).Ok?)
    && (forall k: PrivateKey :: k.RsaPrivate? ==> lib.parsePKCS1(lib.marshalPKCS1(k)) == Ok(k))
    && (forall b :: lib.parsePKCS1(b).Ok? ==> lib.parsePKCS1(b).value.RsaPrivate?)
    // PEM reads back the block it encoded, and an encoding is never empty.
    && (forall p :: lib.pemDecode(lib.pemEncode(p)) == Some(p))
    && (forall p :: |lib.pemEncode(p)| > 0)
    // SHA-256 digests are 32 bytes; PBKDF2 gives the length asked for.
    && (forall b :: |lib.sha256(b)| == 32)
    && (forall pw, salt, iter, n :: |lib.pbkdf2(pw, salt, iter, n)| == n)
    // AES-GCM: opening undoes sealing, and only a sealed text opens.
    && (forall key, nonce, p :: |lib.seal(key, nonce, p)| == |p| + TagSize)
    && (forall key, nonce, p :: lib.open(key, nonce, lib.seal(key, nonce, p)) == Some(p))
    && (forall key, nonce, c :: lib.open(key, nonce, c).Some? ==> c == lib.seal(key, nonce, lib.open(key, nonce, c).value))
  }

  /** `ssh.MarshalAuthorizedKey`: "<algorithm> <base64 of the wire form>\n". */
  function AuthorizedKey(pk: PublicKey): (s: string)
    ensures |s| > 0 && s[|s| - 1] == '\n'
  {
    pk.algo + " " + Base64.Encode(pk.blob) + "\n"
  }

  /** `ssh.FingerprintSHA256`: "SHA256:" and the unpadded base64 of the digest. */
  function Fingerprint(lib: Library, pk: PublicKey): string
  {
    "SHA256:" + Base64.RawEncode(lib.sha256(pk.blob))
  }

  /** The length of a fingerprint: 7 characters of prefix and 43 of digest. */
  lemma FingerprintLength(lib: Library, pk: PublicKey)
    requires Lawful(lib)
    ensures |Fingerprint(lib, pk)| == 50
  {
    Base64.RawEncodeLength(lib.sha256(pk.blob));
  }

  /**
   * Two public keys with the same authorized-key text have the same
   * fingerprint: the text determines the wire form the digest is taken of.
   */
  lemma SameAuthorizedKeySameFingerprint(lib: Library, p: PublicKey, q: PublicKey)
    requires ' ' !in p.algo && ' ' !in q.algo
    requires AuthorizedKey(p) == AuthorizedKey(q)
    ensures p == q
    ensures Fingerprint(lib, p) == Fingerprint(lib, q)
  {
    KeyLineParts(p.algo, Base64.Encode(p.blob), q.algo, Base64.Encode(q.blob));
    Base64.EncodeInjective(p.blob, q.blob);
  }

  /** An authorized-key line splits uniquely into its algorithm and its base64 text. */
  lemma KeyLineParts(a: string, e: string, b: string, f: string)
    requires ' ' !in a && ' ' !in b
    requires a + " " + e + "\n" == b + " " + f + "\n"
    ensures a == b && e == f
  {
    var s := a + " " + e + "\n";
    assert s == a + (" " + e + "\n");
    assert s == b + (" " + f + "\n");
    FirstSpace(a, " " + e + "\n", b, " " + f + "\n");
    assert e == s[|a| + 1..|s| - 1];
    assert f == s[|b| + 1..|s| - 1];
  }

  lemma ConcatAt(a: string, x: string, b: string, y: string, i: int)
    requires a + x == b + y && |a| <= i < |a| + |x| && i < |b|
    ensures b[i] == x[i - |a|] && b[i] in b
  {
    assert (a + x)[i] == (b + y)[i];
  }

  /** Splitting at the first space: a space-free head followed by a space is unique. */
  lemma FirstSpace(a: string, x: string, b: string, y: string)
    requires ' ' !in a && ' ' !in b
    requires |x| > 0 && x[0] == ' ' && |y| > 0 && y[0] == ' '
    requires a + x == b + y
    ensures a == b
  {
    if |a| < |b| {
      ConcatAt(a, x, b, y, |a|);
      assert false;
    } else if |b| < |a| {
      ConcatAt(b, y, a, x, |b|);
      assert false;
    } else {
      assert a == (a + x)[..|a|] == (b + y)[..|b|] == b;
    }
  }
}
