/**
 * Encryption of transaction descriptions at rest: the AES-256 key derived
 * from the `AES_SECRET` setting, and the base64 payload framed as
 * nonce ‖ tag ‖ ciphertext. AES in EAX mode, base64 and UTF-8 are library
 * code; they enter as a `Primitives` record whose round trips are stated by
 * `Sound`.
 */
module CryptoUtils {
  import opened Base

  const KeySize: nat := 32
  const NonceSize: nat := 16
  const TagSize: nat := 16

  /** The `AES_SECRET` setting: absent, a `str`, or `bytes`. */
  datatype SecretSetting = Unset | StrSecret(s: string) | BytesSecret(b: Bytes)

  /** What `encrypt_data` and `decrypt_data` can raise. */
  datatype CryptoError =
    | SecretMissing   // RuntimeError("AES_SECRET not set in settings")
    | BadBase64       // binascii.Error from b64decode
    | EmptyNonce      // ValueError: EAX refuses an empty nonce
    | MacCheckFailed  // ValueError from decrypt_and_verify
    | BadUtf8         // UnicodeDecodeError

  /** An authenticated encryption: the ciphertext and its tag. */
  datatype Sealed = Sealed(ciphertext: Bytes, tag: Bytes)

  /** The library functions the module calls. */
  datatype Primitives = Primitives(
    utf8Encode: string -> Bytes,
    utf8Decode: Bytes -> Option<string>,
    seal: (Bytes, Bytes, Bytes) -> Sealed,                 // key, nonce, plaintext
    open: (Bytes, Bytes, Bytes, Bytes) -> Option<Bytes>,   // key, nonce, ciphertext, tag
    b64Encode: Bytes -> string,
    b64Decode: string -> Option<Bytes>)

  /**
   * The contracts of the libraries: UTF-8 and base64 decode what they
   * encode, base64 writes at least one character for a non-empty input,
   * EAX produces a 16-byte tag and opens what it sealed under the
   * same key and nonce.
   */
  ghost predicate Sound(p: Primitives) {
    (forall s :: p.utf8Decode(p.utf8Encode(s)) == Some(s)) &&
    (forall b :: p.b64Decode(p.b64Encode(b)) == Some(b)) &&
    (forall b :: b != [] ==> p.b64Encode(b) != "") &&
    (forall key, nonce, pt :: |p.seal(key, nonce, pt).tag| == TagSize) &&
    (forall key, nonce, pt ::
       p.open(key, nonce, p.seal(key, nonce, pt).ciphertext, p.seal(key, nonce, pt).tag) == Some(pt))
  }

  function Zeros(n: nat): (r: Bytes)
    ensures |r| == n && forall i :: 0 <= i < n ==> r[i] == 0
  {
    seq(n, _ => 0)
  }

  /** The secret as bytes, if it is set and truthy (`secret.encode()` for a `str`). */
  function SecretBytes(p: Primitives, setting: SecretSetting): Option<Bytes> {
    match setting
    case Unset => None
    case StrSecret(s) => if s == "" then None else Some(p.utf8Encode(s))
    case BytesSecret(b) => if b == [] then None else Some(b)
  }

  /**
   * `_get_secret`: a missing or empty secret is an error; otherwise the
   * secret bytes are right-padded with zero bytes and cut to 32.
   */
  function DeriveKey(p: Primitives, setting: SecretSetting): (r: Result<Bytes, CryptoError>)
    ensures SecretBytes(p, setting).None? <==> r == Err(SecretMissing)
    ensures r.Ok? ==> |r.value| == KeySize
    ensures r.Ok? && |SecretBytes(p, setting).value| <= KeySize ==>
              var b := SecretBytes(p, setting).value;
              r.value[..|b|] == b && forall i :: |b| <= i < KeySize ==> r.value[i] == 0
    ensures r.Ok? && |SecretBytes(p, setting).value| > KeySize ==>
              r.value == SecretBytes(p, setting).value[..KeySize]
  {
    match SecretBytes(p, setting)
    case None => Err(SecretMissing)
    case Some(b) =>
      var padded := if |b| < KeySize then b + Zeros(KeySize - |b|) else b;
      assert |b| <= KeySize ==> padded[..|b|] == b;
      Ok(padded[..KeySize])
  }

  /** Secrets that agree on their first 32 bytes derive the same key. */
  lemma LongSecretsTruncate(p: Primitives, b1: Bytes, b2: Bytes)
    requires |b1| >= KeySize && |b2| >= KeySize && b1[..KeySize] == b2[..KeySize]
    ensures DeriveKey(p, BytesSecret(b1)) == DeriveKey(p, BytesSecret(b2))
  {
  }

  /** `cipher.nonce + tag + ciphertext`. */
  function Frame(nonce: Bytes, tag: Bytes, ciphertext: Bytes): Bytes {
    nonce + tag + ciphertext
  }

  function Min(a: nat, b: nat): nat { if a <= b then a else b }

  /** `data[:16], data[16:32], data[32:]`, with Python's clamping of slice bounds. */
  function Split(data: Bytes): (r: (Bytes, Bytes, Bytes))
    ensures |r.0| == Min(NonceSize, |data|)
    ensures |r.1| == Min(NonceSize + TagSize, |data|) - Min(NonceSize, |data|)
  {
    var a := Min(NonceSize, |data|);
    var b := Min(NonceSize + TagSize, |data|);
    (data[..a], data[a..b], data[b..])
  }

  /** Splitting a frame whose nonce and tag have 16 bytes each recovers the three parts. */
  lemma SplitFrame(nonce: Bytes, tag: Bytes, ciphertext: Bytes)
    requires |nonce| == NonceSize && |tag| == TagSize
    ensures Split(Frame(nonce, tag, ciphertext)) == (nonce, tag, ciphertext)
  {
    var data := Frame(nonce, tag, ciphertext);
    assert data[..NonceSize] == nonce;
    assert data[NonceSize..NonceSize + TagSize] == tag;
    assert data[NonceSize + TagSize..] == ciphertext;
  }

  /** Conversely, every byte string is the frame of its three slices. */
  lemma FrameSplit(data: Bytes)
    ensures Frame(Split(data).0, Split(data).1, Split(data).2) == data
  {
    var (n, t, c) := Split(data);
    assert n + t + c == data;
  }

  /**
   * `encrypt_data`: UTF-8 encode, seal under the derived key and a fresh
   * nonce (the random 16 bytes EAX draws become a parameter), frame and
   * base64 encode.
   */
  function EncryptData(p: Primitives, setting: SecretSetting, nonce: Bytes, raw: string): (r: Result<string, CryptoError>)
    requires |nonce| == NonceSize
    ensures r.Err? <==> DeriveKey(p, setting).Err?
    ensures r.Ok? ==>
              var sealed := p.seal(DeriveKey(p, setting).value, nonce, p.utf8Encode(raw));
              r.value == p.b64Encode(Frame(nonce, sealed.tag, sealed.ciphertext))
  {
    match DeriveKey(p, setting)
    case Err(e) => Err(e)
    case Ok(key) =>
      var sealed := p.seal(key, nonce, p.utf8Encode(raw));
      Ok(p.b64Encode(Frame(nonce, sealed.tag, sealed.ciphertext)))
  }

  /**
   * `decrypt_data`: base64 decode, split at 16 and 32, open with the derived
   * key and verify the tag, UTF-8 decode. Each step may raise.
   */
  function DecryptData(p: Primitives, setting: SecretSetting, enc: string): (r: Result<string, CryptoError>)
    ensures SecretBytes(p, setting).None? ==> r == Err(SecretMissing)
    ensures SecretBytes(p, setting).Some? && p.b64Decode(enc).None? ==> r == Err(BadBase64)
    ensures SecretBytes(p, setting).Some? && p.b64Decode(enc) == Some([]) ==> r == Err(EmptyNonce)
    ensures r.Ok? ==>
              DeriveKey(p, setting).Ok? && p.b64Decode(enc).Some? &&
              var (nonce, tag, ciphertext) := Split(p.b64Decode(enc).value);
              var pt := p.open(DeriveKey(p, setting).value, nonce, ciphertext, tag);
              nonce != [] && pt.Some? && p.utf8Decode(pt.value) == Some(r.value)
  {
    match DeriveKey(p, setting)
    case Err(e) => Err(e)
    case Ok(key) =>
      match p.b64Decode(enc)
      case None => Err(BadBase64)
      case Some(data) =>
        var (nonce, tag, ciphertext) := Split(data);
        if nonce == [] then Err(EmptyNonce)
        else
          match p.open(key, nonce, ciphertext, tag)
          case None => Err(MacCheckFailed)
          case Some(pt) =>
            match p.utf8Decode(pt)
            case None => Err(BadUtf8)
            case Some(s) => Ok(s)
  }

  /** `decrypt_data(encrypt_data(s)) == s` under the same secret. */
  lemma DecryptEncrypt(p: Primitives, setting: SecretSetting, nonce: Bytes, raw: string)
    requires Sound(p) && |nonce| == NonceSize
    requires DeriveKey(p, setting).Ok?
    ensures EncryptData(p, setting, nonce, raw).Ok? && EncryptData(p, setting, nonce, raw).value != ""
    ensures DecryptData(p, setting, EncryptData(p, setting, nonce, raw).value) == Ok(raw)
  {
    var key := DeriveKey(p, setting).value;
    var pt := p.utf8Encode(raw);
    var sealed := p.seal(key, nonce, pt);
    var data := Frame(nonce, sealed.tag, sealed.ciphertext);
    assert p.b64Decode(p.b64Encode(data)) == Some(data);
    assert data != [] && p.b64Encode(data) != "";
    assert |sealed.tag| == TagSize;
    SplitFrame(nonce, sealed.tag, sealed.ciphertext);
    assert p.open(key, nonce, sealed.ciphertext, sealed.tag) == Some(pt);
    assert p.utf8Decode(pt) == Some(raw);
  }
}
