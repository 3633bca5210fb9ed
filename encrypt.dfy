/// Field-level encryption of stored values (car_api/src/encrypt.rs).
///
/// A value is encrypted with AES-256-GCM under a 32-byte key derived by
/// PBKDF2-HMAC-SHA512 (section 5.2 of RFC 8018, 10000 iterations) from the
/// `ENCRYPTION_SECRET` environment variable and a fresh 64-byte salt; the
/// stored text is the base64 of salt ++ iv ++ tag ++ ciphertext.
module Encrypt {
  import opened Common
  import opened Errors

  const IV_LENGTH: nat := 16
  const SALT_LENGTH: nat := 64
  const TAG_LENGTH: nat := 16
  const TAG_POSITION: nat := SALT_LENGTH + IV_LENGTH
  const ENCRYPTED_POSITION: nat := TAG_POSITION + TAG_LENGTH
  const KEY_LENGTH: nat := 32
  const PBKDF2_ITERATIONS: nat := 10000

  const MISSING_SECRET := "failed to find ENCRYPTION_SECRET in env"
  const SLICE_PANIC := "range end index out of range for slice"
  const BASE64_FAILURE := "base64 decode_block failed"
  const AEAD_FAILURE := "decrypt_aead failed"

  /// The process environment, as far as this module reads it.
  datatype Env = Env(encryptionSecret: Option<string>)

  /// Ciphertext and authentication tag produced by `encrypt_aead`.
  datatype Sealed = Sealed(ciphertext: seq<byte>, tag: seq<byte>)

  /// The foreign functions the module calls, as values: OpenSSL's PBKDF2
  /// (password, salt, iterations, key length), AES-256-GCM sealing (key, iv,
  /// plaintext) and opening (key, iv, ciphertext, tag), the base64 codec,
  /// and the UTF-8 views of a string (`as_bytes`, `from_utf8_lossy`).
  datatype Primitives = Primitives(
    pbkdf2HmacSha512: (seq<byte>, seq<byte>, nat, nat) -> seq<byte>,
    encryptAead: (seq<byte>, seq<byte>, seq<byte>) -> Sealed,
    decryptAead: (seq<byte>, seq<byte>, seq<byte>, seq<byte>) -> Option<seq<byte>>,
    encodeBlock: seq<byte> -> string,
    decodeBlock: string -> Option<seq<byte>>,
    asBytes: string -> seq<byte>,
    fromUtf8Lossy: seq<byte> -> string)

  /// What the model relies on about the primitives: PBKDF2 yields as many
  /// bytes as asked for, GCM tags are 16 bytes and opening inverts sealing
  /// under the same key and iv, base64 decoding inverts encoding, and
  /// decoding the UTF-8 bytes of a string gives the string back.
  ghost predicate Lawful(p: Primitives)
  {
    (forall pass, salt, n, len :: |p.pbkdf2HmacSha512(pass, salt, n, len)| == len) &&
    (forall key, iv, text :: |p.encryptAead(key, iv, text).tag| == TAG_LENGTH) &&
    (forall key, iv, text ::
       p.decryptAead(key, iv, p.encryptAead(key, iv, text).ciphertext, p.encryptAead(key, iv, text).tag)
       == Some(text)) &&
    (forall bytes :: p.decodeBlock(p.encodeBlock(bytes)) == Some(bytes)) &&
    (forall s :: p.fromUtf8Lossy(p.asBytes(s)) == s)
  }

  /// The key `get_key` writes for a secret, a salt and a key buffer length.
  function DeriveKey(p: Primitives, secret: string, salt: seq<byte>, len: nat): (key: seq<byte>)
    requires Lawful(p)
    ensures |key| == len
  {
    p.pbkdf2HmacSha512(p.asBytes(secret), salt, PBKDF2_ITERATIONS, len)
  }

  /// `get_key`: fills `key` with the PBKDF2 output for the configured
  /// secret and `salt`. It panics when the secret is unset; here that is a
  /// precondition, which every caller below discharges.
  method GetKey(env: Env, p: Primitives, salt: seq<byte>, key: array<byte>)
    requires Lawful(p)
    requires env.encryptionSecret.Some?
    modifies key
    ensures key[..] == DeriveKey(p, env.encryptionSecret.value, salt, key.Length)
  {
    var pass := env.encryptionSecret.value;
    var derived := DeriveKey(p, pass, salt, key.Length);
    forall i | 0 <= i < key.Length {
      key[i] := derived[i];
    }
  }

  /// `rand_bytes`: overwrites `buf` with bytes from the random source,
  /// which the model receives as `entropy`.
  method RandBytes(buf: array<byte>, entropy: seq<byte>)
    requires |entropy| == buf.Length
    modifies buf
    ensures buf[..] == entropy
  {
    forall i | 0 <= i < buf.Length {
      buf[i] := entropy[i];
    }
  }

  /// `encrypt_aead` with no associated data: returns the ciphertext and
  /// writes the authentication tag into `tag`.
  method EncryptAead(p: Primitives, key: seq<byte>, iv: seq<byte>, text: seq<byte>, tag: array<byte>)
    returns (ciphertext: seq<byte>)
    requires Lawful(p)
    requires tag.Length == TAG_LENGTH
    modifies tag
    ensures tag[..] == p.encryptAead(key, iv, text).tag
    ensures ciphertext == p.encryptAead(key, iv, text).ciphertext
  {
    var sealed := p.encryptAead(key, iv, text);
    forall i | 0 <= i < tag.Length {
      tag[i] := sealed.tag[i];
    }
    ciphertext := sealed.ciphertext;
  }

  /// The four fields of a stored blob.
  datatype Frame = Frame(salt: seq<byte>, iv: seq<byte>, tag: seq<byte>, encrypted: seq<byte>)

  predicate WellFormed(f: Frame)
  {
    |f.salt| == SALT_LENGTH && |f.iv| == IV_LENGTH && |f.tag| == TAG_LENGTH
  }

  /// `[salt, iv, tag, encrypted].concat()`.
  function Concat(f: Frame): (blob: seq<byte>)
    ensures |blob| == |f.salt| + |f.iv| + |f.tag| + |f.encrypted|
  {
    f.salt + f.iv + f.tag + f.encrypted
  }

  /// The fixed-offset slices of `decrypt`; defined only when none of them
  /// is out of range.
  function Split(blob: seq<byte>): (f: Frame)
    requires |blob| >= ENCRYPTED_POSITION
    ensures WellFormed(f)
  {
    Frame(blob[0..SALT_LENGTH], blob[SALT_LENGTH..TAG_POSITION],
          blob[TAG_POSITION..ENCRYPTED_POSITION], blob[ENCRYPTED_POSITION..])
  }

  /// Splitting recovers the fields of any well-formed concatenation ...
  lemma SplitConcat(f: Frame)
    requires WellFormed(f)
    ensures |Concat(f)| >= ENCRYPTED_POSITION
    ensures Split(Concat(f)) == f
  {
    var blob := Concat(f);
    assert blob[0..SALT_LENGTH] == f.salt;
    assert blob[SALT_LENGTH..TAG_POSITION] == f.iv;
    assert blob[TAG_POSITION..ENCRYPTED_POSITION] == f.tag;
    assert blob[ENCRYPTED_POSITION..] == f.encrypted;
  }

  /// ... and concatenating the slices gives back any long enough blob.
  lemma ConcatSplit(blob: seq<byte>)
    requires |blob| >= ENCRYPTED_POSITION
    ensures Concat(Split(blob)) == blob
  {
    var f := Split(blob);
    assert blob == blob[0..SALT_LENGTH] + blob[SALT_LENGTH..TAG_POSITION]
                   + blob[TAG_POSITION..ENCRYPTED_POSITION] + blob[ENCRYPTED_POSITION..];
  }

  /// The blob `encrypt` produces for `text` under `secret`, `salt` and `iv`.
  function SealedBlob(p: Primitives, secret: string, salt: seq<byte>, iv: seq<byte>, text: seq<byte>): (blob: string)
    requires Lawful(p)
  {
    var sealed := p.encryptAead(DeriveKey(p, secret, salt, KEY_LENGTH), iv, text);
    p.encodeBlock(Concat(Frame(salt, iv, sealed.tag, sealed.ciphertext)))
  }

  /// `encrypt`: fills a 16-byte iv and a 64-byte salt from the random
  /// source, derives a 32-byte key, seals `text` (the tag is written into a
  /// 16-byte buffer) and returns the base64 of salt ++ iv ++ tag ++ ciphertext.
  method Encrypt(env: Env, p: Primitives, text: seq<byte>, ivEntropy: seq<byte>, saltEntropy: seq<byte>)
    returns (r: Result<string>)
    requires Lawful(p)
    requires env.encryptionSecret.Some?
    requires |ivEntropy| == IV_LENGTH && |saltEntropy| == SALT_LENGTH
    ensures r == Ok(SealedBlob(p, env.encryptionSecret.value, saltEntropy, ivEntropy, text))
  {
    var tag := new byte[TAG_LENGTH](_ => 0);
    var iv := new byte[IV_LENGTH](_ => 0);
    RandBytes(iv, ivEntropy);
    var salt := new byte[SALT_LENGTH](_ => 0);
    RandBytes(salt, saltEntropy);
    var key := new byte[KEY_LENGTH](_ => 0);
    GetKey(env, p, salt[..], key);

    var encrypted := EncryptAead(p, key[..], iv[..], text, tag);

    r := Ok(p.encodeBlock(Concat(Frame(salt[..], iv[..], tag[..], encrypted))));
  }

  /// `encrypt_data`: refuses with a 409 `Conflict` when the secret is
  /// unset, and otherwise encrypts the UTF-8 bytes of `data`.
  method EncryptData(env: Env, p: Primitives, data: string, ivEntropy: seq<byte>, saltEntropy: seq<byte>)
    returns (r: Result<string>)
    requires Lawful(p)
    requires |ivEntropy| == IV_LENGTH && |saltEntropy| == SALT_LENGTH
    ensures env.encryptionSecret.None? ==> r == Err(Conflict(MISSING_SECRET))
    ensures env.encryptionSecret.None? ==> StatusCode(r.error) == CONFLICT
    ensures env.encryptionSecret.Some? ==>
      r == Ok(SealedBlob(p, env.encryptionSecret.value, saltEntropy, ivEntropy, p.asBytes(data)))
  {
    match env.encryptionSecret {
      case Some(_) =>
        r := Encrypt(env, p, p.asBytes(data), ivEntropy, saltEntropy);
      case None =>
        r := Err(Conflict(MISSING_SECRET));
    }
  }

  /// What `decrypt` and `decrypt_data` do: return, or panic (the slices of
  /// a decoded blob shorter than 96 bytes are out of range).
  datatype Outcome = Returned(result: Result<string>) | Panicked(message: string)

  /// `decode`: a base64 failure becomes `Error::Openssl`.
  function Decode(p: Primitives, text: string): (r: Result<seq<byte>>)
    ensures r.Err? <==> p.decodeBlock(text).None?
    ensures r.Err? ==> r.error.Openssl?
    ensures r.Ok? ==> Some(r.value) == p.decodeBlock(text)
  {
    match p.decodeBlock(text)
    case Some(val) => Ok(val)
    case None => Err(Openssl(BASE64_FAILURE))
  }

  /// `decrypt`: decodes, slices at the fixed offsets 64, 80 and 96,
  /// re-derives the key from the embedded salt and opens the ciphertext.
  function Decrypt(env: Env, p: Primitives, text: string): (r: Outcome)
    requires Lawful(p)
    requires env.encryptionSecret.Some?
    ensures r.Panicked? <==> Decode(p, text).Ok? && |Decode(p, text).value| < ENCRYPTED_POSITION
    ensures r.Returned? && r.result.Err? ==> r.result.error.Openssl?
  {
    match Decode(p, text)
    case Err(e) => Returned(Err(e))
    case Ok(ciphertext) =>
      if |ciphertext| < ENCRYPTED_POSITION then Panicked(SLICE_PANIC)
      else
        var f := Split(ciphertext);
        var key := DeriveKey(p, env.encryptionSecret.value, f.salt, KEY_LENGTH);
        match p.decryptAead(key, f.iv, f.encrypted, f.tag)
        case None => Returned(Err(Openssl(AEAD_FAILURE)))
        case Some(value) => Returned(Ok(p.fromUtf8Lossy(value)))
  }

  /// `decrypt_data`: decrypts when the secret is set and otherwise hands
  /// the stored value back unchanged.
  function DecryptData(env: Env, p: Primitives, value: string): (r: Outcome)
    requires Lawful(p)
    ensures env.encryptionSecret.None? ==> r == Returned(Ok(value))
  {
    match env.encryptionSecret
    case Some(_) => Decrypt(env, p, value)
    case None => Returned(Ok(value))
  }

  /// `decrypt` uses the key `encrypt` used: it re-derives it from the salt
  /// at the head of the blob, which is the salt `encrypt` drew.
  lemma {:induction false} DecryptRederivesKey(p: Primitives, secret: string, salt: seq<byte>, iv: seq<byte>, text: seq<byte>)
    requires Lawful(p)
    requires |salt| == SALT_LENGTH && |iv| == IV_LENGTH
    ensures Decode(p, SealedBlob(p, secret, salt, iv, text)).Ok?
    ensures |Decode(p, SealedBlob(p, secret, salt, iv, text)).value| >= ENCRYPTED_POSITION
    ensures DeriveKey(p, secret, Split(Decode(p, SealedBlob(p, secret, salt, iv, text)).value).salt, KEY_LENGTH)
         == DeriveKey(p, secret, salt, KEY_LENGTH)
  {
    var sealed := p.encryptAead(DeriveKey(p, secret, salt, KEY_LENGTH), iv, text);
    var f := Frame(salt, iv, sealed.tag, sealed.ciphertext);
    SplitConcat(f);
  }

  /// The round trip: with the secret set, decrypting what `encrypt_data`
  /// stored for `s` gives back `s` and never panics.
  lemma {:induction false} DecryptDataInvertsEncryptData(env: Env, p: Primitives, s: string, salt: seq<byte>, iv: seq<byte>)
    requires Lawful(p)
    requires env.encryptionSecret.Some?
    requires |salt| == SALT_LENGTH && |iv| == IV_LENGTH
    ensures DecryptData(env, p, SealedBlob(p, env.encryptionSecret.value, salt, iv, p.asBytes(s))) == Returned(Ok(s))
  {
    var secret := env.encryptionSecret.value;
    var key := DeriveKey(p, secret, salt, KEY_LENGTH);
    var sealed := p.encryptAead(key, iv, p.asBytes(s));
    var f := Frame(salt, iv, sealed.tag, sealed.ciphertext);
    SplitConcat(f);
    assert p.decryptAead(key, iv, sealed.ciphertext, sealed.tag) == Some(p.asBytes(s));
  }

  /// Two encryptions that drew a different salt or iv store different
  /// blobs, whatever the secret and the plaintexts.
  lemma {:induction false} FreshRandomnessGivesFreshBlob(p: Primitives, secret1: string, secret2: string,
                                                          salt1: seq<byte>, iv1: seq<byte>, text1: seq<byte>,
                                                          salt2: seq<byte>, iv2: seq<byte>, text2: seq<byte>)
    requires Lawful(p)
    requires |salt1| == SALT_LENGTH && |iv1| == IV_LENGTH
    requires |salt2| == SALT_LENGTH && |iv2| == IV_LENGTH
    requires salt1 != salt2 || iv1 != iv2
    ensures SealedBlob(p, secret1, salt1, iv1, text1) != SealedBlob(p, secret2, salt2, iv2, text2)
  {
    var sealed1 := p.encryptAead(DeriveKey(p, secret1, salt1, KEY_LENGTH), iv1, text1);
    var sealed2 := p.encryptAead(DeriveKey(p, secret2, salt2, KEY_LENGTH), iv2, text2);
    var f1 := Frame(salt1, iv1, sealed1.tag, sealed1.ciphertext);
    var f2 := Frame(salt2, iv2, sealed2.tag, sealed2.ciphertext);
    SplitConcat(f1);
    SplitConcat(f2);
    assert p.decodeBlock(SealedBlob(p, secret1, salt1, iv1, text1)) == Some(Concat(f1));
    assert p.decodeBlock(SealedBlob(p, secret2, salt2, iv2, text2)) == Some(Concat(f2));
  }
}
