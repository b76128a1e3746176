/**
 * Key management (section 4 of RFC 7518): deriving the content encryption key
 * and wrapping or unwrapping it. Only direct use of a shared symmetric key
 * (section 4.5) and AES-GCM key wrapping with 128- or 256-bit keys (section
 * 4.7) are implemented; every other algorithm is recognised but unsupported.
 */
module KeyManagement {
  import opened Base
  import opened Errors
  import opened Catalog
  import opened Jwk
  import opened Ring
  import Gcm
  import ContentEncryption

  /** The AEAD algorithm that wraps keys, for the key-wrap algorithms implemented. */
  function WrapAlgorithm(alg: KeyManagementAlgorithm): Option<AeadAlgorithm> {
    match alg
    case A128GCMKW => Some(AES_128_GCM)
    case A256GCMKW => Some(AES_256_GCM)
    case _ => Option.None
  }

  /** Every implemented wrap algorithm is a symmetric key wrap. */
  lemma WrapAlgorithmsAreSymmetric(alg: KeyManagementAlgorithm)
    ensures WrapAlgorithm(alg).Some? ==> AlgorithmType(alg) == SymmetricKeyWrapping
    ensures WrapAlgorithm(alg).Some? <==> alg.A128GCMKW? || alg.A256GCMKW?
  {
  }

  /** A content encryption key as handed out: an octet key for encryption with `contentAlg`. */
  function ContentEncryptionKey(value: seq<byte>, contentAlg: ContentEncryptionAlgorithm): (key: Jwk<Empty>)
    ensures OctetKeyBytes(key.algorithm) == Ok(value)
    ensures key.common.publicKeyUse == Some(Encryption)
    ensures key.common.algorithm == Some(Algorithm.ContentEncryption(contentAlg))
  {
    Jwk(CommonParameters(Some(Encryption), Some(Algorithm.ContentEncryption(contentAlg)), Option.None),
        OctetKey(value), Empty)
  }

  /** With `dir` the shared key is the content encryption key; it must be an octet key. */
  function CekDirect<T>(key: Jwk<T>): (r: Result<Jwk<Empty>>)
    ensures r.Ok? <==> KeyTypeOf(key.algorithm) == Octet
    ensures r.Ok? ==> r.value == CloneWithoutAdditional(key)
    ensures r.Ok? ==> OctetKeyBytes(r.value.algorithm) == OctetKeyBytes(key.algorithm)
    ensures r.Err? ==> r.error == WrongKeyType(Octet, KeyTypeOf(key.algorithm))
  {
    match KeyTypeOf(key.algorithm)
    case Octet => Ok(CloneWithoutAdditional(key))
    case others => Err(WrongKeyType(Octet, others))
  }

  /**
   * The outcome of deriving a fresh key for `contentAlg`: unsupported content
   * algorithms draw nothing; a success is a key made of exactly one fresh draw
   * of the content algorithm's key length.
   */
  ghost predicate FreshCekOutcome(contentAlg: ContentEncryptionAlgorithm, r: Result<Jwk<Empty>>,
                                  before: seq<seq<byte>>, after: seq<seq<byte>>)
  {
    match ContentEncryption.KeyLength(contentAlg)
    case None => r == Err(UnsupportedOperation) && after == before
    case Some(length) =>
      match r
      case Ok(key) =>
        && key.algorithm.OctetKey?
        && |key.algorithm.value| == length
        && key == ContentEncryptionKey(key.algorithm.value, contentAlg)
        && after == before + [key.algorithm.value]
      case Err(e) => e == UnspecifiedCryptographicError && after == before
  }

  /** A fresh content encryption key, independent of the management key. */
  method CekAesGcm(rng: Rng, contentAlg: ContentEncryptionAlgorithm) returns (r: Result<Jwk<Empty>>)
    modifies rng
    ensures FreshCekOutcome(contentAlg, r, old(rng.drawn), rng.drawn)
  {
    var key :- ContentEncryption.GenerateKey(rng, contentAlg);
    r := Ok(ContentEncryptionKey(key, contentAlg));
  }

  /** The content encryption key to use with `alg`, `contentAlg` and the management key. */
  method Cek<T>(rng: Rng, alg: KeyManagementAlgorithm, contentAlg: ContentEncryptionAlgorithm, key: Jwk<T>)
    returns (r: Result<Jwk<Empty>>)
    modifies rng
    ensures alg.DirectSymmetricKey? ==> r == CekDirect(key) && rng.drawn == old(rng.drawn)
    ensures WrapAlgorithm(alg).Some? ==> FreshCekOutcome(contentAlg, r, old(rng.drawn), rng.drawn)
    ensures !alg.DirectSymmetricKey? && WrapAlgorithm(alg).None? ==>
      r == Err(UnsupportedOperation) && rng.drawn == old(rng.drawn)
  {
    match alg {
      case DirectSymmetricKey => r := CekDirect(key);
      case A128GCMKW | A256GCMKW => r := CekAesGcm(rng, contentAlg);
      case _ => r := Err(UnsupportedOperation);
    }
  }

  /** Wraps `payload` (a content encryption key) under `key`; `dir` has nothing to wrap. */
  method Encrypt<T>(ring: Primitives, rng: Rng, alg: KeyManagementAlgorithm, payload: seq<byte>, key: Jwk<T>)
    returns (r: Result<Gcm.EncryptionResult>)
    requires SealKeepsShape(ring)
    modifies rng
    ensures alg.DirectSymmetricKey? ==> r == Ok(Gcm.EMPTY_ENCRYPTION_RESULT) && rng.drawn == old(rng.drawn)
    ensures WrapAlgorithm(alg).Some? ==>
      Gcm.EncryptOutcome(ring, WrapAlgorithm(alg).value, payload, [], key, r, old(rng.drawn), rng.drawn)
    ensures !alg.DirectSymmetricKey? && WrapAlgorithm(alg).None? ==>
      r == Err(UnsupportedOperation) && rng.drawn == old(rng.drawn)
  {
    match alg {
      case A128GCMKW | A192GCMKW | A256GCMKW => r := AesGcmEncrypt(ring, rng, alg, payload, key);
      case DirectSymmetricKey => r := Ok(Gcm.EMPTY_ENCRYPTION_RESULT);
      case _ => r := Err(UnsupportedOperation);
    }
  }

  /** An unwrapped key, tagged with the content algorithm it is for. */
  function AsContentKey(unwrapped: Result<seq<byte>>, contentAlg: ContentEncryptionAlgorithm)
    : (r: Result<Jwk<Empty>>)
    ensures r.Ok? <==> unwrapped.Ok?
    ensures r.Ok? ==>
      && OctetKeyBytes(r.value.algorithm) == unwrapped
      && r.value.common.publicKeyUse == Some(Encryption)
      && r.value.common.algorithm == Some(Algorithm.ContentEncryption(contentAlg))
    ensures r.Err? ==> r.error == unwrapped.error
  {
    match unwrapped
    case Ok(cek) => Ok(ContentEncryptionKey(cek, contentAlg))
    case Err(e) => Err(e)
  }

  /**
   * Unwraps a content encryption key; with `dir` the management key itself is
   * returned, whatever its type.
   */
  method Decrypt<T>(ring: Primitives, alg: KeyManagementAlgorithm, encrypted: Gcm.EncryptionResult,
                    contentAlg: ContentEncryptionAlgorithm, key: Jwk<T>) returns (r: Result<Jwk<Empty>>)
    ensures alg.DirectSymmetricKey? ==> r == Ok(CloneWithoutAdditional(key))
    ensures WrapAlgorithm(alg).Some? ==>
      r == AsContentKey(Gcm.Opened(ring, WrapAlgorithm(alg).value, encrypted, key), contentAlg)
    ensures !alg.DirectSymmetricKey? && WrapAlgorithm(alg).None? ==> r == Err(UnsupportedOperation)
  {
    match alg {
      case A128GCMKW | A192GCMKW | A256GCMKW => r := AesGcmDecrypt(ring, alg, encrypted, contentAlg, key);
      case DirectSymmetricKey => r := Ok(CloneWithoutAdditional(key));
      case _ => r := Err(UnsupportedOperation);
    }
  }

  /** Wraps with empty additional data; A192GCMKW is rejected here. */
  method AesGcmEncrypt<T>(ring: Primitives, rng: Rng, alg: KeyManagementAlgorithm, payload: seq<byte>,
                          key: Jwk<T>) returns (r: Result<Gcm.EncryptionResult>)
    requires SealKeepsShape(ring)
    modifies rng
    ensures WrapAlgorithm(alg).None? ==> r == Err(UnsupportedOperation) && rng.drawn == old(rng.drawn)
    ensures WrapAlgorithm(alg).Some? ==>
      Gcm.EncryptOutcome(ring, WrapAlgorithm(alg).value, payload, [], key, r, old(rng.drawn), rng.drawn)
  {
    var algorithm: AeadAlgorithm;
    match alg {
      case A128GCMKW => algorithm := AES_128_GCM;
      case A256GCMKW => algorithm := AES_256_GCM;
      case _ => return Err(UnsupportedOperation);
    }
    r := Gcm.AesGcmEncrypt(ring, rng, algorithm, payload, [], key);
  }

  /** Unwraps and tags the key with `contentAlg`; A192GCMKW is rejected here. */
  method AesGcmDecrypt<T>(ring: Primitives, alg: KeyManagementAlgorithm, encrypted: Gcm.EncryptionResult,
                          contentAlg: ContentEncryptionAlgorithm, key: Jwk<T>) returns (r: Result<Jwk<Empty>>)
    ensures WrapAlgorithm(alg).None? ==> r == Err(UnsupportedOperation)
    ensures WrapAlgorithm(alg).Some? ==>
      r == AsContentKey(Gcm.Opened(ring, WrapAlgorithm(alg).value, encrypted, key), contentAlg)
  {
    var algorithm: AeadAlgorithm;
    match alg {
      case A128GCMKW => algorithm := AES_128_GCM;
      case A256GCMKW => algorithm := AES_256_GCM;
      case _ => return Err(UnsupportedOperation);
    }
    var cek :- Gcm.AesGcmDecrypt(ring, algorithm, encrypted, key);
    r := Ok(ContentEncryptionKey(cek, contentAlg));
  }

  /**
   * Unwrapping what an AES-GCM key wrap produced, under the same management
   * key, yields the wrapped bytes as a content encryption key for `contentAlg`.
   */
  lemma {:induction false} UnwrapInvertsWrap<T>(ring: Primitives, alg: KeyManagementAlgorithm,
                                                contentAlg: ContentEncryptionAlgorithm, cek: seq<byte>, key: Jwk<T>,
                                                wrapped: Result<Gcm.EncryptionResult>,
                                                before: seq<seq<byte>>, after: seq<seq<byte>>)
    requires SealKeepsShape(ring) && OpenInvertsSeal(ring)
    requires WrapAlgorithm(alg).Some?
    requires Gcm.EncryptOutcome(ring, WrapAlgorithm(alg).value, cek, [], key, wrapped, before, after)
    requires wrapped.Ok?
    ensures AsContentKey(Gcm.Opened(ring, WrapAlgorithm(alg).value, wrapped.value, key), contentAlg)
            == Ok(ContentEncryptionKey(cek, contentAlg))
  {
    Gcm.OpenedInvertsSealed(ring, WrapAlgorithm(alg).value, cek, [], key, wrapped, before, after);
  }

  /**
   * Deriving a content encryption key, wrapping it and unwrapping the result
   * under the same management key gives back the key that was derived, for
   * `dir` and for both AES-GCM key wraps.
   */
  method CekWrapUnwrap<T>(ring: Primitives, rng: Rng, alg: KeyManagementAlgorithm,
                          contentAlg: ContentEncryptionAlgorithm, key: Jwk<T>)
    returns (cek: Result<Jwk<Empty>>, wrapped: Option<Result<Gcm.EncryptionResult>>,
             unwrapped: Option<Result<Jwk<Empty>>>)
    requires SealKeepsShape(ring) && OpenInvertsSeal(ring)
    modifies rng
    ensures cek.Ok? ==> wrapped.Some?
    ensures cek.Ok? && wrapped.value.Ok? ==> unwrapped == Some(cek)
  {
    cek := Cek(rng, alg, contentAlg, key);
    if cek.Err? {
      return cek, Option.None, Option.None;
    }
    var cekBytes := cek.value.algorithm.value;
    ghost var before := rng.drawn;
    var encrypted := Encrypt(ring, rng, alg, cekBytes, key);
    wrapped := Some(encrypted);
    if encrypted.Err? {
      return cek, wrapped, Option.None;
    }
    var decrypted := Decrypt(ring, alg, encrypted.value, contentAlg, key);
    if WrapAlgorithm(alg).Some? {
      UnwrapInvertsWrap(ring, alg, contentAlg, cekBytes, key, encrypted, before, rng.drawn);
    }
    unwrapped := Some(decrypted);
  }
}
