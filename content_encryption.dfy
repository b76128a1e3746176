/**
 * Content encryption (section 5 of RFC 7518): key generation, encryption and
 * decryption for each content-encryption algorithm. Only A128GCM and A256GCM
 * are implemented; A192GCM and the three CBC-HMAC algorithms are recognised
 * but unsupported.
 */
module ContentEncryption {
  import opened Base
  import opened Errors
  import opened Catalog
  import opened Jwk
  import opened Ring
  import Gcm

  /** Length of a generated key: 16 bytes for A128GCM, 32 for A256GCM, none otherwise. */
  function KeyLength(alg: ContentEncryptionAlgorithm): Option<nat> {
    match alg
    case A128GCM => Some(128 / 8)
    case A256GCM => Some(256 / 8)
    case _ => Option.None
  }

  /** The AEAD algorithm behind a content algorithm, for the ones implemented. */
  function GcmAlgorithm(alg: ContentEncryptionAlgorithm): Option<AeadAlgorithm> {
    match alg
    case A128GCM => Some(AES_128_GCM)
    case A256GCM => Some(AES_256_GCM)
    case _ => Option.None
  }

  /**
   * Exactly the algorithms that can encrypt can generate a key, and a generated
   * key has the length their sealing key constructor accepts.
   */
  lemma GeneratedKeysFit(alg: ContentEncryptionAlgorithm)
    ensures KeyLength(alg).Some? <==> GcmAlgorithm(alg).Some?
    ensures KeyLength(alg).Some? ==> KeyLength(alg).value == GcmAlgorithm(alg).value.KeyLen()
    ensures KeyLength(alg).Some? <==> alg.A128GCM? || alg.A256GCM?
  {
  }

  /**
   * A fresh random key of the algorithm's length; an unsupported algorithm is
   * rejected before any randomness is drawn.
   */
  method GenerateKey(rng: Rng, alg: ContentEncryptionAlgorithm) returns (r: Result<seq<byte>>)
    modifies rng
    ensures KeyLength(alg).None? ==> r == Err(UnsupportedOperation) && rng.drawn == old(rng.drawn)
    ensures r.Ok? ==> KeyLength(alg) == Some(|r.value|) && rng.drawn == old(rng.drawn) + [r.value]
    ensures KeyLength(alg).Some? && r.Err? ==>
      r.error == UnspecifiedCryptographicError && rng.drawn == old(rng.drawn)
  {
    var length: nat;
    match alg {
      case A128GCM => length := 128 / 8;
      case A256GCM => length := 256 / 8;
      case _ => return Err(UnsupportedOperation);
    }
    var key := new byte[length](_ => 0);
    var filled := rng.Fill(key);
    if !filled {
      return Err(UnspecifiedCryptographicError);
    }
    r := Ok(key[..]);
  }

  /** Encrypts `payload` with additional data `aad`; only the GCM family reaches AES-GCM. */
  method Encrypt<T>(ring: Primitives, rng: Rng, alg: ContentEncryptionAlgorithm, payload: seq<byte>,
                    aad: seq<byte>, key: Jwk<T>) returns (r: Result<Gcm.EncryptionResult>)
    requires SealKeepsShape(ring)
    modifies rng
    ensures GcmAlgorithm(alg).None? ==> r == Err(UnsupportedOperation) && rng.drawn == old(rng.drawn)
    ensures GcmAlgorithm(alg).Some? ==>
      Gcm.EncryptOutcome(ring, GcmAlgorithm(alg).value, payload, aad, key, r, old(rng.drawn), rng.drawn)
  {
    match alg {
      case A128GCM | A192GCM | A256GCM => r := AesGcmEncrypt(ring, rng, alg, payload, aad, key);
      case _ => r := Err(UnsupportedOperation);
    }
  }

  /** Decrypts an encryption result; only the GCM family reaches AES-GCM. */
  method Decrypt<T>(ring: Primitives, alg: ContentEncryptionAlgorithm, encrypted: Gcm.EncryptionResult,
                    key: Jwk<T>) returns (r: Result<seq<byte>>)
    ensures GcmAlgorithm(alg).None? ==> r == Err(UnsupportedOperation)
    ensures GcmAlgorithm(alg).Some? ==> r == Gcm.Opened(ring, GcmAlgorithm(alg).value, encrypted, key)
  {
    match alg {
      case A128GCM | A192GCM | A256GCM => r := AesGcmDecrypt(ring, alg, encrypted, key);
      case _ => r := Err(UnsupportedOperation);
    }
  }

  /** Picks the AEAD algorithm; A192GCM is rejected here. */
  method AesGcmEncrypt<T>(ring: Primitives, rng: Rng, alg: ContentEncryptionAlgorithm, payload: seq<byte>,
                          aad: seq<byte>, key: Jwk<T>) returns (r: Result<Gcm.EncryptionResult>)
    requires SealKeepsShape(ring)
    modifies rng
    ensures GcmAlgorithm(alg).None? ==> r == Err(UnsupportedOperation) && rng.drawn == old(rng.drawn)
    ensures GcmAlgorithm(alg).Some? ==>
      Gcm.EncryptOutcome(ring, GcmAlgorithm(alg).value, payload, aad, key, r, old(rng.drawn), rng.drawn)
  {
    var algorithm: AeadAlgorithm;
    match alg {
      case A128GCM => algorithm := AES_128_GCM;
      case A256GCM => algorithm := AES_256_GCM;
      case _ => return Err(UnsupportedOperation);
    }
    r := Gcm.AesGcmEncrypt(ring, rng, algorithm, payload, aad, key);
  }

  /** Picks the AEAD algorithm; A192GCM is rejected here. */
  method AesGcmDecrypt<T>(ring: Primitives, alg: ContentEncryptionAlgorithm, encrypted: Gcm.EncryptionResult,
                          key: Jwk<T>) returns (r: Result<seq<byte>>)
    ensures GcmAlgorithm(alg).None? ==> r == Err(UnsupportedOperation)
    ensures GcmAlgorithm(alg).Some? ==> r == Gcm.Opened(ring, GcmAlgorithm(alg).value, encrypted, key)
  {
    var algorithm: AeadAlgorithm;
    match alg {
      case A128GCM => algorithm := AES_128_GCM;
      case A256GCM => algorithm := AES_256_GCM;
      case _ => return Err(UnsupportedOperation);
    }
    r := Gcm.AesGcmDecrypt(ring, algorithm, encrypted, key);
  }

  /**
   * Encrypting and then decrypting under the same key gives the payload back,
   * whatever the additional data; nothing is decrypted if encryption failed.
   */
  method EncryptThenDecrypt<T>(ring: Primitives, rng: Rng, alg: ContentEncryptionAlgorithm, payload: seq<byte>,
                               aad: seq<byte>, key: Jwk<T>)
    returns (encrypted: Result<Gcm.EncryptionResult>, decrypted: Option<Result<seq<byte>>>)
    requires SealKeepsShape(ring) && OpenInvertsSeal(ring)
    modifies rng
    ensures encrypted.Ok? ==> decrypted == Some(Ok(payload))
    ensures encrypted.Ok? ==> encrypted.value.additionalData == aad && |encrypted.value.tag| == Gcm.TAG_SIZE
    ensures encrypted.Err? ==> decrypted.None?
  {
    encrypted := Encrypt(ring, rng, alg, payload, aad, key);
    if encrypted.Err? {
      return encrypted, Option.None;
    }
    var plaintext := Decrypt(ring, alg, encrypted.value, key);
    Gcm.OpenedInvertsSealed(ring, GcmAlgorithm(alg).value, payload, aad, key, encrypted, old(rng.drawn), rng.drawn);
    decrypted := Some(plaintext);
  }
}
