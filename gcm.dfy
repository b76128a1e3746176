/**
 * AES-GCM framing, for content encryption (section 5.3 of RFC 7518) and key
 * wrapping (section 4.7 of RFC 7518): the payload is sealed in a buffer with
 * room for the tag, under a fresh 96-bit nonce, and the sealed buffer is split
 * into ciphertext and a 128-bit tag; decryption joins them again and opens.
 */
module Gcm {
  import opened Base
  import opened Errors
  import opened Jwk
  import opened Ring

  /** Tag size, in bytes. */
  const TAG_SIZE: nat := 128 / 8
  /** Nonce length, in bytes. */
  const NONCE_LENGTH: nat := 96 / 8

  /** The parts an encryption produces. */
  datatype EncryptionResult = EncryptionResult(
    nonce: seq<byte>,
    encrypted: seq<byte>,
    tag: seq<byte>,
    additionalData: seq<byte>)

  /** The default result: every part empty. */
  const EMPTY_ENCRYPTION_RESULT := EncryptionResult([], [], [], [])

  /**
   * What encryption produces once the key is accepted and `nonce` has been
   * drawn: the payload, followed by room for the tag, is sealed in place, and
   * the sealed buffer is cut into ciphertext and tag.
   */
  function Sealed(ring: Primitives, alg: AeadAlgorithm, key: seq<byte>, nonce: seq<byte>, payload: seq<byte>,
                  aad: seq<byte>): (r: Result<EncryptionResult>)
    requires SealKeepsShape(ring)
    ensures r.Ok? <==> ring.sealInPlace(alg, key, nonce, aad, payload + Zeros(TAG_SIZE), TAG_SIZE).Some?
    ensures r.Ok? ==>
      && r.value.nonce == nonce
      && r.value.additionalData == aad
      && |r.value.encrypted| == |payload|
      && |r.value.tag| == TAG_SIZE
      && r.value.encrypted + r.value.tag
         == ring.sealInPlace(alg, key, nonce, aad, payload + Zeros(TAG_SIZE), TAG_SIZE).value.inOut
    ensures r.Err? ==> r.error == UnspecifiedCryptographicError
  {
    var inOut := payload + Zeros(TAG_SIZE);
    match ring.sealInPlace(alg, key, nonce, aad, inOut, TAG_SIZE)
    case None => Err(UnspecifiedCryptographicError)
    case Some(out) =>
      Ok(EncryptionResult(nonce, out.inOut[..out.size - TAG_SIZE], out.inOut[out.size - TAG_SIZE..out.size], aad))
  }

  /**
   * The outcome of one encryption, given the random source's history before
   * and after: a non-octet key or a key of the wrong length fails before any
   * nonce is drawn; a success used exactly one fresh 12-byte nonce.
   */
  ghost predicate EncryptOutcome<T>(ring: Primitives, alg: AeadAlgorithm, payload: seq<byte>, aad: seq<byte>,
                                    key: Jwk<T>, r: Result<EncryptionResult>,
                                    before: seq<seq<byte>>, after: seq<seq<byte>>)
    requires SealKeepsShape(ring)
  {
    match OctetKeyBytes(key.algorithm)
    case Err(e) => r == Err(e) && after == before
    case Ok(keyBytes) =>
      if |keyBytes| != alg.KeyLen() then
        r == Err(UnspecifiedCryptographicError) && after == before
      else
        match r
        case Ok(result) =>
          && |result.nonce| == NONCE_LENGTH
          && after == before + [result.nonce]
          && Sealed(ring, alg, keyBytes, result.nonce, payload, aad) == r
        case Err(e) =>
          e == UnspecifiedCryptographicError && AtMostOneDraw(before, after, NONCE_LENGTH)
  }

  /** Encrypts `payload` with `aad` under `key`, drawing the nonce from `rng`. */
  method AesGcmEncrypt<T>(ring: Primitives, rng: Rng, alg: AeadAlgorithm, payload: seq<byte>, aad: seq<byte>,
                          key: Jwk<T>) returns (r: Result<EncryptionResult>)
    requires SealKeepsShape(ring)
    modifies rng
    ensures EncryptOutcome(ring, alg, payload, aad, key, r, old(rng.drawn), rng.drawn)
  {
    // The primitive's tag and nonce lengths are the ones this framing assumes.
    assert alg.TagLen() == TAG_SIZE && alg.NonceLen() == NONCE_LENGTH;

    var keyBytes :- OctetKeyBytes(key.algorithm);
    if |keyBytes| != alg.KeyLen() {
      // The sealing key constructor rejects the key.
      return Err(UnspecifiedCryptographicError);
    }

    var inOut := payload;
    inOut := inOut + Zeros(TAG_SIZE);

    var nonce := new byte[NONCE_LENGTH](_ => 0);
    var filled := rng.Fill(nonce);
    if !filled {
      return Err(UnspecifiedCryptographicError);
    }

    var sealed := ring.sealInPlace(alg, keyBytes, nonce[..], aad, inOut, TAG_SIZE);
    if sealed.None? {
      assert rng.drawn == old(rng.drawn) + [nonce[..]];
      return Err(UnspecifiedCryptographicError);
    }
    var size := sealed.value.size;
    inOut := sealed.value.inOut;
    r := Ok(EncryptionResult(nonce[..], inOut[..size - TAG_SIZE], inOut[size - TAG_SIZE..size], aad));
  }

  /**
   * What decryption returns: the key checks of encryption, then the primitive's
   * opening of ciphertext followed by tag, with the stored nonce and
   * additional data.
   */
  function Opened<T>(ring: Primitives, alg: AeadAlgorithm, encrypted: EncryptionResult, key: Jwk<T>)
    : (r: Result<seq<byte>>)
    ensures !key.algorithm.OctetKey? ==> r == Err(WrongKeyType(Octet, KeyTypeOf(key.algorithm)))
    ensures key.algorithm.OctetKey? && |key.algorithm.value| != alg.KeyLen() ==>
      r == Err(UnspecifiedCryptographicError)
    ensures r.Ok? ==>
      && key.algorithm.OctetKey?
      && ring.openInPlace(alg, key.algorithm.value, encrypted.nonce, encrypted.additionalData, 0,
                          encrypted.encrypted + encrypted.tag) == Some(r.value)
    ensures
      (&& key.algorithm.OctetKey?
       && |key.algorithm.value| == alg.KeyLen()
       && ring.openInPlace(alg, key.algorithm.value, encrypted.nonce, encrypted.additionalData, 0,
                           encrypted.encrypted + encrypted.tag).Some?)
      ==> r.Ok?
    ensures r.Err? && key.algorithm.OctetKey? ==> r.error == UnspecifiedCryptographicError
  {
    var keyBytes :- OctetKeyBytes(key.algorithm);
    if |keyBytes| != alg.KeyLen() then
      Err(UnspecifiedCryptographicError)
    else
      match ring.openInPlace(alg, keyBytes, encrypted.nonce, encrypted.additionalData, 0,
                             encrypted.encrypted + encrypted.tag)
      case Some(plaintext) => Ok(plaintext)
      case None => Err(UnspecifiedCryptographicError)
  }

  /** Decrypts an encryption result under `key`. */
  method AesGcmDecrypt<T>(ring: Primitives, alg: AeadAlgorithm, encrypted: EncryptionResult, key: Jwk<T>)
    returns (r: Result<seq<byte>>)
    ensures r == Opened(ring, alg, encrypted, key)
  {
    assert alg.TagLen() == TAG_SIZE && alg.NonceLen() == NONCE_LENGTH;

    var keyBytes :- OctetKeyBytes(key.algorithm);
    if |keyBytes| != alg.KeyLen() {
      // The opening key constructor rejects the key.
      return Err(UnspecifiedCryptographicError);
    }

    var inOut := encrypted.encrypted;
    inOut := inOut + encrypted.tag;

    var plaintext := ring.openInPlace(alg, keyBytes, encrypted.nonce, encrypted.additionalData, 0, inOut);
    if plaintext.None? {
      return Err(UnspecifiedCryptographicError);
    }
    r := Ok(plaintext.value);
  }

  /** Decrypting a successful encryption under the same key gives the payload back. */
  lemma {:induction false} OpenedInvertsSealed<T>(ring: Primitives, alg: AeadAlgorithm, payload: seq<byte>,
                                                  aad: seq<byte>, key: Jwk<T>, r: Result<EncryptionResult>,
                                                  before: seq<seq<byte>>, after: seq<seq<byte>>)
    requires SealKeepsShape(ring) && OpenInvertsSeal(ring)
    requires EncryptOutcome(ring, alg, payload, aad, key, r, before, after)
    requires r.Ok?
    ensures Opened(ring, alg, r.value, key) == Ok(payload)
  {
    var keyBytes := key.algorithm.value;
    var inOut := payload + Zeros(TAG_SIZE);
    var out := ring.sealInPlace(alg, keyBytes, r.value.nonce, aad, inOut, TAG_SIZE).value;
    assert r.value.encrypted + r.value.tag == out.inOut[..out.size];
    assert inOut[..|inOut| - TAG_SIZE] == payload;
  }
}
