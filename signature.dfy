/**
 * Signing and verification for every signature algorithm: which secret each
 * one accepts, which ones are unsupported, what a success returns, and how a
 * verification failure is reported.
 */
module Signature {
  import opened Base
  import opened Errors
  import opened Catalog
  import opened Jws
  import opened Ring

  const NONE_SECRET_MESSAGE: string := "Invalid secret type. `None` should be provided"
  const BYTES_SECRET_MESSAGE: string := "Invalid secret type. A byte array is required"
  const RSA_KEY_PAIR_SECRET_MESSAGE: string := "Invalid secret type. A RSAKeyPair is required"
  const PUBLIC_KEY_SECRET_MESSAGE: string := "Invalid secret type. A PublicKey is required"

  // Reference tables, stated independently of the dispatch below.

  datatype SecretKind = NoSecret | BytesSecret | KeyPairSecret | PublicKeySecret

  function KindOf(secret: Secret): SecretKind {
    match secret
    case None => NoSecret
    case Bytes(_) => BytesSecret
    case RsaKeyPair(_) => KeyPairSecret
    case PublicKey(_) => PublicKeySecret
  }

  /** The error message for a secret that is not of the required kind. */
  function SecretMessage(kind: SecretKind): string {
    match kind
    case NoSecret => NONE_SECRET_MESSAGE
    case BytesSecret => BYTES_SECRET_MESSAGE
    case KeyPairSecret => RSA_KEY_PAIR_SECRET_MESSAGE
    case PublicKeySecret => PUBLIC_KEY_SECRET_MESSAGE
  }

  /** The secret an algorithm signs with; ECDSA signing is not available. */
  function SigningSecret(alg: SignatureAlgorithm): Option<SecretKind> {
    if alg.None? then Some(NoSecret)
    else if alg.IsHmac() then Some(BytesSecret)
    else if alg.IsRsa() then Some(KeyPairSecret)
    else Option.None
  }

  /** The secret an algorithm verifies with. */
  function VerifyingSecret(alg: SignatureAlgorithm): SecretKind {
    if alg.None? then NoSecret
    else if alg.IsHmac() then BytesSecret
    else PublicKeySecret
  }

  /** The digest size named by the last three characters of a token, e.g. "256". */
  function DigestName(digest: DigestAlgorithm): string {
    match digest
    case SHA256 => "256"
    case SHA384 => "384"
    case SHA512 => "512"
  }

  // Algorithm parameters chosen by the dispatch.

  function HmacDigest(alg: SignatureAlgorithm): DigestAlgorithm
    requires alg.IsHmac()
  {
    match alg
    case HS256 => SHA256
    case HS384 => SHA384
    case HS512 => SHA512
  }

  function RsaSigningEncoding(alg: SignatureAlgorithm): RsaEncoding
    requires alg.IsRsa()
  {
    match alg
    case RS256 => RsaEncoding(PKCS1, SHA256)
    case RS384 => RsaEncoding(PKCS1, SHA384)
    case RS512 => RsaEncoding(PKCS1, SHA512)
    case PS256 => RsaEncoding(PSS, SHA256)
    case PS384 => RsaEncoding(PSS, SHA384)
    case PS512 => RsaEncoding(PSS, SHA512)
  }

  /** ES512 has no verification algorithm. */
  function VerificationAlgorithmFor(alg: SignatureAlgorithm): Result<VerificationAlgorithm>
    requires alg.IsRsa() || alg.IsEcdsa()
  {
    match alg
    case RS256 => Ok(RsaVerification(PKCS1, SHA256))
    case RS384 => Ok(RsaVerification(PKCS1, SHA384))
    case RS512 => Ok(RsaVerification(PKCS1, SHA512))
    case PS256 => Ok(RsaVerification(PSS, SHA256))
    case PS384 => Ok(RsaVerification(PSS, SHA384))
    case PS512 => Ok(RsaVerification(PSS, SHA512))
    case ES256 => Ok(EcdsaVerification(P256, SHA256))
    case ES384 => Ok(EcdsaVerification(P384, SHA384))
    case ES512 => Err(UnsupportedOperation)
  }

  // Signing.

  function SignNone(secret: Secret): (r: Result<seq<byte>>)
    ensures r.Ok? <==> secret.None?
    ensures r.Ok? ==> r.value == []
    ensures r.Err? ==> r.error == GenericError(NONE_SECRET_MESSAGE)
  {
    match secret
    case None => Ok([])
    case _ => Err(GenericError(NONE_SECRET_MESSAGE))
  }

  function SignHmac(ring: Primitives, data: seq<byte>, secret: Secret, alg: SignatureAlgorithm): (r: Result<seq<byte>>)
    requires alg.IsHmac()
    ensures r.Ok? <==> secret.Bytes?
    ensures r.Ok? ==> r.value == ring.hmacSign(HmacDigest(alg), secret.bytes, data)
    ensures r.Err? ==> r.error == GenericError(BYTES_SECRET_MESSAGE)
  {
    match secret
    case Bytes(key) => Ok(ring.hmacSign(HmacDigest(alg), key, data))
    case _ => Err(GenericError(BYTES_SECRET_MESSAGE))
  }

  function SignRsa(ring: Primitives, data: seq<byte>, secret: Secret, alg: SignatureAlgorithm): (r: Result<seq<byte>>)
    requires alg.IsRsa()
    ensures !secret.RsaKeyPair? ==> r == Err(GenericError(RSA_KEY_PAIR_SECRET_MESSAGE))
    ensures r.Ok? ==> secret.RsaKeyPair? && ring.rsaSign(RsaSigningEncoding(alg), secret.keyPair, data) == Some(r.value)
    ensures secret.RsaKeyPair? && r.Err? ==>
      r.error == UnspecifiedCryptographicError && ring.rsaSign(RsaSigningEncoding(alg), secret.keyPair, data).None?
  {
    match secret
    case RsaKeyPair(keyPair) =>
      (match ring.rsaSign(RsaSigningEncoding(alg), keyPair, data)
       case Some(signature) => Ok(signature)
       case None => Err(UnspecifiedCryptographicError))
    case _ => Err(GenericError(RSA_KEY_PAIR_SECRET_MESSAGE))
  }

  /** ECDSA signing is not offered by the primitives, whatever the secret. */
  function SignEcdsa(data: seq<byte>, secret: Secret, alg: SignatureAlgorithm): (r: Result<seq<byte>>)
    ensures r.Err? && r.error == UnsupportedOperation
  {
    Err(UnsupportedOperation)
  }

  /**
   * Signing: a secret of the wrong kind is rejected with its message, ECDSA is
   * unsupported, and only the RSA primitive can otherwise fail.
   */
  function Sign(ring: Primitives, alg: SignatureAlgorithm, data: seq<byte>, secret: Secret): (r: Result<seq<byte>>)
    ensures SigningSecret(alg).None? ==> r == Err(UnsupportedOperation)
    ensures SigningSecret(alg).Some? && KindOf(secret) != SigningSecret(alg).value ==>
      r == Err(GenericError(SecretMessage(SigningSecret(alg).value)))
    ensures r.Ok? ==> SigningSecret(alg) == Some(KindOf(secret))
    ensures r.Err? && SigningSecret(alg) == Some(KindOf(secret)) ==>
      alg.IsRsa() && r.error == UnspecifiedCryptographicError
  {
    match alg
    case None => SignNone(secret)
    case HS256 | HS384 | HS512 => SignHmac(ring, data, secret, alg)
    case RS256 | RS384 | RS512 | PS256 | PS384 | PS512 => SignRsa(ring, data, secret, alg)
    case ES256 | ES384 | ES512 => SignEcdsa(data, secret, alg)
  }

  // Verification.

  /** `none` accepts exactly the empty signature, whatever the data. */
  function VerifyNone(expectedSignature: seq<byte>, secret: Secret): (r: Result<bool>)
    ensures r.Ok? <==> secret.None?
    ensures r.Ok? ==> (r.value <==> |expectedSignature| == 0)
    ensures r.Err? ==> r.error == GenericError(NONE_SECRET_MESSAGE)
  {
    match secret
    case None => Ok(|expectedSignature| == 0)
    case _ => Err(GenericError(NONE_SECRET_MESSAGE))
  }

  /**
   * The MAC is recomputed and compared with the given signature; the
   * comparison is plain equality (same length, same bytes).
   */
  function VerifyHmac(ring: Primitives, expectedSignature: seq<byte>, data: seq<byte>, secret: Secret,
                      alg: SignatureAlgorithm): (r: Result<bool>)
    requires alg.IsHmac()
    ensures r.Ok? <==> secret.Bytes?
    ensures r.Ok? ==> (r.value <==> expectedSignature == SignHmac(ring, data, secret, alg).value)
    ensures r.Err? ==> r.error == GenericError(BYTES_SECRET_MESSAGE)
  {
    var actualSignature :- SignHmac(ring, data, secret, alg);
    Ok(expectedSignature == actualSignature)
  }

  /**
   * The secret is checked before the algorithm, so ES512 with the wrong secret
   * reports the secret; any rejection by the primitive is `false`.
   */
  function VerifyPublicKey(ring: Primitives, expectedSignature: seq<byte>, data: seq<byte>, secret: Secret,
                           alg: SignatureAlgorithm): (r: Result<bool>)
    requires alg.IsRsa() || alg.IsEcdsa()
    ensures !secret.PublicKey? ==> r == Err(GenericError(PUBLIC_KEY_SECRET_MESSAGE))
    ensures secret.PublicKey? && alg.ES512? ==> r == Err(UnsupportedOperation)
    ensures secret.PublicKey? && !alg.ES512? ==>
      r == Ok(ring.verify(VerificationAlgorithmFor(alg).value, secret.publicKey, data, expectedSignature))
  {
    match secret
    case PublicKey(publicKey) =>
      var verificationAlgorithm :- VerificationAlgorithmFor(alg);
      Ok(ring.verify(verificationAlgorithm, publicKey, data, expectedSignature))
    case _ => Err(GenericError(PUBLIC_KEY_SECRET_MESSAGE))
  }

  /**
   * Verification fails only for misuse: a secret of the wrong kind (reported
   * first), or ES512. Everything else is an answer.
   */
  function Verify(ring: Primitives, alg: SignatureAlgorithm, expectedSignature: seq<byte>, data: seq<byte>,
                  secret: Secret): (r: Result<bool>)
    ensures KindOf(secret) != VerifyingSecret(alg) ==>
      r == Err(GenericError(SecretMessage(VerifyingSecret(alg))))
    ensures KindOf(secret) == VerifyingSecret(alg) ==> (r.Err? <==> alg.ES512?)
    ensures KindOf(secret) == VerifyingSecret(alg) && alg.ES512? ==> r == Err(UnsupportedOperation)
  {
    match alg
    case None => VerifyNone(expectedSignature, secret)
    case HS256 | HS384 | HS512 => VerifyHmac(ring, expectedSignature, data, secret, alg)
    case RS256 | RS384 | RS512 | PS256 | PS384 | PS512 | ES256 | ES384 | ES512 =>
      VerifyPublicKey(ring, expectedSignature, data, secret, alg)
  }

  // Properties relating signing and verification.

  /** `none` signs to the empty signature, and verifies it iff it is empty. */
  lemma NoneSignsEmpty(ring: Primitives, signature: seq<byte>, data: seq<byte>, secret: Secret)
    ensures Sign(ring, SignatureAlgorithm.None, data, secret).Ok? <==> secret.None?
    ensures secret.None? ==> Sign(ring, SignatureAlgorithm.None, data, secret) == Ok([])
    ensures secret.None? ==> Verify(ring, SignatureAlgorithm.None, signature, data, secret) == Ok(signature == [])
  {
  }

  /** HMAC verification is true exactly for the signature `sign` produces. */
  lemma HmacVerifyIffSigned(ring: Primitives, alg: SignatureAlgorithm, signature: seq<byte>, data: seq<byte>,
                            key: seq<byte>)
    requires alg.IsHmac()
    ensures Sign(ring, alg, data, Secret.Bytes(key)).Ok?
    ensures Verify(ring, alg, signature, data, Secret.Bytes(key))
         == Ok(signature == Sign(ring, alg, data, Secret.Bytes(key)).value)
  {
  }

  /**
   * RSA and ECDSA verification hand the primitive's verdict back unchanged,
   * so a rejected signature is `Ok(false)` and never an error.
   */
  lemma PublicKeyVerdict(ring: Primitives, alg: SignatureAlgorithm, signature: seq<byte>, data: seq<byte>,
                         publicKey: seq<byte>)
    requires alg.IsRsa() || alg.ES256? || alg.ES384?
    ensures Verify(ring, alg, signature, data, Secret.PublicKey(publicKey))
         == Ok(ring.verify(VerificationAlgorithmFor(alg).value, publicKey, data, signature))
  {
  }

  /** Signing and verification use the same scheme and hash for each RSA algorithm. */
  lemma RsaTablesAgree(alg: SignatureAlgorithm)
    requires alg.IsRsa()
    ensures VerificationAlgorithmFor(alg)
         == Ok(RsaVerification(RsaSigningEncoding(alg).scheme, RsaSigningEncoding(alg).digest))
  {
  }

  /** Every digest used is the one the algorithm's token names. */
  lemma DigestNamedByToken(alg: SignatureAlgorithm)
    ensures var t := SignatureToken(alg);
      && (alg.IsHmac() ==> t[|t| - 3..] == DigestName(HmacDigest(alg)))
      && (alg.IsRsa() ==> t[|t| - 3..] == DigestName(RsaSigningEncoding(alg).digest))
      && (alg.ES256? || alg.ES384? ==> t[|t| - 3..] == DigestName(VerificationAlgorithmFor(alg).value.digest))
  {
  }

  /** A key pair and a public key that belong together, for every RSA padding. */
  ghost predicate RsaKeysMatch(ring: Primitives, keyPair: seq<byte>, publicKey: seq<byte>) {
    forall encoding: RsaEncoding, data: seq<byte> ::
      var signature := ring.rsaSign(encoding, keyPair, data);
      signature.Some? ==>
        ring.verify(RsaVerification(encoding.scheme, encoding.digest), publicKey, data, signature.value)
  }

  /** An RSA signature verifies under the matching public key. */
  lemma RsaSignThenVerify(ring: Primitives, alg: SignatureAlgorithm, data: seq<byte>, keyPair: seq<byte>,
                          publicKey: seq<byte>)
    requires alg.IsRsa()
    requires RsaKeysMatch(ring, keyPair, publicKey)
    requires Sign(ring, alg, data, Secret.RsaKeyPair(keyPair)).Ok?
    ensures Verify(ring, alg, Sign(ring, alg, data, Secret.RsaKeyPair(keyPair)).value, data,
                   Secret.PublicKey(publicKey)) == Ok(true)
  {
    RsaTablesAgree(alg);
    var signature := Sign(ring, alg, data, Secret.RsaKeyPair(keyPair)).value;
    assert ring.rsaSign(RsaSigningEncoding(alg), keyPair, data) == Some(signature);
  }
}
