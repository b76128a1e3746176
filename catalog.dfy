/**
 * The algorithm catalog of RFC 7518: the three algorithm families, the
 * untagged union over them, their wire tokens, their default values and the
 * classification of key-management algorithms.
 */
module Catalog {
  import opened Base

  /** Digital signature and MAC algorithms, section 3.1 of RFC 7518. */
  datatype SignatureAlgorithm =
    | None
    | HS256 | HS384 | HS512
    | RS256 | RS384 | RS512
    | ES256 | ES384 | ES512
    | PS256 | PS384 | PS512
  {
    /** The HMAC family, section 3.2 of RFC 7518. */
    predicate IsHmac() { HS256? || HS384? || HS512? }

    /** RSASSA-PKCS1-v1_5 and RSASSA-PSS, sections 3.3 and 3.5 of RFC 7518. */
    predicate IsRsa() { RS256? || RS384? || RS512? || PS256? || PS384? || PS512? }

    /** ECDSA, section 3.4 of RFC 7518. */
    predicate IsEcdsa() { ES256? || ES384? || ES512? }
  }

  /** Key-management algorithms, section 4.1 of RFC 7518. */
  datatype KeyManagementAlgorithm =
    | RSA1_5 | RSA_OAEP | RSA_OAEP_256
    | A128KW | A192KW | A256KW
    | DirectSymmetricKey
    | ECDH_ES | ECDH_ES_A128KW | ECDH_ES_A192KW | ECDH_ES_A256KW
    | A128GCMKW | A192GCMKW | A256GCMKW
    | PBES2_HS256_A128KW | PBES2_HS384_A192KW | PBES2_HS512_A256KW

  /** What a key-management algorithm does with the content encryption key. */
  datatype KeyManagementAlgorithmType =
    | SymmetricKeyWrapping
    | AsymmetricKeyEncryption
    | DirectKeyAgreement
    | KeyAgreementWithKeyWrapping
    | DirectEncryption

  /** Content-encryption algorithms, section 5.1 of RFC 7518. */
  datatype ContentEncryptionAlgorithm =
    | A128CBC_HS256 | A192CBC_HS384 | A256CBC_HS512
    | A128GCM | A192GCM | A256GCM

  /** Any algorithm; on the wire it carries no family tag, only its token. */
  datatype Algorithm =
    | Signature(signature: SignatureAlgorithm)
    | KeyManagement(keyManagement: KeyManagementAlgorithm)
    | ContentEncryption(contentEncryption: ContentEncryptionAlgorithm)

  // The `Default` values of the three families.

  function DefaultSignatureAlgorithm(): SignatureAlgorithm { HS256 }

  function DefaultKeyManagementAlgorithm(): KeyManagementAlgorithm { DirectSymmetricKey }

  function DefaultContentEncryptionAlgorithm(): ContentEncryptionAlgorithm { A128GCM }

  /**
   * The classification of every key-management algorithm. It agrees with the
   * naming scheme of section 4.1 of RFC 7518 (see `NamedAfter`).
   */
  function AlgorithmType(alg: KeyManagementAlgorithm): (r: KeyManagementAlgorithmType)
    ensures NamedAfter(KeyManagementToken(alg), r)
  {
    match alg
    case A128KW | A192KW | A256KW
      | A128GCMKW | A192GCMKW | A256GCMKW
      | PBES2_HS256_A128KW | PBES2_HS384_A192KW | PBES2_HS512_A256KW =>
      WrapsAreNamedSo(alg);
      SymmetricKeyWrapping
    case RSA1_5 | RSA_OAEP | RSA_OAEP_256 =>
      AsymmetricAreNamedSo(alg);
      AsymmetricKeyEncryption
    case DirectSymmetricKey =>
      DirectIsNamedSo(alg);
      DirectEncryption
    case ECDH_ES =>
      AgreementIsNamedSo(alg);
      DirectKeyAgreement
    case ECDH_ES_A128KW | ECDH_ES_A192KW | ECDH_ES_A256KW =>
      AgreementWrapsAreNamedSo(alg);
      KeyAgreementWithKeyWrapping
  }

  // Wire tokens: the serialized name of every variant.

  function SignatureToken(alg: SignatureAlgorithm): string {
    match alg
    case None => "none"
    case HS256 => "HS256"
    case HS384 => "HS384"
    case HS512 => "HS512"
    case RS256 => "RS256"
    case RS384 => "RS384"
    case RS512 => "RS512"
    case ES256 => "ES256"
    case ES384 => "ES384"
    case ES512 => "ES512"
    case PS256 => "PS256"
    case PS384 => "PS384"
    case PS512 => "PS512"
  }

  function KeyManagementToken(alg: KeyManagementAlgorithm): string {
    match alg
    case RSA1_5 => "RSA1_5"
    case RSA_OAEP => "RSA-OAEP"
    case RSA_OAEP_256 => "RSA-OAEP-256"
    case A128KW => "A128KW"
    case A192KW => "A192KW"
    case A256KW => "A256KW"
    case DirectSymmetricKey => "dir"
    case ECDH_ES => "ECDH-ES"
    case ECDH_ES_A128KW => "ECDH-ES+A128KW"
    case ECDH_ES_A192KW => "ECDH-ES+A192KW"
    case ECDH_ES_A256KW => "ECDH-ES+A256KW"
    case A128GCMKW => "A128GCMKW"
    case A192GCMKW => "A192GCMKW"
    case A256GCMKW => "A256GCMKW"
    case PBES2_HS256_A128KW => "PBES2-HS256+A128KW"
    case PBES2_HS384_A192KW => "PBES2-HS384+A192KW"
    case PBES2_HS512_A256KW => "PBES2-HS512+A256KW"
  }

  function ContentEncryptionToken(alg: ContentEncryptionAlgorithm): string {
    match alg
    case A128CBC_HS256 => "A128CBC-HS256"
    case A192CBC_HS384 => "A192CBC-HS384"
    case A256CBC_HS512 => "A256CBC-HS512"
    case A128GCM => "A128GCM"
    case A192GCM => "A192GCM"
    case A256GCM => "A256GCM"
  }

  /** An `Algorithm` is written as its family's token and nothing else. */
  function AlgorithmToken(alg: Algorithm): string {
    match alg
    case Signature(s) => SignatureToken(s)
    case KeyManagement(k) => KeyManagementToken(k)
    case ContentEncryption(c) => ContentEncryptionToken(c)
  }

  // Reading tokens back, one family at a time; a token is only ever read back
  // as the algorithm that writes it.

  function SignatureFromToken(t: string): (r: Option<SignatureAlgorithm>)
    ensures r.Some? ==> SignatureToken(r.value) == t
  {
    if t == "none" then Some(SignatureAlgorithm.None)
    else if t == "HS256" then Some(HS256)
    else if t == "HS384" then Some(HS384)
    else if t == "HS512" then Some(HS512)
    else if t == "RS256" then Some(RS256)
    else if t == "RS384" then Some(RS384)
    else if t == "RS512" then Some(RS512)
    else if t == "ES256" then Some(ES256)
    else if t == "ES384" then Some(ES384)
    else if t == "ES512" then Some(ES512)
    else if t == "PS256" then Some(PS256)
    else if t == "PS384" then Some(PS384)
    else if t == "PS512" then Some(PS512)
    else Option.None
  }

  function KeyManagementFromToken(t: string): (r: Option<KeyManagementAlgorithm>)
    ensures r.Some? ==> KeyManagementToken(r.value) == t
  {
    if t == "RSA1_5" then Some(RSA1_5)
    else if t == "RSA-OAEP" then Some(RSA_OAEP)
    else if t == "RSA-OAEP-256" then Some(RSA_OAEP_256)
    else if t == "A128KW" then Some(A128KW)
    else if t == "A192KW" then Some(A192KW)
    else if t == "A256KW" then Some(A256KW)
    else if t == "dir" then Some(DirectSymmetricKey)
    else if t == "ECDH-ES" then Some(ECDH_ES)
    else if t == "ECDH-ES+A128KW" then Some(ECDH_ES_A128KW)
    else if t == "ECDH-ES+A192KW" then Some(ECDH_ES_A192KW)
    else if t == "ECDH-ES+A256KW" then Some(ECDH_ES_A256KW)
    else if t == "A128GCMKW" then Some(A128GCMKW)
    else if t == "A192GCMKW" then Some(A192GCMKW)
    else if t == "A256GCMKW" then Some(A256GCMKW)
    else if t == "PBES2-HS256+A128KW" then Some(PBES2_HS256_A128KW)
    else if t == "PBES2-HS384+A192KW" then Some(PBES2_HS384_A192KW)
    else if t == "PBES2-HS512+A256KW" then Some(PBES2_HS512_A256KW)
    else Option.None
  }

  function ContentEncryptionFromToken(t: string): (r: Option<ContentEncryptionAlgorithm>)
    ensures r.Some? ==> ContentEncryptionToken(r.value) == t
  {
    if t == "A128CBC-HS256" then Some(A128CBC_HS256)
    else if t == "A192CBC-HS384" then Some(A192CBC_HS384)
    else if t == "A256CBC-HS512" then Some(A256CBC_HS512)
    else if t == "A128GCM" then Some(A128GCM)
    else if t == "A192GCM" then Some(A192GCM)
    else if t == "A256GCM" then Some(A256GCM)
    else Option.None
  }

  /**
   * Untagged decoding: the families are tried in declaration order and the
   * first one that knows the token wins.
   */
  function AlgorithmFromToken(t: string): (r: Option<Algorithm>)
    ensures r.Some? <==>
      SignatureFromToken(t).Some? || KeyManagementFromToken(t).Some? || ContentEncryptionFromToken(t).Some?
    ensures r.Some? ==> AlgorithmToken(r.value) == t
  {
    match SignatureFromToken(t)
    case Some(s) => Some(Signature(s))
    case None =>
      match KeyManagementFromToken(t)
      case Some(k) => Some(KeyManagement(k))
      case None =>
        match ContentEncryptionFromToken(t)
        case Some(c) => Some(ContentEncryption(c))
        case None => Option.None
  }

  // Properties of the catalog.

  /** Each family reads back exactly what it writes, and only its own tokens. */
  lemma SignatureTokenRoundTrip(alg: SignatureAlgorithm, t: string)
    ensures SignatureFromToken(SignatureToken(alg)) == Some(alg)
    ensures SignatureFromToken(t) == Some(alg) ==> SignatureToken(alg) == t
  {
  }

  lemma KeyManagementTokenRoundTrip(alg: KeyManagementAlgorithm, t: string)
    ensures KeyManagementFromToken(KeyManagementToken(alg)) == Some(alg)
    ensures KeyManagementFromToken(t) == Some(alg) ==> KeyManagementToken(alg) == t
  {
  }

  lemma ContentEncryptionTokenRoundTrip(alg: ContentEncryptionAlgorithm, t: string)
    ensures ContentEncryptionFromToken(ContentEncryptionToken(alg)) == Some(alg)
    ensures ContentEncryptionFromToken(t) == Some(alg) ==> ContentEncryptionToken(alg) == t
  {
  }

  /** No token belongs to two families, so the untagged union is unambiguous. */
  lemma SignatureTokensForeign(s: SignatureAlgorithm)
    ensures KeyManagementFromToken(SignatureToken(s)).None?
    ensures ContentEncryptionFromToken(SignatureToken(s)).None?
  {
    match s
    case None =>
    case HS256 => case HS384 => case HS512 =>
    case RS256 => case RS384 => case RS512 =>
    case ES256 => case ES384 => case ES512 =>
    case PS256 => case PS384 => case PS512 =>
  }

  lemma KeyManagementTokensForeign(k: KeyManagementAlgorithm)
    ensures SignatureFromToken(KeyManagementToken(k)).None?
    ensures ContentEncryptionFromToken(KeyManagementToken(k)).None?
  {
    match k
    case RSA1_5 => case RSA_OAEP => case RSA_OAEP_256 =>
    case A128KW => case A192KW => case A256KW =>
    case DirectSymmetricKey =>
    case ECDH_ES => case ECDH_ES_A128KW => case ECDH_ES_A192KW => case ECDH_ES_A256KW =>
    case A128GCMKW => case A192GCMKW => case A256GCMKW =>
    case PBES2_HS256_A128KW => case PBES2_HS384_A192KW => case PBES2_HS512_A256KW =>
  }

  lemma ContentEncryptionTokensForeign(c: ContentEncryptionAlgorithm)
    ensures SignatureFromToken(ContentEncryptionToken(c)).None?
    ensures KeyManagementFromToken(ContentEncryptionToken(c)).None?
  {
    match c
    case A128CBC_HS256 => case A192CBC_HS384 => case A256CBC_HS512 =>
    case A128GCM => case A192GCM => case A256GCM =>
  }

  /** Decoding the token of any algorithm gives that algorithm back. */
  lemma AlgorithmTokenRoundTrip(alg: Algorithm)
    ensures AlgorithmFromToken(AlgorithmToken(alg)) == Some(alg)
  {
    match alg
    case Signature(s) =>
      SignatureTokenRoundTrip(s, "");
    case KeyManagement(k) =>
      KeyManagementTokenRoundTrip(k, "");
      KeyManagementTokensForeign(k);
    case ContentEncryption(c) =>
      ContentEncryptionTokenRoundTrip(c, "");
      ContentEncryptionTokensForeign(c);
  }

  /** A token that decodes is the token of the algorithm it decodes to. */
  lemma AlgorithmTokenCanonical(t: string, alg: Algorithm)
    requires AlgorithmFromToken(t) == Some(alg)
    ensures AlgorithmToken(alg) == t
  {
    match alg
    case Signature(s) => SignatureTokenRoundTrip(s, t);
    case KeyManagement(k) => KeyManagementTokenRoundTrip(k, t);
    case ContentEncryption(c) => ContentEncryptionTokenRoundTrip(c, t);
  }

  /** Tokens are pairwise distinct across all three families. */
  lemma AlgorithmTokenInjective(a: Algorithm, b: Algorithm)
    ensures AlgorithmToken(a) == AlgorithmToken(b) <==> a == b
  {
    AlgorithmTokenRoundTrip(a);
    AlgorithmTokenRoundTrip(b);
  }

  /**
   * The naming scheme of section 4.1 of RFC 7518, read as a classification:
   * RSA encryption is "RSA...", direct use is "dir", key agreement is
   * "ECDH-ES" alone or "ECDH-ES+" a wrap, and every other "...KW" wraps.
   */
  ghost predicate NamedAfter(t: string, kind: KeyManagementAlgorithmType) {
    && (kind == AsymmetricKeyEncryption <==> "RSA" <= t)
    && (kind == DirectEncryption <==> t == "dir")
    && (kind == DirectKeyAgreement <==> t == "ECDH-ES")
    && (kind == KeyAgreementWithKeyWrapping <==> "ECDH-ES+" <= t)
    && (kind == SymmetricKeyWrapping <==> |t| >= 2 && t[|t| - 2..] == "KW" && !("ECDH-ES+" <= t))
  }

  lemma AsymmetricAreNamedSo(alg: KeyManagementAlgorithm)
    requires alg.RSA1_5? || alg.RSA_OAEP? || alg.RSA_OAEP_256?
    ensures NamedAfter(KeyManagementToken(alg), AsymmetricKeyEncryption)
  {
    NotPrefix("ECDH-ES+", KeyManagementToken(alg), 0);
  }

  lemma DirectIsNamedSo(alg: KeyManagementAlgorithm)
    requires alg.DirectSymmetricKey?
    ensures NamedAfter(KeyManagementToken(alg), DirectEncryption)
  {
    NotPrefix("RSA", KeyManagementToken(alg), 0);
  }

  lemma AgreementIsNamedSo(alg: KeyManagementAlgorithm)
    requires alg.ECDH_ES?
    ensures NamedAfter(KeyManagementToken(alg), DirectKeyAgreement)
  {
    NotPrefix("RSA", KeyManagementToken(alg), 0);
  }

  lemma AgreementWrapsAreNamedSo(alg: KeyManagementAlgorithm)
    requires alg.ECDH_ES_A128KW? || alg.ECDH_ES_A192KW? || alg.ECDH_ES_A256KW?
    ensures NamedAfter(KeyManagementToken(alg), KeyAgreementWithKeyWrapping)
  {
    NotPrefix("RSA", KeyManagementToken(alg), 0);
  }

  lemma WrapsAreNamedSo(alg: KeyManagementAlgorithm)
    requires || alg.A128KW? || alg.A192KW? || alg.A256KW?
             || alg.A128GCMKW? || alg.A192GCMKW? || alg.A256GCMKW?
             || alg.PBES2_HS256_A128KW? || alg.PBES2_HS384_A192KW? || alg.PBES2_HS512_A256KW?
    ensures NamedAfter(KeyManagementToken(alg), SymmetricKeyWrapping)
  {
    NotPrefix("RSA", KeyManagementToken(alg), 0);
    NotPrefix("ECDH-ES+", KeyManagementToken(alg), 0);
  }

  /** A string is not a prefix of another if they differ at some position. */
  lemma NotPrefix(p: string, t: string, i: nat)
    requires i < |p| && i < |t| && p[i] != t[i]
    ensures !(p <= t)
  {
  }

  /** The defaults, by their wire tokens. */
  lemma DefaultTokens()
    ensures SignatureToken(DefaultSignatureAlgorithm()) == "HS256"
    ensures KeyManagementToken(DefaultKeyManagementAlgorithm()) == "dir"
    ensures ContentEncryptionToken(DefaultContentEncryptionAlgorithm()) == "A128GCM"
    ensures DefaultSignatureAlgorithm().IsHmac()
    ensures AlgorithmType(DefaultKeyManagementAlgorithm()) == DirectEncryption
  {
  }
}
