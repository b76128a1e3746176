/**
 * The part of a JSON Web Key that the algorithm layer uses: its key type, the
 * bytes of an octet (symmetric) key, the common parameters it sets, and the
 * copy without application-specific members.
 */
module Jwk {
  import opened Base
  import opened Errors
  import Catalog

  datatype PublicKeyUse = Signature | Encryption | Other(name: string)

  /** The key material; elliptic-curve and RSA parameters are kept opaque. */
  datatype AlgorithmParameters =
    | EllipticCurveKey(ecParameters: seq<byte>)
    | RsaKey(rsaParameters: seq<byte>)
    | OctetKey(value: seq<byte>)

  /** Members every key may carry; the key id stands for the ones not used here. */
  datatype CommonParameters = CommonParameters(
    publicKeyUse: Option<PublicKeyUse>,
    algorithm: Option<Catalog.Algorithm>,
    keyId: Option<string>)

  /** A key with application-specific members of type `T`. */
  datatype Jwk<T> = Jwk(common: CommonParameters, algorithm: AlgorithmParameters, additional: T)

  /** The empty set of application-specific members. */
  datatype Empty = Empty

  function KeyTypeOf(params: AlgorithmParameters): KeyType {
    match params
    case EllipticCurveKey(_) => EllipticCurve
    case RsaKey(_) => RSA
    case OctetKey(_) => Octet
  }

  /** The bytes of a symmetric key; any other key type is the wrong type. */
  function OctetKeyBytes(params: AlgorithmParameters): (r: Result<seq<byte>>)
    ensures r.Ok? <==> KeyTypeOf(params) == Octet
    ensures r.Ok? ==> params == OctetKey(r.value)
    ensures r.Err? ==> r.error == WrongKeyType(Octet, KeyTypeOf(params))
  {
    match params
    case OctetKey(value) => Ok(value)
    case _ => Err(WrongKeyType(Octet, KeyTypeOf(params)))
  }

  /** The same key, with its application-specific members dropped. */
  function CloneWithoutAdditional<T>(key: Jwk<T>): (k: Jwk<Empty>)
    ensures k.common == key.common && k.algorithm == key.algorithm
  {
    Jwk(key.common, key.algorithm, Empty)
  }
}
