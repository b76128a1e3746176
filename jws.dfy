/** The secret a signature operation is given. */
module Jws {
  import opened Base

  datatype Secret =
    /** No secret, for the `none` algorithm. */
    | None
    /** Raw bytes, for HMAC. */
    | Bytes(bytes: seq<byte>)
    /** An RSA private key pair, for signing; its encoding is kept opaque. */
    | RsaKeyPair(keyPair: seq<byte>)
    /** A DER-encoded public key, for verifying RSA and ECDSA signatures. */
    | PublicKey(publicKey: seq<byte>)
}
