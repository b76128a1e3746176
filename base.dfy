/**
 * Small shared vocabulary: bytes, optional values, zero-filled buffers, and the
 * key types of a JSON Web Key (shared by keys and by the wrong-key-type error).
 */
module Base {

  /** An octet, the element type of every key, nonce, tag and payload. */
  newtype byte = x: int | 0 <= x < 256

  datatype Option<T> = None | Some(value: T)

  /** Key types of a JSON Web Key (the `kty` member). */
  datatype KeyType = EllipticCurve | RSA | Octet

  /** The buffer `vec![0; n]`. */
  function Zeros(n: nat): (z: seq<byte>)
    ensures |z| == n
    ensures forall i :: 0 <= i < n ==> z[i] == 0
  {
    seq(n, _ => 0 as byte)
  }
}
