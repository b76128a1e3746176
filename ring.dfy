/**
 * The cryptographic library and the system random source, seen only through
 * their interfaces. The primitives are arguments of the operations that use
 * them, so every statement proved holds for any implementation of them; the
 * two predicates at the end state the parts of the AEAD contract that the
 * buffer arithmetic and the round trips rely on.
 */
module Ring {
  import opened Base

  datatype DigestAlgorithm = SHA256 | SHA384 | SHA512

  datatype RsaScheme = PKCS1 | PSS

  /** A signing padding such as RSA_PKCS1_SHA256 or RSA_PSS_SHA512. */
  datatype RsaEncoding = RsaEncoding(scheme: RsaScheme, digest: DigestAlgorithm)

  datatype Curve = P256 | P384

  /** A verification algorithm: RSA with a 2048 to 8192 bit modulus, or ASN.1-encoded ECDSA. */
  datatype VerificationAlgorithm =
    | RsaVerification(scheme: RsaScheme, digest: DigestAlgorithm)
    | EcdsaVerification(curve: Curve, digest: DigestAlgorithm)

  /** The AEAD algorithms used here. */
  datatype AeadAlgorithm = AES_128_GCM | AES_256_GCM {
    /** Length the sealing and opening key constructors demand. */
    function KeyLen(): nat {
      match this
      case AES_128_GCM => 16
      case AES_256_GCM => 32
    }

    function TagLen(): nat { 16 }

    function NonceLen(): nat { 12 }
  }

  /** The buffer after sealing in place, and how much of it is the sealed output. */
  datatype SealOutput = SealOutput(inOut: seq<byte>, size: nat)

  /**
   * The primitives. `sealInPlace(alg, key, nonce, aad, inOut, suffix)` seals the
   * first `|inOut| - suffix` bytes of the buffer and places the tag after them;
   * `openInPlace(alg, key, nonce, aad, prefix, inOut)` authenticates and
   * decrypts `inOut` after its first `prefix` bytes. `None` is a failure.
   */
  datatype Primitives = Primitives(
    hmacSign: (DigestAlgorithm, seq<byte>, seq<byte>) -> seq<byte>,
    rsaSign: (RsaEncoding, seq<byte>, seq<byte>) -> Option<seq<byte>>,
    verify: (VerificationAlgorithm, seq<byte>, seq<byte>, seq<byte>) -> bool,
    sealInPlace: (AeadAlgorithm, seq<byte>, seq<byte>, seq<byte>, seq<byte>, nat) -> Option<SealOutput>,
    openInPlace: (AeadAlgorithm, seq<byte>, seq<byte>, seq<byte>, nat, seq<byte>) -> Option<seq<byte>>)

  /**
   * Sealing keeps the buffer's length, needs room for the tag, and reports the
   * plaintext length plus the tag length as its output size.
   */
  ghost predicate SealKeepsShape(ring: Primitives) {
    forall alg: AeadAlgorithm, key: seq<byte>, nonce: seq<byte>, aad: seq<byte>, inOut: seq<byte>, suffix: nat ::
      var out := ring.sealInPlace(alg, key, nonce, aad, inOut, suffix);
      out.Some? ==>
        && alg.TagLen() <= suffix <= |inOut|
        && |out.value.inOut| == |inOut|
        && out.value.size == |inOut| - suffix + alg.TagLen()
  }

  /**
   * AEAD correctness: opening the sealed output with the same key, nonce and
   * additional data gives back the plaintext that was sealed.
   */
  ghost predicate OpenInvertsSeal(ring: Primitives) {
    forall alg: AeadAlgorithm, key: seq<byte>, nonce: seq<byte>, aad: seq<byte>, inOut: seq<byte>, suffix: nat ::
      var out := ring.sealInPlace(alg, key, nonce, aad, inOut, suffix);
      out.Some? && suffix <= |inOut| && out.value.size <= |out.value.inOut| ==>
        ring.openInPlace(alg, key, nonce, aad, 0, out.value.inOut[..out.value.size])
          == Some(inOut[..|inOut| - suffix])
  }

  /**
   * The process-wide secure random source. `drawn` records every block it has
   * handed out, oldest first; the bytes themselves are arbitrary.
   */
  class Rng {
    ghost var drawn: seq<seq<byte>>

    constructor ()
      ensures drawn == []
    {
      drawn := [];
    }

    /** Fills `dest` with fresh random bytes, or fails and hands out nothing. */
    method Fill(dest: array<byte>) returns (ok: bool)
      modifies this, dest
      ensures ok ==> drawn == old(drawn) + [dest[..]]
      ensures !ok ==> drawn == old(drawn)
    {
      ok :| true;
      if ok {
        // Writes the block byte by byte, as the source fills its vector; the
        // contract leaves the bytes arbitrary, so the loop only illustrates the fill.
        var i := 0;
        while i < dest.Length
          invariant 0 <= i <= dest.Length
          invariant drawn == old(drawn)
        {
          var b: byte :| true;
          dest[i] := b;
          i := i + 1;
        }
        drawn := drawn + [dest[..]];
      }
    }
  }

  /** `after` is `before` with at most one more block, of length `n`, drawn. */
  ghost predicate AtMostOneDraw(before: seq<seq<byte>>, after: seq<seq<byte>>, n: nat) {
    after == before || (exists block :: |block| == n && after == before + [block])
  }
}
