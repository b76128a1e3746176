# JSON Web Algorithms layer, modelled in Dafny

This project models the algorithm layer of a JOSE library (`src/jwa.rs`). That layer
implements JSON Web Algorithms (RFC 7518) on top of the `ring` cryptography crate. It has
three parts:

- **The algorithm catalog.** Three closed families cover digital signature and MAC
  algorithms (section 3.1 of RFC 7518), key-management algorithms (section 4.1) and
  content-encryption algorithms (section 5.1). An untagged union spans all three. Each
  value has a wire token, each family has a default, and every key-management algorithm
  gets a classification.
- **Dispatch and error logic.** `sign`, `verify`, `cek`, `encrypt`, `decrypt` and
  `generate_key` have four outcomes for each algorithm and each kind of secret or key:
  - a result;
  - `UnsupportedOperation`;
  - an invalid-secret or wrong-key-type error;
  - past those checks, an unspecified cryptographic error: a rejected AES key length, a failed
    random draw, a failed seal or open (an authentication failure included), or a failed RSA
    signature.

  Secrets and keys are checked in a fixed order.
- **AES-GCM framing.** Used for content encryption (section 5.3 of RFC 7518) and key
  wrapping (section 4.7). To encrypt, the payload is extended by room for a 16-byte tag and
  sealed in place under a freshly drawn 12-byte nonce. The sealed buffer is then cut into
  ciphertext and tag. Decryption joins ciphertext and tag again and opens them in place.

Modules, one per file:

| file | module | contents |
|---|---|---|
| `base.dfy` | `Base` | bytes, `Option`, zero padding, JSON Web Key types |
| `errors.dfy` | `Errors` | the library's error kinds and `Result` |
| `catalog.dfy` | `Catalog` | the algorithm families, tokens, defaults, `algorithm_type` |
| `jwk.dfy` | `Jwk` | the parts of a JSON Web Key the layer uses |
| `jws.dfy` | `Jws` | the four kinds of signing secret |
| `ring.dfy` | `Ring` | the `ring` primitives as opaque functions, and the random source |
| `signature.dfy` | `Signature` | signing and verification |
| `gcm.dfy` | `Gcm` | the free `aes_gcm_encrypt` / `aes_gcm_decrypt` framing |
| `content_encryption.dfy` | `ContentEncryption` | key generation and content encryption |
| `key_management.dfy` | `KeyManagement` | content encryption key derivation, key wrap and unwrap |

The `ring` primitives are opaque:
- HMAC, RSA signing, signature verification, and AES-GCM seal and open in place are
  function-valued fields of `Ring.Primitives`, passed to every operation that uses them.
- Three facts about them are assumed, each as a predicate that the operations and lemmas
  needing it require:
  - `Ring.SealKeepsShape`: sealing keeps the buffer's length and reports a size that ends with the tag.
  - `Ring.OpenInvertsSeal`: opening what was sealed, under the same key, nonce and additional
    data, gives the plaintext back.
  - `Signature.RsaKeysMatch`: a key pair and a public key belong together, so every RSA
    signature the key pair produces verifies under the public key with the same padding
    and digest.
- One fact is fixed in the model itself: `ring`'s AES-GCM sealing and opening key
  constructors accept exactly `AeadAlgorithm.KeyLen()` bytes (16 for AES-128-GCM, 32 for
  AES-256-GCM) and reject any other key, which surfaces as an unspecified cryptographic error.

The process-wide random source is `Ring.Rng`:
- `Fill` may fill a buffer with arbitrary bytes or fail.
- A ghost history `drawn` records every block it has handed out. Contracts use it to state
  that a nonce or key is one fresh draw, and that a rejected call drew nothing.

Every operation that fills a buffer from the random source is a `method` working on arrays
and sequences, as the source works on vectors:
- `generate_key`
- the GCM encryptions
- `cek`
- the key-management and content `encrypt`

The rest of the layer is a set of pure `match` expressions and is modelled as functions:
- the catalog
- signing and verification
- `cek_direct`

The decrypting operations build a buffer (ciphertext followed by tag) and open it in place.
They are methods, each proved to compute a function of its inputs:
- `Gcm.AesGcmDecrypt` computes `Gcm.Opened`;
- `ContentEncryption.Decrypt` / `AesGcmDecrypt` compute `Gcm.Opened` for A128GCM and A256GCM;
- `KeyManagement.Decrypt` / `AesGcmDecrypt` compute `KeyManagement.AsContentKey` of `Gcm.Opened`
  for A128GCMKW and A256GCMKW.

The source's key-management enum has 17 values: the full list of section 4.1 of RFC 7518.

## Model

| member | source | states |
|---|---|---|
| Catalog.SignatureToken | src/jwa.rs:39-75 | the wire token of each signature algorithm: `"none"`, otherwise the variant name (its round trip is `SignatureTokenRoundTrip`) |
| Catalog.KeyManagementToken | src/jwa.rs:77-127 | the wire token of each key-management algorithm: the serde rename, otherwise the variant name (round trip: `KeyManagementTokenRoundTrip`) |
| Catalog.ContentEncryptionToken | src/jwa.rs:145-166 | the wire token of each content-encryption algorithm (round trip: `ContentEncryptionTokenRoundTrip`) |
| Catalog.AlgorithmToken | src/jwa.rs:22-37 | an untagged `Algorithm` is written as its family's token alone (round trip: `AlgorithmTokenRoundTrip`) |
| Catalog.AlgorithmFromToken | src/jwa.rs:22-37 | untagged decoding succeeds iff some family knows the token, and then returns an algorithm whose token it is |
| Catalog.DefaultSignatureAlgorithm | src/jwa.rs:182-186 | the default signature algorithm (stated by `DefaultTokens`) |
| Catalog.DefaultKeyManagementAlgorithm | src/jwa.rs:188-192 | the default key-management algorithm (stated by `DefaultTokens`) |
| Catalog.DefaultContentEncryptionAlgorithm | src/jwa.rs:194-198 | the default content-encryption algorithm (stated by `DefaultTokens`) |
| Catalog.SignatureTokenRoundTrip | src/jwa.rs:39-75 | decoding a signature algorithm's token (`"none"` or the variant name) gives the algorithm back, and only its own token decodes to it |
| Catalog.KeyManagementTokenRoundTrip | src/jwa.rs:77-127 | the same for the 17 key-management tokens, including the renames `RSA-OAEP`, `dir`, `ECDH-ES+A128KW`, `PBES2-HS256+A128KW` |
| Catalog.ContentEncryptionTokenRoundTrip | src/jwa.rs:145-166 | the same for the six content-encryption tokens, including the renames `A128CBC-HS256` etc. |
| Catalog.SignatureFromToken | src/jwa.rs:39-75 | a signature token is only ever read back as the algorithm whose token it is |
| Catalog.KeyManagementFromToken | src/jwa.rs:77-127 | a key-management token is only ever read back as the algorithm whose token it is |
| Catalog.ContentEncryptionFromToken | src/jwa.rs:145-166 | a content-encryption token is only ever read back as the algorithm whose token it is |
| Catalog.SignatureTokensForeign | src/jwa.rs:22-37 | no signature token decodes as a key-management or content-encryption algorithm |
| Catalog.KeyManagementTokensForeign | src/jwa.rs:22-37 | no key-management token decodes in the other two families |
| Catalog.ContentEncryptionTokensForeign | src/jwa.rs:22-37 | no content-encryption token decodes in the other two families |
| Catalog.AlgorithmTokenRoundTrip | src/jwa.rs:22-37 | untagged decoding, which tries signature, then key management, then content encryption, gives back any `Algorithm` from its token |
| Catalog.AlgorithmTokenCanonical | src/jwa.rs:22-37 | a token that decodes to an algorithm is exactly that algorithm's token |
| Catalog.AlgorithmTokenInjective | src/jwa.rs:22-166 | two algorithms have the same token iff they are equal, across all three families |
| Catalog.AlgorithmType | src/jwa.rs:337-355 | (through `NamedAfter`) the classification is total and agrees with the naming of section 4.1 of RFC 7518: asymmetric encryption iff the token starts with "RSA"; direct encryption iff "dir"; direct key agreement iff "ECDH-ES"; agreement with wrapping iff it starts with "ECDH-ES+"; symmetric wrapping iff it ends in "KW" and is not an ECDH-ES wrap |
| Catalog.DefaultTokens | src/jwa.rs:182-198 | the defaults are HS256 (an HMAC), `dir` (direct encryption) and A128GCM |
| Jwk.OctetKeyBytes | src/jwa.rs:565 | a key's bytes are available iff it is an octet key; otherwise the error is a wrong key type, expecting an octet key and naming the actual type |
| Jwk.CloneWithoutAdditional | src/jwa.rs:374 | the copy keeps the common parameters and the key material |
| Signature.SignNone | src/jwa.rs:227-233 | `none` signs to the empty signature iff the secret is `None`, otherwise it fails with the "`None` should be provided" message |
| Signature.SignHmac | src/jwa.rs:235-249 | HMAC signing succeeds iff the secret is bytes, with the primitive's MAC under the algorithm's digest; otherwise it fails with the "byte array is required" message |
| Signature.SignRsa | src/jwa.rs:251-271 | RSA signing with a non-key-pair secret fails with the "RSAKeyPair is required" message; a key-pair secret gives the primitive's signature under the algorithm's padding and digest, or an unspecified cryptographic error exactly when the primitive fails |
| Signature.SignEcdsa | src/jwa.rs:273-280 | ECDSA signing is unsupported, whatever the secret |
| Signature.Sign | src/jwa.rs:202-211 | ECDSA is unsupported; a secret of the wrong kind fails with that kind's message; success implies the right kind; with the right kind, only RSA can fail, with an unspecified cryptographic error |
| Signature.VerifyNone | src/jwa.rs:282-288 | with a `None` secret, `none` verifies exactly the empty signature, whatever the data; any other secret is an error |
| Signature.VerifyHmac | src/jwa.rs:290-297 | HMAC verification is true iff the given signature equals the recomputed MAC; a non-bytes secret is an error |
| Signature.VerifyPublicKey | src/jwa.rs:299-332 | the secret is checked first (non-public-key → the "PublicKey is required" message); then ES512 is unsupported; otherwise the primitive's verdict is returned as `Ok` |
| Signature.Verify | src/jwa.rs:214-224 | verification errs iff the secret is of the wrong kind (with that kind's message) or, with the right kind, the algorithm is ES512 |
| Signature.NoneSignsEmpty | src/jwa.rs:616-625 | `none` signs to `[]` iff the secret is `None`, and then verifies a signature iff it is empty |
| Signature.HmacVerifyIffSigned | src/jwa.rs:781-788 | with a bytes secret, HMAC verification answers exactly whether the signature equals what signing produces |
| Signature.PublicKeyVerdict | src/jwa.rs:791-822 | RSA, ES256 and ES384 verification with a public key return the primitive's verdict, so a rejected signature is `Ok(false)`, never an error |
| Signature.RsaTablesAgree | src/jwa.rs:251-271 | each RSA algorithm signs and verifies with the same padding scheme and digest |
| Signature.RsaSignThenVerify | src/jwa.rs:673-688 | an RSA signature made with a key pair verifies under the matching public key |
| Signature.DigestNamedByToken | src/jwa.rs:235-249 | every digest used for HMAC, RSA, ES256 and ES384 is the one the algorithm's token names in its last three characters |
| Ring.Rng.Fill | src/jwa.rs:572 | filling a buffer either hands out exactly its new contents as one fresh block, or fails and hands out nothing |
| Gcm.Sealed | src/jwa.rs:568-580 | encryption succeeds iff sealing does; the nonce and additional data are echoed; the ciphertext has the payload's length; the tag is 16 bytes; ciphertext followed by tag is the sealed buffer |
| Gcm.AesGcmEncrypt | src/jwa.rs:554-581 | a non-octet key fails with a wrong key type and a key of the wrong length fails, both before any nonce is drawn; a success draws exactly one 12-byte nonce and is `Sealed` under it; any later failure is an unspecified cryptographic error |
| Gcm.Opened | src/jwa.rs:584-605 | a non-octet key is a wrong key type; a key of the wrong length is an unspecified error; otherwise decryption succeeds iff the primitive opens ciphertext followed by tag under the stored nonce and additional data, and returns what it opened |
| Gcm.AesGcmDecrypt | src/jwa.rs:584-605 | decryption is `Gcm.Opened`: the key checks, then opening ciphertext followed by tag with the stored nonce and additional data |
| Gcm.OpenedInvertsSealed | src/jwa.rs:831-872 | under a correct seal/open pair, decrypting a successful encryption with the same key gives the payload back |
| ContentEncryption.GeneratedKeysFit | src/jwa.rs:469-481 | exactly A128GCM and A256GCM generate keys, and their 16 and 32 bytes are what their AES-GCM sealing keys accept |
| ContentEncryption.GenerateKey | src/jwa.rs:469-481 | other algorithms are unsupported before any draw; a success is one fresh draw of 16 bytes (A128GCM) or 32 bytes (A256GCM) |
| ContentEncryption.Encrypt | src/jwa.rs:484-496 | A128GCM and A256GCM encrypt with their AES-GCM algorithm; every other content algorithm is unsupported and draws nothing |
| ContentEncryption.AesGcmEncrypt | src/jwa.rs:511-524 | A192GCM and anything else but A128GCM / A256GCM is unsupported at this level too |
| ContentEncryption.Decrypt | src/jwa.rs:499-509 | A128GCM and A256GCM decrypt as `Gcm.Opened`; every other content algorithm is unsupported |
| ContentEncryption.AesGcmDecrypt | src/jwa.rs:526-538 | the same dispatch one level down |
| ContentEncryption.EncryptThenDecrypt | src/jwa.rs:1013-1057 | whenever content encryption succeeds, decrypting its result gives the payload back, with the additional data echoed and a 16-byte tag |
| KeyManagement.WrapAlgorithmsAreSymmetric | src/jwa.rs:424-436 | only A128GCMKW and A256GCMKW have a wrapping AEAD, and both are symmetric key wraps |
| KeyManagement.ContentEncryptionKey | src/jwa.rs:379-393 | a derived key is an octet key with the given bytes, for encryption, tagged with its content algorithm |
| KeyManagement.CekDirect | src/jwa.rs:370-377 | `dir` succeeds iff the key is an octet key, with a copy of that key (same bytes); otherwise a wrong key type naming the actual type |
| KeyManagement.CekAesGcm | src/jwa.rs:379-393 | the content key is one fresh draw of the content algorithm's key length, tagged with that algorithm; an unsupported content algorithm draws nothing |
| KeyManagement.Cek | src/jwa.rs:358-368 | `dir` uses the given key and draws nothing; A128GCMKW / A256GCMKW derive a fresh key; everything else is unsupported and draws nothing |
| KeyManagement.Encrypt | src/jwa.rs:396-407 | `dir` gives the all-empty result without drawing; A128GCMKW / A256GCMKW wrap with empty additional data; everything else, A192GCMKW included, is unsupported and draws nothing |
| KeyManagement.AesGcmEncrypt | src/jwa.rs:424-436 | A192GCMKW is rejected here before any draw |
| KeyManagement.AsContentKey | src/jwa.rs:450-463 | the result is a key iff the unwrap succeeded; that key's octet bytes are exactly the unwrapped bytes, its use is encryption and its algorithm is the content algorithm; an unwrap error passes through unchanged |
| KeyManagement.Decrypt | src/jwa.rs:410-422 | `dir` returns the given key without its additional members; A128GCMKW / A256GCMKW unwrap into a content key; everything else is unsupported |
| KeyManagement.AesGcmDecrypt | src/jwa.rs:438-464 | A192GCMKW is rejected here; otherwise the unwrapped bytes are tagged with the content algorithm |
| KeyManagement.UnwrapInvertsWrap | src/jwa.rs:945-995 | under a correct seal/open pair, unwrapping a successful wrap gives back the wrapped bytes as a content key |
| KeyManagement.CekWrapUnwrap | src/jwa.rs:945-995 | for every key-management algorithm: when the content key is derived and wrapped, unwrapping gives back exactly the derived key |

## Left out

- The `ring` primitives have no definitions:
  - SHA-2, HMAC, RSA PKCS#1 v1.5 and PSS signing, RSA and ECDSA verification, AES-GCM.
  - They are opaque function-valued fields, and they are constrained only by `SealKeepsShape`, `OpenInvertsSeal` and `RsaKeysMatch`, where a contract requires them.
- The comparison of MACs is constant-time in the source. It is modelled as plain sequence equality, because timing is not expressible.
- The random source is a lazily initialised, process-wide, thread-safe singleton drawing OS entropy (src/jwa.rs:543-551). It is modelled as one `Ring.Rng` object passed to each operation, whose bytes are arbitrary.
- Signature.SignRsa: the opaque `rsaSign` is a function of padding, digest, key pair and data, because the rest depends on key internals:
  - allocating the signature buffer by the key's public modulus length, and the failure of constructing the signing state, are folded into `rsaSign` returning no signature;
  - the source draws a fresh PSS salt on every PS256/PS384/PS512 signature, so its PSS signatures are not deterministic; the model makes PSS signing deterministic, a function of its inputs.
- The source checks that `ring`'s tag and nonce lengths are 16 and 12 (src/jwa.rs:561-563, 589-591). The model has them as constants, `Ring.AeadAlgorithm.TagLen` and `NonceLen`.
- Serialization is modelled as the token table and its inverse, not as serde's machinery.
- The conversion of an invalid-secret message into the library's error is taken to produce a generic error carrying that message. Of `errors.rs`, `jwk.rs` and `jws.rs` only the interfaces this layer uses are modelled (`Errors`, `Jwk`, `Jws`).
- JSON Web Key members other than the key type, the octet bytes, the public-key use, the algorithm and the key id are not modelled. Elliptic-curve and RSA key material is opaque bytes.
- The tests check that a derived content key differs from the wrapping key. That only holds with overwhelming probability, not for every draw, so it is not stated.
- Tamper detection and nonce uniqueness are cryptographic, probabilistic properties and are not stated.
- The fixed HS256, RS256, PS256 and ECDSA test vectors depend on the real primitives, and are not stated.
- ContentEncryption.EncryptThenDecrypt: the tests' round trip is stated only for a successful encryption. Random-source or key failures make `encrypt` fail, and the contract then says nothing about decryption.
- KeyManagement.CekWrapUnwrap: the round trip is stated only when the content key is derived and wrapped successfully. For every other key-management algorithm both steps are unsupported.
