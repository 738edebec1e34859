/**
 * The cryptographic and encoding libraries the key-pair factory calls, seen from outside.
 * Key material is opaque; every library routine is a field of a record handed in by the
 * caller, so the model says which routine is called with which arguments and what is done
 * with its answer, and nothing about what the routine computes.
 */
module Crypto {
  import opened Wrappers

  newtype byte = x: int | 0 <= x < 0x100

  /** Elliptic curves of crypto/elliptic; the factory always asks for P-384. */
  datatype Curve = P256 | P384 | P521

  /** Private keys as crypto/rsa, crypto/ed25519 and crypto/ecdsa hand them out. */
  datatype RsaKey = RsaKey(material: seq<byte>)
  datatype Ed25519Key = Ed25519Key(material: seq<byte>)
  datatype EcdsaKey = EcdsaKey(curve: Curve, material: seq<byte>)

  /**
   * The value a `crypto.PrivateKey` field can hold in this program: nil, or a pointer to
   * one of the three private-key types.
   */
  datatype RawKey = NoKey | Rsa(rsa: RsaKey) | Ed25519(ed: Ed25519Key) | Ecdsa(ec: EcdsaKey)

  /** The public half of a private key, identified by the private key it was taken from (`key.Public()`). */
  datatype PubKey = RsaPublic(ofRsa: RsaKey) | Ed25519Public(ofEd: Ed25519Key) | EcdsaPublic(ofEc: EcdsaKey)

  /** An `ssh.PublicKey`: the key in the wire format of section 6.6 of RFC 4253. */
  datatype SshPublicKey = SshPublicKey(blob: seq<byte>)

  /** A `pem.Block`: type line, headers and the bytes it wraps. */
  datatype Block = Block(blockType: string, headers: map<string, string>, bytes: seq<byte>)

  /**
   * The key generators, drawing on the process's secure random source, and RSA's
   * consistency check. A fixed record stands for one run's worth of randomness.
   */
  datatype Generators = Generators(
    ed25519: Result<Ed25519Key, string>,        // ed25519.GenerateKey(rand.Reader)
    ecdsa: Curve -> Result<EcdsaKey, string>,   // ecdsa.GenerateKey(curve, rand.Reader)
    rsa: int -> Result<RsaKey, string>,         // rsa.GenerateKey(rand.Reader, bits)
    validate: RsaKey -> Option<string>          // (*rsa.PrivateKey).Validate(): None when the key is consistent
  )

  /** The encoders of golang.org/x/crypto/ssh and encoding/pem. */
  datatype Library = Library(
    marshalPrivateKey: (RawKey, string) -> Result<Block, string>,
    marshalPrivateKeyWithPassphrase: (RawKey, string, seq<byte>) -> Result<Block, string>,
    encodeToMemory: Block -> seq<byte>,
    newPublicKey: Option<PubKey> -> Result<SshPublicKey, string>,
    marshalAuthorizedKey: SshPublicKey -> string,
    fingerprintLegacyMD5: SshPublicKey -> string,
    fingerprintSHA256: SshPublicKey -> string
  )
}
