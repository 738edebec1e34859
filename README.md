# SSH key-pair factory (terraform-provider-sshkey, package `keygen`)

A Dafny model of the key-pair factory in `internal/keygen/keygen.go`. A caller passes a
configuration: key type, RSA bit size, comment and passphrase. `New` resolves the defaults,
runs the generator for that type and returns an `SSHKeyPair` holding the private key. The pair
then derives, on request, its OpenSSH private-key PEM, its authorized_keys line with the comment
appended, and the MD5 and SHA-256 fingerprints.

Files:

- `wrappers.dfy` (module `Wrappers`): `Option` and `Result`.
- `text.dfy` (module `Text`): Go's `bytes.TrimSpace` over ASCII white space, as the scans `SkipSpace` and `BackSpace`,
  `TrimRight` and `TrimSpace`, plus lemmas about trimming concatenations.
- `crypto.dfy` (module `Crypto`): the key and encoding types, and two records of library
  routines that the caller hands in. `Generators` holds the key generators and RSA's `Validate`.
  `Library` holds the ssh and pem encoders and the fingerprints. The model never looks inside a
  key. It records which routine is called, with which arguments, and what is done with the answer.
- `keygen.dfy` (module `Keygen`): the error type and its messages, the comment and bit-size
  defaults, and the mutable config class `SSHKeyPairConfig`. It also holds the class `SSHKeyPair`
  with its three generate methods and its accessors, written as `reads this` functions. Then come
  `New`, the lemmas about the accessors, and three whole-call scenarios.

Two behaviours of the code are easy to miss:

- The private-key encoder never reports an unsupported type. `PrivateKey()` already returns nil
  for such a type, so the missing-keys error comes first.
- The public key is trimmed after the comment is appended. A trailing line feed or other white
  space at the end of the comment is therefore not kept byte for byte.

## Model

| member | source | states |
|---|---|---|
| `Text.TrimSpace` | internal/keygen/keygen.go:230 | The result is a contiguous slice of the input with only white space before and after it, and it has no white space at either end, so interior white space is kept. It is empty exactly when the input is all white space. |
| `Text.TrimSpaceAfterWord` | internal/keygen/keygen.go:230 | Trimming "word + ' ' + text", for a trimmed non-empty word, gives the word followed by a space and the text without its trailing white space. If the text is all white space, only the word is left. |
| `Keygen.Message` | internal/keygen/keygen.go:52-59 | The message of an unsupported-type error parses back to exactly that type. It is "unsupported key type" for the empty type and "unsupported key type: T" otherwise. |
| `Keygen.UnsupportedMessageInjective` | internal/keygen/keygen.go:52-59 | Two unsupported types with the same message are the same type. |
| `Keygen.FromLibrary` | internal/keygen/keygen.go:108-114 | An encoder's error is passed on unwrapped: the resulting error's message is the library's text, and a success value is kept. |
| `Keygen.GetSSHKeyComment` | internal/keygen/keygen.go:285-297 | The result is "" exactly when the user lookup or the host lookup fails. Otherwise it ends in a line feed, preceded by "user@host". |
| `Keygen.ResolveComment` | internal/keygen/keygen.go:249-251 | A non-empty comment is kept, and an empty one becomes the default comment of `GetSSHKeyComment`. The resolved comment is empty only if the configured one was empty and a lookup failed. |
| `Keygen.ResolveBits` | internal/keygen/keygen.go:259-263 | The bit size changes only for RSA with 0, which becomes 4096. Every other value, for every type, is kept unclamped, and an RSA pair never records 0 bits. |
| `Keygen.GenerateED25519` | internal/keygen/keygen.go:121-131 | Succeeds exactly when the generator does, with an Ed25519 key. Otherwise the error is wrapped as "failed to generate key". |
| `Keygen.GenerateECDSA` | internal/keygen/keygen.go:134-144 | Succeeds exactly when the generator for the given curve does, with an ECDSA key. Otherwise the error is wrapped as "failed to generate key". |
| `Keygen.GenerateRSA` | internal/keygen/keygen.go:147-162 | Yields a key only if generation succeeds and `Validate` accepts the key. A generation failure and a validation failure are reported as distinct wrapped errors. |
| `Keygen.Generate` | internal/keygen/keygen.go:265-274 | ed25519 runs the Ed25519 generator, rsa runs the RSA generator with the given bit size, and ecdsa runs the ECDSA generator on P-384; each result is passed on as it is. A success is always of the variant the type calls for. The result is the unsupported-type error carrying the type exactly when the type is not one of the three. |
| `Keygen.SSHKeyPairConfig.constructor` | internal/keygen/keygen.go:79-89 | The configuration holds exactly the type, bit size, comment and passphrase it is built from. |
| `Keygen.SSHKeyPair.constructor` | internal/keygen/keygen.go:253-257 | The new pair carries the config's type, passphrase and comment, with no bit size and no key yet. |
| `Keygen.SSHKeyPair.GenerateED25519Keys` | internal/keygen/keygen.go:121-131 | Stores the generated Ed25519 key and returns no error. On failure it returns the wrapped error and leaves the stored key alone. |
| `Keygen.SSHKeyPair.GenerateECDSAKeys` | internal/keygen/keygen.go:134-144 | Stores the generated ECDSA key for the curve it is given. On failure it returns the wrapped error and leaves the stored key alone. |
| `Keygen.SSHKeyPair.GenerateRSAKeys` | internal/keygen/keygen.go:147-162 | Generates with the pair's own bit size and stores the key only if it validates. Otherwise it returns the generation or validation error and leaves the stored key alone. |
| `Keygen.SSHKeyPair.PrivateKey` | internal/keygen/keygen.go:165-172 | Non-nil exactly when the type is supported and a key is stored, and then it is the stored key. |
| `Keygen.SSHKeyPair.PemBlock` | internal/keygen/keygen.go:100-118 | The corrected block. It is the missing-keys error exactly when the type is unsupported or no key is stored, so the unsupported-type branch is unreachable. Otherwise the encryptor is used, with the pair's passphrase, exactly when the passphrase is non-empty, and the comment goes into the block in both cases. |
| `Keygen.SSHKeyPair.PrivateKeyPEM` | internal/keygen/keygen.go:175-182 | Built on the corrected `PemBlock`, while the source's `PrivateKeyPEM` builds on the block as written (see Findings). nil exactly when building the block fails. Otherwise it is the PEM encoding of that block. |
| `Keygen.SSHKeyPair.PublicKeyRaw` | internal/keygen/keygen.go:184-217 | Non-nil exactly when the stored key's variant matches the type. It is then the public half of that stored key. |
| `Keygen.SSHKeyPair.PublicKey` | internal/keygen/keygen.go:221-231 | nil exactly when the ssh public key cannot be built. Otherwise it has no white space at either end. |
| `Keygen.SSHKeyPair.MD5` | internal/keygen/keygen.go:233-237 | Defined exactly when `PublicKey` is, as the MD5 fingerprint of the same ssh public key. |
| `Keygen.SSHKeyPair.SHA256` | internal/keygen/keygen.go:239-243 | Defined exactly when `PublicKey` is, as the SHA-256 fingerprint of the same ssh public key. |
| `Keygen.ValidPairPassesGuards` | internal/keygen/keygen.go:165-217 | For a pair whose key matches its type, `PrivateKey` returns the stored key and `PublicKeyRaw` is non-nil. The PEM block is never the missing-keys error. |
| `Keygen.MismatchHasNoPublicKey` | internal/keygen/keygen.go:184-243 | When the stored key does not match the type, or the type is unsupported, the nil public key is rejected, so there is no public key and both fingerprints take the nil-key path. This holds for any encoder that rejects nil. |
| `Keygen.PublicKeyWithComment` | internal/keygen/keygen.go:221-231 | The public key is the trimmed authorized_keys line, then a space and the comment without its trailing white space. If the comment is all white space, it is the line alone. |
| `Keygen.DefaultCommentTrimmed` | internal/keygen/keygen.go:285-297 | Trimming the default comment "user@host\n" on the right leaves "user@" followed by the host without its trailing white space. |
| `Keygen.PublicKeyDefaultComment` | internal/keygen/keygen.go:221-231 | With the default comment, the public key is the line, a space and "user@host", with the default's line feed removed. |
| `Keygen.PublicKeyHasNoLineBreak` | internal/keygen/keygen_test.go:63-65 | If neither the line nor the kept part of the comment has a line feed, the public key has none. |
| `Keygen.SSHKeyPair.PemBlockAsWritten` | internal/keygen/keygen.go:100-118 | The block as written. It has the same missing-keys guard and never returns the unsupported-type error. It equals the corrected block when there is no passphrase, and under a passphrase the encryptor is called with an empty passphrase. |
| `Keygen.PassphraseNeverReachesEncryptor` | internal/keygen/keygen.go:110 | For a pair with passphrase "secret", a recording encryptor sees no passphrase as written and sees "secret" in the corrected version. |
| `Keygen.New` | internal/keygen/keygen.go:246-281 | The caller's comment is replaced by the default when empty, whether or not the call succeeds. On success the pair has the resolved type, passphrase, comment and bits, and a key of the matching variant. On failure there is no pair, only the error: unsupported type, generation or validation. |
| `Keygen.UnsupportedTypeStillDefaultsComment` | internal/keygen/keygen.go:246-274 | New on "dsa" returns no pair and the error "unsupported key type: dsa", yet the caller's empty comment has become the default. |
| `Keygen.RsaWithDefaultBits` | internal/keygen/keygen_test.go:25-36 | An RSA config with no bit size yields a pair recording 4096 bits and holding the key generated at 4096 bits. |
| `Keygen.Ed25519WithDefaults` | internal/keygen/keygen_test.go:38-67 | With default comment and no passphrase, an Ed25519 pair has a non-empty PEM and a non-empty public key without line feeds, given encoders that produce output. |

## Left out

- Cryptography and encoding: RSA, Ed25519 and ECDSA P-384 generation, RSA `Validate`, the
  OpenSSH private-key marshalling, `pem.EncodeToMemory`, `ssh.NewPublicKey`, the authorized_keys
  encoding (section 6.6 of RFC 4253) and both fingerprints. These are library calls, so they are
  fields of `Generators` and `Library`, not definitions. Keys are opaque, and `key.Public()` is
  modelled as naming the private key the public half came from.
- Randomness: the secure random source is a fixed `Generators` record per call. Generating twice
  from the same record gives the same key.
- Keygen.New: the contract cannot say that no generator runs for an unsupported type. The
  generators are values here, so running one leaves no trace. The method body returns before
  calling any of them, as the source does.
- Keygen.SSHKeyPair.PublicKey: only the six ASCII white-space characters are trimmed. Go's
  `bytes.TrimSpace` also trims Unicode spaces such as U+0085 and U+00A0.
- Keygen.SSHKeyPair.MD5: the source ignores the `NewPublicKey` error and then fingerprints a nil
  key, which panics. `None` stands for that panic. The same applies to `Keygen.SSHKeyPair.SHA256`.
- `ssh.NewPublicKey` rejecting nil is not built into `Library`. It is the premise `RejectsNil` of
  `Keygen.MismatchHasNoPublicKey`, because the encoder's type switch is library code.
- `PublicKey` returns text as a `string`. The source returns the UTF-8 bytes of the same text.
- The stored `crypto.PrivateKey` can hold only nil or one of the three key pointers, because
  those are the only values this package stores there. Other dynamic types and typed nil pointers
  are not modelled.
- `FilesystemError`: nothing in the package uses it.
- The lists `SSHKeyTypes`, `SSHKeyTypesStrings` and `SSHRsaBits` are not modelled. They feed only
  the provider's schema validators.
- internal/provider/sshkey_pair_resource.go, internal/provider/provider.go and main.go are not
  part of this model. They are Terraform plumbing. Two facts about them matter to callers:
  - An unknown type string reaches `New` as the empty type, so the message is plain
    "unsupported key type".
  - The bit size is cast from int64 to uint16 before it gets here.
- The user and host lookups are the `Env` parameter (`Option<string>` each). They are not
  calls to the operating system.

## Findings

| source | as written | input that shows it | evidently intended | confidence | as-written member | corrected member |
|---|---|---|---|---|---|---|
| internal/keygen/keygen.go:110 | Under a non-empty passphrase, `ssh.MarshalPrivateKeyWithPassphrase` receives `nil` as its passphrase argument, so the pair's passphrase is never used. | A pair with passphrase "secret": the encryptor is handed no passphrase (`Keygen.PassphraseNeverReachesEncryptor`). | Pass `s.Passphrase`, so the key is encrypted under the configured passphrase. | high, not executed | `Keygen.SSHKeyPair.PemBlockAsWritten` | `Keygen.SSHKeyPair.PemBlock` |

`PrivateKeyPEM` is built on the corrected `PemBlock`. Both blocks share the guard and the type
switch (`Keygen.MarshalPemBlock`) and differ only in the passphrase handed to the encryptor.
