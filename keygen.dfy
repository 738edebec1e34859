/**
 * The key-pair factory: a configuration goes in, an `SSHKeyPair` holding one freshly
 * generated private key comes out, and the pair derives on request its OpenSSH PEM block,
 * its authorized_keys line and two fingerprints.
 */
module Keygen {
  import opened Wrappers
  import opened Text
  import opened Crypto

  newtype uint16 = x: int | 0 <= x < 0x1_0000

  /** A key type is any string; three of them are supported. */
  type KeyType = string

  const RSA: KeyType := "rsa"
  const ED25519: KeyType := "ed25519"
  const ECDSA: KeyType := "ecdsa"

  const RsaDefaultBits: uint16 := 4096

  predicate IsSupported(t: KeyType) {
    t == RSA || t == ED25519 || t == ECDSA
  }

  /** The stored private key is of the variant the key type calls for. */
  predicate Matches(t: KeyType, key: RawKey) {
    (t == RSA && key.Rsa?) || (t == ED25519 && key.Ed25519?) || (t == ECDSA && key.Ecdsa?)
  }

  // ---------------------------------------------------------------------------
  // Errors

  datatype Error =
    | UnsupportedKeyType(keyType: KeyType)
    | MissingSSHKeys
    | GenerateFailed(cause: string)   // wrapped with "failed to generate key: "
    | ValidateFailed(cause: string)   // wrapped with "failed to validate key: "
    | LibraryError(cause: string)     // returned by the ssh encoders as they are

  const UnsupportedKeyTypeText: string := "unsupported key type"
  const MissingSSHKeysText: string :=
    "missing one or more keys; did something happen to them after they were generated?"

  /** The text of an error, as its `Error()` method gives it. */
  function Message(e: Error): (m: string)
    ensures e.UnsupportedKeyType? ==> ParseUnsupportedKeyType(m) == Some(e.keyType)
  {
    match e
    case UnsupportedKeyType(t) =>
      if t != "" then UnsupportedKeyTypeText + ": " + t else UnsupportedKeyTypeText
    case MissingSSHKeys => MissingSSHKeysText
    case GenerateFailed(cause) => "failed to generate key: " + cause
    case ValidateFailed(cause) => "failed to validate key: " + cause
    case LibraryError(cause) => cause
  }

  /** Reads back the offending key type from an unsupported-type message. */
  function ParseUnsupportedKeyType(m: string): Option<KeyType> {
    var prefix := UnsupportedKeyTypeText + ": ";
    if m == UnsupportedKeyTypeText then Some("")
    else if |prefix| < |m| && m[..|prefix|] == prefix then Some(m[|prefix|..])
    else None
  }

  /** Two unsupported types never share a message, so the message names the type exactly. */
  lemma UnsupportedMessageInjective(t1: KeyType, t2: KeyType)
    requires Message(UnsupportedKeyType(t1)) == Message(UnsupportedKeyType(t2))
    ensures t1 == t2
  {
    assert Some(t1) == ParseUnsupportedKeyType(Message(UnsupportedKeyType(t1)));
  }

  /** An error that stands for the library's failure text. */
  function FromLibrary<T>(r: Result<T, string>): (q: Result<T, Error>)
    ensures q.Success? <==> r.Success?
    ensures r.Success? ==> q.value == r.value
    ensures r.Failure? ==> q.error == LibraryError(r.error) && Message(q.error) == r.error
  {
    match r
    case Success(v) => Success(v)
    case Failure(e) => Failure(LibraryError(e))
  }

  // ---------------------------------------------------------------------------
  // Configuration

  /** The user name and host name lookups, each of which may fail. */
  datatype Env = Env(user: Option<string>, hostname: Option<string>)

  /** The default comment "<user>@<host>\n", or "" when either lookup fails. */
  function GetSSHKeyComment(env: Env): (r: string)
    ensures r == "" <==> env.user.None? || env.hostname.None?
    ensures r != "" ==> r[|r| - 1] == '\n' && r[..|r| - 1] == env.user.value + "@" + env.hostname.value
  {
    match (env.user, env.hostname)
    case (Some(user), Some(host)) => user + "@" + host + "\n"
    case _ => ""
  }

  /** The comment a pair ends up with: the configured one, or the default when none is set. */
  function ResolveComment(comment: string, env: Env): (r: string)
    ensures comment != "" ==> r == comment
    ensures comment == "" ==> r == GetSSHKeyComment(env)
    ensures r == "" <==> comment == "" && (env.user.None? || env.hostname.None?)
  {
    if comment == "" then GetSSHKeyComment(env) else comment
  }

  /** The bit size a pair records: 0 becomes 4096 for RSA; nothing else is changed or clamped. */
  function ResolveBits(t: KeyType, bits: uint16): (r: uint16)
    ensures r != bits <==> t == RSA && bits == 0
    ensures r != bits ==> r == RsaDefaultBits
    ensures t == RSA ==> r != 0
  {
    if bits == 0 && t == RSA then RsaDefaultBits else bits
  }

  /** The caller's configuration; `New` writes the defaulted comment back into it. */
  class SSHKeyPairConfig {
    var keyType: KeyType
    var bits: uint16
    var comment: string
    var passphrase: seq<byte>

    constructor (keyType: KeyType, bits: uint16, comment: string, passphrase: seq<byte>)
      ensures this.keyType == keyType && this.bits == bits
      ensures this.comment == comment && this.passphrase == passphrase
    {
      this.keyType := keyType;
      this.bits := bits;
      this.comment := comment;
      this.passphrase := passphrase;
    }
  }

  // ---------------------------------------------------------------------------
  // Generation, as specifications of the generate methods

  /** What generating an Ed25519 key yields. */
  function GenerateED25519(gen: Generators): (r: Result<RawKey, Error>)
    ensures r.Success? <==> gen.ed25519.Success?
    ensures r.Success? ==> r.value == Ed25519(gen.ed25519.value)
    ensures r.Failure? ==> r.error == GenerateFailed(gen.ed25519.error)
  {
    match gen.ed25519
    case Success(k) => Success(Ed25519(k))
    case Failure(e) => Failure(GenerateFailed(e))
  }

  /** What generating an ECDSA key on `curve` yields. */
  function GenerateECDSA(gen: Generators, curve: Curve): (r: Result<RawKey, Error>)
    ensures r.Success? <==> gen.ecdsa(curve).Success?
    ensures r.Success? ==> r.value == Ecdsa(gen.ecdsa(curve).value)
    ensures r.Failure? ==> r.error == GenerateFailed(gen.ecdsa(curve).error)
  {
    match gen.ecdsa(curve)
    case Success(k) => Success(Ecdsa(k))
    case Failure(e) => Failure(GenerateFailed(e))
  }

  /** What generating an RSA key of `bits` bits yields: a key only if it also passes the consistency check. */
  function GenerateRSA(gen: Generators, bits: int): (r: Result<RawKey, Error>)
    ensures r.Success? <==> gen.rsa(bits).Success? && gen.validate(gen.rsa(bits).value).None?
    ensures r.Success? ==> r.value == Rsa(gen.rsa(bits).value)
    ensures r.Failure? && gen.rsa(bits).Failure? ==> r.error == GenerateFailed(gen.rsa(bits).error)
    ensures r.Failure? && gen.rsa(bits).Success? ==> r.error == ValidateFailed(gen.validate(gen.rsa(bits).value).value)
  {
    match gen.rsa(bits)
    case Failure(e) => Failure(GenerateFailed(e))
    case Success(k) =>
      match gen.validate(k)
      case Some(e) => Failure(ValidateFailed(e))
      case None => Success(Rsa(k))
  }

  /** The dispatch of `New`: which generator a key type runs, and the error for the others. */
  function Generate(t: KeyType, bits: uint16, gen: Generators): (r: Result<RawKey, Error>)
    ensures r.Success? ==> Matches(t, r.value)
    ensures !IsSupported(t) <==> r == Failure(UnsupportedKeyType(t))
    ensures r.Failure? ==> !r.error.MissingSSHKeys? && !r.error.LibraryError?
    ensures t == ED25519 ==> r == GenerateED25519(gen)
    ensures t == RSA ==> r == GenerateRSA(gen, bits as int)
    ensures t == ECDSA ==> r == GenerateECDSA(gen, P384)
  {
    if t == ED25519 then GenerateED25519(gen)
    else if t == RSA then GenerateRSA(gen, bits as int)
    else if t == ECDSA then GenerateECDSA(gen, P384)
    else Failure(UnsupportedKeyType(t))
  }

  /**
   * The body of `pemBlock` for a given key and type: the missing-keys guard first, then the
   * switch on the type. `encrypt` is the passphrase test and `handed` is the passphrase the
   * encryptor receives.
   */
  function MarshalPemBlock(key: RawKey, t: KeyType, encrypt: bool, handed: seq<byte>, comment: string, lib: Library): Result<Block, Error> {
    if key == NoKey then Failure(MissingSSHKeys)
    else if IsSupported(t) then
      if encrypt then FromLibrary(lib.marshalPrivateKeyWithPassphrase(key, comment, handed))
      else FromLibrary(lib.marshalPrivateKey(key, comment))
    else Failure(UnsupportedKeyType(t))
  }

  // ---------------------------------------------------------------------------
  // The key pair

  class SSHKeyPair {
    var passphrase: seq<byte>
    var keyType: KeyType
    var bits: uint16
    var privateKeyRaw: RawKey
    var comment: string

    /** The stored key is of the variant its type calls for; every pair `New` returns is so. */
    predicate Valid()
      reads this
    {
      Matches(keyType, privateKeyRaw)
    }

    /** The struct literal of `New`: type, passphrase and comment set, no bit size, no key yet. */
    constructor (keyType: KeyType, passphrase: seq<byte>, comment: string)
      ensures this.keyType == keyType && this.passphrase == passphrase && this.comment == comment
      ensures bits == 0 && privateKeyRaw == NoKey
    {
      this.keyType := keyType;
      this.passphrase := passphrase;
      this.comment := comment;
      bits := 0;
      privateKeyRaw := NoKey;
    }

    method GenerateED25519Keys(gen: Generators) returns (err: Option<Error>)
      modifies this`privateKeyRaw
      ensures var g := GenerateED25519(gen);
        if g.Success? then err == None && privateKeyRaw == g.value
        else err == Some(g.error) && privateKeyRaw == old(privateKeyRaw)
    {
      var generated := gen.ed25519;
      if generated.Failure? {
        return Some(GenerateFailed(generated.error));
      }
      privateKeyRaw := Ed25519(generated.value);
      return None;
    }

    method GenerateECDSAKeys(gen: Generators, curve: Curve) returns (err: Option<Error>)
      modifies this`privateKeyRaw
      ensures var g := GenerateECDSA(gen, curve);
        if g.Success? then err == None && privateKeyRaw == g.value
        else err == Some(g.error) && privateKeyRaw == old(privateKeyRaw)
    {
      var generated := gen.ecdsa(curve);
      if generated.Failure? {
        return Some(GenerateFailed(generated.error));
      }
      privateKeyRaw := Ecdsa(generated.value);
      return None;
    }

    method GenerateRSAKeys(gen: Generators) returns (err: Option<Error>)
      modifies this`privateKeyRaw
      ensures var g := GenerateRSA(gen, old(bits) as int);
        if g.Success? then err == None && privateKeyRaw == g.value
        else err == Some(g.error) && privateKeyRaw == old(privateKeyRaw)
    {
      var generated := gen.rsa(bits as int);
      if generated.Failure? {
        return Some(GenerateFailed(generated.error));
      }
      var invalid := gen.validate(generated.value);
      if invalid.Some? {
        return Some(ValidateFailed(invalid.value));
      }
      privateKeyRaw := Rsa(generated.value);
      return None;
    }

    /** The stored key, but only under one of the three supported types; nil otherwise. */
    function PrivateKey(): (r: RawKey)
      reads this
      ensures r != NoKey <==> IsSupported(keyType) && privateKeyRaw != NoKey
      ensures r != NoKey ==> r == privateKeyRaw
    {
      if IsSupported(keyType) then privateKeyRaw else NoKey
    }

    /**
     * The OpenSSH private-key block as the code is written: under a passphrase the
     * encryptor is handed `nil` in place of the pair's passphrase. It agrees with the
     * corrected `PemBlock` when there is no passphrase.
     */
    function PemBlockAsWritten(lib: Library): (r: Result<Block, Error>)
      reads this
      ensures r == Failure(MissingSSHKeys) <==> !IsSupported(keyType) || privateKeyRaw == NoKey
      ensures r.Failure? ==> !r.error.UnsupportedKeyType?
      ensures IsSupported(keyType) && privateKeyRaw != NoKey && |passphrase| > 0 ==>
        r == FromLibrary(lib.marshalPrivateKeyWithPassphrase(privateKeyRaw, comment, []))
      ensures |passphrase| == 0 ==> r == PemBlock(lib)
    {
      MarshalPemBlock(PrivateKey(), keyType, |passphrase| > 0, [], comment, lib)
    }

    /**
     * The OpenSSH private-key block, encrypted under the pair's passphrase when it has one.
     * A missing key is reported before the type is looked at, so the unsupported-type error
     * is never returned; the comment goes into the block either way.
     */
    function PemBlock(lib: Library): (r: Result<Block, Error>)
      reads this
      ensures r == Failure(MissingSSHKeys) <==> !IsSupported(keyType) || privateKeyRaw == NoKey
      ensures r.Failure? ==> !r.error.UnsupportedKeyType?
      ensures IsSupported(keyType) && privateKeyRaw != NoKey ==>
        r == if |passphrase| > 0
             then FromLibrary(lib.marshalPrivateKeyWithPassphrase(privateKeyRaw, comment, passphrase))
             else FromLibrary(lib.marshalPrivateKey(privateKeyRaw, comment))
    {
      MarshalPemBlock(PrivateKey(), keyType, |passphrase| > 0, passphrase, comment, lib)
    }

    /** The PEM-encoded private key, or nil whenever the block could not be built. */
    function PrivateKeyPEM(lib: Library): (r: Option<seq<byte>>)
      reads this
      ensures r.None? <==> PemBlock(lib).Failure?
      ensures r.Some? ==> r.value == lib.encodeToMemory(PemBlock(lib).value)
    {
      match PemBlock(lib)
      case Failure(_) => None
      case Success(block) => Some(lib.encodeToMemory(block))
    }

    /** The public half of the stored key, or nil when the type is unsupported or the variant does not match it. */
    function PublicKeyRaw(): (r: Option<PubKey>)
      reads this
      ensures r.Some? <==> Matches(keyType, privateKeyRaw)
      ensures r.Some? ==> match privateKeyRaw
        case Rsa(k) => r.value == RsaPublic(k)
        case Ed25519(k) => r.value == Ed25519Public(k)
        case Ecdsa(k) => r.value == EcdsaPublic(k)
        case NoKey => false
    {
      if keyType == RSA then
        (match privateKeyRaw case Rsa(k) => Some(RsaPublic(k)) case _ => None)
      else if keyType == ED25519 then
        (match privateKeyRaw case Ed25519(k) => Some(Ed25519Public(k)) case _ => None)
      else if keyType == ECDSA then
        (match privateKeyRaw case Ecdsa(k) => Some(EcdsaPublic(k)) case _ => None)
      else None
    }

    /**
     * The authorized_keys line followed by a space and the comment, trimmed of white space
     * before and after the comment is added; nil when the public key cannot be built.
     */
    function PublicKey(lib: Library): (r: Option<string>)
      reads this
      ensures r.Some? <==> lib.newPublicKey(PublicKeyRaw()).Success?
      ensures r.Some? ==> Trimmed(r.value)
    {
      match lib.newPublicKey(PublicKeyRaw())
      case Failure(_) => None
      case Success(pkey) =>
        var ak := lib.marshalAuthorizedKey(pkey);
        Some(TrimSpace(TrimSpace(ak) + " " + comment))
    }

    /**
     * The legacy MD5 fingerprint. The public-key error is dropped and the fingerprint is
     * then taken of a nil key, which panics; `None` stands for that panic.
     */
    function MD5(lib: Library): (r: Option<string>)
      reads this
      ensures r.Some? <==> PublicKey(lib).Some?
      ensures r.Some? ==> r.value == lib.fingerprintLegacyMD5(lib.newPublicKey(PublicKeyRaw()).value)
    {
      match lib.newPublicKey(PublicKeyRaw())
      case Failure(_) => None
      case Success(p) => Some(lib.fingerprintLegacyMD5(p))
    }

    /** The SHA-256 fingerprint, with the same panic as `MD5` when there is no public key. */
    function SHA256(lib: Library): (r: Option<string>)
      reads this
      ensures r.Some? <==> PublicKey(lib).Some?
      ensures r.Some? ==> r.value == lib.fingerprintSHA256(lib.newPublicKey(PublicKeyRaw()).value)
    {
      match lib.newPublicKey(PublicKeyRaw())
      case Failure(_) => None
      case Success(p) => Some(lib.fingerprintSHA256(p))
    }
  }

  // ---------------------------------------------------------------------------
  // What the accessors promise

  /** A pair that keeps its invariant passes every accessor guard. */
  lemma ValidPairPassesGuards(s: SSHKeyPair, lib: Library)
    requires s.Valid()
    ensures s.PrivateKey() == s.privateKeyRaw != NoKey
    ensures s.PublicKeyRaw().Some?
    ensures s.PemBlock(lib) != Failure(MissingSSHKeys)
  {
  }

  /** `ssh.NewPublicKey` turns down nil: its switch on the key's dynamic type has no case for it. */
  predicate RejectsNil(lib: Library) {
    lib.newPublicKey(None).Failure?
  }

  /**
   * A pair whose stored key does not match its type, including one of an unsupported type,
   * has no public key, and both fingerprints take the panicking path.
   */
  lemma MismatchHasNoPublicKey(s: SSHKeyPair, lib: Library)
    requires RejectsNil(lib) && !Matches(s.keyType, s.privateKeyRaw)
    ensures s.PublicKey(lib).None? && s.MD5(lib).None? && s.SHA256(lib).None?
  {
    assert s.PublicKeyRaw() == None;
  }

  /**
   * The public key is the trimmed authorized_keys line, a space and the comment with its
   * trailing white space removed; a comment that is all white space leaves the line alone.
   * The line is assumed non-blank: that is a fact about the authorized_keys encoder, whose
   * output always starts with the key's algorithm name.
   */
  lemma PublicKeyWithComment(s: SSHKeyPair, lib: Library, k: SshPublicKey)
    requires lib.newPublicKey(s.PublicKeyRaw()) == Success(k)
    requires TrimSpace(lib.marshalAuthorizedKey(k)) != []
    ensures var line, tail := TrimSpace(lib.marshalAuthorizedKey(k)), TrimRight(s.comment);
      s.PublicKey(lib) == Some(if tail == [] then line else line + " " + tail)
  {
    TrimSpaceAfterWord(TrimSpace(lib.marshalAuthorizedKey(k)), s.comment);
  }

  /** The default comment loses its line feed, and any white space ending the host name, when trimmed. */
  lemma DefaultCommentTrimmed(user: string, host: string)
    ensures TrimRight(user + "@" + host + "\n") == user + "@" + TrimRight(host)
  {
    TrimRightConcat(user + "@" + host, "\n");
    TrimRightConcat(user + "@", host);
    TrimRightOfTrimmed(user + "@");
  }

  /**
   * With the default comment "<user>@<host>\n" the public key ends in "<user>@<host>": the
   * line feed the default carries is trimmed off.
   */
  lemma PublicKeyDefaultComment(s: SSHKeyPair, lib: Library, k: SshPublicKey, env: Env)
    requires lib.newPublicKey(s.PublicKeyRaw()) == Success(k)
    requires TrimSpace(lib.marshalAuthorizedKey(k)) != []
    requires env.user.Some? && env.hostname.Some?
    requires s.comment == GetSSHKeyComment(env)
    ensures s.PublicKey(lib) ==
      Some(TrimSpace(lib.marshalAuthorizedKey(k)) + " " + (env.user.value + "@" + TrimRight(env.hostname.value)))
  {
    var user, host := env.user.value, env.hostname.value;
    var line, tail := TrimSpace(lib.marshalAuthorizedKey(k)), user + "@" + TrimRight(host);
    assert s.comment == user + "@" + host + "\n";
    DefaultCommentTrimmed(user, host);
    assert TrimRight(s.comment) == tail && tail != [];
    PublicKeyWithComment(s, lib, k);
  }

  /** No line feed gets into the public key unless the line or the kept part of the comment has one. */
  lemma PublicKeyHasNoLineBreak(s: SSHKeyPair, lib: Library, k: SshPublicKey)
    requires lib.newPublicKey(s.PublicKeyRaw()) == Success(k)
    requires TrimSpace(lib.marshalAuthorizedKey(k)) != []
    requires '\n' !in TrimSpace(lib.marshalAuthorizedKey(k)) && '\n' !in TrimRight(s.comment)
    ensures s.PublicKey(lib).Some? && '\n' !in s.PublicKey(lib).value
  {
    var line := TrimSpace(lib.marshalAuthorizedKey(k));
    assert s.PublicKey(lib) == Some(TrimSpace(line + " " + s.comment));
    NoLineFeedAfterWord(line, s.comment);
  }

  // ---------------------------------------------------------------------------
  // The passphrase handed to the encryptor

  /** An encryptor that keeps the passphrase it is given as the block's bytes, so the argument can be seen. */
  function RecordingLibrary(): Library {
    Library(
      (key: RawKey, comment: string) => Success(Block("OPENSSH PRIVATE KEY", map[], [])),
      (key: RawKey, comment: string, passphrase: seq<byte>) => Success(Block("OPENSSH PRIVATE KEY", map[], passphrase)),
      (block: Block) => block.bytes,
      (pub: Option<PubKey>) => Failure("not used"),
      (k: SshPublicKey) => "",
      (k: SshPublicKey) => "",
      (k: SshPublicKey) => "")
  }

  /** A pair with passphrase "secret": as written the encryptor receives no passphrase at all. */
  lemma PassphraseNeverReachesEncryptor(s: SSHKeyPair)
    requires s.Valid()
    requires s.passphrase == [115, 101, 99, 114, 101, 116]
    ensures s.PemBlockAsWritten(RecordingLibrary()).Success?
    ensures s.PemBlockAsWritten(RecordingLibrary()).value.bytes == []
    ensures s.PemBlock(RecordingLibrary()).Success?
    ensures s.PemBlock(RecordingLibrary()).value.bytes == s.passphrase
  {
  }

  // ---------------------------------------------------------------------------
  // The factory

  /**
   * Builds a key pair from `conf`. The empty comment in `conf` is replaced by the default
   * first, whatever happens next; a failure returns no pair at all.
   */
  method New(conf: SSHKeyPairConfig, env: Env, gen: Generators) returns (pair: SSHKeyPair?, err: Option<Error>)
    modifies conf
    ensures conf.keyType == old(conf.keyType) && conf.bits == old(conf.bits)
    ensures conf.passphrase == old(conf.passphrase)
    ensures conf.comment == ResolveComment(old(conf.comment), env)
    ensures var g := Generate(conf.keyType, ResolveBits(conf.keyType, conf.bits), gen);
      if g.Success? then
        err == None && pair != null && fresh(pair) && pair.Valid() &&
        pair.keyType == conf.keyType && pair.passphrase == conf.passphrase &&
        pair.comment == conf.comment && pair.bits == ResolveBits(conf.keyType, conf.bits) &&
        pair.privateKeyRaw == g.value
      else
        pair == null && err == Some(g.error)
  {
    if conf.comment == "" {
      conf.comment := GetSSHKeyComment(env);
    }

    var skeypair := new SSHKeyPair(conf.keyType, conf.passphrase, conf.comment);

    if conf.bits == 0 && conf.keyType == RSA {
      skeypair.bits := RsaDefaultBits;
    } else {
      skeypair.bits := conf.bits;
    }

    var e: Option<Error>;
    if conf.keyType == ED25519 {
      e := skeypair.GenerateED25519Keys(gen);
    } else if conf.keyType == RSA {
      e := skeypair.GenerateRSAKeys(gen);
    } else if conf.keyType == ECDSA {
      e := skeypair.GenerateECDSAKeys(gen, P384);
    } else {
      return null, Some(UnsupportedKeyType(conf.keyType));
    }

    if e.Some? {
      return null, e;
    }
    return skeypair, None;
  }

  // ---------------------------------------------------------------------------
  // Whole calls

  /** `New` on "dsa" fails with no pair, yet the caller's empty comment has been replaced by the default. */
  method UnsupportedTypeStillDefaultsComment(env: Env, gen: Generators)
    returns (pair: SSHKeyPair?, err: Option<Error>, comment: string)
    ensures pair == null && err == Some(UnsupportedKeyType("dsa"))
    ensures Message(err.value) == "unsupported key type: dsa"
    ensures comment == GetSSHKeyComment(env)
  {
    var conf := new SSHKeyPairConfig("dsa", 0, "", []);
    pair, err := New(conf, env, gen);
    comment := conf.comment;
  }

  /** An RSA pair configured with no bit size is generated, and recorded, at 4096 bits. */
  method RsaWithDefaultBits(env: Env, gen: Generators) returns (pair: SSHKeyPair?, err: Option<Error>)
    requires gen.rsa(4096).Success? && gen.validate(gen.rsa(4096).value).None?
    ensures err == None && pair != null && pair.bits == 4096
    ensures pair.privateKeyRaw == Rsa(gen.rsa(4096).value)
  {
    var conf := new SSHKeyPairConfig(RSA, 0, "", []);
    pair, err := New(conf, env, gen);
  }

  /**
   * An Ed25519 pair with default comment and no passphrase has a non-empty PEM and a non-empty
   * public key without line feeds, given encoders that produce something.
   */
  method Ed25519WithDefaults(env: Env, gen: Generators, lib: Library)
    returns (pem: Option<seq<byte>>, pub: Option<string>)
    requires env.user.Some? && env.hostname.Some?
    requires '\n' !in env.user.value && '\n' !in env.hostname.value
    requires gen.ed25519.Success?
    requires lib.marshalPrivateKey(Ed25519(gen.ed25519.value), GetSSHKeyComment(env)).Success?
    requires lib.encodeToMemory(lib.marshalPrivateKey(Ed25519(gen.ed25519.value), GetSSHKeyComment(env)).value) != []
    requires lib.newPublicKey(Some(Ed25519Public(gen.ed25519.value))).Success?
    requires var line := TrimSpace(lib.marshalAuthorizedKey(lib.newPublicKey(Some(Ed25519Public(gen.ed25519.value))).value));
      line != [] && '\n' !in line
    ensures pem.Some? && |pem.value| > 0
    ensures pub.Some? && |pub.value| > 0 && '\n' !in pub.value
  {
    var conf := new SSHKeyPairConfig(ED25519, 0, "", []);
    var pair, err := New(conf, env, gen);
    var user, host := env.user.value, env.hostname.value;
    assert pair.Valid() && pair.comment == GetSSHKeyComment(env) && pair.passphrase == [];
    pem := pair.PrivateKeyPEM(lib);
    var key := gen.ed25519.value;
    assert pair.PublicKeyRaw() == Some(Ed25519Public(key));
    var k := lib.newPublicKey(Some(Ed25519Public(key))).value;
    var line := TrimSpace(lib.marshalAuthorizedKey(k));
    PublicKeyDefaultComment(pair, lib, k, env);
    pub := pair.PublicKey(lib);
    var kept := TrimRight(host);
    assert kept == host[..|kept|];
    assert '\n' !in kept;
    assert pub.value == line + " " + (user + "@" + kept);
  }
}
