/** `NoiseBuilder` (src/noise.rs:47-151): a builder consumed by value. The
    setters return an updated builder; `build` runs a fixed sequence of
    fail-fast checks and, when all pass, assembles the argument list that is
    handed to the handshake-state constructor. */
module Builder {
  import opened Wrappers
  import opened CryptoTypes
  import opened Resolver

  /** The configuration errors of `build`, each `NoiseError::InitError`
      with the message given by `Message()`. */
  datatype InitError =
    | LocalKeyNeeded
    | RemoteKeyNeeded
    | NoSuitableRng
    | NoSuitableCipher
    | NoSuitableHash
    | NoSuitableDh
  {
    function Message(): string {
      match this
      case LocalKeyNeeded => "local key needed for chosen handshake pattern"
      case RemoteKeyNeeded => "remote key needed for chosen handshake pattern"
      case NoSuitableRng => "no suitable RNG"
      case NoSuitableCipher => "no suitable cipher implementation"
      case NoSuitableHash => "no suitable hash implementation"
      case NoSuitableDh => "no suitable DH implementation"
    }
  }

  /** A resolved DH object together with the private key installed into it
      by `set`, if any. A freshly resolved object holds no key. */
  datatype DhSlot = DhSlot(impl: DhImpl, privateKey: Option<Bytes>) {
    /** `set`: install a private key into the DH object. The implementation
        stays the same and the given key is the one installed, whatever was
        installed before. */
    function Set(key: Bytes): (r: DhSlot)
      ensures r.impl == impl && r.privateKey == Some(key)
    {
      this.(privateKey := Some(key))
    }
  }

  /** The arguments of `HandshakeState::new`, in the order they are passed.
      The constructor itself is not part of this model. */
  datatype HandshakeArgs = HandshakeArgs(
    rng: RandomImpl,
    cipher: CipherImpl,
    hash: HashImpl,
    s: DhSlot,
    e: DhSlot,
    rs: Bytes,
    re: Bytes,
    hasS: bool,
    hasE: bool,
    hasRs: bool,
    hasRe: bool,
    initiator: bool,
    pattern: HandshakePattern,
    prologue: Bytes,
    psk: Option<Bytes>,
    cipherstate1: CipherImpl,
    cipherstate2: CipherImpl)

  /** A question put to the resolver. */
  datatype Query = RngQuery | CipherQuery(CipherChoice) | HashQuery(HashChoice) | DhQuery(DhChoice)

  /** Names of the builder's six key-material fields. */
  datatype Field = S | E | Rs | Re | Psk | Plog

  datatype NoiseBuilder = NoiseBuilder(
    params: NoiseParams,
    resolver: CryptoResolver,
    s: Option<Bytes>,
    e: Option<Bytes>,
    rs: Option<Bytes>,
    re: Option<Bytes>,
    psk: Option<Bytes>,
    plog: Option<Bytes>)
  {
    function Get(f: Field): Option<Bytes> {
      match f
      case S => s
      case E => e
      case Rs => rs
      case Re => re
      case Psk => psk
      case Plog => plog
    }

    /** No key material of any kind has been supplied. */
    predicate Unconfigured() {
      forall f :: Get(f).None?
    }

    /** `b` has this builder's parameters, resolver and key material, except
        possibly in field `f`. */
    ghost predicate AgreesExcept(b: NoiseBuilder, f: Field) {
      && b.params == params
      && b.resolver == resolver
      && forall g :: g != f ==> b.Get(g) == Get(g)
    }

    /** `NoiseBuilder::new`: no key material, the default resolver. */
    static function New(params: NoiseParams): (b: NoiseBuilder)
      ensures b.params == params && b.resolver == DefaultResolver()
      ensures b.Unconfigured()
    {
      WithResolver(params, DefaultResolver())
    }

    /** `NoiseBuilder::with_resolver`: no key material, the given resolver. */
    static function WithResolver(params: NoiseParams, resolver: CryptoResolver): (b: NoiseBuilder)
      ensures b.params == params && b.resolver == resolver
      ensures b.Unconfigured()
    {
      NoiseBuilder(params, resolver, None, None, None, None, None, None)
    }

    function PresharedKey(key: Bytes): (b: NoiseBuilder)
      ensures b.psk == Some(key) && AgreesExcept(b, Psk)
    {
      this.(psk := Some(key))
    }

    function LocalPrivateKey(key: Bytes): (b: NoiseBuilder)
      ensures b.s == Some(key) && AgreesExcept(b, S)
    {
      this.(s := Some(key))
    }

    function Prologue(key: Bytes): (b: NoiseBuilder)
      ensures b.plog == Some(key) && AgreesExcept(b, Plog)
    {
      this.(plog := Some(key))
    }

    function RemotePublicKey(pubKey: Bytes): (b: NoiseBuilder)
      ensures b.rs == Some(pubKey) && AgreesExcept(b, Rs)
    {
      this.(rs := Some(pubKey))
    }

    /** The key material satisfies the pattern's requirements for the role. */
    predicate HasRequiredKeys(initiator: bool) {
      && (s.Some? || !params.handshake.needsLocalStaticKey(initiator))
      && (rs.Some? || !params.handshake.needKnownRemotePubkey(initiator))
    }

    /** The resolver has an implementation of every chosen capability. */
    predicate Resolves() {
      && resolver.resolveRng().Some?
      && resolver.resolveCipher(params.cipher).Some?
      && resolver.resolveHash(params.hash).Some?
      && resolver.resolveDh(params.dh).Some?
    }

    /** What a successful build hands to the handshake-state constructor:
        the resolved implementations, the private keys installed exactly
        when supplied, presence flags that track the fields, the remote keys
        or empty buffers, the role, the pattern, an empty prologue and no
        pre-shared key. */
    ghost predicate Assembles(initiator: bool, a: HandshakeArgs) {
      && resolver.resolveRng() == Some(a.rng)
      && resolver.resolveCipher(params.cipher) == Some(a.cipher)
      && resolver.resolveHash(params.hash) == Some(a.hash)
      && resolver.resolveDh(params.dh) == Some(a.s.impl)
      && resolver.resolveDh(params.dh) == Some(a.e.impl)
      && resolver.resolveCipher(params.cipher) == Some(a.cipherstate1)
      && resolver.resolveCipher(params.cipher) == Some(a.cipherstate2)
      && a.s.privateKey == s
      && a.e.privateKey == e
      && (a.hasS <==> s.Some?) && (a.hasE <==> e.Some?)
      && (a.hasRs <==> rs.Some?) && (a.hasRe <==> re.Some?)
      && (rs.Some? ==> a.rs == rs.value) && (rs.None? ==> a.rs == [])
      && (re.Some? ==> a.re == re.value) && (re.None? ==> a.re == [])
      && a.initiator == initiator
      && a.pattern == params.handshake
      && a.prologue == []
      && a.psk.None?
    }

    function BuildInitiator(): (r: Result<HandshakeArgs, InitError>)
      ensures r == Build(true)
      ensures r.Success? ==> r.value.initiator
    {
      Build(true)
    }

    function BuildResponder(): (r: Result<HandshakeArgs, InitError>)
      ensures r == Build(false)
      ensures r.Success? ==> !r.value.initiator
    {
      Build(false)
    }

    /** `build`: the structural checks first, then the resolutions in source
        order, then key installation and assembly. */
    function Build(initiator: bool): (r: Result<HandshakeArgs, InitError>)
      ensures s.None? && params.handshake.needsLocalStaticKey(initiator) ==>
                r == Failure(LocalKeyNeeded)
      ensures (s.Some? || !params.handshake.needsLocalStaticKey(initiator)) &&
              rs.None? && params.handshake.needKnownRemotePubkey(initiator) ==>
                r == Failure(RemoteKeyNeeded)
      ensures r.Success? <==> HasRequiredKeys(initiator) && Resolves()
      ensures r.Success? ==> Assembles(initiator, r.value)
    {
      TracedBuild(initiator).0
    }

    /** `build` together with the resolver queries it makes, in the order it
        makes them. No query precedes the structural checks, and the first
        query is for the RNG. */
    function TracedBuild(initiator: bool): (r: (Result<HandshakeArgs, InitError>, seq<Query>))
      ensures !HasRequiredKeys(initiator) ==> r.1 == []
      ensures HasRequiredKeys(initiator) ==> |r.1| > 0 && r.1[0] == RngQuery
      ensures r.0.Success? ==> |r.1| == 7
    {
      if s.None? && params.handshake.needsLocalStaticKey(initiator) then
        (Failure(LocalKeyNeeded), [])
      else if rs.None? && params.handshake.needKnownRemotePubkey(initiator) then
        (Failure(RemoteKeyNeeded), [])
      else
        var t := [RngQuery];
        var rng := resolver.resolveRng();
        if rng.None? then (Failure(NoSuitableRng), t) else
        var t := t + [CipherQuery(params.cipher)];
        var cipher := resolver.resolveCipher(params.cipher);
        if cipher.None? then (Failure(NoSuitableCipher), t) else
        var t := t + [HashQuery(params.hash)];
        var hash := resolver.resolveHash(params.hash);
        if hash.None? then (Failure(NoSuitableHash), t) else
        var t := t + [DhQuery(params.dh)];
        var sDh := resolver.resolveDh(params.dh);
        if sDh.None? then (Failure(NoSuitableDh), t) else
        var t := t + [DhQuery(params.dh)];
        var eDh := resolver.resolveDh(params.dh);
        if eDh.None? then (Failure(NoSuitableDh), t) else
        var t := t + [CipherQuery(params.cipher)];
        var cipherstate1 := resolver.resolveCipher(params.cipher);
        if cipherstate1.None? then (Failure(NoSuitableCipher), t) else
        var t := t + [CipherQuery(params.cipher)];
        var cipherstate2 := resolver.resolveCipher(params.cipher);
        if cipherstate2.None? then (Failure(NoSuitableCipher), t) else
        var sSlot := DhSlot(sDh.value, None);
        var eSlot := DhSlot(eDh.value, None);
        var sSlot := if s.Some? then sSlot.Set(s.value) else sSlot;
        var eSlot := if e.Some? then eSlot.Set(e.value) else eSlot;
        (Success(HandshakeArgs(
           rng.value, cipher.value, hash.value, sSlot, eSlot,
           if rs.Some? then rs.value else [],
           if re.Some? then re.value else [],
           s.Some?, e.Some?, rs.Some?, re.Some?,
           initiator,
           params.handshake,
           [],
           None,
           cipherstate1.value, cipherstate2.value)),
         t)
    }
  }
}
