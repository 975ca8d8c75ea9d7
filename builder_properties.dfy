/** Properties of `NoiseBuilder` that relate several calls: the error
    priority of `build`, what the default resolver allows, what never reaches
    the handshake state, and the two builder tests of src/noise.rs. */
module BuilderProperties {
  import opened Wrappers
  import opened CryptoTypes
  import opened Resolver
  import opened Builder

  /** Every error names a requirement that is not met or a capability the
      resolver does not provide for the chosen algorithm. */
  lemma BuildErrorsAreAccurate(b: NoiseBuilder, initiator: bool)
    ensures b.Build(initiator) == Failure(LocalKeyNeeded) ==>
              b.s.None? && b.params.handshake.needsLocalStaticKey(initiator)
    ensures b.Build(initiator) == Failure(RemoteKeyNeeded) ==>
              b.rs.None? && b.params.handshake.needKnownRemotePubkey(initiator)
    ensures b.Build(initiator) == Failure(NoSuitableRng) ==> b.resolver.resolveRng().None?
    ensures b.Build(initiator) == Failure(NoSuitableCipher) ==> b.resolver.resolveCipher(b.params.cipher).None?
    ensures b.Build(initiator) == Failure(NoSuitableHash) ==> b.resolver.resolveHash(b.params.hash).None?
    ensures b.Build(initiator) == Failure(NoSuitableDh) ==> b.resolver.resolveDh(b.params.dh).None?
  {
  }

  /** Once the key material suits the pattern, a missing RNG is reported
      before a missing cipher, a missing cipher before a missing hash, and a
      missing hash before a missing DH function. */
  lemma ResolutionErrorPriority(b: NoiseBuilder, initiator: bool)
    requires b.HasRequiredKeys(initiator)
    ensures b.resolver.resolveRng().None? ==> b.Build(initiator) == Failure(NoSuitableRng)
    ensures b.resolver.resolveRng().Some? && b.resolver.resolveCipher(b.params.cipher).None? ==>
              b.Build(initiator) == Failure(NoSuitableCipher)
    ensures b.resolver.resolveRng().Some? && b.resolver.resolveCipher(b.params.cipher).Some? &&
            b.resolver.resolveHash(b.params.hash).None? ==>
              b.Build(initiator) == Failure(NoSuitableHash)
    ensures b.resolver.resolveRng().Some? && b.resolver.resolveCipher(b.params.cipher).Some? &&
            b.resolver.resolveHash(b.params.hash).Some? && b.resolver.resolveDh(b.params.dh).None? ==>
              b.Build(initiator) == Failure(NoSuitableDh)
  {
  }

  /** With the default resolver the only resolution failure is a DH
      function other than Curve25519. */
  lemma DefaultResolverBuild(b: NoiseBuilder, initiator: bool)
    requires b.resolver == DefaultResolver()
    ensures b.Build(initiator).Failure? ==>
              b.Build(initiator).error in {LocalKeyNeeded, RemoteKeyNeeded, NoSuitableDh}
    ensures b.HasRequiredKeys(initiator) ==>
              (b.Build(initiator).Success? <==> b.params.dh == Curve25519)
  {
  }

  /** A resolver that hands out implementations of the requested algorithms
      gives the handshake state primitives for the chosen protocol. */
  lemma SoundResolverBuild(b: NoiseBuilder, initiator: bool)
    requires Sound(b.resolver)
    ensures b.Build(initiator).Success? ==>
              var a := b.Build(initiator).value;
              && a.cipher.Algorithm() == b.params.cipher
              && a.hash.Algorithm() == b.params.hash
              && a.s.impl.Algorithm() == b.params.dh
              && a.e.impl.Algorithm() == b.params.dh
              && a.cipherstate1.Algorithm() == b.params.cipher
              && a.cipherstate2.Algorithm() == b.params.cipher
  {
  }

  /** What `preshared_key` and `prologue` store never reaches the handshake
      state: building gives the same result with or without them. */
  lemma PresharedKeyAndPrologueUnused(b: NoiseBuilder, initiator: bool, psk: Bytes, prologue: Bytes)
    ensures b.PresharedKey(psk).Build(initiator) == b.Build(initiator)
    ensures b.Prologue(prologue).Build(initiator) == b.Build(initiator)
  {
  }

  /** When a builder could serve either role, the two results differ only in
      the role flag. */
  lemma RolesDifferOnlyInFlag(b: NoiseBuilder)
    requires b.BuildInitiator().Success? && b.BuildResponder().Success?
    ensures b.BuildInitiator().value == b.BuildResponder().value.(initiator := true)
  {
  }

  /** A fresh builder builds exactly when the pattern asks for no key of
      this role and every capability resolves; it then installs no key and
      reports no key present. */
  lemma FreshBuilderBuild(params: NoiseParams, resolver: CryptoResolver, initiator: bool)
    ensures var r := NoiseBuilder.WithResolver(params, resolver).Build(initiator);
            && (r.Success? <==>
                  !params.handshake.needsLocalStaticKey(initiator) &&
                  !params.handshake.needKnownRemotePubkey(initiator) &&
                  NoiseBuilder.WithResolver(params, resolver).Resolves())
            && (r.Success? ==>
                  r.value.s.privateKey.None? && r.value.e.privateKey.None? &&
                  !r.value.hasS && !r.value.hasE && !r.value.hasRs && !r.value.hasRe &&
                  r.value.rs == [] && r.value.re == [])
  {
  }

  /** `test_builder`: an NN initiator over Curve25519 with a pre-shared key,
      a prologue and a local key builds; the local key is installed, and the
      prologue and pre-shared key handed on are empty and absent. NN does not
      ask the initiator to know the responder's static key in advance. */
  lemma BuilderTest(nn: HandshakePattern, cipher: CipherChoice, hash: HashChoice)
    requires !nn.needKnownRemotePubkey(true)
    ensures var r := NoiseBuilder.New(NoiseParams(nn, Curve25519, cipher, hash))
                       .PresharedKey([1, 1, 1, 1, 1, 1, 1])
                       .Prologue([2, 2, 2, 2, 2, 2, 2, 2])
                       .LocalPrivateKey(seq(32, _ => 0))
                       .BuildInitiator();
            && r.Success?
            && r.value.s.privateKey == Some(seq(32, _ => 0))
            && r.value.hasS && !r.value.hasRs
            && r.value.prologue == [] && r.value.psk.None?
  {
  }

  /** `test_builder_missing_prereqs`: an NK initiator must know the
      responder's static key; without it, the build fails with the
      remote-key error even though a local key was given. */
  lemma BuilderMissingPrereqsTest(nk: HandshakePattern, cipher: CipherChoice, hash: HashChoice)
    requires nk.needKnownRemotePubkey(true)
    ensures NoiseBuilder.New(NoiseParams(nk, Curve25519, cipher, hash))
              .PresharedKey([1, 1, 1, 1, 1, 1, 1])
              .Prologue([2, 2, 2, 2, 2, 2, 2, 2])
              .LocalPrivateKey(seq(32, _ => 0))
              .BuildInitiator() == Failure(RemoteKeyNeeded)
  {
  }

  /** Each error carries its own message, so the message alone tells which
      requirement or capability is missing. */
  lemma ErrorMessagesDistinct(e1: InitError, e2: InitError)
    ensures e1.Message() == e2.Message() <==> e1 == e2
  {
  }
}
