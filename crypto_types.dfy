/** The protocol choices a parsed Noise protocol name carries, and the
    implementations a resolver hands out for them. Parsing the name is not
    part of this model: a `NoiseParams` value is taken as already parsed. */
module CryptoTypes {

  /** Byte buffers, borrowed or owned alike. */
  type Bytes = seq<bv8>

  /** DH functions named in a protocol name. Curve448 is the second DH
      function the Noise framework registers; the default resolver has no
      implementation for it (the `_` arm of `resolve_dh`). */
  datatype DhChoice = Curve25519 | Curve448

  datatype HashChoice = SHA256 | SHA512 | Blake2s | Blake2b

  datatype CipherChoice = ChaChaPoly | AESGCM

  /** A handshake pattern as parsed from the protocol name. Which keys a role
      must bring is defined with the pattern type, outside this model; the
      builder only asks the two questions below, so they are carried here as
      given predicates of the role (`true` for the initiator). */
  datatype HandshakePattern = HandshakePattern(
    needsLocalStaticKey: bool -> bool,
    needKnownRemotePubkey: bool -> bool)

  /** The parsed protocol name. */
  datatype NoiseParams = NoiseParams(
    handshake: HandshakePattern,
    dh: DhChoice,
    cipher: CipherChoice,
    hash: HashChoice)

  // Implementations are opaque tags. The concrete primitives get a tag of
  // their own; a custom resolver may hand out any other implementation, which
  // records the algorithm it claims to implement.

  datatype RandomImpl = RandomOs | CustomRandom(id: nat)

  datatype DhImpl = Dh25519 | CustomDh(alg: DhChoice, id: nat) {
    function Algorithm(): DhChoice {
      match this
      case Dh25519 => Curve25519
      case CustomDh(alg, _) => alg
    }
  }

  datatype HashImpl =
    | HashSHA256 | HashSHA512 | HashBLAKE2s | HashBLAKE2b
    | CustomHash(alg: HashChoice, id: nat)
  {
    function Algorithm(): HashChoice {
      match this
      case HashSHA256 => SHA256
      case HashSHA512 => SHA512
      case HashBLAKE2s => Blake2s
      case HashBLAKE2b => Blake2b
      case CustomHash(alg, _) => alg
    }
  }

  /** A cipher state over one AEAD cipher (`CipherState<C>::default()`). */
  datatype CipherImpl =
    | CipherChaChaPoly | CipherAESGCM
    | CustomCipher(alg: CipherChoice, id: nat)
  {
    function Algorithm(): CipherChoice {
      match this
      case CipherChaChaPoly => ChaChaPoly
      case CipherAESGCM => AESGCM
      case CustomCipher(alg, _) => alg
    }
  }
}
