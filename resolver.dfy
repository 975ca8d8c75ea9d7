/** The `CryptoResolver` interface and its default implementation
    (src/noise.rs:9-45). */
module Resolver {
  import opened Wrappers
  import opened CryptoTypes

  /** Four independent lookups, one per capability; each answers with an
      implementation or with nothing, never with an error. A custom resolver
      is any value of this type. */
  datatype CryptoResolver = CryptoResolver(
    resolveRng: () -> Option<RandomImpl>,
    resolveDh: DhChoice -> Option<DhImpl>,
    resolveHash: HashChoice -> Option<HashImpl>,
    resolveCipher: CipherChoice -> Option<CipherImpl>)

  /** Every implementation the resolver hands out implements the algorithm
      it was asked for. */
  ghost predicate Sound(r: CryptoResolver) {
    && (forall c :: r.resolveDh(c).Some? ==> r.resolveDh(c).value.Algorithm() == c)
    && (forall c :: r.resolveHash(c).Some? ==> r.resolveHash(c).value.Algorithm() == c)
    && (forall c :: r.resolveCipher(c).Some? ==> r.resolveCipher(c).value.Algorithm() == c)
  }

  /** The default source of randomness is always available. */
  function DefaultResolveRng(): (r: Option<RandomImpl>)
    ensures r.Some?
  {
    Some(RandomOs)
  }

  /** Only Curve25519 has a default implementation. */
  function DefaultResolveDh(choice: DhChoice): (r: Option<DhImpl>)
    ensures r.Some? <==> choice == Curve25519
    ensures r.Some? ==> r.value.Algorithm() == choice
  {
    match choice
    case Curve25519 => Some(Dh25519)
    case _ => None
  }

  /** Every hash choice has a default implementation of that hash. */
  function DefaultResolveHash(choice: HashChoice): (r: Option<HashImpl>)
    ensures r.Some? && r.value.Algorithm() == choice
  {
    match choice
    case SHA256 => Some(HashSHA256)
    case SHA512 => Some(HashSHA512)
    case Blake2s => Some(HashBLAKE2s)
    case Blake2b => Some(HashBLAKE2b)
  }

  /** Both cipher choices have a default cipher-state implementation. */
  function DefaultResolveCipher(choice: CipherChoice): (r: Option<CipherImpl>)
    ensures r.Some? && r.value.Algorithm() == choice
  {
    match choice
    case ChaChaPoly => Some(CipherChaChaPoly)
    case AESGCM => Some(CipherAESGCM)
  }

  /** `DefaultResolver`: it resolves an RNG, every hash, every cipher, and a
      DH function exactly for Curve25519, each time an implementation of the
      requested algorithm. */
  function DefaultResolver(): (r: CryptoResolver)
    ensures Sound(r)
    ensures r.resolveRng().Some?
    ensures forall c :: r.resolveDh(c).Some? <==> c == Curve25519
    ensures forall c :: r.resolveHash(c).Some?
    ensures forall c :: r.resolveCipher(c).Some?
  {
    CryptoResolver(() => DefaultResolveRng(), DefaultResolveDh, DefaultResolveHash, DefaultResolveCipher)
  }
}
