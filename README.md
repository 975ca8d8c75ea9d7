# Noise builder and crypto resolver (snow, `src/noise.rs`)

This project models the configuration layer that sits in front of snow's
Noise Protocol Framework handshake engine. It has two parts.

- **Capability resolution.** `CryptoResolver` maps the algorithm choices of
  a parsed protocol name to implementations. There are four independent
  lookups: RNG, DH function, hash and cipher. Each returns an implementation
  or nothing. `DefaultResolver` is the built-in mapping.
- **`NoiseBuilder`.** This builder is consumed by value. Its setters store
  key material. `build_initiator` / `build_responder` run a fixed sequence of
  fail-fast checks, install the private keys into the resolved DH objects and
  assemble the arguments of the handshake-state constructor.

Modules:

- `Wrappers` (`wrappers.dfy`): `Option` and `Result`.
- `CryptoTypes` (`crypto_types.dfy`): the DH, hash and cipher choices of
  section 12 of the Noise Protocol Framework, the parsed protocol parameters,
  and opaque implementation tags. A custom implementation records the
  algorithm it claims to implement.
- `Resolver` (`resolver.dfy`): a resolver is a record of four
  `Option`-returning functions, so a custom resolver is any value of the
  type. `DefaultResolver` is built from the four default lookups.
  `Sound(r)` says that every implementation `r` hands out implements the
  requested algorithm.
- `Builder` (`builder.dfy`): the builder as a datatype. The setters are
  record updates. `Build` returns `Result<HandshakeArgs, InitError>`. It is
  the first component of `TracedBuild`, which also records the resolver
  queries the early-return chain makes, in order.
  `HandshakeArgs` mirrors the argument list of `HandshakeState::new`. The
  in-place `set` on a resolved DH object is modelled as a `DhSlot` value
  that records the installed key.
- `BuildOrder` (`build_order.dfy`): an independent reference definition of `build`
  as an ordered list of checks. The first failing check decides the error,
  and every resolver query up to that check is made. Two lemmas tie `Build`
  to this definition: one for the error it returns, one for the queries
  `TracedBuild` records.
- `BuilderProperties` (`builder_properties.dfy`): lemmas that relate
  several calls. They also restate the two builder tests of `src/noise.rs`.

The pattern predicates `needs_local_static_key` and
`need_known_remote_pubkey` are defined with the pattern type, outside this
model. `HandshakePattern` therefore carries them as two given functions of
the role. The builder only calls them and never interprets them. The two
tests become lemmas about any pattern that answers those questions the way
NN and NK do.

`build` always passes an empty prologue and no pre-shared key, whatever
`prologue(..)` and `preshared_key(..)` stored
(`PresharedKeyAndPrologueUnused`). There is no setter for `e` or `re`.
They are public fields only, reachable here through datatype update.

## Model

| member | source | states |
|---|---|---|
| `Resolver.DefaultResolveRng` | src/noise.rs:18-20 | the default resolver always yields an RNG |
| `Resolver.DefaultResolveDh` | src/noise.rs:22-28 | a DH implementation is yielded iff the choice is Curve25519, and it implements that curve |
| `Resolver.DefaultResolveHash` | src/noise.rs:30-37 | every hash choice yields an implementation of that hash |
| `Resolver.DefaultResolveCipher` | src/noise.rs:39-44 | both cipher choices yield a cipher state over that cipher |
| `Resolver.DefaultResolver` | src/noise.rs:16-45 | the default resolver is sound, always resolves an RNG, every hash and every cipher, and a DH function exactly for Curve25519 |
| `Builder.NoiseBuilder.New` | src/noise.rs:59-61 | a new builder keeps the parameters, uses the default resolver and holds no key material (s, e, rs, re, psk, prologue all absent) |
| `Builder.NoiseBuilder.WithResolver` | src/noise.rs:63-75 | a new builder keeps the parameters and the given resolver and holds no key material |
| `Builder.NoiseBuilder.PresharedKey` | src/noise.rs:77-80 | the pre-shared key becomes the given bytes; parameters, resolver and every other field are unchanged |
| `Builder.NoiseBuilder.LocalPrivateKey` | src/noise.rs:82-85 | the local static key becomes the given bytes; nothing else changes |
| `Builder.NoiseBuilder.Prologue` | src/noise.rs:87-90 | the prologue becomes the given bytes; nothing else changes |
| `Builder.NoiseBuilder.RemotePublicKey` | src/noise.rs:92-95 | the remote static key becomes the given bytes; nothing else changes |
| `Builder.NoiseBuilder.BuildInitiator` | src/noise.rs:97-99 | builds for the initiator role; on success the role flag is true |
| `Builder.NoiseBuilder.BuildResponder` | src/noise.rs:101-103 | builds for the responder role; on success the role flag is false |
| `Builder.NoiseBuilder.Build` | src/noise.rs:105-150 | a missing local key the pattern needs gives the local-key error before anything else; otherwise a missing remote key it needs gives the remote-key error; success holds iff the keys suit the pattern and all four capabilities resolve; on success the arguments hold the resolved implementations, the private keys installed exactly when supplied, presence flags equal to the fields' presence, the remote keys or empty buffers, the role, the pattern, an empty prologue and no pre-shared key |
| `Builder.DhSlot.Set` | src/noise.rs:129-135 | installing a key keeps the DH implementation and makes the given key the installed one |
| `Builder.NoiseBuilder.TracedBuild` | src/noise.rs:105-150 | the queries `build` makes: none when the key material does not suit the pattern, the RNG query first otherwise, and seven queries on success |
| `BuildOrder.BuildChecks` | src/noise.rs:106-127 | the nine checks of `build` in source order: the two structural checks first, with no query and the local-key and remote-key errors; then seven checks that each make one query, pass exactly when the resolver answers it, and report that capability's error otherwise |
| `BuildOrder.FirstFailure` | src/noise.rs:105-127 | fail-fast evaluation: no error iff every check passes, otherwise the error of a check that fails with all checks before it passing |
| `BuildOrder.BuildFailsAtFirstFailedCheck` | src/noise.rs:105-127 | `build` fails iff one of its nine ordered checks fails, and then with the first failing check's error |
| `BuildOrder.TracedBuildFollowsChecks` | src/noise.rs:105-127 | the queries `build` makes are exactly those of its ordered checks, up to and including the first that fails |
| `BuildOrder.StructuralErrorsQueryNothing` | src/noise.rs:105-112 | when `build` reports a local-key or remote-key error, it has made no resolver query |
| `BuildOrder.SuccessfulBuildQueries` | src/noise.rs:114-127 | a successful `build` queries RNG, cipher, hash, DH, DH, cipher, cipher in that order: DH twice and cipher three times |
| `BuilderProperties.ErrorMessagesDistinct` | src/noise.rs:106-127 | two errors have the same message iff they are the same error |
| `BuilderProperties.BuildErrorsAreAccurate` | src/noise.rs:105-127 | each error names a requirement that is unmet or a capability the resolver lacks for the chosen algorithm |
| `BuilderProperties.ResolutionErrorPriority` | src/noise.rs:114-127 | with the keys in order, a missing RNG wins over a missing cipher, which wins over a missing hash, which wins over a missing DH function |
| `BuilderProperties.DefaultResolverBuild` | src/noise.rs:114-127 | with the default resolver the only resolution error is the DH error, and with the keys in order a build succeeds iff the DH choice is Curve25519 |
| `BuilderProperties.SoundResolverBuild` | src/noise.rs:114-149 | with a sound resolver every primitive handed on implements the chosen algorithm |
| `BuilderProperties.PresharedKeyAndPrologueUnused` | src/noise.rs:141-149 | setting a pre-shared key or a prologue does not change the result of building |
| `BuilderProperties.RolesDifferOnlyInFlag` | src/noise.rs:97-103 | when both roles build, the two results differ only in the role flag |
| `BuilderProperties.FreshBuilderBuild` | src/noise.rs:105-149 | a builder with no key material builds iff the pattern needs no key for the role and all capabilities resolve; then no key is installed, all presence flags are false and the remote buffers are empty |
| `BuilderProperties.BuilderTest` | src/noise.rs:155-161 | an NN-like initiator over Curve25519 with a pre-shared key, a prologue and a local key builds, with the key installed, an empty prologue and no pre-shared key |
| `BuilderProperties.BuilderMissingPrereqsTest` | src/noise.rs:173-183 | an NK-like initiator without the remote static key fails with the remote-key error |

## Left out

- The concrete primitives (`RandomOs`, `Dh25519`, the four hashes, the two ciphers) are opaque tags. Their mathematics and the operating system's randomness live in wrapper modules that are not part of this model.
- `HandshakeState::new` and its possible error are not modelled. `Build` stops at the argument record `HandshakeArgs`, so a successful `Build` means that the constructor is called with those arguments. The handshake state machine, the symmetric state and the cipher state are not part of this model.
- Parsing a protocol name into `NoiseParams` is not part of this model. `test_builder_bad_spec` exercises only that parser.
- The bodies of `needs_local_static_key` and `need_known_remote_pubkey` are not part of this model. They are given per pattern, as functions of the role.
- A DH object's `set` is modelled as recording the installed private key. Deriving the public key is left to the primitive.
- A freshly resolved DH object is taken to hold no key.
- Resolvers are modelled as pure functions, so the second DH query and the second and third cipher queries give the same answer as the first. `TracedBuild` still records each repeated query. A resolver with interior state that answers differently on repeated calls is not captured.
- `Box<dyn ...>` trait objects, the `'a` lifetime of borrowed keys and `deref_mut` are not modelled. Borrowed and owned byte buffers are both `seq<bv8>`.
