/** An independent reference definition of `build` (src/noise.rs:105-127) as an
    ordered list of fail-fast checks: the first check that does not pass
    decides the error, and every resolver query up to and including that
    check is made. */
module BuildOrder {
  import opened Wrappers
  import opened CryptoTypes
  import opened Resolver
  import opened Builder

  /** One check: the resolver query it makes (none for a structural check),
      whether it passes, and the error reported when it does not. */
  datatype Check = Check(query: Option<Query>, passes: bool, error: InitError)

  /** Check `i` is the first one that fails. */
  ghost predicate FailsFirst(checks: seq<Check>, i: int) {
    && 0 <= i < |checks|
    && !checks[i].passes
    && forall j :: 0 <= j < i ==> checks[j].passes
  }

  /** The error of the first failing check, if any fails. */
  function FirstFailure(checks: seq<Check>): (r: Option<InitError>)
    ensures r.None? <==> forall i :: 0 <= i < |checks| ==> checks[i].passes
    ensures r.Some? ==> exists i :: FailsFirst(checks, i) && r.value == checks[i].error
  {
    if checks == [] then None
    else if !checks[0].passes then Some(checks[0].error)
    else
      var r := FirstFailure(checks[1..]);
      if r.Some? then
        ghost var i :| FailsFirst(checks[1..], i) && r.value == checks[1..][i].error;
        assert FailsFirst(checks, i + 1);
        r
      else r
  }

  /** The resolver queries made, in order, by the checks from `k` on before
      they stop. */
  function QueriesFrom(checks: seq<Check>, k: nat): seq<Query>
    decreases |checks| - k
  {
    if k >= |checks| then []
    else
      var q := if checks[k].query.Some? then [checks[k].query.value] else [];
      if checks[k].passes then q + QueriesFrom(checks, k + 1) else q
  }

  /** The resolver queries made, in order, before the checks stop. */
  function QueriesMade(checks: seq<Check>): seq<Query> {
    QueriesFrom(checks, 0)
  }

  /** The resolver has an answer to the query. */
  predicate Answers(r: CryptoResolver, q: Query) {
    match q
    case RngQuery => r.resolveRng().Some?
    case CipherQuery(c) => r.resolveCipher(c).Some?
    case HashQuery(h) => r.resolveHash(h).Some?
    case DhQuery(d) => r.resolveDh(d).Some?
  }

  /** The error reported when the resolver has no answer to the query. */
  function Unanswered(q: Query): InitError {
    match q
    case RngQuery => NoSuitableRng
    case CipherQuery(_) => NoSuitableCipher
    case HashQuery(_) => NoSuitableHash
    case DhQuery(_) => NoSuitableDh
  }

  /** The checks of `build`, in source order: the two structural checks,
      then RNG, cipher, hash, DH for the static and for the ephemeral slot,
      and the two transport cipher states. The structural checks come first
      and make no query; every later check makes one, passes exactly when
      the resolver answers it, and otherwise reports that capability's
      error. */
  function BuildChecks(b: NoiseBuilder, initiator: bool): (cs: seq<Check>)
    ensures |cs| == 9
    ensures cs[0].query.None? && cs[0].error == LocalKeyNeeded &&
            (cs[0].passes <==> b.s.Some? || !b.params.handshake.needsLocalStaticKey(initiator))
    ensures cs[1].query.None? && cs[1].error == RemoteKeyNeeded &&
            (cs[1].passes <==> b.rs.Some? || !b.params.handshake.needKnownRemotePubkey(initiator))
    ensures forall i :: 2 <= i < |cs| ==>
              && cs[i].query.Some?
              && (cs[i].passes <==> Answers(b.resolver, cs[i].query.value))
              && cs[i].error == Unanswered(cs[i].query.value)
  {
    var p := b.params;
    var r := b.resolver;
    [ Check(None, b.s.Some? || !p.handshake.needsLocalStaticKey(initiator), LocalKeyNeeded),
      Check(None, b.rs.Some? || !p.handshake.needKnownRemotePubkey(initiator), RemoteKeyNeeded),
      Check(Some(RngQuery), r.resolveRng().Some?, NoSuitableRng),
      Check(Some(CipherQuery(p.cipher)), r.resolveCipher(p.cipher).Some?, NoSuitableCipher),
      Check(Some(HashQuery(p.hash)), r.resolveHash(p.hash).Some?, NoSuitableHash),
      Check(Some(DhQuery(p.dh)), r.resolveDh(p.dh).Some?, NoSuitableDh),
      Check(Some(DhQuery(p.dh)), r.resolveDh(p.dh).Some?, NoSuitableDh),
      Check(Some(CipherQuery(p.cipher)), r.resolveCipher(p.cipher).Some?, NoSuitableCipher),
      Check(Some(CipherQuery(p.cipher)), r.resolveCipher(p.cipher).Some?, NoSuitableCipher) ]
  }

  /** The failing check that comes first decides the error. */
  lemma FirstFailureAt(checks: seq<Check>, i: int)
    requires FailsFirst(checks, i)
    ensures FirstFailure(checks) == Some(checks[i].error)
  {
  }

  /** `build` fails exactly when one of its checks fails, and then with the
      error of the first failing check. */
  lemma BuildFailsAtFirstFailedCheck(b: NoiseBuilder, initiator: bool)
    ensures b.Build(initiator).Failure? <==> FirstFailure(BuildChecks(b, initiator)).Some?
    ensures b.Build(initiator).Failure? ==>
              b.Build(initiator).error == FirstFailure(BuildChecks(b, initiator)).value
  {
    var cs := BuildChecks(b, initiator);
    if !cs[0].passes { FirstFailureAt(cs, 0); }
    else if !cs[1].passes { FirstFailureAt(cs, 1); }
    else if !cs[2].passes { FirstFailureAt(cs, 2); }
    else if !cs[3].passes { FirstFailureAt(cs, 3); }
    else if !cs[4].passes { FirstFailureAt(cs, 4); }
    else if !cs[5].passes { FirstFailureAt(cs, 5); }
  }

  /** The queries `build` makes are those of its checks, up to and
      including the first that fails. */
  lemma TracedBuildFollowsChecks(b: NoiseBuilder, initiator: bool)
    ensures b.TracedBuild(initiator).1 == QueriesMade(BuildChecks(b, initiator))
  {
    var cs := BuildChecks(b, initiator);
    assert QueriesFrom(cs, 9) == [];
    assert QueriesFrom(cs, 8) == [cs[8].query.value] + (if cs[8].passes then QueriesFrom(cs, 9) else []);
    assert QueriesFrom(cs, 7) == [cs[7].query.value] + (if cs[7].passes then QueriesFrom(cs, 8) else []);
    assert QueriesFrom(cs, 6) == [cs[6].query.value] + (if cs[6].passes then QueriesFrom(cs, 7) else []);
    assert QueriesFrom(cs, 5) == [cs[5].query.value] + (if cs[5].passes then QueriesFrom(cs, 6) else []);
    assert QueriesFrom(cs, 4) == [cs[4].query.value] + (if cs[4].passes then QueriesFrom(cs, 5) else []);
    assert QueriesFrom(cs, 3) == [cs[3].query.value] + (if cs[3].passes then QueriesFrom(cs, 4) else []);
    assert QueriesFrom(cs, 2) == [cs[2].query.value] + (if cs[2].passes then QueriesFrom(cs, 3) else []);
    assert QueriesFrom(cs, 1) == (if cs[1].passes then QueriesFrom(cs, 2) else []);
    assert QueriesFrom(cs, 0) == (if cs[0].passes then QueriesFrom(cs, 1) else []);
  }

  /** A structural error is reported before the resolver is asked
      anything. */
  lemma StructuralErrorsQueryNothing(b: NoiseBuilder, initiator: bool)
    requires b.Build(initiator) == Failure(LocalKeyNeeded) || b.Build(initiator) == Failure(RemoteKeyNeeded)
    ensures b.TracedBuild(initiator).1 == []
  {
  }

  /** A successful build asks for the RNG, the cipher, the hash, the DH
      function twice and the cipher twice more, in that order. */
  lemma SuccessfulBuildQueries(b: NoiseBuilder, initiator: bool)
    requires b.Build(initiator).Success?
    ensures b.TracedBuild(initiator).1 ==
              [RngQuery, CipherQuery(b.params.cipher), HashQuery(b.params.hash),
               DhQuery(b.params.dh), DhQuery(b.params.dh),
               CipherQuery(b.params.cipher), CipherQuery(b.params.cipher)]
  {
  }
}
