/** The hash index `proofsByHash`. It is meant to hold exactly the hashes of
    the stored proofs, one key per hash, but two behaviours of the registry
    break that: a successful resubmission at a taken key leaves the old hash
    indexed, and the update collision test compares only the certId, so an update
    may take a hash indexed to a sibling key. Every other call keeps an exact index
    exact, every call of those two kinds breaks it, and the two counterexamples
    below show each of them concretely. */
module HashIndex {
  import opened RegistryTypes
  import opened RegistrySpec
  import opened Lifecycle
  import OperationProperties

  /** The index is the exact inverse of the stored hashes. */
  predicate IndexExact(s: State) {
    && (forall k :: k in s.proofs ==>
          s.proofs[k].proofHash in s.proofsByHash && s.proofsByHash[s.proofs[k].proofHash] == k)
    && (forall h :: h in s.proofsByHash ==>
          s.proofsByHash[h] in s.proofs && s.proofs[s.proofsByHash[h]].proofHash == h)
  }

  /** With an exact index no two stored proofs share a hash ... */
  lemma ExactIndexMeansUniqueHashes(s: State, k1: Key, k2: Key)
    requires IndexExact(s)
    requires k1 in s.proofs && k2 in s.proofs
    requires s.proofs[k1].proofHash == s.proofs[k2].proofHash
    ensures k1 == k2
  {
  }

  /** ... and the existence check reports exactly the hashes of stored proofs. */
  lemma ExactIndexMeansExistenceIsStoredHash(s: State, h: string)
    requires IndexExact(s)
    ensures CheckProofExistence(s, h) <==> exists k :: k in s.proofs && s.proofs[k].proofHash == h
  {
  }

  lemma InitialIndexExact()
    ensures IndexExact(Initial())
  {
  }

  /** A submission at a key that holds no proof keeps the index exact. */
  lemma SubmitAtFreshKeyKeepsIndexExact(s: State, caller: Principal, blockHeight: int, certId: int, testId: int,
                                        proofHash: string, stake: int, score: int, metadata: string)
    requires IndexExact(s)
    requires Key(certId, testId) !in s.proofs
    ensures IndexExact(SubmitProof(s, caller, blockHeight, certId, testId, proofHash, stake, score, metadata).post)
  {
  }

  /** An update keeps the index exact when its new hash is unindexed or already
      indexed to the key being updated. */
  lemma UpdateKeepsIndexExact(s: State, caller: Principal, blockHeight: int, certId: int, testId: int,
                              updateHash: string, updateScore: int, updateMetadata: string)
    requires IndexExact(s)
    requires updateHash !in s.proofsByHash || s.proofsByHash[updateHash] == Key(certId, testId)
    ensures IndexExact(UpdateProof(s, caller, blockHeight, certId, testId, updateHash, updateScore, updateMetadata).post)
  {
  }

  /** Revocation does not touch hashes or the index. */
  lemma RevokeKeepsIndexExact(s: State, caller: Principal, certId: int, testId: int)
    requires IndexExact(s)
    ensures IndexExact(RevokeProof(s, caller, certId, testId).post)
  {
  }

  /** Every call except the two behaviours: a successful submission at a taken
      key, and a successful update to a hash indexed to another key. A call that
      fails changes nothing, so it is included. */
  predicate KeepsIndex(s: State, c: Call) {
    match c.op
    case Submit(certId, testId, _, _, _, _) => Key(certId, testId) !in s.proofs || !Apply(s, c).result
    case Update(certId, testId, h, _, _) =>
      h !in s.proofsByHash || s.proofsByHash[h] == Key(certId, testId) || !Apply(s, c).result
    case _ => true
  }

  /** Every call of the history keeps the index, in the state it meets. */
  predicate KeepsIndexThroughout(s: State, cs: seq<Call>)
    decreases |cs|
  {
    cs == [] || (KeepsIndex(s, cs[0]) && KeepsIndexThroughout(Apply(s, cs[0]).post, cs[1..]))
  }

  lemma StepKeepsIndexExact(s: State, c: Call)
    requires IndexExact(s) && KeepsIndex(s, c)
    ensures IndexExact(Apply(s, c).post)
  {
    if !Apply(s, c).result {
      match c.op
      case Submit(certId, testId, h, stake, score, m) =>
        OperationProperties.SubmitGuardOrder(s, c.caller, c.blockHeight, certId, testId, h, stake, score, m);
      case Update(certId, testId, h, score, m) =>
        OperationProperties.UpdateGuards(s, c.caller, c.blockHeight, certId, testId, h, score, m);
      case _ =>
    }
  }

  /** Conversely, each of the two behaviours breaks an exact index, so they are
      exactly the calls that do. */
  lemma StepBreaksIndexExact(s: State, c: Call)
    requires IndexExact(s) && !KeepsIndex(s, c)
    ensures !IndexExact(Apply(s, c).post)
  {
    var post := Apply(s, c).post;
    match c.op
    case Submit(certId, testId, h, stake, score, m) =>
      var key := Key(certId, testId);
      var stale := s.proofs[key].proofHash;
      OperationProperties.SubmitGuardOrder(s, c.caller, c.blockHeight, certId, testId, h, stake, score, m);
      assert stale in post.proofsByHash && post.proofsByHash[stale] == key;
      assert post.proofs[key].proofHash == h && h != stale;
    case Update(certId, testId, h, score, m) =>
      var key, other := Key(certId, testId), s.proofsByHash[h];
      OperationProperties.UpdateSuccessEffects(s, c.caller, c.blockHeight, certId, testId, h, score, m);
      assert other in post.proofs && post.proofs[other].proofHash == h;
      assert post.proofsByHash[h] == key && key != other;
  }

  /** Histories that avoid both behaviours keep stored hashes unique. */
  lemma {:induction false} RunKeepsIndexExact(s: State, cs: seq<Call>)
    requires IndexExact(s) && KeepsIndexThroughout(s, cs)
    ensures IndexExact(Run(s, cs))
    decreases |cs|
  {
    if cs != [] {
      StepKeepsIndexExact(s, cs[0]);
      RunKeepsIndexExact(Apply(s, cs[0]).post, cs[1..]);
    }
  }

  /** A verifier retrying a submission at its own key with its own hash is
      refused as a duplicate and leaves the index exact. */
  lemma FailedRetryKeepsIndex()
    ensures var cs := [Call(DefaultCaller, 0, Authorize("ST2TEST")),
                       Call(DefaultCaller, 0, Submit(1, 1, "h1", 100, 85, "m")),
                       Call(DefaultCaller, 0, Submit(1, 1, "h1", 100, 85, "m"))];
      && KeepsIndexThroughout(Initial(), cs)
      && IndexExact(Run(Initial(), cs))
  {
    var a := SetAuthorityContract(Initial(), "ST2TEST").post;
    var b := SubmitProof(a, DefaultCaller, 0, 1, 1, "h1", 100, 85, "m").post;
    var retry := SubmitProof(b, DefaultCaller, 0, 1, 1, "h1", 100, 85, "m");
    assert retry.result == Err(ProofAlreadyExists) && retry.post == b;
    var cs := [Call(DefaultCaller, 0, Authorize("ST2TEST")),
               Call(DefaultCaller, 0, Submit(1, 1, "h1", 100, 85, "m")),
               Call(DefaultCaller, 0, Submit(1, 1, "h1", 100, 85, "m"))];
    assert KeepsIndexThroughout(b, cs[2..]);
    assert KeepsIndexThroughout(a, cs[1..]);
    InitialIndexExact();
    RunKeepsIndexExact(Initial(), cs);
  }

  // ---------------------------------------------------------------- the two behaviours

  /** Resubmitting at key (1,1) with a new hash leaves "h1" indexed although no
      proof holds it, so a later submission of "h1" is refused as a duplicate. */
  lemma ResubmissionLeavesStaleHash()
    ensures var a := SetAuthorityContract(Initial(), "ST2TEST").post;
      var b := SubmitProof(a, DefaultCaller, 0, 1, 1, "h1", 100, 85, "m").post;
      var c := SubmitProof(b, DefaultCaller, 0, 1, 1, "h2", 100, 85, "m");
      && c.result == Ok(1)
      && CheckProofExistence(c.post, "h1")
      && c.post.proofs.Keys == {Key(1, 1)} && c.post.proofs[Key(1, 1)].proofHash == "h2"
      && !IndexExact(c.post)
      && SubmitProof(c.post, DefaultCaller, 0, 2, 2, "h1", 100, 85, "m").result == Err(ProofAlreadyExists)
  {
  }

  /** The stale "h1" left by a resubmission is not stuck for good: an update of
      (1,1) may take it back, since the collision test sees the same certId, and a
      second update then removes it from the index, after which "h1" can be
      submitted at another key. */
  lemma StaleHashReclaimedByUpdate()
    ensures var a := SetAuthorityContract(Initial(), "ST2TEST").post;
      var b := SubmitProof(a, DefaultCaller, 0, 1, 1, "h1", 100, 85, "m").post;
      var c := SubmitProof(b, DefaultCaller, 0, 1, 1, "h2", 100, 85, "m").post;
      var d := UpdateProof(c, DefaultCaller, 0, 1, 1, "h1", 85, "m");
      var e := UpdateProof(d.post, DefaultCaller, 0, 1, 1, "h3", 85, "m");
      && CheckProofExistence(c, "h1") && !IndexExact(c)
      && d.result && e.result
      && !CheckProofExistence(e.post, "h1")
      && SubmitProof(e.post, DefaultCaller, 0, 2, 2, "h1", 100, 85, "m").result == Ok(2)
  {
  }

  /** With proofs at (1,1) and (1,2), updating (1,1) to the hash of (1,2) passes
      the certId-only collision test: both proofs then hold "h2", and the index
      entry for "h2" now names (1,1). */
  lemma SiblingUpdateSharesHash()
    ensures var a := SetAuthorityContract(Initial(), "ST2TEST").post;
      var b := SubmitProof(a, DefaultCaller, 0, 1, 1, "h1", 100, 85, "m").post;
      var c := SubmitProof(b, DefaultCaller, 0, 1, 2, "h2", 100, 90, "m").post;
      var d := UpdateProof(c, DefaultCaller, 3, 1, 1, "h2", 70, "m2");
      && IndexExact(c)
      && d.result
      && d.post.proofs[Key(1, 1)].proofHash == d.post.proofs[Key(1, 2)].proofHash == "h2"
      && d.post.proofsByHash == map["h2" := Key(1, 1)]
      && !IndexExact(d.post)
  {
  }
}
