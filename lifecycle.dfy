/** The registry over any sequence of calls: which facts every call preserves,
    and what the whole history of calls can and cannot change. */
module Lifecycle {
  import opened RegistryTypes
  import opened RegistrySpec

  /** The operations that change the registry after construction, with their
      arguments. `reset` is not among them, since only the test fixture uses it: a
      history is a sequence of these calls with no reset, and the counter facts
      below hold for such histories. */
  datatype Op =
    | Authorize(principal: Principal)
    | SetFee(fee: int)
    | SetMin(min: int)
    | SetMax(max: int)
    | SetExpiry(expiry: int)
    | SetCap(cap: int)
    | Submit(certId: int, testId: int, proofHash: string, stake: int, score: int, metadata: string)
    | Update(certId: int, testId: int, updateHash: string, updateScore: int, updateMetadata: string)
    | Revoke(certId: int, testId: int)

  /** One call: who makes it, at which block height, and what it asks for. */
  datatype Call = Call(caller: Principal, blockHeight: int, op: Op)

  /** The state after one call, and whether the call succeeded. */
  function Apply(s: State, c: Call): Step<bool> {
    match c.op
    case Authorize(p) => SetAuthorityContract(s, p)
    case SetFee(v) => SetRegistrationFee(s, v)
    case SetMin(v) => SetMinStake(s, v)
    case SetMax(v) => SetMaxStake(s, v)
    case SetExpiry(v) => SetProofExpiry(s, v)
    case SetCap(v) => SetMaxProofs(s, v)
    case Submit(certId, testId, h, stake, score, m) =>
      var st := SubmitProof(s, c.caller, c.blockHeight, certId, testId, h, stake, score, m);
      Step(st.result.Ok?, st.post)
    case Update(certId, testId, h, score, m) =>
      UpdateProof(s, c.caller, c.blockHeight, certId, testId, h, score, m)
    case Revoke(certId, testId) => RevokeProof(s, c.caller, certId, testId)
  }

  /** The state after the calls, in order. */
  function Run(s: State, cs: seq<Call>): State
    decreases |cs|
  {
    if cs == [] then s else Run(Apply(s, cs[0]).post, cs[1..])
  }

  /** How many of the calls are submissions that succeed. */
  function SuccessfulSubmits(s: State, cs: seq<Call>): nat
    decreases |cs|
  {
    if cs == [] then 0
    else (if cs[0].op.Submit? && Apply(s, cs[0]).result then 1 else 0)
         + SuccessfulSubmits(Apply(s, cs[0]).post, cs[1..])
  }

  /** The call is a submission (successful or not) at the key `k`. */
  predicate SubmitsAt(c: Call, k: Key) {
    c.op.Submit? && Key(c.op.certId, c.op.testId) == k
  }

  // ---------------------------------------------------------------- one call

  /** What a single call can change: the counter and the transfer log move only on
      a successful submission, by exactly one; a stored authority stays; no proof
      is ever removed. What happens to revocation is `StepKeepsRevocation`. */
  lemma StepMonotone(s: State, c: Call)
    ensures var st := Apply(s, c);
      var counted := if c.op.Submit? && st.result then 1 else 0;
      && st.post.nextProofId == s.nextProofId + counted
      && |st.post.stxTransfers| == |s.stxTransfers| + counted
      && st.post.stxTransfers[..|s.stxTransfers|] == s.stxTransfers
      && (s.authority.Some? ==> st.post.authority == s.authority)
      && s.proofs.Keys <= st.post.proofs.Keys
  {
  }

  /** Only a successful submission at its key un-revokes a proof; a failed one
      changes nothing. */
  lemma StepKeepsRevocation(s: State, c: Call, k: Key)
    requires k in s.proofs && s.proofs[k].revoked
    requires !(SubmitsAt(c, k) && Apply(s, c).result)
    ensures k in Apply(s, c).post.proofs
    ensures Apply(s, c).post.proofs[k].revoked
  {
  }

  // ---------------------------------------------------------------- whole histories

  /** `nextProofId` never decreases; it grows by exactly the number of successful
      submissions, and the transfer log grows by one entry for each of them
      while its earlier entries stay as they were. */
  lemma {:induction false} RunCounts(s: State, cs: seq<Call>)
    ensures Run(s, cs).nextProofId == s.nextProofId + SuccessfulSubmits(s, cs)
    ensures Run(s, cs).nextProofId >= s.nextProofId
    ensures |Run(s, cs).stxTransfers| == |s.stxTransfers| + SuccessfulSubmits(s, cs)
    ensures Run(s, cs).stxTransfers[..|s.stxTransfers|] == s.stxTransfers
    decreases |cs|
  {
    if cs != [] {
      var next := Apply(s, cs[0]).post;
      StepMonotone(s, cs[0]);
      RunCounts(next, cs[1..]);
      calc {
        Run(s, cs).stxTransfers[..|s.stxTransfers|];
        Run(next, cs[1..]).stxTransfers[..|next.stxTransfers|][..|s.stxTransfers|];
        next.stxTransfers[..|s.stxTransfers|];
      }
    }
  }

  /** From a fresh registry, the proof count is the number of successful submissions. */
  lemma CountIsSuccessfulSubmits(cs: seq<Call>)
    ensures GetProofCount(Run(Initial(), cs)) == SuccessfulSubmits(Initial(), cs)
    ensures |Run(Initial(), cs).stxTransfers| == SuccessfulSubmits(Initial(), cs)
  {
    RunCounts(Initial(), cs);
  }

  /** Once an authority is stored, no sequence of calls changes it. */
  lemma {:induction false} RunAuthorityWriteOnce(s: State, cs: seq<Call>)
    requires s.authority.Some?
    ensures Run(s, cs).authority == s.authority
    decreases |cs|
  {
    if cs != [] {
      StepMonotone(s, cs[0]);
      RunAuthorityWriteOnce(Apply(s, cs[0]).post, cs[1..]);
    }
  }

  /** Proofs are never deleted. */
  lemma {:induction false} RunKeepsProofs(s: State, cs: seq<Call>)
    ensures s.proofs.Keys <= Run(s, cs).proofs.Keys
    decreases |cs|
  {
    if cs != [] {
      StepMonotone(s, cs[0]);
      RunKeepsProofs(Apply(s, cs[0]).post, cs[1..]);
    }
  }

  /** No call of the history, in the state it meets, is a successful submission at `k`. */
  predicate NoRevivalThroughout(s: State, cs: seq<Call>, k: Key)
    decreases |cs|
  {
    cs == [] || (!(SubmitsAt(cs[0], k) && Apply(s, cs[0]).result)
                 && NoRevivalThroughout(Apply(s, cs[0]).post, cs[1..], k))
  }

  /** No update, revocation or failed submission un-revokes a proof: it stays
      revoked through any history with no successful submission at its key. */
  lemma {:induction false} RunKeepsRevocation(s: State, cs: seq<Call>, k: Key)
    requires k in s.proofs && s.proofs[k].revoked
    requires NoRevivalThroughout(s, cs, k)
    ensures k in Run(s, cs).proofs && Run(s, cs).proofs[k].revoked
    decreases |cs|
  {
    if cs != [] {
      StepKeepsRevocation(s, cs[0], k);
      RunKeepsRevocation(Apply(s, cs[0]).post, cs[1..], k);
    }
  }

  /** A resubmission at the key of a revoked proof, with a hash not yet indexed,
      stores an unrevoked proof there: revocation is one-way only for histories
      without such a submission. */
  lemma ResubmissionRevivesRevokedProof()
    ensures var s0 := Run(Initial(), [Call(DefaultCaller, 0, Authorize("ST2TEST")),
                                      Call(DefaultCaller, 0, Submit(1, 1, "h1", 100, 85, "m")),
                                      Call(DefaultCaller, 0, Revoke(1, 1))]);
      var s1 := Apply(s0, Call("ST3OTHER", 5, Submit(1, 1, "h2", 100, 40, "m"))).post;
      && Key(1, 1) in s0.proofs && s0.proofs[Key(1, 1)].revoked
      && Key(1, 1) in s1.proofs && !s1.proofs[Key(1, 1)].revoked
      && s1.proofs[Key(1, 1)].verifier == "ST3OTHER"
  {
    var a := SetAuthorityContract(Initial(), "ST2TEST").post;
    assert a.authority == Some("ST2TEST");
    var b := SubmitProof(a, DefaultCaller, 0, 1, 1, "h1", 100, 85, "m").post;
    assert "h1" !in a.proofsByHash;
    assert b.proofs[Key(1, 1)].verifier == DefaultCaller && !b.proofs[Key(1, 1)].revoked;
    var c := RevokeProof(b, DefaultCaller, 1, 1).post;
    assert c.proofs[Key(1, 1)].revoked;
    assert c.proofsByHash == map["h1" := Key(1, 1)];
    var cs := [Call(DefaultCaller, 0, Authorize("ST2TEST")),
               Call(DefaultCaller, 0, Submit(1, 1, "h1", 100, 85, "m")),
               Call(DefaultCaller, 0, Revoke(1, 1))];
    assert Run(Initial(), cs) == c by {
      assert Apply(Initial(), cs[0]).post == a;
      assert Apply(a, cs[1]).post == b;
      assert Apply(b, cs[2]).post == c;
      assert cs[1..][0] == cs[1] && cs[1..][1..][0] == cs[2] && cs[1..][1..][1..] == [];
      assert Run(c, cs[1..][1..][1..]) == c;
      assert Run(b, cs[1..][1..]) == Run(c, cs[1..][1..][1..]);
      assert Run(a, cs[1..]) == Run(b, cs[1..][1..]);
      assert Run(Initial(), cs) == Run(a, cs[1..]);
    }
    assert "h2" !in c.proofsByHash;
  }

  // ---------------------------------------------------------------- an invariant

  /** Facts every reachable registry satisfies: stored keys are positive, stored
      records respect the submission bounds and keep `status == !revoked`, every
      index entry and every update slot refers to a stored proof, and there are
      at most as many proofs as submissions, each of which was paid for once. */
  predicate Wf(s: State) {
    && (forall k :: k in s.proofs ==> k.certId > 0 && k.testId > 0)
    && (forall k :: k in s.proofs ==>
          ValidHash(s.proofs[k].proofHash) && s.proofs[k].score <= MaxScore
          && |s.proofs[k].metadata| <= MaxMetadataLength && s.proofs[k].status == !s.proofs[k].revoked)
    && (forall h :: h in s.proofsByHash ==> s.proofsByHash[h] in s.proofs)
    && s.proofUpdates.Keys <= s.proofs.Keys
    && |s.proofs.Keys| <= s.nextProofId
    && |s.stxTransfers| == s.nextProofId
  }

  lemma InitialWf()
    ensures Wf(Initial())
  {
  }

  lemma SubmitPreservesWf(s: State, caller: Principal, blockHeight: int, certId: int, testId: int,
                          proofHash: string, stake: int, score: int, metadata: string)
    requires Wf(s)
    ensures Wf(SubmitProof(s, caller, blockHeight, certId, testId, proofHash, stake, score, metadata).post)
  {
  }

  lemma UpdatePreservesWf(s: State, caller: Principal, blockHeight: int, certId: int, testId: int,
                          updateHash: string, updateScore: int, updateMetadata: string)
    requires Wf(s)
    ensures Wf(UpdateProof(s, caller, blockHeight, certId, testId, updateHash, updateScore, updateMetadata).post)
  {
  }

  lemma RevokePreservesWf(s: State, caller: Principal, certId: int, testId: int)
    requires Wf(s)
    ensures Wf(RevokeProof(s, caller, certId, testId).post)
  {
  }

  lemma StepPreservesWf(s: State, c: Call)
    requires Wf(s)
    ensures Wf(Apply(s, c).post)
  {
    match c.op
    case Submit(certId, testId, h, stake, score, m) =>
      SubmitPreservesWf(s, c.caller, c.blockHeight, certId, testId, h, stake, score, m);
    case Update(certId, testId, h, score, m) =>
      UpdatePreservesWf(s, c.caller, c.blockHeight, certId, testId, h, score, m);
    case Revoke(certId, testId) =>
      RevokePreservesWf(s, c.caller, certId, testId);
    case _ =>
  }

  lemma {:induction false} RunPreservesWf(s: State, cs: seq<Call>)
    requires Wf(s)
    ensures Wf(Run(s, cs))
    decreases |cs|
  {
    if cs != [] {
      StepPreservesWf(s, cs[0]);
      RunPreservesWf(Apply(s, cs[0]).post, cs[1..]);
    }
  }

  /** In every reachable registry, an existing hash names a stored proof, and a
      proof that validates has a score of at most 100. */
  lemma ReachableFacts(cs: seq<Call>, h: string, blockHeight: int, certId: int, testId: int)
    ensures var s := Run(Initial(), cs);
      && (CheckProofExistence(s, h) ==> s.proofsByHash[h] in s.proofs)
      && (ValidateProof(s, blockHeight, certId, testId, h).Ok? ==>
            ValidateProof(s, blockHeight, certId, testId, h).value <= MaxScore
            && certId > 0 && testId > 0)
  {
    InitialWf();
    RunPreservesWf(Initial(), cs);
  }
}
