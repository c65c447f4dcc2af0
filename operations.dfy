/** Properties of single registry calls: the guard order of each operation, what
    a success changes and what it leaves alone, and how submission, update and
    revocation are seen by validation afterwards. */
module OperationProperties {
  import opened RegistryTypes
  import opened RegistrySpec

  // ---------------------------------------------------------------- configuration

  /** The authority is write-once: the burn principal is refused, a second
      assignment is refused, and otherwise only the authority changes. */
  lemma SetAuthorityContractOutcome(s: State, principal: Principal)
    ensures var r := SetAuthorityContract(s, principal);
      && (r.result <==> principal != BurnPrincipal && s.authority.None?)
      && (r.result ==> r.post == s.(authority := Some(principal)))
      && (!r.result ==> r.post == s)
  {
  }

  /** Once an authority is stored, setting it again fails and keeps it. */
  lemma AuthorityCannotBeReplaced(s: State, principal: Principal)
    requires s.authority.Some?
    ensures !SetAuthorityContract(s, principal).result
    ensures SetAuthorityContract(s, principal).post.authority == s.authority
  {
  }

  /** Every admin setter succeeds exactly when an authority is configured,
      whoever calls it; on success only its own field changes, on failure nothing. */
  lemma AdminSettersGateOnAuthority(s: State, v: int)
    ensures SetRegistrationFee(s, v).result == HasAuthority(s)
    ensures SetMinStake(s, v).result == HasAuthority(s)
    ensures SetMaxStake(s, v).result == HasAuthority(s)
    ensures SetProofExpiry(s, v).result == HasAuthority(s)
    ensures SetMaxProofs(s, v).result == HasAuthority(s)
    ensures SetRegistrationFee(s, v).post == if HasAuthority(s) then s.(registrationFee := v) else s
    ensures SetMinStake(s, v).post == if HasAuthority(s) then s.(minStake := v) else s
    ensures SetMaxStake(s, v).post == if HasAuthority(s) then s.(maxStake := v) else s
    ensures SetProofExpiry(s, v).post == if HasAuthority(s) then s.(proofExpiry := v) else s
    ensures SetMaxProofs(s, v).post == if HasAuthority(s) then s.(maxProofs := v) else s
  {
  }

  /** A stored but empty authority never opens the gate: every setter and every
      submission fails from then on, and the authority can no longer be set. */
  lemma EmptyAuthorityLocksRegistry(s: State, principal: Principal, v: int, caller: Principal, blockHeight: int,
                                    certId: int, testId: int, proofHash: string, stake: int, score: int, metadata: string)
    requires s.authority == Some("")
    ensures !SetAuthorityContract(s, principal).result
    ensures !SetRegistrationFee(s, v).result && !SetMinStake(s, v).result && !SetMaxStake(s, v).result
    ensures !SetProofExpiry(s, v).result && !SetMaxProofs(s, v).result
    ensures SubmitProof(s, caller, blockHeight, certId, testId, proofHash, stake, score, metadata).result.Err?
  {
  }

  // ---------------------------------------------------------------- submission

  /** The first failing guard decides the error, in the order max-proofs, certId,
      testId, hash length, stake bounds, score, metadata length, indexed hash,
      authority; any failure leaves the whole state as it was. */
  lemma SubmitGuardOrder(s: State, caller: Principal, blockHeight: int, certId: int, testId: int,
                         proofHash: string, stake: int, score: int, metadata: string)
    ensures var r := SubmitProof(s, caller, blockHeight, certId, testId, proofHash, stake, score, metadata).result;
      && (r == Err(MaxProofsExceeded) <==> s.nextProofId >= s.maxProofs)
      && (r == Err(InvalidCertId) <==> s.nextProofId < s.maxProofs && certId <= 0)
      && (r == Err(InvalidTestId) <==> s.nextProofId < s.maxProofs && certId > 0 && testId <= 0)
      && (r == Err(InvalidProofHash) <==>
            s.nextProofId < s.maxProofs && certId > 0 && testId > 0 && (|proofHash| == 0 || |proofHash| > MaxHashLength))
      && (r == Err(InvalidStake) <==>
            s.nextProofId < s.maxProofs && certId > 0 && testId > 0 && 0 < |proofHash| <= MaxHashLength
            && (stake < s.minStake || stake > s.maxStake))
      && (r == Err(InvalidScoreRange) <==>
            s.nextProofId < s.maxProofs && certId > 0 && testId > 0 && 0 < |proofHash| <= MaxHashLength
            && s.minStake <= stake <= s.maxStake && score > MaxScore)
      && (r == Err(InvalidMetadata) <==>
            s.nextProofId < s.maxProofs && certId > 0 && testId > 0 && 0 < |proofHash| <= MaxHashLength
            && s.minStake <= stake <= s.maxStake && score <= MaxScore && |metadata| > MaxMetadataLength)
      && (r == Err(ProofAlreadyExists) <==>
            s.nextProofId < s.maxProofs && certId > 0 && testId > 0 && 0 < |proofHash| <= MaxHashLength
            && s.minStake <= stake <= s.maxStake && score <= MaxScore && |metadata| <= MaxMetadataLength
            && proofHash in s.proofsByHash)
      && (r == Err(AuthorityNotVerified) <==>
            s.nextProofId < s.maxProofs && certId > 0 && testId > 0 && 0 < |proofHash| <= MaxHashLength
            && s.minStake <= stake <= s.maxStake && score <= MaxScore && |metadata| <= MaxMetadataLength
            && proofHash !in s.proofsByHash && !HasAuthority(s))
      && (r.Ok? <==>
            s.nextProofId < s.maxProofs && certId > 0 && testId > 0 && 0 < |proofHash| <= MaxHashLength
            && s.minStake <= stake <= s.maxStake && score <= MaxScore && |metadata| <= MaxMetadataLength
            && proofHash !in s.proofsByHash && HasAuthority(s))
    ensures var st := SubmitProof(s, caller, blockHeight, certId, testId, proofHash, stake, score, metadata);
      st.result.Err? ==> st.post == s
  {
  }

  /** A successful submission returns the certId, appends exactly one fee transfer
      from the caller to the authority, stores a fresh active proof at the key,
      indexes its hash, counts it, and changes nothing else. */
  lemma SubmitSuccessEffects(s: State, caller: Principal, blockHeight: int, certId: int, testId: int,
                             proofHash: string, stake: int, score: int, metadata: string)
    requires SubmitProof(s, caller, blockHeight, certId, testId, proofHash, stake, score, metadata).result.Ok?
    ensures var st := SubmitProof(s, caller, blockHeight, certId, testId, proofHash, stake, score, metadata);
      var key := Key(certId, testId);
      && st.result == Ok(certId)
      && s.authority.Some?
      && st.post.stxTransfers == s.stxTransfers + [Transfer(s.registrationFee, caller, s.authority.value)]
      && key in st.post.proofs
      && st.post.proofs[key].proofHash == proofHash
      && st.post.proofs[key].timestamp == blockHeight
      && st.post.proofs[key].staked == stake
      && st.post.proofs[key].score == score
      && st.post.proofs[key].metadata == metadata
      && st.post.proofs[key].expiry == blockHeight + s.proofExpiry
      && st.post.proofs[key].revoked == false
      && st.post.proofs[key].status == true
      && st.post.proofs[key].verifier == caller
      && st.post.proofsByHash == s.proofsByHash[proofHash := key]
      && st.post.nextProofId == s.nextProofId + 1
      && (forall k :: k in s.proofs && k != key ==> k in st.post.proofs && st.post.proofs[k] == s.proofs[k])
      && st.post.proofs.Keys == s.proofs.Keys + {key}
      && st.post.proofUpdates == s.proofUpdates
      && st.post == s.(stxTransfers := st.post.stxTransfers, proofs := st.post.proofs,
                       proofsByHash := st.post.proofsByHash, nextProofId := st.post.nextProofId)
  {
  }

  /** Submission does not check whether the key is taken: a second submission at
      the same key with an unindexed hash succeeds, replaces the proof (revoked or
      not, by whoever calls) and leaves the first hash in the index. */
  lemma ResubmissionKeepsOldIndexEntry(s: State, caller: Principal, blockHeight: int, certId: int, testId: int,
                                       proofHash: string, stake: int, score: int, metadata: string)
    requires Key(certId, testId) in s.proofs
    requires s.proofs[Key(certId, testId)].proofHash in s.proofsByHash
    requires SubmitProof(s, caller, blockHeight, certId, testId, proofHash, stake, score, metadata).result.Ok?
    ensures var post := SubmitProof(s, caller, blockHeight, certId, testId, proofHash, stake, score, metadata).post;
      var oldHash := s.proofs[Key(certId, testId)].proofHash;
      && oldHash != proofHash
      && CheckProofExistence(post, oldHash)
      && post.proofs[Key(certId, testId)].proofHash == proofHash
      && !post.proofs[Key(certId, testId)].revoked
  {
  }

  // ---------------------------------------------------------------- update

  /** The update guards: it fails, changing nothing, exactly when the proof is
      missing, the caller is not its verifier, the hash is empty or too long, the
      score is above 100, the metadata is too long, or the hash is indexed to a
      key with a different certId. */
  lemma UpdateGuards(s: State, caller: Principal, blockHeight: int, certId: int, testId: int,
                     updateHash: string, updateScore: int, updateMetadata: string)
    ensures var st := UpdateProof(s, caller, blockHeight, certId, testId, updateHash, updateScore, updateMetadata);
      var key := Key(certId, testId);
      && (!st.result <==>
            key !in s.proofs
            || s.proofs[key].verifier != caller
            || |updateHash| == 0 || |updateHash| > MaxHashLength
            || updateScore > MaxScore
            || |updateMetadata| > MaxMetadataLength
            || (updateHash in s.proofsByHash && s.proofsByHash[updateHash].certId != certId))
      && (!st.result ==> st.post == s)
  {
  }

  /** A successful update replaces the hash, timestamp, score and metadata only,
      moves the index from the old hash to the new one, overwrites the single
      update slot for the key, and keeps the count, the transfers and the config. */
  lemma UpdateSuccessEffects(s: State, caller: Principal, blockHeight: int, certId: int, testId: int,
                             updateHash: string, updateScore: int, updateMetadata: string)
    requires UpdateProof(s, caller, blockHeight, certId, testId, updateHash, updateScore, updateMetadata).result
    ensures var post := UpdateProof(s, caller, blockHeight, certId, testId, updateHash, updateScore, updateMetadata).post;
      var key := Key(certId, testId);
      && key in s.proofs && key in post.proofs
      && var before, after := s.proofs[key], post.proofs[key];
      && after.proofHash == updateHash
      && after.timestamp == blockHeight
      && after.score == updateScore
      && after.metadata == updateMetadata
      && after.staked == before.staked
      && after.expiry == before.expiry
      && after.revoked == before.revoked
      && after.verifier == before.verifier == caller
      && after.status == before.status
      && post.proofs.Keys == s.proofs.Keys
      && (forall k :: k in s.proofs && k != key ==> post.proofs[k] == s.proofs[k])
      && post.proofsByHash[updateHash] == key
      && (before.proofHash != updateHash ==> !CheckProofExistence(post, before.proofHash))
      && CheckProofExistence(post, updateHash)
      && (forall h :: h in s.proofsByHash && h != before.proofHash && h != updateHash ==>
                        h in post.proofsByHash && post.proofsByHash[h] == s.proofsByHash[h])
      && post.proofsByHash.Keys == (s.proofsByHash.Keys - {before.proofHash}) + {updateHash}
      && post.proofUpdates == s.proofUpdates[key := ProofUpdate(updateHash, blockHeight, caller,
                                                               updateScore, updateMetadata)]
      && post == s.(proofs := post.proofs, proofsByHash := post.proofsByHash, proofUpdates := post.proofUpdates)
  {
  }

  // ---------------------------------------------------------------- revocation

  /** Revocation fails, changing nothing, exactly when the proof is missing, the
      caller is not its verifier, or it is already revoked; a success sets only
      the revoked and active flags. */
  lemma RevokeOutcome(s: State, caller: Principal, certId: int, testId: int)
    ensures var st := RevokeProof(s, caller, certId, testId);
      var key := Key(certId, testId);
      && (st.result <==> key in s.proofs && s.proofs[key].verifier == caller && !s.proofs[key].revoked)
      && (!st.result ==> st.post == s)
      && (st.result ==> st.post == s.(proofs := s.proofs[key := s.proofs[key].(revoked := true, status := false)]))
  {
  }

  /** After a successful revocation every further revocation of that key fails,
      whoever asks, and leaves the state alone. */
  lemma SecondRevokeFails(s: State, caller: Principal, other: Principal, certId: int, testId: int)
    requires RevokeProof(s, caller, certId, testId).result
    ensures var once := RevokeProof(s, caller, certId, testId).post;
      && !RevokeProof(once, other, certId, testId).result
      && RevokeProof(once, other, certId, testId).post == once
  {
  }

  /** Only the verifier of a proof can update or revoke it. */
  lemma OnlyVerifierMayChangeProof(s: State, caller: Principal, blockHeight: int, certId: int, testId: int,
                                   updateHash: string, updateScore: int, updateMetadata: string)
    requires Key(certId, testId) in s.proofs && s.proofs[Key(certId, testId)].verifier != caller
    ensures UpdateProof(s, caller, blockHeight, certId, testId, updateHash, updateScore, updateMetadata) == Step(false, s)
    ensures RevokeProof(s, caller, certId, testId) == Step(false, s)
  {
  }

  // ---------------------------------------------------------------- validation

  /** Validation checks, in order, that the proof exists, is not revoked, carries
      the expected hash and has not expired (`blockHeight >= expiry`), and then
      returns the stored score. */
  lemma ValidateOrder(s: State, blockHeight: int, certId: int, testId: int, expectedHash: string)
    ensures var r := ValidateProof(s, blockHeight, certId, testId, expectedHash);
      var key := Key(certId, testId);
      && (r == Err(ProofNotFound) <==> key !in s.proofs)
      && (r == Err(ProofRevoked) <==> key in s.proofs && s.proofs[key].revoked)
      && (r == Err(InvalidProofHash) <==>
            key in s.proofs && !s.proofs[key].revoked && s.proofs[key].proofHash != expectedHash)
      && (r == Err(ProofExpired) <==>
            key in s.proofs && !s.proofs[key].revoked && s.proofs[key].proofHash == expectedHash
            && blockHeight >= s.proofs[key].expiry)
      && (r.Ok? <==>
            key in s.proofs && !s.proofs[key].revoked && s.proofs[key].proofHash == expectedHash
            && blockHeight < s.proofs[key].expiry)
      && (r.Ok? ==> r.value == s.proofs[key].score)
  {
  }

  /** A freshly submitted proof validates with its hash, returning its score,
      strictly before `submit height + proofExpiry`, and is expired from then on. */
  lemma SubmitThenValidate(s: State, caller: Principal, submittedAt: int, certId: int, testId: int,
                           proofHash: string, stake: int, score: int, metadata: string, now: int)
    requires SubmitProof(s, caller, submittedAt, certId, testId, proofHash, stake, score, metadata).result.Ok?
    ensures var post := SubmitProof(s, caller, submittedAt, certId, testId, proofHash, stake, score, metadata).post;
      && ValidateProof(post, now, certId, testId, proofHash)
         == (if now >= submittedAt + s.proofExpiry then Err(ProofExpired) else Ok(score))
      && ValidateProof(post, submittedAt + s.proofExpiry - 1, certId, testId, proofHash) == Ok(score)
      && ValidateProof(post, submittedAt + s.proofExpiry, certId, testId, proofHash) == Err(ProofExpired)
  {
  }

  /** After an update the new hash validates with the new score (the expiry is
      not extended), and a different old hash is reported as a hash mismatch. */
  lemma UpdateThenValidate(s: State, caller: Principal, blockHeight: int, certId: int, testId: int,
                           updateHash: string, updateScore: int, updateMetadata: string,
                           now: int, oldHash: string)
    requires UpdateProof(s, caller, blockHeight, certId, testId, updateHash, updateScore, updateMetadata).result
    requires oldHash != updateHash
    ensures var post := UpdateProof(s, caller, blockHeight, certId, testId, updateHash, updateScore, updateMetadata).post;
      var before := s.proofs[Key(certId, testId)];
      && ValidateProof(post, now, certId, testId, updateHash)
         == (if before.revoked then Err(ProofRevoked)
             else if now >= before.expiry then Err(ProofExpired)
             else Ok(updateScore))
      && ValidateProof(post, now, certId, testId, oldHash)
         == (if before.revoked then Err(ProofRevoked) else Err(InvalidProofHash))
  {
  }

  /** A revoked proof is reported as revoked whatever hash or height is asked,
      because revocation is checked before the hash and the expiry. */
  lemma RevokeThenValidate(s: State, caller: Principal, certId: int, testId: int, now: int, expectedHash: string)
    requires RevokeProof(s, caller, certId, testId).result
    ensures ValidateProof(RevokeProof(s, caller, certId, testId).post, now, certId, testId, expectedHash)
            == Err(ProofRevoked)
  {
  }
}
