/** The registry object. Its fields are the registry's configuration, its three
    keyed tables, the fee-transfer log and the injected block height and caller;
    each operation updates them in place and is proved to take the registry to
    the state the matching transition of RegistrySpec describes. */
module ProofRegistry {
  import opened RegistryTypes
  import Spec = RegistrySpec

  class ProofRegistryMock {
    var nextProofId: int
    var maxProofs: int
    var registrationFee: int
    var authorityContract: Option<Principal>
    var minStake: int
    var maxStake: int
    var proofExpiry: int
    var proofs: map<Key, Proof>
    var proofsByHash: map<string, Key>
    var proofUpdates: map<Key, ProofUpdate>
    var stxTransfers: seq<Transfer>

    /** The environment: the current block height and the calling principal. */
    var blockHeight: int
    var caller: Principal

    /** The registry state these fields hold, as a value. */
    function Model(): Spec.State
      reads this
    {
      Spec.State(nextProofId, maxProofs, registrationFee, authorityContract, minStake, maxStake,
                 proofExpiry, proofs, proofsByHash, proofUpdates, stxTransfers)
    }

    constructor ()
      ensures Model() == Spec.Initial()
      ensures blockHeight == 0 && caller == DefaultCaller
    {
      nextProofId, maxProofs, registrationFee := 0, DefaultMaxProofs, DefaultRegistrationFee;
      authorityContract := None;
      minStake, maxStake, proofExpiry := DefaultMinStake, DefaultMaxStake, DefaultProofExpiry;
      proofs, proofsByHash, proofUpdates := map[], map[], map[];
      stxTransfers := [];
      blockHeight, caller := 0, DefaultCaller;
    }

    method Reset()
      modifies this
      ensures Model() == Spec.Initial()
      ensures blockHeight == 0 && caller == DefaultCaller
    {
      nextProofId, maxProofs, registrationFee := 0, DefaultMaxProofs, DefaultRegistrationFee;
      authorityContract := None;
      minStake, maxStake, proofExpiry := DefaultMinStake, DefaultMaxStake, DefaultProofExpiry;
      proofs, proofsByHash, proofUpdates := map[], map[], map[];
      stxTransfers := [];
      blockHeight, caller := 0, DefaultCaller;
    }

    /** The admin gate of the setters and of submission (a truthy authority). */
    predicate AuthoritySet()
      reads this
      ensures AuthoritySet() <==> Spec.HasAuthority(Model())
    {
      authorityContract.Some? && authorityContract.value != ""
    }

    method SetAuthorityContract(contractPrincipal: Principal) returns (ok: bool)
      modifies this
      ensures ok == Spec.SetAuthorityContract(old(Model()), contractPrincipal).result
      ensures Model() == Spec.SetAuthorityContract(old(Model()), contractPrincipal).post
      ensures blockHeight == old(blockHeight) && caller == old(caller)
    {
      if contractPrincipal == BurnPrincipal {
        return false;
      }
      if authorityContract.Some? {
        return false;
      }
      authorityContract := Some(contractPrincipal);
      return true;
    }

    method SetRegistrationFee(newFee: int) returns (ok: bool)
      modifies this
      ensures ok == Spec.SetRegistrationFee(old(Model()), newFee).result
      ensures Model() == Spec.SetRegistrationFee(old(Model()), newFee).post
      ensures blockHeight == old(blockHeight) && caller == old(caller)
    {
      if !AuthoritySet() {
        return false;
      }
      registrationFee := newFee;
      return true;
    }

    method SetMinStake(newMin: int) returns (ok: bool)
      modifies this
      ensures ok == Spec.SetMinStake(old(Model()), newMin).result
      ensures Model() == Spec.SetMinStake(old(Model()), newMin).post
      ensures blockHeight == old(blockHeight) && caller == old(caller)
    {
      if !AuthoritySet() {
        return false;
      }
      minStake := newMin;
      return true;
    }

    method SetMaxStake(newMax: int) returns (ok: bool)
      modifies this
      ensures ok == Spec.SetMaxStake(old(Model()), newMax).result
      ensures Model() == Spec.SetMaxStake(old(Model()), newMax).post
      ensures blockHeight == old(blockHeight) && caller == old(caller)
    {
      if !AuthoritySet() {
        return false;
      }
      maxStake := newMax;
      return true;
    }

    method SetProofExpiry(newExpiry: int) returns (ok: bool)
      modifies this
      ensures ok == Spec.SetProofExpiry(old(Model()), newExpiry).result
      ensures Model() == Spec.SetProofExpiry(old(Model()), newExpiry).post
      ensures blockHeight == old(blockHeight) && caller == old(caller)
    {
      if !AuthoritySet() {
        return false;
      }
      proofExpiry := newExpiry;
      return true;
    }

    method SetMaxProofs(newMax: int) returns (ok: bool)
      modifies this
      ensures ok == Spec.SetMaxProofs(old(Model()), newMax).result
      ensures Model() == Spec.SetMaxProofs(old(Model()), newMax).post
      ensures blockHeight == old(blockHeight) && caller == old(caller)
    {
      if !AuthoritySet() {
        return false;
      }
      maxProofs := newMax;
      return true;
    }

    method SubmitProof(certId: int, testId: int, proofHash: string, stake: int, score: int, metadata: string)
      returns (r: Result<int, Error>)
      modifies this
      ensures r == Spec.SubmitProof(old(Model()), caller, blockHeight, certId, testId,
                                    proofHash, stake, score, metadata).result
      ensures Model() == Spec.SubmitProof(old(Model()), caller, blockHeight, certId, testId,
                                          proofHash, stake, score, metadata).post
      ensures blockHeight == old(blockHeight) && caller == old(caller)
    {
      if nextProofId >= maxProofs { return Err(MaxProofsExceeded); }
      if certId <= 0 { return Err(InvalidCertId); }
      if testId <= 0 { return Err(InvalidTestId); }
      if |proofHash| == 0 || |proofHash| > MaxHashLength { return Err(InvalidProofHash); }
      if stake < minStake || stake > maxStake { return Err(InvalidStake); }
      if score > MaxScore { return Err(InvalidScoreRange); }
      if |metadata| > MaxMetadataLength { return Err(InvalidMetadata); }
      if proofHash in proofsByHash { return Err(ProofAlreadyExists); }
      if !AuthoritySet() { return Err(AuthorityNotVerified); }

      stxTransfers := stxTransfers + [Transfer(registrationFee, caller, authorityContract.value)];

      var key := Key(certId, testId);
      var expiry := blockHeight + proofExpiry;
      var proof := Proof(proofHash, blockHeight, stake, false, score, expiry, caller, metadata, true);
      proofs := proofs[key := proof];
      proofsByHash := proofsByHash[proofHash := key];
      nextProofId := nextProofId + 1;
      return Ok(certId);
    }

    function GetProof(certId: int, testId: int): (p: Option<Proof>)
      reads this
      ensures p.Some? <==> Key(certId, testId) in proofs
      ensures p.Some? ==> p.value == proofs[Key(certId, testId)]
    {
      Spec.GetProof(Model(), certId, testId)
    }

    method UpdateProof(certId: int, testId: int, updateHash: string, updateScore: int, updateMetadata: string)
      returns (ok: bool)
      modifies this
      ensures ok == Spec.UpdateProof(old(Model()), caller, blockHeight, certId, testId,
                                     updateHash, updateScore, updateMetadata).result
      ensures Model() == Spec.UpdateProof(old(Model()), caller, blockHeight, certId, testId,
                                          updateHash, updateScore, updateMetadata).post
      ensures blockHeight == old(blockHeight) && caller == old(caller)
    {
      var key := Key(certId, testId);
      if key !in proofs { return false; }
      var proof := proofs[key];
      if proof.verifier != caller { return false; }
      if |updateHash| == 0 || |updateHash| > MaxHashLength { return false; }
      if updateScore > MaxScore { return false; }
      if |updateMetadata| > MaxMetadataLength { return false; }
      if updateHash in proofsByHash && proofsByHash[updateHash].certId != certId {
        return false;
      }

      var updated := proof.(proofHash := updateHash, timestamp := blockHeight,
                            score := updateScore, metadata := updateMetadata);
      proofs := proofs[key := updated];
      proofsByHash := proofsByHash - {proof.proofHash};
      proofsByHash := proofsByHash[updateHash := key];
      proofUpdates := proofUpdates[key := ProofUpdate(updateHash, blockHeight, caller,
                                                      updateScore, updateMetadata)];
      return true;
    }

    method RevokeProof(certId: int, testId: int) returns (ok: bool)
      modifies this
      ensures ok == Spec.RevokeProof(old(Model()), caller, certId, testId).result
      ensures Model() == Spec.RevokeProof(old(Model()), caller, certId, testId).post
      ensures blockHeight == old(blockHeight) && caller == old(caller)
    {
      var key := Key(certId, testId);
      if key !in proofs { return false; }
      var proof := proofs[key];
      if proof.verifier != caller { return false; }
      if proof.revoked { return false; }
      proofs := proofs[key := proof.(revoked := true, status := false)];
      return true;
    }

    function ValidateProof(certId: int, testId: int, expectedHash: string): (r: Result<int, Error>)
      reads this
      ensures var key := Key(certId, testId);
        r.Ok? <==> key in proofs && !proofs[key].revoked && proofs[key].proofHash == expectedHash
                   && blockHeight < proofs[key].expiry
      ensures r.Ok? ==> r.value == proofs[Key(certId, testId)].score
      ensures Key(certId, testId) !in proofs ==> r == Err(ProofNotFound)
      ensures var key := Key(certId, testId);
        key in proofs && proofs[key].revoked ==> r == Err(ProofRevoked)
      ensures var key := Key(certId, testId);
        key in proofs && !proofs[key].revoked && proofs[key].proofHash != expectedHash
        ==> r == Err(InvalidProofHash)
      ensures var key := Key(certId, testId);
        key in proofs && !proofs[key].revoked && proofs[key].proofHash == expectedHash && blockHeight >= proofs[key].expiry
        ==> r == Err(ProofExpired)
    {
      Spec.ValidateProof(Model(), blockHeight, certId, testId, expectedHash)
    }

    function GetProofCount(): (n: int)
      reads this
      ensures n == nextProofId
    {
      Spec.GetProofCount(Model())
    }

    function CheckProofExistence(proofHash: string): (b: bool)
      reads this
      ensures b <==> proofHash in proofsByHash
    {
      Spec.CheckProofExistence(Model(), proofHash)
    }
  }
}
