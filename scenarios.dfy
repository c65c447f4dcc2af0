/** The registry's example runs, each on a fresh registry object, with what each
    run is expected to observe stated as postconditions. They are proved from the
    contracts of ProofRegistryMock alone. */
module Scenarios {
  import opened RegistryTypes
  import opened ProofRegistry

  method SubmitsProof() returns (r: Result<int, Error>, p: Option<Proof>, transfers: seq<Transfer>)
    ensures r == Ok(1)
    ensures p.Some? && p.value.proofHash == "hash123" && p.value.staked == 100
    ensures p.value.score == 85 && p.value.metadata == "meta data"
    ensures transfers == [Transfer(500, "ST1TEST", "ST2TEST")]
  {
    var c := new ProofRegistryMock();
    var authorized := c.SetAuthorityContract("ST2TEST");
    r := c.SubmitProof(1, 1, "hash123", 100, 85, "meta data");
    p := c.GetProof(1, 1);
    transfers := c.stxTransfers;
  }

  method RejectsDuplicateHash() returns (r: Result<int, Error>)
    ensures r == Err(ProofAlreadyExists) && r.error.Code() == 104
  {
    var c := new ProofRegistryMock();
    var authorized := c.SetAuthorityContract("ST2TEST");
    var first := c.SubmitProof(1, 1, "hash123", 100, 85, "meta data");
    r := c.SubmitProof(2, 2, "hash123", 200, 90, "new meta");
  }

  /** Submission is open to any caller once an authority is set. */
  method AnyCallerMaySubmit() returns (r: Result<int, Error>)
    ensures r.Ok?
  {
    var c := new ProofRegistryMock();
    var authorized := c.SetAuthorityContract("ST2TEST");
    c.caller := "ST2FAKE";
    r := c.SubmitProof(1, 1, "hash123", 100, 85, "meta data");
  }

  method RejectsSubmitWithoutAuthority() returns (r: Result<int, Error>)
    ensures r == Err(AuthorityNotVerified) && r.error.Code() == 109
  {
    var c := new ProofRegistryMock();
    r := c.SubmitProof(1, 1, "hash123", 100, 85, "meta data");
  }

  method RejectsInvalidCertId() returns (r: Result<int, Error>)
    ensures r == Err(InvalidCertId)
  {
    var c := new ProofRegistryMock();
    var authorized := c.SetAuthorityContract("ST2TEST");
    r := c.SubmitProof(0, 1, "hash123", 100, 85, "meta data");
  }

  method RejectsInvalidStake() returns (r: Result<int, Error>)
    ensures r == Err(InvalidStake)
  {
    var c := new ProofRegistryMock();
    var authorized := c.SetAuthorityContract("ST2TEST");
    r := c.SubmitProof(1, 1, "hash123", 50, 85, "meta data");
  }

  method RejectsInvalidScore() returns (r: Result<int, Error>)
    ensures r == Err(InvalidScoreRange)
  {
    var c := new ProofRegistryMock();
    var authorized := c.SetAuthorityContract("ST2TEST");
    r := c.SubmitProof(1, 1, "hash123", 100, 101, "meta data");
  }

  method UpdatesProof() returns (ok: bool, p: Option<Proof>, u: Option<ProofUpdate>)
    ensures ok
    ensures p.Some? && p.value.proofHash == "newhash" && p.value.score == 90 && p.value.metadata == "new meta"
    ensures u == Some(ProofUpdate("newhash", 0, "ST1TEST", 90, "new meta"))
  {
    var c := new ProofRegistryMock();
    var authorized := c.SetAuthorityContract("ST2TEST");
    var submitted := c.SubmitProof(1, 1, "oldhash", 100, 85, "old meta");
    ok := c.UpdateProof(1, 1, "newhash", 90, "new meta");
    p := c.GetProof(1, 1);
    u := if Key(1, 1) in c.proofUpdates then Some(c.proofUpdates[Key(1, 1)]) else None;
  }

  method RejectsUpdateOfMissingProof() returns (ok: bool)
    ensures !ok
  {
    var c := new ProofRegistryMock();
    var authorized := c.SetAuthorityContract("ST2TEST");
    ok := c.UpdateProof(99, 99, "newhash", 90, "new meta");
  }

  method RejectsUpdateByNonVerifier() returns (ok: bool)
    ensures !ok
  {
    var c := new ProofRegistryMock();
    var authorized := c.SetAuthorityContract("ST2TEST");
    var submitted := c.SubmitProof(1, 1, "hash123", 100, 85, "meta data");
    c.caller := "ST3FAKE";
    ok := c.UpdateProof(1, 1, "newhash", 90, "new meta");
  }

  method RevokesProof() returns (ok: bool, p: Option<Proof>)
    ensures ok
    ensures p.Some? && p.value.revoked && !p.value.status
  {
    var c := new ProofRegistryMock();
    var authorized := c.SetAuthorityContract("ST2TEST");
    var submitted := c.SubmitProof(1, 1, "hash123", 100, 85, "meta data");
    ok := c.RevokeProof(1, 1);
    p := c.GetProof(1, 1);
  }

  method RejectsRevokeOfMissingProof() returns (ok: bool)
    ensures !ok
  {
    var c := new ProofRegistryMock();
    var authorized := c.SetAuthorityContract("ST2TEST");
    ok := c.RevokeProof(99, 99);
  }

  method ValidatesProof() returns (r: Result<int, Error>)
    ensures r == Ok(85)
  {
    var c := new ProofRegistryMock();
    var authorized := c.SetAuthorityContract("ST2TEST");
    var submitted := c.SubmitProof(1, 1, "hash123", 100, 85, "meta data");
    r := c.ValidateProof(1, 1, "hash123");
  }

  method RejectsValidationOfRevokedProof() returns (r: Result<int, Error>)
    ensures r == Err(ProofRevoked)
  {
    var c := new ProofRegistryMock();
    var authorized := c.SetAuthorityContract("ST2TEST");
    var submitted := c.SubmitProof(1, 1, "hash123", 100, 85, "meta data");
    var revoked := c.RevokeProof(1, 1);
    r := c.ValidateProof(1, 1, "hash123");
  }

  method RejectsValidationOfExpiredProof() returns (r: Result<int, Error>)
    ensures r == Err(ProofExpired)
  {
    var c := new ProofRegistryMock();
    var authorized := c.SetAuthorityContract("ST2TEST");
    var submitted := c.SubmitProof(1, 1, "hash123", 100, 85, "meta data");
    c.blockHeight := 525601;
    r := c.ValidateProof(1, 1, "hash123");
  }

  method SetsRegistrationFee() returns (ok: bool, fee: int, transfers: seq<Transfer>)
    ensures ok && fee == 1000
    ensures transfers == [Transfer(1000, "ST1TEST", "ST2TEST")]
  {
    var c := new ProofRegistryMock();
    var authorized := c.SetAuthorityContract("ST2TEST");
    ok := c.SetRegistrationFee(1000);
    fee := c.registrationFee;
    var submitted := c.SubmitProof(1, 1, "hash123", 100, 85, "meta data");
    transfers := c.stxTransfers;
  }

  method CountsProofs() returns (n: int)
    ensures n == 2
  {
    var c := new ProofRegistryMock();
    var authorized := c.SetAuthorityContract("ST2TEST");
    var first := c.SubmitProof(1, 1, "hash1", 100, 85, "meta1");
    var second := c.SubmitProof(2, 2, "hash2", 200, 90, "meta2");
    n := c.GetProofCount();
  }

  method ChecksProofExistence() returns (found: bool, missing: bool)
    ensures found && !missing
  {
    var c := new ProofRegistryMock();
    var authorized := c.SetAuthorityContract("ST2TEST");
    var submitted := c.SubmitProof(1, 1, "hash123", 100, 85, "meta data");
    found := c.CheckProofExistence("hash123");
    missing := c.CheckProofExistence("nonexistent");
  }

  method RejectsEmptyHash() returns (r: Result<int, Error>)
    ensures r == Err(InvalidProofHash)
  {
    var c := new ProofRegistryMock();
    var authorized := c.SetAuthorityContract("ST2TEST");
    r := c.SubmitProof(1, 1, "", 100, 85, "meta data");
  }

  method RejectsBeyondMaxProofs() returns (r: Result<int, Error>)
    ensures r == Err(MaxProofsExceeded) && r.error.Code() == 111
  {
    var c := new ProofRegistryMock();
    var authorized := c.SetAuthorityContract("ST2TEST");
    c.maxProofs := 1;
    var first := c.SubmitProof(1, 1, "hash1", 100, 85, "meta1");
    r := c.SubmitProof(2, 2, "hash2", 200, 90, "meta2");
  }

  method SetsAuthority() returns (ok: bool, authority: Option<Principal>)
    ensures ok && authority == Some("ST2TEST")
  {
    var c := new ProofRegistryMock();
    ok := c.SetAuthorityContract("ST2TEST");
    authority := c.authorityContract;
  }

  method RejectsBurnAuthority() returns (ok: bool)
    ensures !ok
  {
    var c := new ProofRegistryMock();
    ok := c.SetAuthorityContract("SP000000000000000000002Q6VF78");
  }
}
