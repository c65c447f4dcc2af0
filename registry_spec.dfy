/** The registry as a value: its whole state, and one pure transition function per
    operation. Each mutating operation yields the result it returns together with
    the state after it; a failed operation yields the state it was given. */
module RegistrySpec {
  import opened RegistryTypes

  datatype State = State(
    nextProofId: int,
    maxProofs: int,
    registrationFee: int,
    authority: Option<Principal>,
    minStake: int,
    maxStake: int,
    proofExpiry: int,
    proofs: map<Key, Proof>,
    proofsByHash: map<string, Key>,
    proofUpdates: map<Key, ProofUpdate>,
    stxTransfers: seq<Transfer>)

  /** What an operation returns, paired with the state it leaves behind. */
  datatype Step<+R> = Step(result: R, post: State)

  /** The state installed by construction and by reset. */
  function Initial(): State {
    State(0, DefaultMaxProofs, DefaultRegistrationFee, None, DefaultMinStake,
          DefaultMaxStake, DefaultProofExpiry, map[], map[], map[], [])
  }

  /** The admin gate: an authority is stored and, as a JavaScript string, truthy
      (an empty principal is stored by the setter but does not open the gate). */
  predicate HasAuthority(s: State) {
    s.authority.Some? && s.authority.value != ""
  }

  // ---------------------------------------------------------------- configuration

  function SetAuthorityContract(s: State, principal: Principal): Step<bool> {
    if principal == BurnPrincipal then Step(false, s)
    else if s.authority.Some? then Step(false, s)
    else Step(true, s.(authority := Some(principal)))
  }

  function SetRegistrationFee(s: State, newFee: int): Step<bool> {
    if !HasAuthority(s) then Step(false, s) else Step(true, s.(registrationFee := newFee))
  }

  function SetMinStake(s: State, newMin: int): Step<bool> {
    if !HasAuthority(s) then Step(false, s) else Step(true, s.(minStake := newMin))
  }

  function SetMaxStake(s: State, newMax: int): Step<bool> {
    if !HasAuthority(s) then Step(false, s) else Step(true, s.(maxStake := newMax))
  }

  function SetProofExpiry(s: State, newExpiry: int): Step<bool> {
    if !HasAuthority(s) then Step(false, s) else Step(true, s.(proofExpiry := newExpiry))
  }

  function SetMaxProofs(s: State, newMax: int): Step<bool> {
    if !HasAuthority(s) then Step(false, s) else Step(true, s.(maxProofs := newMax))
  }

  // ---------------------------------------------------------------- submission

  /** The submission guards in the order the registry runs them; the first one
      that fails decides the error, and `None` means every guard passed. */
  function SubmitGuard(s: State, certId: int, testId: int, proofHash: string,
                       stake: int, score: int, metadata: string): Option<Error>
  {
    if s.nextProofId >= s.maxProofs then Some(MaxProofsExceeded)
    else if certId <= 0 then Some(InvalidCertId)
    else if testId <= 0 then Some(InvalidTestId)
    else if !ValidHash(proofHash) then Some(InvalidProofHash)
    else if stake < s.minStake || stake > s.maxStake then Some(InvalidStake)
    else if score > MaxScore then Some(InvalidScoreRange)
    else if |metadata| > MaxMetadataLength then Some(InvalidMetadata)
    else if proofHash in s.proofsByHash then Some(ProofAlreadyExists)
    else if !HasAuthority(s) then Some(AuthorityNotVerified)
    else None
  }

  /** The record a successful submission stores. */
  function NewProof(s: State, caller: Principal, blockHeight: int, proofHash: string,
                    stake: int, score: int, metadata: string): Proof
  {
    Proof(proofHash, blockHeight, stake, false, score, blockHeight + s.proofExpiry,
          caller, metadata, true)
  }

  function SubmitProof(s: State, caller: Principal, blockHeight: int, certId: int, testId: int,
                       proofHash: string, stake: int, score: int, metadata: string): Step<Result<int, Error>>
  {
    match SubmitGuard(s, certId, testId, proofHash, stake, score, metadata)
    case Some(e) => Step(Err(e), s)
    case None =>
      var key := Key(certId, testId);
      Step(Ok(certId),
           s.(stxTransfers := s.stxTransfers + [Transfer(s.registrationFee, caller, s.authority.value)],
              proofs := s.proofs[key := NewProof(s, caller, blockHeight, proofHash, stake, score, metadata)],
              proofsByHash := s.proofsByHash[proofHash := key],
              nextProofId := s.nextProofId + 1))
  }

  // ---------------------------------------------------------------- update and revocation

  /** The update guards, in order; true when every one of them passes. The hash
      collision test looks only at the certId of the key the hash is indexed to. */
  predicate UpdateAllowed(s: State, caller: Principal, certId: int, testId: int,
                          updateHash: string, updateScore: int, updateMetadata: string)
  {
    var key := Key(certId, testId);
    key in s.proofs
    && s.proofs[key].verifier == caller
    && ValidHash(updateHash)
    && updateScore <= MaxScore
    && |updateMetadata| <= MaxMetadataLength
    && !(updateHash in s.proofsByHash && s.proofsByHash[updateHash].certId != certId)
  }

  function UpdateProof(s: State, caller: Principal, blockHeight: int, certId: int, testId: int,
                       updateHash: string, updateScore: int, updateMetadata: string): Step<bool>
  {
    if !UpdateAllowed(s, caller, certId, testId, updateHash, updateScore, updateMetadata) then Step(false, s)
    else
      var key := Key(certId, testId);
      var proof := s.proofs[key];
      Step(true,
           s.(proofs := s.proofs[key := proof.(proofHash := updateHash, timestamp := blockHeight,
                                               score := updateScore, metadata := updateMetadata)],
              proofsByHash := (s.proofsByHash - {proof.proofHash})[updateHash := key],
              proofUpdates := s.proofUpdates[key := ProofUpdate(updateHash, blockHeight, caller,
                                                                updateScore, updateMetadata)]))
  }

  function RevokeProof(s: State, caller: Principal, certId: int, testId: int): Step<bool> {
    var key := Key(certId, testId);
    if key !in s.proofs then Step(false, s)
    else if s.proofs[key].verifier != caller then Step(false, s)
    else if s.proofs[key].revoked then Step(false, s)
    else Step(true, s.(proofs := s.proofs[key := s.proofs[key].(revoked := true, status := false)]))
  }

  // ---------------------------------------------------------------- queries

  function GetProof(s: State, certId: int, testId: int): Option<Proof> {
    var key := Key(certId, testId);
    if key in s.proofs then Some(s.proofs[key]) else None
  }

  function ValidateProof(s: State, blockHeight: int, certId: int, testId: int, expectedHash: string): Result<int, Error> {
    var key := Key(certId, testId);
    if key !in s.proofs then Err(ProofNotFound)
    else if s.proofs[key].revoked then Err(ProofRevoked)
    else if s.proofs[key].proofHash != expectedHash then Err(InvalidProofHash)
    else if blockHeight >= s.proofs[key].expiry then Err(ProofExpired)
    else Ok(s.proofs[key].score)
  }

  function GetProofCount(s: State): int {
    s.nextProofId
  }

  function CheckProofExistence(s: State, proofHash: string): bool {
    proofHash in s.proofsByHash
  }
}
