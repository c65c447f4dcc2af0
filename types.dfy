/** Values shared by the proof registry: principals, composite keys, the stored
    records, the fee-transfer log entries and the error codes the registry returns. */
module RegistryTypes {

  datatype Option<+T> = None | Some(value: T)

  /** A tagged success/failure result; `Err` carries the registry's error kind. */
  datatype Result<+T, +E> = Ok(value: T) | Err(error: E)

  /** A caller identity (a Stacks principal, kept opaque). */
  type Principal = string

  /** The reserved burn principal that may never become the authority. */
  const BurnPrincipal: Principal := "SP000000000000000000002Q6VF78"

  /** The caller the registry starts with (and returns to on reset). */
  const DefaultCaller: Principal := "ST1TEST"

  const MaxHashLength: nat := 64
  const MaxMetadataLength: nat := 256
  const MaxScore: int := 100

  /** Defaults installed by the constructor and by reset. */
  const DefaultMaxProofs: int := 10000
  const DefaultRegistrationFee: int := 500
  const DefaultMinStake: int := 100
  const DefaultMaxStake: int := 10000
  const DefaultProofExpiry: int := 525600

  /** A proof is stored under the pair of its certification and test identifiers. */
  datatype Key = Key(certId: int, testId: int)

  /** One stored proof-of-certification record. `status` is the "active" flag. */
  datatype Proof = Proof(
    proofHash: string,
    timestamp: int,
    staked: int,
    revoked: bool,
    score: int,
    expiry: int,
    verifier: Principal,
    metadata: string,
    status: bool)

  /** The single latest update recorded for a key. */
  datatype ProofUpdate = ProofUpdate(
    updateHash: string,
    updateTimestamp: int,
    updater: Principal,
    updateScore: int,
    updateMetadata: string)

  /** One registration-fee transfer, appended on every successful submission. */
  datatype Transfer = Transfer(amount: int, from: Principal, to: Principal)

  /** The error kinds the registry actually returns, with their numeric codes. */
  datatype Error =
    | InvalidCertId
    | InvalidTestId
    | InvalidProofHash
    | ProofAlreadyExists
    | ProofNotFound
    | ProofRevoked
    | InvalidStake
    | AuthorityNotVerified
    | MaxProofsExceeded
    | InvalidScoreRange
    | ProofExpired
    | InvalidMetadata
  {
    function Code(): int {
      match this
      case InvalidCertId => 101
      case InvalidTestId => 102
      case InvalidProofHash => 103
      case ProofAlreadyExists => 104
      case ProofNotFound => 105
      case ProofRevoked => 106
      case InvalidStake => 107
      case AuthorityNotVerified => 109
      case MaxProofsExceeded => 111
      case InvalidScoreRange => 114
      case ProofExpired => 117
      case InvalidMetadata => 119
    }
  }

  /** Distinct error kinds carry distinct codes, so a caller can tell them apart. */
  lemma CodesDistinguishErrors(e1: Error, e2: Error)
    ensures e1.Code() == e2.Code() <==> e1 == e2
  {
  }

  /** The length check shared by submission and update: non-empty, at most 64. */
  predicate ValidHash(h: string) {
    0 < |h| <= MaxHashLength
  }
}
