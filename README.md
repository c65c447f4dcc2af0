# Proof registry, modelled in Dafny

This project models `ProofRegistryMock` from `tests/ProofRegistry.test.ts`. It is a registry of
proof-of-certification records that trusted verifiers submit, update and revoke, and that third
parties validate. The registry state is:

- a configuration: a write-once authority, the registration fee, the stake bounds, the expiry
  window, the proof cap and the `nextProofId` counter;
- three keyed tables: `proofs` keyed by `(certId, testId)`, the hash index `proofsByHash`, and
  `proofUpdates`, which keeps only the latest update for each key;
- an append-only log of fee transfers (`stxTransfers`);
- an injected block height and caller.

## Files

- `types.dfy` (`RegistryTypes`): principals, the `Key`, `Proof`, `ProofUpdate` and `Transfer`
  records, the error kinds with their numeric codes, and the constants (the burn principal, the
  64/256/100 limits, the defaults).
- `registry_spec.dfy` (`RegistrySpec`): the registry as a value (`State`). It has one pure
  transition function per operation. Each returns `Step(result, post)`: what the call returns and
  the state it leaves. `SubmitGuard` and `UpdateAllowed` are the guard chains in source order.
- `registry.dfy` (`ProofRegistry`): the class `ProofRegistryMock`. Its fields are the source's
  state. Its methods update those fields in place with the same guard chains. Each method is proved
  to return what the matching `RegistrySpec` function returns and to leave `Model()` equal to that
  function's `post`. The read-only queries are functions that read the object.
- `operations.dfy` (`OperationProperties`): properties of one call each.
- `lifecycle.dfy` (`Lifecycle`): any sequence of calls (`Run`). It proves the monotone counter and
  transfer log, the write-once authority, that proofs are never deleted, when revocation persists,
  and an invariant `Wf` that every reachable state satisfies. `reset` is not one of the calls, since
  only the test fixture uses it, so "the counter never decreases" holds for histories without a reset.
- `hash_index.dfy` (`HashIndex`): when the hash index stays the exact inverse of the stored hashes,
  that exactly the two behaviours below break it, and concrete runs of each.
- `scenarios.dfy` (`Scenarios`): the repository's example runs, one method per case, proved from
  the class contracts alone.

## Behaviour worth knowing

These are facts about the code as written. The model keeps all of them.

- **Submission never checks whether the key is taken.** A second submission at `(certId, testId)`
  with an unindexed hash replaces the stored proof. This works for any caller, and also when the
  old proof was revoked. The old hash stays in `proofsByHash`, so it cannot be submitted again
  while it stays indexed; an update under the same certId can take it back and a later update
  frees it (`StaleHashReclaimedByUpdate`). See `ResubmissionKeepsOldIndexEntry`,
  `ResubmissionLeavesStaleHash` and
  `ResubmissionRevivesRevokedProof`. So "revoked is one-way" holds only for histories with no
  *successful* submission at that key (`RunKeepsRevocation`); a failed one changes nothing.
- **The update collision test compares only the certId.** A hash indexed to `(c, t2)` may be given
  to `(c, t1)`. The index entry then moves to `(c, t1)` and both proofs hold the same hash
  (`SiblingUpdateSharesHash`). Hash uniqueness is therefore proved for histories with no
  successful call of either kind (`RunKeepsIndexExact`); failed calls change nothing and are
  allowed, and each successful call of either kind does break an exact index
  (`StepBreaksIndexExact`).
- **The admin setters never look at the caller.** They only check that an authority is configured.
- **"Configured" means a truthy authority.** `setAuthorityContract("")` stores the empty principal.
  The setter's "already set" test (`!== null`) then refuses every later authority, while the
  truthiness gate of the setters and of submission stays shut forever
  (`EmptyAuthorityLocksRegistry`). The model writes the gate as `HasAuthority`: the authority is
  `Some(p)` with `p != ""`.
- **Scores have no lower bound.** The code rejects only `score > 100`, so negative scores are
  stored; the model uses `int`.
- **The fee transfer cannot fail.** The transfer is an append to `stxTransfers` that always
  succeeds, and the model does the same.

## Model

| member | source | states |
|---|---|---|
| RegistryTypes.CodesDistinguishErrors | tests/ProofRegistry.test.ts:4-24 | distinct error kinds carry distinct numeric codes |
| ProofRegistry.ProofRegistryMock.constructor | tests/ProofRegistry.test.ts:80-101 | a new registry holds the default configuration, empty tables, no authority, height 0 and caller ST1TEST |
| ProofRegistry.ProofRegistryMock.Reset | tests/ProofRegistry.test.ts:84-101 | reset restores exactly that initial state, `RegistrySpec.Initial` |
| ProofRegistry.ProofRegistryMock.AuthoritySet | tests/ProofRegistry.test.ts:119 | the admin gate holds exactly when a non-empty authority is stored |
| ProofRegistry.ProofRegistryMock.SetAuthorityContract | tests/ProofRegistry.test.ts:107-116 | the in-place setter returns and leaves what `RegistrySpec.SetAuthorityContract` gives |
| ProofRegistry.ProofRegistryMock.SetRegistrationFee | tests/ProofRegistry.test.ts:118-122 | the in-place setter returns and leaves what `RegistrySpec.SetRegistrationFee` gives: it fails unchanged without an authority, otherwise it sets the fee |
| ProofRegistry.ProofRegistryMock.SetMinStake | tests/ProofRegistry.test.ts:124-128 | the same, for the minimum stake, per `RegistrySpec.SetMinStake` |
| ProofRegistry.ProofRegistryMock.SetMaxStake | tests/ProofRegistry.test.ts:130-134 | the same, for the maximum stake, per `RegistrySpec.SetMaxStake` |
| ProofRegistry.ProofRegistryMock.SetProofExpiry | tests/ProofRegistry.test.ts:136-140 | the same, for the expiry window, per `RegistrySpec.SetProofExpiry` |
| ProofRegistry.ProofRegistryMock.SetMaxProofs | tests/ProofRegistry.test.ts:142-146 | the same, for the proof cap, per `RegistrySpec.SetMaxProofs` |
| ProofRegistry.ProofRegistryMock.SubmitProof | tests/ProofRegistry.test.ts:148-185 | the in-place submission returns and leaves what `RegistrySpec.SubmitProof` gives; the block height and caller are untouched |
| ProofRegistry.ProofRegistryMock.GetProof | tests/ProofRegistry.test.ts:187-189 | returns the stored proof exactly when the key is present |
| ProofRegistry.ProofRegistryMock.UpdateProof | tests/ProofRegistry.test.ts:191-227 | the in-place update returns and leaves what `RegistrySpec.UpdateProof` gives |
| ProofRegistry.ProofRegistryMock.RevokeProof | tests/ProofRegistry.test.ts:229-238 | the in-place revocation returns and leaves what `RegistrySpec.RevokeProof` gives |
| ProofRegistry.ProofRegistryMock.ValidateProof | tests/ProofRegistry.test.ts:240-248 | validation at the current height succeeds exactly for a stored, unrevoked, unexpired proof with the expected hash, returns its score; otherwise it reports, in this order, a missing key as not found, a revoked proof, a hash mismatch, and expiry |
| ProofRegistry.ProofRegistryMock.GetProofCount | tests/ProofRegistry.test.ts:250-252 | the count is the counter `nextProofId` |
| ProofRegistry.ProofRegistryMock.CheckProofExistence | tests/ProofRegistry.test.ts:254-256 | a hash exists exactly when it is in the hash index |
| OperationProperties.SetAuthorityContractOutcome | tests/ProofRegistry.test.ts:107-116 | succeeds exactly for a non-burn principal while none is stored; a success stores only that principal, a failure changes nothing |
| OperationProperties.AuthorityCannotBeReplaced | tests/ProofRegistry.test.ts:111-113 | once an authority is stored, a second assignment fails and keeps it |
| OperationProperties.AdminSettersGateOnAuthority | tests/ProofRegistry.test.ts:118-146 | each setter succeeds exactly when an authority is configured, whoever calls; it changes only its own field, and nothing on failure |
| OperationProperties.EmptyAuthorityLocksRegistry | tests/ProofRegistry.test.ts:111-119 | a stored empty authority shuts every setter and every submission, and cannot be replaced |
| OperationProperties.SubmitGuardOrder | tests/ProofRegistry.test.ts:156-164 | each error arises exactly when all earlier guards pass and its own fails, in the source order; success exactly when every guard passes; a failure leaves the state unchanged |
| OperationProperties.SubmitSuccessEffects | tests/ProofRegistry.test.ts:166-184 | a success returns certId, appends one transfer {fee, caller, authority}, stores the fresh proof's nine fields, indexes the hash, adds one to the counter, and changes nothing else |
| OperationProperties.ResubmissionKeepsOldIndexEntry | tests/ProofRegistry.test.ts:163-182 | a successful submission at a taken key replaces the proof with an unrevoked one and leaves the old hash reported as existing |
| OperationProperties.UpdateGuards | tests/ProofRegistry.test.ts:198-207 | an update fails exactly on a missing proof, a non-verifier caller, a bad hash length, a score over 100, metadata over 256, or a hash indexed to another certId; a failure changes nothing |
| OperationProperties.UpdateSuccessEffects | tests/ProofRegistry.test.ts:209-226 | a success replaces only hash, timestamp, score and metadata; it moves the index from the old hash to the new one, overwrites the update slot with updater = caller, and changes nothing else; the index's hashes are exactly the old ones minus the old hash plus the new one |
| OperationProperties.RevokeOutcome | tests/ProofRegistry.test.ts:229-238 | revocation succeeds exactly for an existing, unrevoked proof of the caller; it sets only revoked and status, and a failure changes nothing |
| OperationProperties.SecondRevokeFails | tests/ProofRegistry.test.ts:234 | after a revocation, every further revocation of the key fails, whoever asks, and changes nothing |
| OperationProperties.OnlyVerifierMayChangeProof | tests/ProofRegistry.test.ts:199-233 | a caller other than the verifier can neither update nor revoke, and the state is unchanged |
| OperationProperties.ValidateOrder | tests/ProofRegistry.test.ts:240-248 | not found, revoked, hash mismatch and expired (height >= expiry) are each reported exactly when all earlier checks pass; otherwise the stored score is returned |
| OperationProperties.SubmitThenValidate | tests/ProofRegistry.test.ts:169-176 | a fresh proof validates with its score strictly before submit height + expiry window and is expired from that height on |
| OperationProperties.UpdateThenValidate | tests/ProofRegistry.test.ts:209-216 | after an update the new hash validates with the new score under the unchanged expiry, and a different old hash is a mismatch |
| OperationProperties.RevokeThenValidate | tests/ProofRegistry.test.ts:235-244 | a revoked proof is reported revoked for every hash and height |
| Lifecycle.StepMonotone | tests/ProofRegistry.test.ts:166-183 | one call adds one to the counter and one entry to the transfer log exactly when it is a successful submission; earlier transfers, a stored authority and stored keys all stay |
| Lifecycle.StepKeepsRevocation | tests/ProofRegistry.test.ts:209-236 | every call except a successful submission at the key keeps a revoked proof revoked |
| Lifecycle.RunCounts | tests/ProofRegistry.test.ts:166-183 | over any history, the counter grows by exactly the number of successful submissions and never decreases; the log grows by one entry for each of them and keeps its prefix |
| Lifecycle.CountIsSuccessfulSubmits | tests/ProofRegistry.test.ts:250-252 | from a fresh registry, the proof count and the number of transfers both equal the number of successful submissions |
| Lifecycle.RunAuthorityWriteOnce | tests/ProofRegistry.test.ts:111-114 | once stored, the authority survives any history unchanged |
| Lifecycle.RunKeepsProofs | tests/ProofRegistry.test.ts:181-236 | no history removes a stored key |
| Lifecycle.RunKeepsRevocation | tests/ProofRegistry.test.ts:234-236 | a revoked proof stays revoked through any history with no successful submission at its key |
| Lifecycle.ResubmissionRevivesRevokedProof | tests/ProofRegistry.test.ts:170-181 | a concrete history where a revoked proof is replaced by an unrevoked one owned by another caller |
| Lifecycle.InitialWf | tests/ProofRegistry.test.ts:84-101 | the initial state satisfies the registry invariant |
| Lifecycle.SubmitPreservesWf | tests/ProofRegistry.test.ts:156-184 | submission keeps the invariant: positive keys, bounded fields, status = not revoked, the index and update slots refer to stored proofs, at most nextProofId proofs, one transfer per count |
| Lifecycle.UpdatePreservesWf | tests/ProofRegistry.test.ts:198-226 | update keeps the invariant |
| Lifecycle.RevokePreservesWf | tests/ProofRegistry.test.ts:232-236 | revocation keeps the invariant |
| Lifecycle.StepPreservesWf | tests/ProofRegistry.test.ts:107-238 | every call keeps the invariant |
| Lifecycle.RunPreservesWf | tests/ProofRegistry.test.ts:107-238 | every history keeps the invariant |
| Lifecycle.ReachableFacts | tests/ProofRegistry.test.ts:157-162 | in every reachable state an existing hash names a stored proof, and a validated proof has positive ids and a score of at most 100 |
| HashIndex.ExactIndexMeansUniqueHashes | tests/ProofRegistry.test.ts:163 | with an exact index no two stored proofs share a hash |
| HashIndex.ExactIndexMeansExistenceIsStoredHash | tests/ProofRegistry.test.ts:254-256 | with an exact index a hash exists exactly when some stored proof holds it |
| HashIndex.InitialIndexExact | tests/ProofRegistry.test.ts:93-94 | the initial index is exact |
| HashIndex.SubmitAtFreshKeyKeepsIndexExact | tests/ProofRegistry.test.ts:163-182 | a submission at an empty key keeps the index exact |
| HashIndex.UpdateKeepsIndexExact | tests/ProofRegistry.test.ts:205-218 | an update whose hash is unindexed or indexed to its own key keeps the index exact |
| HashIndex.RevokeKeepsIndexExact | tests/ProofRegistry.test.ts:235-236 | revocation keeps the index exact |
| HashIndex.StepKeepsIndexExact | tests/ProofRegistry.test.ts:163-218 | every call except a successful resubmission at a taken key or a successful update to a hash indexed to another key keeps the index exact; failed calls are included |
| HashIndex.StepBreaksIndexExact | tests/ProofRegistry.test.ts:163-218 | from an exact index, each of those two kinds of call leaves the index inexact |
| HashIndex.RunKeepsIndexExact | tests/ProofRegistry.test.ts:163-218 | every history with no successful call of those two kinds keeps the index exact |
| HashIndex.FailedRetryKeepsIndex | tests/ProofRegistry.test.ts:163 | a refused retry of a submission at its own key with its own hash is admitted by the history condition and leaves the index exact |
| HashIndex.ResubmissionLeavesStaleHash | tests/ProofRegistry.test.ts:163-182 | a concrete resubmission leaves "h1" indexed with no proof holding it, so a later submission of "h1" is refused |
| HashIndex.StaleHashReclaimedByUpdate | tests/ProofRegistry.test.ts:205-218 | the stale "h1" can be taken back by an update under the same certId and freed by a second update, after which submitting "h1" at another key succeeds |
| HashIndex.SiblingUpdateSharesHash | tests/ProofRegistry.test.ts:205-218 | a concrete update under the same certId gives two proofs the same hash and makes the index inexact |
| Scenarios.SubmitsProof | tests/ProofRegistry.test.ts:267-279 | submission returns 1, stores the given hash, stake, score and metadata, and logs one transfer of 500 from ST1TEST to ST2TEST |
| Scenarios.RejectsDuplicateHash | tests/ProofRegistry.test.ts:281-287 | a second submission of the same hash fails with code 104 |
| Scenarios.AnyCallerMaySubmit | tests/ProofRegistry.test.ts:289-295 | another caller may submit once an authority is set |
| Scenarios.RejectsSubmitWithoutAuthority | tests/ProofRegistry.test.ts:297-301 | without an authority, submission fails with code 109 |
| Scenarios.RejectsInvalidCertId | tests/ProofRegistry.test.ts:303-308 | certId 0 is refused |
| Scenarios.RejectsInvalidStake | tests/ProofRegistry.test.ts:310-315 | a stake below the minimum is refused |
| Scenarios.RejectsInvalidScore | tests/ProofRegistry.test.ts:317-322 | a score of 101 is refused |
| Scenarios.UpdatesProof | tests/ProofRegistry.test.ts:324-339 | the update succeeds, the proof shows the new hash, score and metadata, and the update slot records them with updater ST1TEST |
| Scenarios.RejectsUpdateOfMissingProof | tests/ProofRegistry.test.ts:341-346 | updating an absent key fails |
| Scenarios.RejectsUpdateByNonVerifier | tests/ProofRegistry.test.ts:348-355 | an update by another caller fails |
| Scenarios.RevokesProof | tests/ProofRegistry.test.ts:357-366 | revocation succeeds and the proof is revoked and inactive |
| Scenarios.RejectsRevokeOfMissingProof | tests/ProofRegistry.test.ts:368-373 | revoking an absent key fails |
| Scenarios.ValidatesProof | tests/ProofRegistry.test.ts:375-381 | validation returns the score 85 |
| Scenarios.RejectsValidationOfRevokedProof | tests/ProofRegistry.test.ts:383-390 | validation of a revoked proof reports it revoked |
| Scenarios.RejectsValidationOfExpiredProof | tests/ProofRegistry.test.ts:392-399 | validation at height 525601 reports expiry |
| Scenarios.SetsRegistrationFee | tests/ProofRegistry.test.ts:401-409 | the new fee is stored and charged on the next submission |
| Scenarios.CountsProofs | tests/ProofRegistry.test.ts:411-418 | two submissions give a count of 2 |
| Scenarios.ChecksProofExistence | tests/ProofRegistry.test.ts:420-429 | a submitted hash exists and another does not |
| Scenarios.RejectsEmptyHash | tests/ProofRegistry.test.ts:431-436 | an empty hash is refused |
| Scenarios.RejectsBeyondMaxProofs | tests/ProofRegistry.test.ts:438-445 | with a cap of 1 the second submission fails with code 111 |
| Scenarios.SetsAuthority | tests/ProofRegistry.test.ts:447-452 | the authority is set and stored |
| Scenarios.RejectsBurnAuthority | tests/ProofRegistry.test.ts:454-458 | the burn principal is refused |

## Left out

- `isVerifiedAuthority` and the `authorities` set (tests/ProofRegistry.test.ts:77, :103-105): no operation consults them.
- The vitest harness (`describe`, `it`, `expect`, `beforeEach`): each case is a method in `Scenarios` instead.
- The `@stacks/transactions` import: nothing in the class uses it.
- Real STX settlement: a transfer is only a record appended to `stxTransfers`.
- The string key `` `${certId}-${testId}` ``: the model uses the pair `Key(certId, testId)`. The two agree for integer ids.
- JavaScript number semantics: amounts, ids, heights and scores are unbounded integers. Fractions, `NaN` and floating-point rounding are not modelled.
- String lengths are counted in characters of `seq<char>`, not in UTF-16 code units.
- Aliasing: `getProof` in the code returns the stored object itself, so a caller could mutate it through that reference. The model returns a value.
- The `Result<boolean>` of the setters, `updateProof` and `revokeProof` always has `value == ok`, and `getProofCount` and `checkProofExistence` always return `ok: true`. The model returns the single flag or value.
- The error constants that no operation returns (for example `ERR_INVALID_TIMESTAMP` and `ERR_UPDATE_NOT_ALLOWED`) are not modelled.
