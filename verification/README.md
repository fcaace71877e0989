# Attested capabilities: a verified model

The system hands out one-use capabilities. A broker appraises TPM evidence, consumes its own
challenge and signs a credential bound to a holder key. `inventoryd` issues a challenge for one
exact call, checks the credential and a holder proof over that call, spends the credential in one
SQLite transaction, and only then runs a private handler; every decision ends in a signed receipt.
A lab drives the two services through seven adversarial cases from an untrusted worker and signs a
record of what it saw; a verifier re-derives the whole run from the receipts in that record.

This project models that code in Dafny and proves what it is for: a credential reaches the handler
at most once in every interleaving with crashes and restarts; every receipt is consistent; an
accepted record pins down what happened; and an honest experiment is always accepted.

## How it is modelled

- **Store.** `Storage.SQLiteStore` performs each transaction statement by statement on three
  tables, with rollback; each transaction is also a function on table contents (`Tables`).
- **Protocol.** `Protocol` is a state machine over any number of simultaneous `issue` and `redeem`
  calls. A step is one access to shared state with the local code around it; `BEGIN IMMEDIATE` to
  commit is one step. A label fixes all the environment chooses: which call moves, the clock
  reading (any integer, not monotone unless stated), an exception before or after the step's effect and how much of a receipt was gathered by then,
  the handler's and the signer's success, a killed call, a restarted process. A run is a list of
  labels, so a statement about `Exec(cfg, Init, labels)` for all `labels` is about every reachable
  state. One `inventoryd` process is alive at a time; a restart resets the counter and kills calls.
- **Services.** `Inventory.InventoryApplication` and `Issuance.CapabilityBroker` are the methods as
  written, in order, each proved to be one call of the state machine running alone.
- **Cryptography** is symbolic. SHA-256 over a canonical encoding is a free constructor, so equal
  digests have equal preimages; drawn tokens and ids are distinct; a signature is a key and the
  statement it covers; a credential verifies exactly when the broker signed it. The keyed check
  inside a challenge is an environment choice per step.
- **Lab.** `Worker`, `Controller`, `Preparation` and `Lab` are the worker, the controller's
  validation, case preparation, and redemption with what it records. `Wire` holds the record and its
  validators, `RecordVerifier` the receipt verifier's loops. A schedule is any interleaving of the
  steps of a case's calls.
- **Reasons.** `Origins`, `Causes` and `IssueCauses` trace every decision of every run back to the label
  and the condition that produced it; `RecordClaims` and `Authenticity` say what acceptance implies, claim
  by claim.
- **Joining the two.** `RecordExecution` ties an accepted record to the handler entries of the run its
  receipts come from; `BurnedCredential` and `BurnedWitness` show the one way a spent credential goes unused
  without a failure.
- **Honest run.** `Race`, `Refusal`, `Submission`, `HonestCase`, `HonestObservation`, `HonestFold`,
  `HonestRun`, `HonestRecord`, `HonestGrants`, `HonestPreparation` and `HonestExperiment` build the
  completeness theorem from one call to the whole experiment; `HonestIssuance` and `HonestWitness`
  show that its hypotheses are met, by a run from the empty store for every race size.
- **Loops at the edges.** `AkChain`, `PcrSelection`, `Capture`, `JsonShape`, `SourceDigest`.

## Model

| member | source | states |
|---|---|---|
| `Storage.SQLiteStore.ConsumeChallengeAndSpendCredential` | src/atcap/storage.py:166-245 | under the write lock: CHALLENGE_INVALID iff no row, CHALLENGE_CONSUMED iff consumed, CHALLENGE_STALE iff unconsumed and at or past its expiry, CREDENTIAL_EXPIRED iff live and outside the window, HOLDER_PROOF_INVALID iff live, inside and stored for another call, otherwise committed: the row stamped and the redemption inserted once; a refusal restores the tables; the lost-race branch is never taken |
| `Storage.SQLiteStore.ConsumeBrokerChallenge` | src/atcap/storage.py:87-114 | CHALLENGE_INVALID iff no row, CHALLENGE_CONSUMED iff consumed, CHALLENGE_STALE iff unconsumed and at or past its expiry, otherwise the row is stamped; the lost-race branch is never taken |
| `Storage.SQLiteStore.StoreBrokerChallenge` | src/atcap/storage.py:80-85 | a primary-key conflict changes nothing, otherwise one unconsumed row is added |
| `Storage.SQLiteStore.StoreResourceChallenge` | src/atcap/storage.py:116-146 | as above, for the resource table |
| `Storage.SQLiteStore.GetResourceChallenge` | src/atcap/storage.py:148-164 | the stored row, or none |
| `Storage.SQLiteStore.RedemptionCount` | src/atcap/storage.py:247-253 | one exactly when the credential has a redemption row |
| `Storage.SpendRefusalMeans` | src/atcap/storage.py:187-221 | each refusal of the redemption transaction against the row it found and its reading, and no other refusal |
| `Storage.ConsumeRefusalMeans` | src/atcap/storage.py:92-107 | the same for consuming a broker challenge |
| `Storage.SpendWrites` | src/atcap/storage.py:205-243 | the cells on which the tables differ before and after are exactly the challenge row and, on a first spend alone, the redemption row; none after a refusal |
| `Storage.SpendKeeps` | src/atcap/storage.py:185-245 | keeps redemption rows and consumed challenges accounting for each other, and only advances rows |
| `Storage.ConsumeKeeps` | src/atcap/storage.py:87-114 | the same, and exactly one broker row differs unless refused |
| `Storage.StoreBrokerKeeps` | src/atcap/storage.py:80-85 | storing a broker challenge keeps the accounting and every existing row |
| `Storage.StoreResourceKeeps` | src/atcap/storage.py:116-146 | storing a resource challenge keeps the accounting and every existing row |
| `Receipt.ReceiptMeaning` | src/atcap/receipt.py:54-109 | a consistent payload names an execution exactly when it is an inventory allow; decision, reason and business result determine each other; its snapshot covers its invocation id |
| `Receipt.ReceiptKinds` | src/atcap/receipt.py:54-109 | the validator admits exactly five kinds of receipt (grant, refused grant, execution, failed execution, refused redemption), each by its own fields |
| `Receipt.DirectLookupReceiptValid` | src/atcap/inventory.py:387-402 | the receipt of an unauthenticated direct call is an UNAUTHENTICATED refusal naming no credential, challenge or record, and validates exactly when the clock is non-negative |
| `Inventory.InventoryApplication.Redeem` | src/atcap/inventory.py:173-385 | the method as written reaches exactly the state and the ending of one call of the state machine running alone; a receipt of an execution says ALLOW and completed iff the handler succeeded, HANDLER_FAILED and failed iff it did not, and so does a post-invocation error; the counter moves by one exactly when the handler was called |
| `Inventory.InventoryApplication.SpendAndInvoke` | src/atcap/inventory.py:277-385 | the part from the transaction on: spend, re-check the clock, count, handler, receipt |
| `Inventory.InventoryApplication.AppraiseCredential` | src/atcap/inventory.py:181-222 | the credential checks in source order give the machine's first step |
| `Inventory.InventoryApplication.LookUpChallenge` | src/atcap/inventory.py:224-256 | the unlocked lookup and its checks give the machine's second step |
| `Inventory.InventoryApplication.IssueResourceChallenge` | src/atcap/inventory.py:138-171 | stores the exact call with its expiry, or fails and changes nothing, with the reason |
| `Inventory.InventoryApplication.Invoke` | src/atcap/inventory.py:293-385 | after the spend: the last look at the clock refuses, or the invocation is counted, the handler runs and the answer reports its own result |
| `Inventory.SoloIsRun` | src/atcap/inventory.py:173-385 | a call running alone is a run of the whole system in which only it moves |
| `Issuance.CapabilityBroker.Issue` | src/atcap/broker.py:132-217 | the method as written is one issuance call of the machine running alone; a denial other than an internal error gives the rejecting verifier's reason, REQUEST_BINDING, TPM_INVALID, or what the broker row says at the transaction's reading, and changes nothing; an allow mints exactly the policy's credential on an accepted appraisal |
| `Issuance.CapabilityBroker.Gather` | src/atcap/broker.py:139-172 | the receipt's fields are filled in source order; without an exception the refusal is the appraisal's own, with one it is INTERNAL_ERROR and carries the fields reached |
| `Issuance.CapabilityBroker.NewChallenge` | src/atcap/broker.py:120-130 | stores a fresh challenge with the policy's lifetime, or changes nothing |
| `Causes.StepDenies` | src/atcap/inventory.py:181-303 | in any reachable situation a step denies for a reason if and only if the reason's condition on request, credential, row, proof and reading holds |
| `Causes.DenialHasCause` | src/atcap/inventory.py:181-329 | in every run each denial was reached at a label where its reason's condition held |
| `Causes.StaleIsExpired` | src/atcap/storage.py:197-198 | in every run a call answered CHALLENGE_STALE read the clock at or past its own stored challenge's expiry |
| `Causes.AnswerCarries` | src/atcap/inventory.py:415-452 | in every run an answer carries its own call's credential, challenge, arguments and record, the resource's names and policy, and the reading and count of its last step |
| `Causes.HandlerReported` | src/atcap/inventory.py:331-385 | in every run an invoked call is answered HANDLER_FAILED exactly when the label that took it past its invocation had a failing handler |
| `Causes.HandlerResultStays` | src/atcap/inventory.py:331-385 | whatever runs after a handler has ended, its call reports that handler's result and no other |
| `IssueCauses.DeniedAsAppraised` | src/atcap/broker.py:142-201 | in every run a denied issuance other than an internal error gives the appraisal's own reason; an accepted appraisal is denied only by its broker row as it stood at that reading |
| `IssueCauses.DenialCarries` | src/atcap/broker.py:139-250 | in every run a denial receipt names no credential and carries only digests of the call's own inputs, exactly those reached unless it reports an internal error |
| `ProtocolInvariant.CommitKeeps` | src/atcap/inventory.py:277-291 | the commit step keeps the call's invariant: a first spend owns its redemption row, any other outcome owns nothing |
| `ProtocolInvariant.RedeemStepKeeps` | src/atcap/inventory.py:173-385 | every step of a redemption keeps its invariant and only grows shared state |
| `ProtocolInvariant.IssueStepKeeps` | src/atcap/broker.py:132-217 | every step of an issuance keeps its invariant; a credential is signed only after its challenge was consumed, under a new id |
| `ProtocolSafety.NextInv` | src/atcap/inventory.py:173-385 | every label (new challenge, new call, step, kill, restart) keeps the whole invariant |
| `ProtocolSafety.RunInv` | src/atcap/inventory.py:173-385 | so every state of every run from an empty store satisfies it |
| `ProtocolTheorems.AtMostOnce` | src/atcap/inventory.py:277-331 | in every run each credential reaches the handler at most once over all lifetimes; entries map injectively to redemption rows, to signed credentials and to consumed broker challenges |
| `ProtocolTheorems.TablesOverRuns` | src/atcap/storage.py:116-245 | in every run redemption rows and consumed challenges account for each other, and over any stretch a row changes only by consumed_at going once from NULL to a time |
| `ProtocolTheorems.Conservation` | src/atcap/inventory.py:277-407 | in one lifetime rows added = invocations + calls between commit and invocation + calls ended or dead after commit; invocations = ALLOW + HANDLER_FAILED + PostInvocationError + invoked and unanswered |
| `ProtocolTheorems.ReceiptsSound` | src/atcap/inventory.py:304-452 | in every run each payload about to be signed validates exactly when its clock reading is non-negative; a call is answered allow exactly when it invoked; invocation numbers are 1..count |
| `ProtocolTheorems.CellsAreWrites` | src/atcap/inventory.py:277-288 | each step of a redemption adds to its history exactly the cells it changed |
| `ProtocolTheorems.IssueCellsAreWrites` | src/atcap/broker.py:168-183 | the same for issuance |
| `ProtocolTheorems.DenialFootprints` | src/atcap/inventory.py:181-329 | in every run a denial's reason and whether the call made the first spend settle what it wrote: CREDENTIAL_INVALID, SCOPE_DENIED, HOLDER_PROOF_INVALID, CHALLENGE_INVALID and CHALLENGE_CONSUMED nothing; CREDENTIAL_SPENT its challenge row; CHALLENGE_STALE and CREDENTIAL_EXPIRED nothing, or both rows after the spend; INTERNAL_ERROR one of these three; no other reason occurs; a denied issuance wrote nothing unless an internal error followed its consumption |
| `ProtocolTheorems.ClockDenials` | src/atcap/inventory.py:293-303 | a CHALLENGE_STALE or CREDENTIAL_EXPIRED denial changed the tables if and only if its call had spent the credential, and then by exactly both rows |
| `BurnedCredential.BurnsCredential` | src/atcap/inventory.py:277-315 | from any state, a genuine redemption whose clock runs out after the commit is denied with the credential spent, the counter and the handler untouched |
| `BurnedWitness.ClockDenialsBurn` | src/atcap/inventory.py:293-303 | for each of the two reasons a run from the empty store in which the denial leaves a spent credential |
| `ProtocolTheorems.ProofBeforeEffect` | src/atcap/inventory.py:260-288 | in every run a call whose proof does not cover its credential and arguments wrote nothing and never reached the handler |
| `ProtocolTime.HandlerIsTimely` | src/atcap/inventory.py:293-303 | for any clock, the commit reading and the last reading before each handler entry lie in the credential's window and before the challenge's expiry, and within TTL of its issue and the maximum lifetime |
| `ProtocolTime.HandlerFollowsChallenge` | src/atcap/inventory.py:138-303 | with a monotone clock issue, commit and last check come in that order, so the handler starts within the TTL of the challenge |
| `ProtocolTime.TtlRun` | src/atcap/inventory.py:138-162 | in every run each resource challenge expires exactly one TTL after its issue |
| `ProtocolTime.BrokerTtlRun` | src/atcap/broker.py:120-130 | in every run each broker challenge expires exactly one TTL after its issue |
| `Race.CommitStep` | src/atcap/storage.py:185-245 | a contender's transaction is never refused and is a first spend exactly when the credential is unspent |
| `Race.RaceRun` | examples/runpod-untrusted-caller/lab/controller.py:439-470 | under every schedule of honest steps the race invariant holds and every call given a step gets nearer its answer |
| `Race.RaceOutcome` | examples/runpod-untrusted-caller/lab/controller.py:439-496 | for every number of contenders and every schedule: one ALLOW, all others CREDENTIAL_SPENT, one more invocation, one more row, naming the winner's challenge |
| `Refusal.RefusalRun` | src/atcap/inventory.py:224-329 | a malformed or foreign proof, or a consumed challenge, is answered with its own denial; only that call and the receipt number move |
| `Worker.GeneratePasses` | examples/runpod-untrusted-caller/lab/worker.py:93-156 | the worker's response passes the binding and proof appraisal for every variant and every request |
| `Worker.PreappraisalDecides` | examples/runpod-untrusted-caller/lab/controller.py:278-337 | whatever the worker did, an appraised response covers the controller's lookup exactly for the three variants meant to be allowed |
| `Worker.DenialCaseNeverSpends` | examples/runpod-untrusted-caller/lab/controller.py:250-337 | so in every run an appraised denial case writes nothing, never invokes, and is never answered allow |
| `Authenticity.AcceptedGrantIsSigned` | examples/runpod-untrusted-caller/lab/controller.py:135-163 | a grant is accepted iff the pinned broker key signed a receipt granting this credential to the expected worker with exactly these digests |
| `Authenticity.BoundIsSigned` | examples/runpod-untrusted-caller/lab/controller.py:230-248 | a response is bound iff the expected worker key signed exactly its body, which names the request's digest and the pinned image and code |
| `Authenticity.OneRequestOnly` | examples/runpod-untrusted-caller/lab/controller.py:230-248 | a response accepted for one request is accepted for no request differing in a digested field |
| `Authenticity.OneSignature` | examples/runpod-untrusted-caller/lab/controller.py:243-248 | two accepted responses with one signature are equal |
| `Authenticity.TamperedCaseFails` | examples/runpod-untrusted-caller/lab/controller.py:397-417 | changing any field of an accepted response while keeping its signature makes the case fail validation |
| `Authenticity.UnsignedCaseFails` | examples/runpod-untrusted-caller/lab/controller.py:243-248 | a response not signed by the expected worker key over its own body fails its case |
| `Authenticity.AppraisedIsPrescribed` | examples/runpod-untrusted-caller/lab/controller.py:278-337 | while the challenge's keyed check holds, the appraisal accepts exactly the proof the variant prescribes, field by field |
| `Preparation.NamesDiffer` | examples/runpod-untrusted-caller/lab/controller.py:170-174 | the run names of one case are pairwise different, and so are its record names |
| `Preparation.NamesAre` | examples/runpod-untrusted-caller/lab/controller.py:173-174 | a single request bears the bare name, several bear it with a dot and their two-digit position from 01 |
| `Preparation.RequestCarries` | examples/runpod-untrusted-caller/lab/controller.py:181-196 | a prepared request carries the granted credential, the drawn challenge, the resource's audience and scope and the pinned build |
| `Preparation.ChallengedRows` | examples/runpod-untrusted-caller/lab/controller.py:172-180 | issuing a case's challenges adds exactly one row per request and touches nothing else |
| `Lab.TrustedController.PrepareCase` | examples/runpod-untrusted-caller/lab/controller.py:129-202 | succeeds exactly when the case id is new, the grant verifies and every challenge can be stored; reserves the id in any case; a bad grant issues nothing |
| `Lab.RecordedAttempt` | examples/runpod-untrusted-caller/lab/controller.py:339-395 | an attempt is recorded only of an answered call whose receipt speaks of this request alone, and says what that receipt says |
| `Controller.IndexByRun` | examples/runpod-untrusted-caller/lab/controller.py:407-411 | the dictionary holds each answered run id once, and tells whether any repeats |
| `Controller.ValidateCaseInputs` | examples/runpod-untrusted-caller/lab/controller.py:397-417 | accepts exactly the complete, unambiguous, bound and appraised case, and returns each request's own response in request order, each signed by the expected worker over its own body with the pinned image and code |
| `Controller.BundlePartitioned` | examples/runpod-untrusted-caller/lab/live_cli.py:588-614 | if every case validates, each response of the bundle belongs to exactly one case and answers exactly one prepared request |
| `Controller.OrderIrrelevant` | examples/runpod-untrusted-caller/lab/live_cli.py:606-617 | neither validation nor the matching depends on the bundle's order |
| `Lab.TrustedController.FinalizeCases` | examples/runpod-untrusted-caller/lab/controller.py:513-526 | if any case fails validation nothing has moved; otherwise the cases are redeemed in order from the starting state |
| `RecordVerifier.ScanAttempts` | examples/runpod-untrusted-caller/lab/record.py:202-252 | the inner loop decides whether every attempt of a case is fresh and says what its receipt says |
| `RecordVerifier.VerifyEmbeddedReceipts` | examples/runpod-untrusted-caller/lab/record.py:101-330 | the nested loops over sets, lists and a counter decide exactly the declarative predicate on the record |
| `RecordVerifier.VerifyRecord` | examples/runpod-untrusted-caller/lab/record.py:82-99 | returns the payload exactly when it is signed under the pinned key, passes its own validator and every embedded receipt |
| `RecordClaims.AcceptedGrant` | examples/runpod-untrusted-caller/lab/record.py:145-184 | each broker receipt of an accepted record is a signed grant under the record's broker key with every field the broker fills and no other |
| `RecordClaims.AcceptedGrantsApart` | examples/runpod-untrusted-caller/lab/record.py:289-312 | any two differ in receipt, credential, challenge and issuance digest and agree in manifest and policy; on real hardware they differ in attest and quote signature and agree in the key chain |
| `RecordClaims.AcceptedAnswer` | examples/runpod-untrusted-caller/lab/record.py:202-252 | each resource receipt says what its attempt says about the case's own credential, between the grant and the observation |
| `RecordClaims.AcceptedAnswersApart` | examples/runpod-untrusted-caller/lab/record.py:202-306 | any two differ in receipt and agree in the resource policy |
| `RecordClaims.AcceptedCase` | examples/runpod-untrusted-caller/lab/wire.py:166-227 | each case of an accepted record shows exactly its variant's verdicts, sequence numbers and counts |
| `RecordClaims.AcceptedStory` | examples/runpod-untrusted-caller/lab/record.py:253-288 | two attempts of a race differ in run, digests, challenge and record; of a replay they agree and neither clock nor counter runs back |
| `RecordClaims.AcceptedNumbers` | examples/runpod-untrusted-caller/lab/wire.py:342-349 | by its own validator alone a record's executed attempts bear different numbers from 1 to 3 |
| `RecordClaims.AcceptedHeader` | examples/runpod-untrusted-caller/lab/wire.py:302-345 | different verifier keys, one worker, image and code throughout, different case ids and variants, assurance exactly on real hardware |
| `RecordClaims.FinalCountSeen` | examples/runpod-untrusted-caller/lab/record.py:313-320 | some receipt saw the counter at the record's final count |
| `RecordSound.AcceptedCounts` | examples/runpod-untrusted-caller/lab/wire.py:302-368 | an accepted record with a race of n has 7 issuances, n + 7 attempts, 3 allowed, n + 4 denied, 3 executions, 3 redemptions |
| `RecordSound.AllowedAreDistinct` | examples/runpod-untrusted-caller/lab/record.py:145-330 | two allowed receipts differ in credential, invocation id and challenge |
| `RecordSound.SharedChallenge` | examples/runpod-untrusted-caller/lab/record.py:312-330 | two attempts share a challenge if and only if they are the replayed pair |
| `RecordExecution.RunLogs` | src/atcap/inventory.py:331-340 | in every run each call that drew an invocation number has its handler entry, over all lifetimes |
| `RecordExecution.RecordExecuted` | examples/runpod-untrusted-caller/lab/record.py:101-330 | if an accepted record's receipts are answers of a run, that run entered the handler for the three executing cases under the numbers 1, 2, 3, each on the case's own credential, redemption row and consumed broker challenge, and nowhere else for those credentials |
| `Submission.RaceSubmitted` | examples/runpod-untrusted-caller/lab/controller.py:439-470 | lookups submitted together settle with one winner, and only their own challenges and credential move |
| `Submission.RefusalSubmitted` | examples/runpod-untrusted-caller/lab/controller.py:471-493 | a lookup that must be refused settles with its denial and leaves tables and counter as they were |
| `HonestCase.ReplayCaseSettles` | examples/runpod-untrusted-caller/lab/controller.py:471-493 | a replayed challenge yields ALLOW, then CHALLENGE_CONSUMED, in the order of clock and counter |
| `HonestCase.CaseSettles` | examples/runpod-untrusted-caller/lab/controller.py:419-493 | every waiting case ends in its prescribed answers under every honest schedule |
| `HonestCase.StillWaiting` | examples/runpod-untrusted-caller/lab/controller.py:513-526 | redeeming one case leaves every other case's challenges and credential waiting |
| `HonestObservation.CaseObserved` | examples/runpod-untrusted-caller/lab/controller.py:339-511 | the outcome, count and shape checks of an honest case never fail, and its record is built from the calls' own receipts |
| `HonestFold.HonestFoldRuns` | examples/runpod-untrusted-caller/lab/controller.py:513-526 | after any number of cases all checks have passed, the counter equals the executing cases so far, the rest still wait |
| `HonestRun.CaseAcceptedAt` | examples/runpod-untrusted-caller/lab/record.py:145-288 | each case of an honest record passes the verifier's broker, attempt and story checks |
| `HonestRecord.RecordSemanticsHold` | examples/runpod-untrusted-caller/lab/wire.py:302-368 | an honest record passes its own validator; its invocation ids are 1, 2, 3 in order |
| `HonestRecord.PairCounts` | examples/runpod-untrusted-caller/lab/record.py:312-330 | the replayed challenge is counted twice and every other one once |
| `HonestRecord.HonestRecordAccepted` | examples/runpod-untrusted-caller/lab/controller.py:572-621 | from any reachable state with a fresh counter and unrelated waiting cases, the honest record passes both validators, for every race size and schedule |
| `HonestGrants.GrantsRun` | src/atcap/broker.py:184-250 | in every run a broker allow receipt is exactly the broker's payload about the call that signed the credential, under its own receipt id |
| `HonestGrants.GrantFromIssuance` | examples/runpod-untrusted-caller/lab/controller.py:135-163 | a grant made from a broker's answer passes grant verification and the resource's bounds, and its credential is the one that call signed |
| `HonestGrants.GrantsUnrelated` | src/atcap/broker.py:168-217 | grants of two issuances differ in credential, receipt, challenge and request digest and share manifest and policy |
| `HonestPreparation.PreparedCaseWaits` | examples/runpod-untrusted-caller/lab/controller.py:165-202 | a prepared case has distinct requests whose challenges wait until the TTL has passed |
| `HonestExperiment.HonestInputsValid` | examples/runpod-untrusted-caller/lab/controller.py:397-417 | every honest case passes the controller's validation |
| `HonestExperiment.HonestExperimentAccepted` | examples/runpod-untrusted-caller/lab/record.py:101-330 | from an empty store through seven issuances and seven cases: every case validates, no check fails, the record is accepted by both validators, and its receipts are the run's own answers, for every race size and schedule |
| `HonestIssuance.HonestIssue` | src/atcap/broker.py:120-217 | from any state, an accepted request on a fresh challenge ends with a credential and an allow receipt, and only the challenge and the drawn numbers have changed |
| `HonestWitness.HonestSetupExists` | examples/runpod-untrusted-caller/lab/live_cli.py:209-244 | for every race size from 2 to 64 and either kind of TPM a run from the empty store sets up the seven cases an honest experiment starts from |
| `HonestWitness.AcceptedRecordExists` | examples/runpod-untrusted-caller/lab/record.py:101-330 | so for every race size there is a run from the empty store and a record of it with a race of that size, made of the run's answers, which both validators accept |
| `AkChain.EnforcePolicy` | src/atcap/tpm.py:96-166 | the loops accept exactly the declared certificate profile; a missing or unparseable bundle and a time that is no instant are refused |
| `AkChain.PolicyMeans` | src/atcap/tpm.py:96-166 | the profile clause by clause on the certificates' own fields |
| `AkChain.RunningMaxIsRoom` | src/atcap/tpm.py:138-154 | the running max_path_length of section 6.1.4 of RFC 5280 is the room the certificates above leave |
| `AkChain.PathLengthIsRunningMax` | src/atcap/tpm.py:138-154 | the per-index test accepts exactly the chains that steps (l) and (m) of section 6.1.4 of RFC 5280 accept, the last certificate being the anchor |
| `PcrSelection.Decode` | src/atcap/tpm.py:185-193 | fails exactly when the size exceeds the octets; otherwise a strictly increasing list holding i exactly when bit i mod 8 of octet i div 8 is set |
| `PcrSelection.ReadSelections` | src/atcap/tpm.py:183-194 | every selection decoded in order under its hash name |
| `PcrSelection.EncodeDecoded` | src/atcap/tpm.py:185-193 | encoding a decoded list gives back the bitmap |
| `PcrSelection.DecodedEqual` | src/atcap/tpm.py:185-193 | equal lists of equal size come from equal bitmaps |
| `PcrSelection.ListsUpToZeros` | src/atcap/tpm.py:185-193 | for any two sizes, lists agree exactly when the bitmaps agree up to trailing zero octets |
| `Capture.HandleEvent` | examples/runpod-untrusted-caller/bounded_capture.py:236-268 | one read and its bounded write is the model's event, and the file stays initial content plus a part of the stream |
| `Capture.CaptureStreams` | examples/runpod-untrusted-caller/bounded_capture.py:219-289 | each file is its initial content plus a prefix of its stream within the limit, exactly the limit when its own limit is reported, the whole stream when the child's end is; status 125 for a limit, 124 for the deadline, 126 for an error, 128 plus the first signal when interrupted, the child's code or 128 plus its signal otherwise; interrupted iff a turn still running carries a signal, timed out iff a late turn or the end of the turns comes first |
| `Capture.CaptureCommand` | examples/runpod-untrusted-caller/bounded_capture.py:157-205 | a destination over its limit, a signal before the spawn and a failed spawn all end the command before any write, each with its own report |
| `Capture.EventStops` | examples/runpod-untrusted-caller/bounded_capture.py:236-266 | a read of at most 65536 octets stops at its stream's limit iff it exceeds the room left, and as an error iff a needed write fails |
| `Capture.OutcomeArises` | examples/runpod-untrusted-caller/bounded_capture.py:219-270 | exactly when a run is interrupted, timed out or ends with the child |
| `Capture.TurnsKeep` | examples/runpod-untrusted-caller/bounded_capture.py:219-268 | every interleaving of chunks, failures, signals and deadlines keeps both streams' guarantees |
| `Capture.FinishedIsWhole` | examples/runpod-untrusted-caller/bounded_capture.py:267-289 | a run that ends with the child captured both streams whole, so a stream too long never ends so |
| `Capture.AppendedBounded` | examples/runpod-untrusted-caller/bounded_capture.py:50-66 | however often a file is appended to, its content stays a prefix and the limit holds |
| `JsonShape.ValidateJsonShape` | examples/runpod-untrusted-caller/provider_readback.py:76-105 | with the shared counter: accepts exactly when nodes, depth and sizes are in bounds; then the counter grew by the number of nodes; it never passes the limit by more than one |
| `JsonShape.WalkMeans` | examples/runpod-untrusted-caller/provider_readback.py:76-105 | counting, measuring and bounding a document is the same as looking at each node of its preorder walk |
| `JsonShape.ValidateDocument` | examples/runpod-untrusted-caller/provider_readback.py:143-143 | a whole document is accepted iff it has at most 10000 nodes, each at depth at most 32 and within its own array, object, string and name limits; then exactly its nodes were counted; at most 10001 ever are |
| `SourceDigest.WorkerSourceStream` | examples/runpod-untrusted-caller/lab/live_cli.py:194-206 | the loop feeds header and framing, and fails exactly when a length does not fit its prefix |
| `SourceDigest.FrameLayout` | examples/runpod-untrusted-caller/lab/live_cli.py:200-205 | four octets of name length and eight of content length, most significant first, around the name and before the content |
| `SourceDigest.ParseFraming` | examples/runpod-untrusted-caller/lab/live_cli.py:199-205 | parsing a framing recovers the file list |
| `SourceDigest.FramingInjective` | examples/runpod-untrusted-caller/lab/live_cli.py:194-206 | equal hashed streams have equal names and contents in order |

## Left out

- Ed25519, HMAC, SHA-256, JWS and canonical JSON: symbolic, with the assumptions above; id and image syntax other than hexadecimal digests is opaque.
- Issuance.CapabilityBroker.Issue: takes the joint verdict of the type checks, challenge authenticity, manifest, identity and TPM appraisal as an input, restricted to the reasons they can raise.
- SQLite internals, busy timeouts and several `inventoryd` processes on one database: a transaction is one step, one process is alive at a time.
- MCP server wiring, tool schemas and asyncio transport: boundary glue around `redeem`.
- Process spawning, file descriptors and `deadline_supervisor.py`: operating-system behaviour.
- Capture.CaptureStreams: turns that run out stand for the deadline; reading the clock is not modelled.
- AkChain.EnforcePolicy: takes certificate bundles and the evaluation time as already classified, and does not model PEM or X.509 parsing.
- HonestExperiment.HonestExperimentAccepted: leaves out the record's experiment id, commit and provider observation, which neither validator compares with a receipt.
- Digests of requests and responses: cover every field but the credential's scope and bounds and the provider metadata.
- `_read_bounded_regular_file`, duplicate-key rejection and field-by-field provider comparisons: each is settled by one branch.
- `swtpm.py`, key and manifest generation, `billing_observation.py`, `evidence_manifest.py`, `handler.py`, `scripts/verify-package.py`: fixtures and tooling.
