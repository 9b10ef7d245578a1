# Verified model of the elastic-training control plane

The repository keeps a synchronous, elastic training job honest: it decides which data
windows an update consumes, which rank works on what, where checkpoint bytes come from,
who may recover or deploy, and what evidence a human review rests on. This project models
that control plane in Dafny and proves what its components promise over every run.

The model has one module per component and, beside it, a module with the theorems:

- `CursorLedger`, `CursorRuns`, `CursorOrigins`: the global data cursor. Committed updates consume the work
  manifest exactly once, in contiguous ranges, whatever fails and restarts in between.
- `LoadGate`, `LoadGateRuns`, `LoadGateHandover`, `LoadGateOutcomes`: the single-flight gate in front of
  checkpoint shards, as a system of steps that interleave freely, with leases that may
  expire at any step.
- `Merkle`, `AuditLedger`, `AuditRuns`, `AuditKeys`, `AuditTampering`, `AuditDecisions`: the
  tamper-evident review ledger: what it accepts, which edits its verifier misses, and when two
  approvals rest on two keys.
- `UpdatePlanner`, `UpdatePlannerProofs`, `GreedyTrace`, `PlannerChoices`, `PlanChecks`: the
  topology-aware greedy planner, its independent validator, and the rule that characterises
  its assignment.
- `GradientScaling`, `GradientIdentity`, `MicroBatchCounts`: micro-batch plans, the
  accumulation loop, and the identity behind heterogeneous micro-batches.
- `ControlPlane`, `ControlPlaneProofs`, `ControlRounds`: byte collectives and plan consensus at
  all ranks, under every schedule of the ranks' own steps, and the topology round.
- `PlanToCursor`: what happens to a planner's plan at the cursor ledger.
- `VerifiedCache`, `CacheRuns`, `CacheAnswers`: commit pointer, durable store and untrusted cache.
- `Arbiter`, `ArbiterRuns`, `ArbiterHistory`: generation fencing between recovery and deployment.
- `LeaseLedger`, `LeaseRuns`, `LeaseHistory`: job leases.
- `Ring`, `RingRuns`: the drop-oldest ring, on an array.
- `Prelude`, `Arithmetic`, `Ordering`: shared vocabulary (options, permutations, sums,
  Python's stable `sorted` and `round`).

## How to read it

Where the code changes state, a class holds the same fields and its methods run the same
steps in the same order; each method is proved to produce the outcome and the new state of
a specification function on values. A run is a sequence of operations folded over that
function, and the theorems are about all runs. A raised exception is an `Err` value; a
SQLite transaction is one step that either yields new rows or leaves the old ones.

SHA-256 and canonical JSON are one function each from value to digest, passed as a
parameter. A theorem that needs the digest to tell inputs apart assumes it free of
collisions on the finite set of inputs that the run presents, never on all inputs.
Signatures are functions with one law: a signature made with a key verifies under its
public key. Clock readings, fresh identifiers, received bytes and file digests are
arguments of the step that reads them.

## Where the code and its description differ

The model follows the code; each difference has a theorem.

- The recovery test of the cursor ledger says it rejects an unchanged identity, and does so
  only for restart count 0 (`CursorRuns.UnchangedIdentityPassesRecovery`; a run:
  `CursorRuns.CommittedIdentityRecovers`).
- The planner binds plans to a digest of the update's work list, the cursor ledger expects
  the digest of the global manifest (`PlanToCursor.AdaptedPlanReservesIff`), so the ledger
  refuses every adapted plan (`PlanToCursor.AdaptedPlanIsAlwaysRefused`).
- "Single flight per key" holds exactly until the first lease takeover
  (`LoadGateRuns.SingleFlightIffNoTakeover`).
- "Followers share the leader's result" holds exactly until the publish guard turns away a
  leader whose own flight is still open (`LoadGateHandover.FollowersServedIff`), which takes
  a failing call that pops somebody else's key (`LoadGateHandover.NoForeignPopMeansServed`;
  an execution: `LoadGateHandover.FollowerIsAbandoned`).
- The audit verifier binds a stored manifest only through its root
  (`AuditRuns.StoredManifestIsBoundByRootOnly`; a ledger:
  `AuditRuns.EditedManifestStillVerifies`), and the Merkle root binds neither the leaf count
  nor, by itself, the height (`Merkle.PaddingHidesARepeatedLastLeaf`,
  `Merkle.InnerNodePassesForALeaf`); `Merkle.MerkleRootsEqualIff` says exactly when two
  lists share a root.
- The adjustable admission limit bounds the loads in flight exactly as long as it is never set
  below them (`LoadGateRuns.LimitIsRespectedIff`; an execution:
  `LoadGateRuns.LoweredLimitIsExceeded`).
- "Two distinct reviewers" are two signer IDs, which one key holder may own
  (a run: `AuditKeys.OneKeyApprovesTwice`). Reviewers keep different keys exactly in the runs
  that never enrol a reviewer under another one's key (`AuditKeys.KeysApartIff`), and then
  every eligible patch is approved under two (`AuditKeys.ApartMeansTwoKeys`).
- Component and shard names can be confused in a cache key when a component contains a
  colon, without ever mixing contents (`CacheRuns.ColonsShareAKey`,
  `CacheRuns.SharedKeysReadAlike`).
- A Git revision drift freezes an epoch only through an accepted freeze call
  (`ArbiterRuns.FrozenIff`); one seen while arming does not (`ArbiterRuns.DriftIsArmedAnyway`).
- A lease acts for as long as nobody supersedes it, fresh or not
  (`LeaseRuns.LeaseActsUntilSuperseded`).
- A rank that rejects a plan alone does not make all ranks raise
  (`ControlPlaneProofs.AllRaiseIff`; a round: `ControlPlaneProofs.LoneRejectionBlocksTheRest`).

## Model

| member | source | states |
|---|---|---|
| CursorLedger.ElasticCursorLedger.BootstrapRun | elastic_data_cursor_ledger.py:242-287 | a run is created once, at offset 0; bootstrapping it again returns the existing cursor, or raises for another manifest and changes nothing |
| CursorLedger.ElasticCursorLedger.PrepareNextUpdate | elastic_data_cursor_ledger.py:295-359 | reserves exactly the next contiguous range for a plan over exactly these work IDs, without moving the cursor; every refusal leaves both tables unchanged |
| CursorLedger.ElasticCursorLedger.AbortUncommitted | elastic_data_cursor_ledger.py:361-377 | only a prepared attempt becomes aborted; the cursor stays |
| CursorLedger.ElasticCursorLedger.RecoverAfterRendezvous | elastic_data_cursor_ledger.py:379-416 | aborts every prepared attempt of the run, or, when the identity test that follows the updates fails, restores all of them |
| CursorLedger.ElasticCursorLedger.CommitUpdate | elastic_data_cursor_ledger.py:418-484 | advances the cursor and settles the attempt together, or does neither |
| CursorRuns.RaisingChangesNothing | elastic_data_cursor_ledger.py:258-287 | a transaction that raises, of any kind, leaves both tables as they were |
| CursorRuns.RunKeepsInv | elastic_data_cursor_ledger.py:295-484 | after any sequence of calls: the committed attempts are exactly the commit log, tile from offset 0, are counted by the step counter, end at the offset, and a prepared attempt extends the current commit |
| CursorRuns.RunKeepsReserves | elastic_data_cursor_ledger.py:309-336 | every range ever reserved is read off the one manifest the run was started with, if no two presented manifests share a digest |
| CursorRuns.CommittedWorkIsManifestPrefix | elastic_data_cursor_ledger.py:295-484 | after any mix of aborts, recoveries, re-layouts and world sizes, the committed plans concatenated are a permutation of exactly the first `next_offset` windows, and `committed_step` counts them |
| CursorRuns.CommittedRangesTile | elastic_data_cursor_ledger.py:318-336 | committed ranges are non-empty and lie end to end from 0 to the cursor, with no gap or overlap |
| CursorRuns.EachWindowTrainedOnce | elastic_data_cursor_ledger.py:3-9 | each window below the offset occurs exactly once in the committed plans and each later one not at all |
| CursorRuns.PreparedIsNeverStale | elastic_data_cursor_ledger.py:443-445 | the stale-parent guard of a commit, and its missing-run guard, never fail in any reachable ledger |
| CursorRuns.AtMostOnePrepared | elastic_data_cursor_ledger.py:237-238 | at most one attempt per run is prepared, in any reachable ledger |
| CursorRuns.SettledRowsStaySettled | elastic_data_cursor_ledger.py:361-377 | an aborted or committed attempt is never written again by any later calls, and a prepared one keeps its range, plan and identity |
| CursorRuns.ManifestIsFixed | elastic_data_cursor_ledger.py:461-475 | no later call changes the manifest of a run or moves its cursor back |
| CursorRuns.InterruptedRangeIsReplayed | elastic_data_cursor_ledger.py:379-416 | after recovery any valid plan of the new group over the interrupted work IDs, in any rank layout and world size, reserves exactly the interrupted global range |
| CursorRuns.UnchangedIdentityPassesRecovery | elastic_data_cursor_ledger.py:407-411 | the identity that made the last commit passes the "new rendezvous" test if and only if its restart count is above 0, weaker than the comment says |
| CursorRuns.CommittedIdentityRecovers | elastic_data_cursor_ledger.py:407-411 | a run from the empty ledger in which a restarted group commits an update and its very identity then passes for a new rendezvous |
| CursorOrigins.CursorIsLastWrite | elastic_data_cursor_ledger.py:450-480 | in every reachable ledger a run's cursor is the one its last accepted commit wrote, or its bootstrap: checkpoint, world size, topology epoch and commit ID are those of that call, and the last committed attempt stores the same checkpoint |
| CursorOrigins.RecoveryReturnsLastCheckpoint | elastic_data_cursor_ledger.py:379-416 | an accepted recovery returns the checkpoint of the last accepted commit, or of the bootstrap if there was none |
| CursorOrigins.AcceptedCallsReturnTheCursor | elastic_data_cursor_ledger.py:281-287 | bootstrap and commit hand out the cursor that is stored |
| CursorOrigins.OneManifestPerRun | elastic_data_cursor_ledger.py:486-489 | all calls a run ever accepts present one manifest, if no two presented ones share a digest |
| CursorOrigins.CommitAcceptedIff | elastic_data_cursor_ledger.py:418-449 | a reachable ledger accepts a commit exactly for a prepared attempt, under the identity that prepared it, with the manifest its plan names and checkpoint bytes that match |
| CursorOrigins.BootstrapAcceptedIff | elastic_data_cursor_ledger.py:242-287 | a bootstrap is accepted exactly with valid arguments and, for a run that exists, its manifest; an existing run is left as it is |
| CursorOrigins.RecoverAcceptedIff | elastic_data_cursor_ledger.py:396-411 | it accepts a recovery exactly with the run's manifest and a topology epoch other than that of the last commit, or a restarted group |
| CursorOrigins.AbortAcceptedIff | elastic_data_cursor_ledger.py:361-377 | an abort is accepted exactly for a prepared attempt and a reason that is more than white space |
| CursorOrigins.RowIsItsCalls | elastic_data_cursor_ledger.py:333-355 | every attempt row is the reservation of the call that prepared it, open until one call closed it, and then carries that call's checkpoint or reason |
| PlanToCursor.AdaptedPlanIsValidIff | elastic_data_cursor_ledger.py:129-149 | a plan returned by the topology-aware planner is a well-formed cursor plan exactly when its three bindings are non-empty |
| PlanToCursor.AdaptedPlanReservesIff | elastic_data_cursor_ledger.py:491-498 | the ledger reserves such a plan exactly when the planner's digest of its own work list equals the manifest digest and the items are the next windows in some order |
| PlanToCursor.AdaptedPlanIsAlwaysRefused | elastic_data_cursor_ledger.py:491-498 | with one hash over the two differently shaped encodings, the ledger refuses every plan the planner returns, in any state, and changes nothing |
| PlanToCursor.PrepareAcceptedIff | elastic_data_cursor_ledger.py:295-336 | a reservation is accepted exactly for a valid plan bound to this group and the run's manifest, over the next windows in some order, while nothing of the run is prepared |
| PlanToCursor.PrepareIff | elastic_data_cursor_ledger.py:310-325 | the two comparisons of work IDs (as sets, and by length) accept exactly the permutations of the next range |
| LoadGate.ShardGate.BeginCall | threadsafe_checkpoint_load_gate.py:144-182 | the first lock section: argument errors, verified cache hit, corrupt entry dropped, expired lease fenced, flight joined or opened |
| LoadGate.ShardGate.FenceExpiredLease | threadsafe_checkpoint_load_gate.py:164-173 | an open flight past its deadline is failed and unregistered; otherwise nothing changes |
| LoadGate.ShardGate.JoinOrOpenFlight | threadsafe_checkpoint_load_gate.py:174-182 | joins the registered flight or registers a fresh generation |
| LoadGate.ShardGate.WakeCall | threadsafe_checkpoint_load_gate.py:184-193 | a follower raises, returns the payload of its finished flight, times out at its own deadline, or keeps waiting |
| LoadGate.ShardGate.AcquireAdmission | threadsafe_checkpoint_load_gate.py:83-92 | takes a token exactly when fewer than the limit are out, and can only time out at a full gate |
| LoadGate.ShardGate.FinishLoader | threadsafe_checkpoint_load_gate.py:202-205 | verified bytes in time are kept; wrong bytes or a missed deadline fail the call, which still holds its token |
| LoadGate.ShardGate.ReleaseAdmission | threadsafe_checkpoint_load_gate.py:94-99 | returns one token, or turns into a failure if none is out |
| LoadGate.ShardGate.FailCall | threadsafe_checkpoint_load_gate.py:212-219 | marks the own flight failed and pops whatever flight is registered under the key |
| LoadGate.ShardGate.PublishCall | threadsafe_checkpoint_load_gate.py:221-233 | writes the cache, pays out and unregisters if the own flight is still registered; otherwise raises and changes nothing else |
| LoadGate.ShardGate.WarmVerified | threadsafe_checkpoint_load_gate.py:121-124 | only bytes of the expected digest enter the cache |
| LoadGate.ShardGate.SetDurableLimit | threadsafe_checkpoint_load_gate.py:76-81 | a limit below 1 is refused and changes nothing |
| LoadGate.ShardGate.SetCacheReads | threadsafe_checkpoint_load_gate.py:126-134 | switches the cache as a source and nothing else |
| LoadGateRuns.ExecKeepsInv | threadsafe_checkpoint_load_gate.py:102-233 | in every interleaving: every registered flight is open and led by a call still at work on it, every finished flight has one outcome, and the token counter is the number of holders |
| LoadGateRuns.ReturnedBytesAreVerified | threadsafe_checkpoint_load_gate.py:150-193 | whatever a call returns hashes to the digest it asked for, except for a follower, and then exactly when its leader asked for another digest of the same key |
| LoadGateRuns.FinishedFlightHasOneOutcome | threadsafe_checkpoint_load_gate.py:190-193 | a finished flight carries exactly one of payload and error, so the follower's assertion never fails |
| LoadGateRuns.TokensAreAccounted | threadsafe_checkpoint_load_gate.py:83-99 | the in-flight counter is the number of calls between admission and release, so no release raises |
| LoadGateRuns.LimitIsRespectedIff | threadsafe_checkpoint_load_gate.py:61-81 | however often the limit is adjusted, no more than the current limit are admitted at any moment of an execution if and only if it is never set below the tokens then out |
| LoadGateRuns.LoweredLimitIsExceeded | threadsafe_checkpoint_load_gate.py:76-81 | an execution from the empty gate in which two calls hold tokens when the limit is lowered to 1 |
| LoadGateRuns.OnlyTheRegisteredLeaderWrites | threadsafe_checkpoint_load_gate.py:221-228 | a cache entry changes to new bytes only by warming, by outside tampering, or by the leader whose flight is registered under that key |
| LoadGateRuns.UnregisteredNeverPublishes | threadsafe_checkpoint_load_gate.py:222-225 | a flight that is no longer registered never publishes, in any continuation |
| LoadGateRuns.FencedFlightNeverPublishes | threadsafe_checkpoint_load_gate.py:164-173 | a fenced flight never publishes afterwards, whatever stale leaders pop in between |
| LoadGateRuns.PublishedGenerationsIncrease | threadsafe_checkpoint_load_gate.py:174-177 | the generations that publish a key are strictly increasing |
| LoadGateRuns.SingleFlightIffNoTakeover | threadsafe_checkpoint_load_gate.py:103-110 | at most one leader per key is at work throughout an execution if and only if no caller in it ever takes over an expired lease |
| LoadGateRuns.ReturnsHaveTheKeysDigest | threadsafe_checkpoint_load_gate.py:150-193 | with one digest per key every returning call, follower or not, returns bytes of its digest, however the cache is rewritten from outside |
| LoadGateRuns.CacheIsVerifiedIff | threadsafe_checkpoint_load_gate.py:121-124 | with one digest per key for callers and warmers, the cache holds verified bytes throughout an execution exactly when nobody outside writes other bytes into it |
| LoadGateRuns.StaleFailurePopsNewerFlight | threadsafe_checkpoint_load_gate.py:212-218 | a leader that fails late unregisters a newer flight, which stays open and is never registered again; it is orphaned exactly when its own leader already has its bytes |
| LoadGateRuns.OrphanNeverCompletes | threadsafe_checkpoint_load_gate.py:212-225 | an orphaned flight is never completed in any continuation |
| LoadGateRuns.StrandedFollower | threadsafe_checkpoint_load_gate.py:107-109 | an execution from the empty gate in which a follower waits on an orphaned flight |
| LoadGateHandover.FollowersServedIff | threadsafe_checkpoint_load_gate.py:107-109 | every open flight has a leader at work on it throughout an execution if and only if the publish guard never turns away a leader whose own flight is still open |
| LoadGateHandover.OpenStaysRegisteredIff | threadsafe_checkpoint_load_gate.py:212-218 | every open flight stays registered under its key throughout an execution if and only if no failing call pops a key registered to another generation |
| LoadGateHandover.NoForeignPopMeansServed | threadsafe_checkpoint_load_gate.py:212-225 | without such a pop every open flight keeps its leader |
| LoadGateHandover.UnattendedIsAbandoned | threadsafe_checkpoint_load_gate.py:164-233 | an open flight without a leader is unregistered |
| LoadGateHandover.AbandonedNeverCompletes | threadsafe_checkpoint_load_gate.py:184-193 | such a flight is never completed in any continuation, so its followers can only time out |
| LoadGateHandover.OrphanEndsAbandoned | threadsafe_checkpoint_load_gate.py:221-225 | the leader of an orphaned flight is refused when it publishes, and the flight is then abandoned |
| LoadGateHandover.FollowerIsAbandoned | threadsafe_checkpoint_load_gate.py:107-109 | an execution from the empty gate that ends with a follower of an abandoned flight |
| LoadGateOutcomes.FollowersGetTheLeadersBytes | threadsafe_checkpoint_load_gate.py:190-193 | when a leader publishes, every follower of its flight returns exactly the leader's bytes at its first wake, in every continuation and at any time |
| LoadGateOutcomes.FollowersOfAFailureRaise | threadsafe_checkpoint_load_gate.py:164-173 | when the leader fails or is fenced, every follower raises at its first wake, in every continuation |
| LoadGateOutcomes.OpenFollowerTimesOut | threadsafe_checkpoint_load_gate.py:184-189 | while the flight is open a woken follower raises exactly at or past its own deadline |
| LoadGateOutcomes.CallsServeTheirRequests | threadsafe_checkpoint_load_gate.py:144-152 | every call keeps the key, digest and deadline of its own request until it ends |
| LoadGateOutcomes.BeginDecides | threadsafe_checkpoint_load_gate.py:153-182 | in a reachable gate a new call is answered by a verified cache entry, follows a registered flight within its lease, or leads a new generation whose lease is its own deadline |
| LoadGateOutcomes.AdmissionDecides | threadsafe_checkpoint_load_gate.py:83-92 | a call is admitted exactly when fewer than the limit hold tokens, and times out only at a full gate |
| LoadGateOutcomes.LoaderDecides | threadsafe_checkpoint_load_gate.py:200-210 | loaded bytes are kept exactly when they have the digest asked for and come by the deadline; the token goes back either way |
| LoadGateOutcomes.PublishDecides | threadsafe_checkpoint_load_gate.py:221-233 | a leader returns its bytes, cached and with the key freed, exactly when its own flight is the registered one |
| LoadGateOutcomes.CacheStep | threadsafe_checkpoint_load_gate.py:154-162 | a cache entry is dropped only by a caller that asks for other bytes and replaced only by warming, tampering or a publishing leader |
| LoadGateOutcomes.ReadsAreOnIff | threadsafe_checkpoint_load_gate.py:126-134 | the cache answers except between a quarantine and the next reopening |
| LoadGateOutcomes.PeakIsTheMostEverAdmitted | threadsafe_checkpoint_load_gate.py:83-92 | the recorded maximum is the largest number of tokens ever out at once |
| LoadGateOutcomes.UndisturbedLoadIsServed | threadsafe_checkpoint_load_gate.py:195-233 | from any reachable gate with a free token a leader with good bytes returns them in four steps and the next caller of the key gets them from the cache |
| Merkle.MerkleRoot | multimodal_hitl_tamper_evident_ledger.py:75-85 | the sort, pad and pair loop computes the recursively defined root, and raises on no leaves |
| Merkle.PermutationInvariance | multimodal_hitl_tamper_evident_ledger.py:75-80 | the root does not depend on the listing order of the leaves |
| Merkle.RootBindsBottomRow | multimodal_hitl_tamper_evident_ledger.py:81-85 | equal roots over trees of equal height force equal padded bottom rows, unless two hashed messages collide |
| Merkle.BottomRowDeterminesRoot | multimodal_hitl_tamper_evident_ledger.py:81-85 | equal padded bottom rows give equal roots, for any hash |
| Merkle.MerkleRootsEqualIff | multimodal_hitl_tamper_evident_ledger.py:75-85 | for leaf lists of any two lengths: the roots are equal exactly when the lower tree has the bottom row that the higher tree has at that height |
| Merkle.EqualRootsIffSameBottomRow | multimodal_hitl_tamper_evident_ledger.py:81-85 | at equal height, equal roots are exactly equal bottom rows |
| Merkle.EqualCountBinding | multimodal_hitl_tamper_evident_ledger.py:75-85 | with equally many leaves, equal roots exactly when the leaf lists are permutations of each other |
| Merkle.DistinctLeavesBinding | multimodal_hitl_tamper_evident_ledger.py:75-85 | with leaves that do not repeat, equal height is enough for the same |
| Merkle.RootBindsLeaves | multimodal_hitl_tamper_evident_ledger.py:75-85 | with pairwise different leaves, none of which is the digest of a hashed pair, equal roots give the same leaves for any two tree heights |
| Merkle.PaddingHidesARepeatedLastLeaf | multimodal_hitl_tamper_evident_ledger.py:82-83 | a sorted list of odd length and the list with its last leaf repeated share a root: the leaf count is not bound |
| Merkle.InnerNodePassesForALeaf | multimodal_hitl_tamper_evident_ledger.py:84-85 | the root of two leaves is also the root of the one-leaf tree over it: without the leaf/node separation the height is not bound |
| AuditLedger.MultimodalAuditLedger.EnrollIdentity | multimodal_hitl_tamper_evident_ledger.py:278-289 | a new signer is stored, the same role and key again are accepted, anything else raises and changes nothing |
| AuditLedger.MultimodalAuditLedger.AppendEventInTx | multimodal_hitl_tamper_evident_ledger.py:404-444 | appends the next sequence number, chained to the head and signed, for an enrolled key whose role allows the event; otherwise appends nothing |
| AuditLedger.MultimodalAuditLedger.AppendEvent | multimodal_hitl_tamper_evident_ledger.py:376-402 | an event takes the root registered for its case; without registered evidence it is refused |
| AuditLedger.MultimodalAuditLedger.RegisterEvidence | multimodal_hitl_tamper_evident_ledger.py:291-317 | stores the manifest and appends its event together; if the append raises, the evidence row is rolled back with it |
| AuditLedger.MultimodalAuditLedger.CreateAnchor | multimodal_hitl_tamper_evident_ledger.py:446-477 | an enrolled anchor identity signs the chain head; refusals store nothing |
| AuditLedger.MultimodalAuditLedger.VerifyEvents | multimodal_hitl_tamper_evident_ledger.py:515-544 | the loop accepts exactly the event lists that are numbered from 1, chained, role-authorised, root-bound, re-hashed and signed |
| AuditLedger.MultimodalAuditLedger.VerifyIntegrity | multimodal_hitl_tamper_evident_ledger.py:502-566 | accepts exactly when evidence rows, event chain and anchors all verify |
| AuditLedger.MultimodalAuditLedger.EligiblePatchForData | multimodal_hitl_tamper_evident_ledger.py:479-500 | true exactly when the case was attested and two distinct signers approved the patch |
| AuditRuns.ArtifactOrderIsIrrelevant | multimodal_hitl_tamper_evident_ledger.py:123-143 | the contract and the evidence root do not depend on the listing order of the artifacts |
| AuditRuns.StoredManifestKeepsRoot | multimodal_hitl_tamper_evident_ledger.py:145-156 | the modality-sorted manifest that is stored and read back meets the contract and has the stored root |
| AuditRuns.VerifierAcceptsEveryRun | multimodal_hitl_tamper_evident_ledger.py:278-566 | the verifier accepts every ledger any sequence of calls can produce, and rows are only ever added |
| AuditRuns.EmptyLedgerIsVerified | multimodal_hitl_tamper_evident_ledger.py:502-566 | the empty ledger every run starts from verifies |
| AuditRuns.HeadPinsHistory | multimodal_hitl_tamper_evident_ledger.py:515-544 | two verified ledgers with the same hash at sequence n agree on every hashed field of events 1 to n |
| AuditRuns.AnchorPinsHistory | multimodal_hitl_tamper_evident_ledger.py:546-565 | so do two verified ledgers that carry the same anchor, even if one was rebuilt |
| AuditRuns.RootBindsArtifacts | multimodal_hitl_tamper_evident_ledger.py:88-143 | equal evidence roots mean the same artifacts, in all fields, up to order, whatever the numbers of modalities |
| AuditRuns.HeadPinsEvidence | multimodal_hitl_tamper_evident_ledger.py:502-566 | two verified ledgers with the same hash at sequence n hold the same artifacts for the case of every event up to n |
| AuditRuns.StoredManifestIsBoundByRootOnly | multimodal_hitl_tamper_evident_ledger.py:510-513 | the verifier accepts a replaced manifest for a case if and only if it meets the contract, names the case and has the same root: the fields outside the artifacts are not bound |
| AuditRuns.VersionEditGoesUnnoticed | multimodal_hitl_tamper_evident_ledger.py:510-513 | in any verified ledger the preprocessing version of any case can be rewritten and the ledger still verifies |
| AuditRuns.EditedManifestStillVerifies | multimodal_hitl_tamper_evident_ledger.py:510-513 | a ledger built by enrolling a gateway and registering one case, whose stored manifest is edited outside its artifacts, verifies |
| AuditRuns.EligibilityNeedsThreeSigners | multimodal_hitl_tamper_evident_ledger.py:479-500 | in a verified ledger an eligible patch rests on three different enrolled signer IDs: one validator and two reviewers |
| AuditRuns.EligibilityIsKept | multimodal_hitl_tamper_evident_ledger.py:479-500 | eligibility, once reached, is never lost by later calls |
| AuditKeys.KeysApartIff | multimodal_hitl_tamper_evident_ledger.py:278-289 | in any run from a ledger whose reviewers hold different keys they still do at the end exactly when no accepted enrolment stored a new reviewer under a key another reviewer held, which enrolment does not compare |
| AuditKeys.ApartMeansTwoKeys | multimodal_hitl_tamper_evident_ledger.py:479-500 | in a verified ledger whose reviewers hold different keys, an eligible patch carries two approvals that verify under different keys |
| AuditKeys.OneKeyApprovesTwice | multimodal_hitl_tamper_evident_ledger.py:278-289 | a run from the empty ledger: one secret enrolled as two reviewers submits and confirms a review; the ledger verifies, the patch is eligible, and no second key approved it |
| AuditTampering.ReplacedEventVerifiesIff | multimodal_hitl_tamper_evident_ledger.py:515-544 | an event of a verified ledger can be replaced exactly by a row signed by an enrolled signer whose role allows it, bound to its case's root, in its place in the chain, and named by the anchors of that position |
| AuditTampering.ReplacedSignatureVerifiesIff | multimodal_hitl_tamper_evident_ledger.py:539-542 | another signature of an event passes exactly when it verifies over the event hash under the key enrolled for the signer |
| AuditTampering.HeldEventIsFixed | multimodal_hitl_tamper_evident_ledger.py:515-544 | of an event that the next one or an anchor holds, only the signature can be exchanged, for another valid one of the same signer |
| AuditTampering.ReplacedAnchorVerifiesIff | multimodal_hitl_tamper_evident_ledger.py:546-565 | an anchor can be replaced exactly by one of an enrolled anchor, over a hash of the chain at its position, with a valid signature |
| AuditTampering.ReplacedAnchorSignatureVerifiesIff | multimodal_hitl_tamper_evident_ledger.py:557-564 | another signature of an anchor passes exactly when it verifies over that chain head under the signer's key |
| AuditTampering.ReplacedEvidenceVerifiesIff | multimodal_hitl_tamper_evident_ledger.py:510-513 | an evidence row can be replaced exactly by one that meets the contract, names the case and has the root its events name |
| AuditDecisions.ContractMeaning | multimodal_hitl_tamper_evident_ledger.py:123-143 | the contract holds exactly for one complete artifact of each required modality, no modality twice, and any two recordings overlapping to within a second |
| AuditDecisions.EligibleIff | multimodal_hitl_tamper_evident_ledger.py:479-500 | eligible are exactly the patches of attested cases that two events with different signers decide to approve |
| AuditDecisions.AppendAcceptedIff | multimodal_hitl_tamper_evident_ledger.py:376-444 | a verified ledger accepts an event exactly for a registered case from a signer with its own key in a role that signs such events; it writes the next event of the chain, signed, and nothing else |
| AuditDecisions.RegisterAcceptedIff | multimodal_hitl_tamper_evident_ledger.py:291-317 | it accepts a registration exactly for complete evidence, new or stored just so, from a gateway with its own key |
| AuditDecisions.AnchorAcceptedIff | multimodal_hitl_tamper_evident_ledger.py:446-477 | it accepts an anchor exactly from an enrolled anchor with its own key that has not yet anchored the last event |
| AuditDecisions.ListingOrderDoesNotMatter | multimodal_hitl_tamper_evident_ledger.py:145-156 | a registration, its row, event and outcome do not depend on the order in which the artifacts are listed |
| AuditDecisions.StoredByModality | multimodal_hitl_tamper_evident_ledger.py:145-156 | the stored artifacts are the given ones, in the order of their modalities |
| AuditDecisions.EventHashesAreUnique | multimodal_hitl_tamper_evident_ledger.py:404-444 | no two events of a ledger carry one hash, whatever the digest |
| AuditDecisions.EnrollAcceptedIff | multimodal_hitl_tamper_evident_ledger.py:278-289 | an enrolment is accepted exactly for a known role and a well-formed key, of a signer that is new or enrolled with just these |
| UpdatePlanner.Destination | topology_aware_update_plan.py:443-454 | the chosen rank has a slot and the least finish estimate among ranks with one, ties to the lowest rank; none only if no rank has a slot |
| UpdatePlanner.AssignWorkLoop | topology_aware_update_plan.py:428-460 | the loop with its running cost totals computes the greedy assignment, and raises exactly where that has no slot left |
| UpdatePlanner.CountSlots | topology_aware_update_plan.py:370-387 | a total exactly when every rank has a positive compute budget, and then the sum of the planned counts |
| UpdatePlanner.TopologyAwarePlanner.MakePlan | topology_aware_update_plan.py:344-426 | outcome and version counter of a planning call; the version is spent before the plan is validated |
| UpdatePlannerProofs.SlotsSufficeIff | topology_aware_update_plan.py:443-445 | the assignment completes exactly when there are no more items than slots |
| UpdatePlannerProofs.EveryRankGetsItsCount | topology_aware_update_plan.py:438-456 | with as many items as slots every rank receives exactly its planned count |
| UpdatePlannerProofs.GreedyPartitions | topology_aware_update_plan.py:438-456 | every item lands on exactly one rank: none lost, duplicated or invented |
| UpdatePlannerProofs.ResortIsIdentity | topology_aware_update_plan.py:457-460 | the final sort of each rank's list changes nothing |
| UpdatePlannerProofs.AssignmentIsExact | topology_aware_update_plan.py:428-460 | the work IDs of all ranks are a permutation of the given ones, in the planned counts |
| UpdatePlannerProofs.ValidPlanMeaning | topology_aware_update_plan.py:471-503 | any plan the validator accepts covers each given ID exactly once, one per micro-batch, with scales within 1e-12 of world size over samples |
| UpdatePlannerProofs.PlanOutcome | topology_aware_update_plan.py:344-426 | a plan is returned exactly when the inputs are accepted and the process group has the topology's size; the slot assertion never fires; the version moves exactly for accepted inputs |
| UpdatePlannerProofs.ReturnedPlansAreExact | topology_aware_update_plan.py:384-426 | every returned plan passes the independent validator and consumes exactly the given work |
| UpdatePlannerProofs.ReturnedPlanFields | topology_aware_update_plan.py:398-424 | a returned plan has positive target, samples and batch sizes, and exact scales |
| GreedyTrace.PlacementTrace | topology_aware_update_plan.py:442-456 | every item, in order, goes to the rank that has a slot and the least finish estimate for the lists as they are at that moment, ties to the lowest rank |
| GreedyTrace.GreedyIffPlacedBest | topology_aware_update_plan.py:436-456 | an assignment of the work within the caps is the greedy one if and only if every item beats every other rank that was open when it was placed, at the load that rank then had |
| GreedyTrace.HeldAtThatMoment | topology_aware_update_plan.py:447-452 | the prefix of a finished list that this comparison uses is what the rank held when the item was placed |
| GreedyTrace.PlannedWorkIsBalanced | topology_aware_update_plan.py:428-460 | for every accepted planning call the assignment fills the planned counts and is the only one with this property |
| PlannerChoices.DestinationIff | topology_aware_update_plan.py:443-454 | the destination is the open rank whose lead over every other open rank, in compute time and distance, is at least the penalty if only it is off the preferred nodes, minus the penalty if only the other one is, and zero otherwise; on equality the lower rank |
| PlannerChoices.PreferredNodeWins | topology_aware_update_plan.py:449-450 | among open ranks alike in speed, load and distance an item goes to one on a preferred node whenever one is open |
| PlannerChoices.RemoteRankNeedsThePenalty | topology_aware_update_plan.py:449-454 | a remote rank takes an item from an open rank on a preferred node only when it finishes earlier by the penalty |
| PlannerChoices.LighterAndCloserWins | topology_aware_update_plan.py:451-453 | other things equal, an item never goes to a rank with more work or more distance |
| PlannerChoices.FasterWins | topology_aware_update_plan.py:452-453 | other things equal, an item never goes to a slower rank |
| PlannerChoices.CostlyWorkFirst | topology_aware_update_plan.py:440-442 | every rank's list runs from costly to cheap, by work ID among equals |
| PlannerChoices.EveryPlacementFollowsTheRule | topology_aware_update_plan.py:442-456 | each item of the queue is sent by this rule, at the loads of its moment |
| PlanChecks.UpdatePlanIsValidIff | topology_aware_update_plan.py:471-503 | the validator passes exactly the plans for this group, topology and work whose entries match the topology, cover every item once, add up, and scale within 1e-12 |
| PlanChecks.InputsAcceptedIff | topology_aware_update_plan.py:353-368 | the argument checks pass exactly one healthy, plausible last record and a positive batch size for every rank of a valid topology and no other, and valid items with different IDs |
| PlanChecks.WorkDigestIgnoresOrder | topology_aware_update_plan.py:463-468 | the work digest does not depend on the order in which the items are listed |
| PlanChecks.PlanStructureIsValidIff | dynamic_nccl_update_plan_train.py:96-119 | the structural validator passes exactly plans of this group with entries in rank order that add up and scale within 1e-12 |
| PlanChecks.AccumulationOutcome | adaptive_ddp_accumulation.py:55-87 | the accumulation planner needs a healthy rank and a nonzero batch size for exactly the healthy ranks; then its version moves, and only zero global samples still fail |
| MicroBatchCounts.CountIsUnique | adaptive_ddp_accumulation.py:65-67 | the description of a planned count, nearest integer with ties to even within the bounds, leaves no choice |
| MicroBatchCounts.AccumulationCount | adaptive_ddp_accumulation.py:61-68 | the count is the throughput over the target duration per batch, to the nearest integer, or the bound that the nearest integer lies beyond |
| MicroBatchCounts.AccumulationPlanCounts | adaptive_ddp_accumulation.py:55-87 | a returned plan has one entry for each healthy record, by rank, with its batch size and this count |
| MicroBatchCounts.TopologyPlanCounts | topology_aware_update_plan.py:370-387 | in a returned topology plan every rank has time left after data, the larger of observed and expected collective time, and the margin; its count is the throughput over that time |
| GradientScaling.BudgetLoop | adaptive_ddp_accumulation.py:61-68 | counts and global samples of the planned ranks, unless a size is zero |
| GradientScaling.DynamicAccumulationPlanner.MakePlan | adaptive_ddp_accumulation.py:55-87 | outcome and version counter of a planning call; zero global samples fail only after the bump |
| GradientScaling.RunMicroBatches | dynamic_nccl_update_plan_train.py:282-327 | finishes exactly when the stream supplies the planned batches, with exactly one synchronized backward, the last; every failure comes before any synchronized backward |
| GradientScaling.AccumulateUpdate | dynamic_nccl_update_plan_train.py:258-327 | the same for a rank of a validated plan; an invalid plan is rejected before any backward |
| GradientIdentity.GlobalCountAgrees | dynamic_nccl_update_plan_train.py:338-343 | streams that feed a valid plan contain exactly its global sample count, so the final all-reduced comparison never fails |
| GradientIdentity.LocalGradientIsScaledSum | adaptive_ddp_accumulation.py:90-97 | scaling each micro-batch mean by its size and the loss scale accumulates the scale times the sum over samples |
| GradientIdentity.ExactScalesGiveGlobalMean | dynamic_nccl_update_plan_train.py:317-320 | with exact scales the rank average is the mean over all samples, for any counts, sizes and gradients |
| GradientIdentity.ToleratedScalesStayClose | dynamic_nccl_update_plan_train.py:112-119 | for any plan the validator accepts, the average is off the mean by at most 1e-12 times the summed magnitudes over the world size |
| GradientIdentity.ScalingIsExactIff | dynamic_nccl_update_plan_train.py:112-119 | average and mean agree on all gradients exactly when every rank's scale is world size over samples |
| GradientIdentity.PlannerPassesIff | adaptive_ddp_accumulation.py:55-87 | exactly which telemetry, sizes and settings give a plan the structural validator accepts: positive target, healthy ranks 0..n-1 once each, sizes for exactly these, at least one sample and one micro-batch each |
| GradientIdentity.LegacyPlanPassesIff | topology_aware_update_plan.py:506-532 | an accepted topology plan passes the update loop's own validator exactly when its target and batch sizes are positive |
| GradientIdentity.TopologyPlansTrainExactly | topology_aware_update_plan.py:506-532 | every plan the topology-aware planner returns is accepted by the update loop and yields the true global mean gradient |
| ControlPlaneProofs.AllGatherIsExact | topology_aware_update_plan.py:226-244 | gives every rank every rank's exact bytes for any lengths and world size, if all payloads are sendable; otherwise the offenders raise and the others wait |
| ControlPlaneProofs.VerdictIsUnanimous | dynamic_nccl_update_plan_train.py:166-175 | comparing the gathered digests with the first or with one's own gives the same verdict at every rank |
| ControlPlaneProofs.AllContinueOrNone | topology_aware_update_plan.py:551-555 | whatever each rank received, either all return one identical plan or none returns; the former exactly when all accept and all received the same bytes |
| ControlPlaneProofs.AllRaiseIff | topology_aware_update_plan.py:551-555 | all ranks raise exactly when they accept different bytes or none accepts; a lone rejection leaves the accepting ranks waiting |
| ControlPlaneProofs.LoneRejectionBlocksTheRest | topology_aware_update_plan.py:551-555 | a two-rank round in which rank 1 has rebuilt its topology and raises while rank 0 waits |
| ControlPlaneProofs.BroadcastAdoptedIff | topology_aware_update_plan.py:535-555 | a faithful broadcast returns exactly the plan rank 0 built at every rank, if that plan is sendable and valid for every rank's own view, and returns nowhere otherwise |
| ControlPlaneProofs.InvalidRootBlocksTheRest | topology_aware_update_plan.py:535-550 | without a plan that is valid for its own view and fits the channel rank 0 raises before the broadcast and all others wait in it |
| ControlPlaneProofs.ContinuingRanksShareInputs | topology_aware_update_plan.py:475-478 | if any rank continues, all ranks hold the same topology and the same work items |
| ControlPlaneProofs.ManifestCarriesEveryRecord | topology_aware_update_plan.py:287-299 | the gathered manifest holds exactly the ranks' own records in rank order, and is built exactly when all are valid and no place is claimed twice |
| ControlRounds.EveryScheduleEndsAlike | topology_aware_update_plan.py:226-272 | with every rank running its own program and collectives as rendezvous, each schedule that comes to rest ends at every rank in the outcome of the round; the waiting ranks are those left in an exchange |
| ControlRounds.OneReturnMeansAll | topology_aware_update_plan.py:551-555 | at every moment of every schedule, once one rank has returned a plan all have returned that plan |
| ControlRounds.EveryRoundComesToRest | topology_aware_update_plan.py:226-272 | from any point of any schedule further steps bring the round to rest |
| ControlRounds.ManifestReturnedIff | topology_aware_update_plan.py:287-312 | every rank returns the one manifest rank 0 builds exactly when it can be built and sent and the epoch each rank rebuilds from its own run ID and restart count is rank 0's; otherwise no rank returns one |
| ControlRounds.ReturnedManifestIsEveryones | topology_aware_update_plan.py:300-313 | whatever bytes the broadcast delivers, a returned manifest is the one they carry, valid, and has the epoch every rank rebuilds in its own environment |
| ControlRounds.OnlyOneRestartContinues | topology_aware_update_plan.py:275-285 | so a reportable topology round succeeds exactly when all ranks share one run ID and restart count |
| VerifiedCache.StrongCommitKv.Swap | verified_checkpoint_cache.py:126-141 | writes the next revision exactly when manifest, step and expected revision are right |
| VerifiedCache.DurableShardStore.PutShard | verified_checkpoint_cache.py:150-154 | stores only bytes of the declared length and digest |
| VerifiedCache.VerifiedReadThroughCache.PutVerified | verified_checkpoint_cache.py:187-190 | caches only bytes that verify, with the expiry counted from now |
| VerifiedCache.VerifiedReadThroughCache.FetchVerified | verified_checkpoint_cache.py:192-228 | outcome and resulting cache of a read: hit, eviction of an expired or corrupt entry, verified durable read with rewarming, and each error |
| CacheRuns.CacheKeysEqualIff | verified_checkpoint_cache.py:61-63 | two valid shards share a cache key exactly when they have one digest and their names run together to one text |
| CacheRuns.PlainComponentsNameTheShard | verified_checkpoint_cache.py:55-63 | for components without a colon the key names component, shard and digest |
| CacheRuns.ColonsShareAKey | verified_checkpoint_cache.py:61-63 | with a colon in the component two different shards of equal content share a key |
| CacheRuns.SlotsAreSeparate | verified_checkpoint_cache.py:179-185 | a cache slot is never shared across namespaces, precisions, checkpoints or contents |
| CacheRuns.DurableStaysSound | verified_checkpoint_cache.py:150-154 | in any run everything stored hashes to the digest its key ends in |
| CacheRuns.DurableNeverChanges | verified_checkpoint_cache.py:150-160 | a stored payload is never replaced by another one |
| CacheAnswers.ReadAnswers | verified_checkpoint_cache.py:192-228 | a read answers only for the committed manifest, from the slot if that serves, else from the store, refilling the slot for the time to live; no other slot is touched |
| CacheAnswers.ReadReturnsDeclaredBytes | verified_checkpoint_cache.py:192-228 | whatever the cache tier holds, returned bytes have the declared length and digest of a shard of the committed manifest |
| CacheAnswers.CachedReadSucceedsIff | verified_checkpoint_cache.py:206-213 | when the store has lost a shard, a read after one that filled the cache succeeds exactly until the time to live has passed |
| CacheAnswers.PutDecides | verified_checkpoint_cache.py:150-154 | a shard is stored exactly when it is well formed and the bytes are the declared ones |
| CacheAnswers.SwapDecides | verified_checkpoint_cache.py:126-141 | a swap wins exactly for a valid manifest and the revision the run is at; it writes the next revision for this run only |
| CacheRuns.ReadsReturnDurableBytes | verified_checkpoint_cache.py:192-228 | in any run with arbitrary cache tampering a successful read returns exactly the stored bytes |
| CacheRuns.PutThenReadSucceeds | verified_checkpoint_cache.py:150-228 | once put, a shard reads back under matching pointer and manifest, whatever operations and tampering follow |
| CacheRuns.SharedKeysReadAlike | verified_checkpoint_cache.py:61-69 | shards that share a key read as the same bytes or not at all |
| CacheRuns.ReadWarmsTheCache | verified_checkpoint_cache.py:222-228 | after a successful read the same bytes are served from the cache until the entry expires, even if the store loses them |
| CacheRuns.RevisionCountsWins | verified_checkpoint_cache.py:126-141 | the revision of a run key counts its successful swaps |
| CacheRuns.ReadSeesLastWin | verified_checkpoint_cache.py:120-141 | the pointer a read returns is the one the last winning swap of its run wrote, whatever else happened since |
| CacheRuns.OneWinnerPerRevision | verified_checkpoint_cache.py:131-134 | of all swaps expecting one revision at most one succeeds, in any run |
| CacheRuns.PointerSelectsOneManifest | verified_checkpoint_cache.py:203-205 | one pointer admits one manifest |
| Arbiter.RecoveryDeploymentArbiter.BeginRecovery | recovery_deployment_arbiter.py:96-115 | record and counters after the call: a new generation bound to its inputs, or a counted refusal |
| Arbiter.RecoveryDeploymentArbiter.MarkRecoveryReady | recovery_deployment_arbiter.py:117-131 | readies only a recovering epoch of the same holder, in its lease, with the bound inputs |
| Arbiter.RecoveryDeploymentArbiter.ArmDeployment | recovery_deployment_arbiter.py:133-150 | arms only an unexpired ready epoch with the bound revision and inputs |
| Arbiter.RecoveryDeploymentArbiter.FreezeForRevisionDrift | recovery_deployment_arbiter.py:152-161 | freezes on an observed other revision, in any state |
| ArbiterRuns.GenerationCountsRecoveries | recovery_deployment_arbiter.py:96-115 | the generation counts accepted recoveries; nothing else moves it |
| ArbiterRuns.StaleGenerationsStayFenced | recovery_deployment_arbiter.py:72-77 | a caller whose generation has been passed is refused and changes the record never again |
| ArbiterRuns.ArmedDeploymentsAreBound | recovery_deployment_arbiter.py:117-150 | an armed record carries the inputs of its last accepted recovery, readied by the same holder and then armed with the same inputs, both before the lease expired |
| ArbiterRuns.FrozenUntilNextRecovery | recovery_deployment_arbiter.py:152-161 | a frozen epoch stays frozen within its generation |
| ArbiterRuns.NextRecoveryWaits | recovery_deployment_arbiter.py:102-106 | the next accepted recovery starts no earlier than the previous lease expires, unless a freeze was accepted in between |
| ArbiterRuns.FrozenIff | recovery_deployment_arbiter.py:152-161 | in any run an epoch is frozen exactly when a freeze was accepted since the last accepted recovery |
| ArbiterRuns.DriftedArmDoesNotFreeze | recovery_deployment_arbiter.py:143-145 | a drifted arm call is refused and counted but leaves the record as it was; the bound inputs can still be armed |
| ArbiterRuns.DriftIsArmedAnyway | recovery_deployment_arbiter.py:69-77 | a run from the initial record in which a ready epoch sees a drifted revision and is armed by the next call, contrary to the class description |
| ArbiterRuns.RejectionCountersAreExact | recovery_deployment_arbiter.py:163-170 | each counter counts exactly the refusals made under the lock for its reason |
| ArbiterHistory.AcceptedIff | recovery_deployment_arbiter.py:96-161 | after any run exactly which calls are accepted, in terms of the calls accepted before: generation, lease, holder, inputs in force and order of ready, arm and freeze |
| ArbiterHistory.RecordIsHistory | recovery_deployment_arbiter.py:78-161 | in every run the record is a function of the accepted calls |
| ArbiterHistory.RefusalsAreCountedOnce | recovery_deployment_arbiter.py:163-170 | a refused call changes only the counter of its actor and reason, by one |
| LeaseLedger.Ledger.RegisterJob | resumable_simjob_ledger.py:57-74 | a new key is stored, the same payload again accepted, another one refused |
| LeaseLedger.Ledger.AcquireJob | resumable_simjob_ledger.py:76-102 | leases the first eligible job in update order, or nothing exactly when none is eligible |
| LeaseLedger.Ledger.HeartbeatLease | resumable_simjob_ledger.py:104-114 | renews exactly an owned lease |
| LeaseLedger.Ledger.CompleteJob | resumable_simjob_ledger.py:116-127 | completes exactly an owned job with a full commit reference |
| LeaseLedger.Ledger.RetryJob | resumable_simjob_ledger.py:129-138 | returns or quarantines exactly an owned job, by its attempt number |
| LeaseLedger.NextIsUnique | resumable_simjob_ledger.py:82-88 | the query order leaves no choice of job |
| LeaseRuns.AttemptCountsGrants | resumable_simjob_ledger.py:92-97 | a job's attempt number counts the times it was leased out |
| LeaseRuns.TokensAreUnique | resumable_simjob_ledger.py:92-99 | no job and attempt pair is handed out twice: later leases carry larger attempts |
| LeaseRuns.LeaseActsUntilSuperseded | resumable_simjob_ledger.py:104-138 | a lease can heartbeat, complete or retry exactly until the job is leased again, completed or returned, whatever the clock says |
| LeaseRuns.ExpiredLeaseCompletes | resumable_simjob_ledger.py:1-8 | a run in which a lease long expired completes its job, contrary to the description that ownership needs a fresh lease |
| LeaseRuns.FinishedJobsNeverChange | resumable_simjob_ledger.py:80-88 | a completed or quarantined row never changes again |
| LeaseRuns.AtMostOneCompletion | resumable_simjob_ledger.py:116-127 | at most one completion of a job succeeds in any run, and exactly one has when the job is complete |
| LeaseRuns.PayloadIsPermanent | resumable_simjob_ledger.py:57-74 | a registered payload stays, and only it registers again |
| LeaseHistory.OldestJobIsTaken | resumable_simjob_ledger.py:76-102 | an acquire takes the waiting job untouched for longest, of equals the first by key, and nothing only if none waits |
| LeaseHistory.LeasedJobWaitsIff | resumable_simjob_ledger.py:80-88 | a leased job can be taken again exactly when its grant or its last accepted heartbeat has run out |
| LeaseHistory.ReturnedJobIsQuarantinedIff | resumable_simjob_ledger.py:129-138 | a returned job is quarantined exactly when it was leased out at least as often as attempts are allowed |
| LeaseHistory.OnlyTheHolderActs | resumable_simjob_ledger.py:104-138 | a call for a job is accepted exactly from the worker it was last leased to, with the number of that lease, until the job is completed or returned |
| LeaseHistory.RegisteredJobWaits | resumable_simjob_ledger.py:57-74 | a new job waits from now on, never leased; a known one is not touched |
| LeaseHistory.CompletedJobKeepsItsCommit | resumable_simjob_ledger.py:116-127 | a completed job stores its reference; an incomplete one is refused |
| LeaseHistory.HeartbeatMovesBothEnds | resumable_simjob_ledger.py:104-114 | a heartbeat moves the end of the lease in the row and in the worker's hand alike |
| Ring.SPSCRing.PushItem | spsc_robot_pipeline.py:46-56 | accepts the item unless closed, dropping the oldest unread one when full |
| Ring.SPSCRing.PopItem | spsc_robot_pipeline.py:58-65 | delivers the oldest unread item and empties its slot |
| Ring.SPSCRing.DrainLatest | spsc_robot_pipeline.py:67-74 | terminates with the state and result of popping until nothing is left |
| Ring.SPSCRing.Close | spsc_robot_pipeline.py:76-77 | a closed ring keeps what it holds and accepts nothing more |
| RingRuns.DrainTakesAllAndReturnsNewest | spsc_robot_pipeline.py:67-74 | draining empties the ring and returns the last accepted item, and nothing exactly when the ring was empty |
| RingRuns.RefinesDropOldestFifo | spsc_robot_pipeline.py:46-74 | every operation does to the live window what a bounded drop-oldest queue does |
| RingRuns.ConsumerSeesSelection | spsc_robot_pipeline.py:46-74 | the consumer receives an in-order selection of the accepted items |
| RingRuns.NothingIsLost | spsc_robot_pipeline.py:46-74 | accepted items are handed over, dropped or still queued |
| RingRuns.OnlyOvertakenItemsDrop | spsc_robot_pipeline.py:50-53 | an item is dropped only once capacity many newer ones were accepted |

## Left out

- Floating point: costs, times and gradients are reals, so every value is finite and sums do
  not round; the `isfinite` tests therefore never fail.
- SQLite, files, URL parsing, JSON text, base64, hexadecimal and the key formats of Ed25519:
  tables are maps or sequences, encodings are functions of the value encoded. Malformed
  leaves handed to the Merkle function are not modelled.
- CursorLedger.ElasticCursorLedger.CommitUpdate: a local checkpoint's digest comes from an
  input map; commit identifiers are not truncated to 16 characters explicitly, their
  function is arbitrary and nothing proved depends on it telling commits apart.
- Progress, fairness and wake-up order of the gate's callers; memory-level effects inside a
  lock section are one atomic step.
- LoadGate.ShardGate.BeginCall: a flight is identified by its generation instead of by
  object identity, and the statistics counters are not modelled.
- AuditLedger.MultimodalAuditLedger.AppendEvent: the argument checks of `attest_validation`
  and `submit_review` in front of it, `verify_local_artifacts` and `from_local_files` are not
  modelled; nothing is said about forging signatures.
- GradientScaling.AccumulateUpdate: ends before unscaling, clipping, the optimizer step and
  the EMA update; one gradient coordinate stands for all, and only ranks wrapped in DDP are
  modelled. The telemetry fields that planner never reads are omitted.
- ControlPlaneProofs.AllContinueOrNone: collectives deliver or wait, and one that all ranks
  have entered completes at all of them in one step; timeouts, the transport
  and the uninitialised single-process mode are not modelled.
- VerifiedCache.VerifiedReadThroughCache.FetchVerified: the counters are not modelled, and a
  caller may present an old pointer, as in the code.
- Ring.SPSCRing.PushItem: operations are atomic; producer and consumer both writing the tail
  at once, which the class does not guard against, is not modelled.
- LeaseLedger.Ledger.AcquireJob: fractional lease durations arrive as nanoseconds; the retry
  helper with random back-off and the summary query are not modelled.
- The load-shedding simulator (`checkpoint_cache_load_shedding_simulator.py`) is an
  offline simulation of fixed load scenarios, and the coalescing, admission and compare-and-set
  decisions it imitates are proved on the components themselves; `bounded_parallel_load_plan`
  deals shards out to workers by index.
- Neural models, losses, EMA, export, simulators, dashboards, chaos drills, smoke tests and
  evaluation scripts are library semantics or finite demonstrations of the components here.
