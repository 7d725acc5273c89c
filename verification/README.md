# Aftercare kernel in Dafny

A model of the durable workflow kernel behind Aftercare Agent, with proofs about whole
histories of it. Each repository method is one committed transaction: a function from state
to state and result in which an error leaves the state as it was. Where the source changes
rows step by step, a class or method does the same and is proved equal to that function;
the theorems are then about every history of such steps.

| files | component |
|---|---|
| `events`, `projection`, `projection_properties`, `outbox`, `outbox_properties`, `event_pipeline` | case logs, leased delivery and the ordered projection, alone and end to end |
| `runtime`, `runs`, `fencing`, `fenced_writes` | run leases, the fencing token and the writes it guards |
| `dispatch`, `dispatch_properties`, `admission`, `admission_properties` | fair dispatch over the trigger-kept queue, capacity slots, retry budgets |
| `ledger`, `approvals`, `actions`, `gate_properties`, `provider` | the action ledger, its approval gate and the synthetic provider |
| `investigation`, `investigation_properties`, `investigation_order` | the deterministic evidence gate, and what the order of its observations changes |
| `hex`, `wal_archive`, `wal_properties`, `retention` | WAL archive arithmetic and backup retention |
| `history_import`, `history_import_properties` | crash-safe import of buyer history |
| `reviews`, `review_properties` | human review with budget overrides |
| `introspection` | the revocation cache and the guard behind it |
| `common`, `ordering`, `division` | shared types, string order, stable sorting and integer division |

Conventions. Tables are maps; their unique keys and CHECK constraints come from the
migrations, and a violated one is the error `Database`. A record validator that rejects a row
is the error `Validation`. The database clock is an integer that never goes back. What a
`SKIP LOCKED` or unordered select returns is a parameter constrained to what it may return.
Digests are parameters, injective only where a theorem says so.

Where the code and its documentation disagree, the model follows the code:

- an attempt can be finished by a newer claim than the one that started it (`FencedWrites.OlderAttemptCanBeFinished`);
- a reserve that is deduplicated by its business key does not bind its idempotency key (`GateProperties.KeyIsBoundIff`, `GateProperties.UnboundKeyNamesAnother`);
- a refused ledger can be refused with two different codes, depending on the order of its rows (`InvestigationOrder.AnswerDependsOnOrderIff`);
- `adjacent` accepts a log crossing that skips segments (`WalProperties.CrossingHidesHole`);
- a run in REVIEW can be made READY by a transition, without the decision and the raised budget that `decide` ties together (`ReviewProperties.EveryReleaseIsPaidFor`, `ReviewProperties.FreeRelease`);
- a cached verdict can outlive the token (`Introspection.ServedPastExpiryIff`).

## Model

The rows down to `Introspection.GuardClosesTheGap` are the results. The rows marked "step"
read one transaction or one guard, and serve the results. The rows marked "code tie" prove
that a method which changes rows step by step, as the source does, equals the transition
function the results are about; they claim no more than that.

| member | source | states |
|---|---|---|
| `ProjectionProperties.DrainSettles` | aftercare_agent/persistence/projection.py:156-203 | On the streams ingest can produce, draining never fails, conserves the stored events and leaves none due |
| `ProjectionProperties.FreshGapIsHeld` | aftercare_agent/persistence/projection.py:263-306 | A fresh event beyond the next position is stored and released later, not now |
| `ProjectionProperties.FreshNextIsApplied` | aftercare_agent/persistence/projection.py:263-306 | A fresh event at the next position is released first, followed by everything it unblocks |
| `ProjectionProperties.IngestStep` | aftercare_agent/persistence/projection.py:205-306 | Ingest fails if and only if the event clashes; otherwise it stores exactly the event, extends the output and routes as the pure decision says |
| `ProjectionProperties.ExactlyOnceInOrder` | aftercare_agent/persistence/projection.py:205-306 | Over any traffic at all the concatenated output is positions 1..position, each once and each id once |
| `ProjectionProperties.OutputOnlyGrows` | aftercare_agent/persistence/projection.py:205-306 | Released output is never rewritten by later deliveries |
| `ProjectionProperties.NoConflicts` | aftercare_agent/persistence/projection.py:205-306 | Deliveries drawn from one log never conflict, in any order and with any repetition |
| `ProjectionProperties.ProjectionIsUnique` | aftercare_agent/domain/events.py:94-112 | The declared end state (largest contiguous prefix applied, the rest buffered) is unique |
| `ProjectionProperties.DeliveryReachesProjection` | aftercare_agent/persistence/projection.py:156-306 | Every delivery sequence of one log ends in the declared state |
| `ProjectionProperties.Confluence` | aftercare_agent/persistence/projection.py:156-306 | Two delivery orders of the same events reach the same state with the same output |
| `OutboxProperties.AppendAllocates` | aftercare_agent/persistence/events.py:84-163 | In every good state an append replays without using a position or takes the next one of its own case; the exact conditions of failure |
| `OutboxProperties.ExplicitAllocates` | aftercare_agent/persistence/events.py:165-222 | An explicit append is inserted if and only if its id is new and its position is the next |
| `OutboxProperties.LogsOnlyGrow` | aftercare_agent/persistence/events.py:46-222 | Over any history the positions of a case are exactly 1..last and its log only grows at the end |
| `OutboxProperties.AcknowledgedForever` | aftercare_agent/persistence/events.py:394-469 | ACKED is absorbing: no later acknowledgement reports success, no reschedule is accepted |
| `OutboxProperties.AckedAtMostOnce` | aftercare_agent/persistence/events.py:394-422 | At most one acknowledgement of an event ever returns True |
| `OutboxProperties.SupersededForever` | aftercare_agent/persistence/events.py:394-469 | A delivery with a superseded attempt number can neither acknowledge nor reschedule, ever again |
| `OutboxProperties.LostLeaseStaysLost` | aftercare_agent/persistence/events.py:319-469 | A lease that was lost is never regained by the same delivery |
| `OutboxProperties.TokensAreUnique` | aftercare_agent/persistence/events.py:319-380 | Two claims of one event carry strictly increasing attempt numbers |
| `EventPipeline.EndToEnd` | aftercare_agent/persistence/projection.py:156-306 | Producer and consumer together: no ingest ever conflicts, what is released is a prefix of the case log, and all of it once every event was consumed |
| `Fencing.StepAdvancesRun` | aftercare_agent/persistence/repositories.py:94-352 | Every step keeps a run's case, never lowers its token, raises it only on a claimable run, follows the transition table, and freezes terminal runs |
| `Fencing.TokensStrictlyIncrease` | aftercare_agent/persistence/repositories.py:94-203 | Tokens issued on one run strictly increase over any history, so none is issued twice |
| `Fencing.RightLostForever` | aftercare_agent/domain/runtime.py:200-211 | A claim that lost the execution right never holds it again |
| `Fencing.NewerClaimFencesOlder` | aftercare_agent/persistence/repositories.py:238-352 | Once a newer claim was issued, no renewal and no transition out of RUNNING with an older one ever succeeds |
| `Fencing.ReachableRowsAreCoherent` | aftercare_agent/domain/runtime.py:133-149 | Every reachable run row satisfies the record validator |
| `FencedWrites.FencedWritesAreOrdered` | aftercare_agent/persistence/repositories.py:580-693 | Renewals, transitions, finished attempts and checkpoints on one run occur in token order, one claim per token |
| `FencedWrites.NewerClaimFencesWrites` | aftercare_agent/persistence/repositories.py:580-693 | From the moment a newer claim on the run is issued, and in every later state, the older one finishes no attempt, saves no checkpoint, renews nothing and cannot take the run out of RUNNING |
| `FencedWrites.ResultsAreFrozen` | aftercare_agent/persistence/repositories.py:580-693 | Over any history no attempt or checkpoint disappears, an attempt keeps its token, and a finished attempt and a checkpoint never change |
| `FencedWrites.FinishedUnderStartedTokenIff` | aftercare_agent/persistence/repositories.py:580-647 | Over any history an attempt is finished under the token it was started with if and only if the copy the caller passes carries the token of the stored row |
| `DispatchProperties.QueueAlwaysMirrors` | aftercare_agent/persistence/migrations/008_execution_queue_trigger.sql:11-61 | Along every history the queue mirrors the run table |
| `DispatchProperties.QueryIsExact` | aftercare_agent/persistence/repositories.py:142-175 | Along every history the dispatch query sees exactly the runs the runtime guards allow, minus saturated tenants: none is lost |
| `DispatchProperties.BoundedBypass` | aftercare_agent/persistence/repositories.py:142-203 | While a tenant waits with an eligible unlocked run, shared workers dispatch any other tenant at most once, pinned claims allowed in between |
| `DispatchProperties.BypassHappens` | aftercare_agent/persistence/repositories.py:142-203 | A waiting tenant is indeed bypassed once, by a tenant whose run was queued first |
| `DispatchProperties.WaitIsBounded` | aftercare_agent/persistence/repositories.py:142-203 | So the wait is at most one shared dispatch per other tenant |
| `AdmissionProperties.CapacityIsNeverExceeded` | aftercare_agent/persistence/admission.py:238-372 | No interleaving of acquire, renew, release and clock ever exceeds a tenant or global limit that is not lowered under load |
| `AdmissionProperties.ReconfigureIsSafeIff` | aftercare_agent/persistence/admission.py:216-236 | Reconfiguring keeps the bound if and only if the new limit covers the active slots |
| `AdmissionProperties.LoweredLimitIsExceeded` | aftercare_agent/persistence/admission.py:216-236 | Lowering a limit under load does exceed it |
| `AdmissionProperties.BudgetsAreConserved` | aftercare_agent/persistence/admission.py:374-432 | Over any history what is spent equals what was reserved, within the ceiling, and a reserved key keeps its units |
| `AdmissionProperties.RepeatedReservationIsFree` | aftercare_agent/persistence/admission.py:390-432 | Repeating a reservation at any later time debits nothing and succeeds |
| `GateProperties.StepKeepsSound` | aftercare_agent/persistence/actions.py:119-361 | Every step keeps: keys unique, row constraints, one coherent approval per action bound to it, and the gate |
| `GateProperties.GateNeverOpensUnapproved` | aftercare_agent/persistence/actions.py:219-361 | An approval-required action in REQUESTED, UNKNOWN or CONFIRMED has one APPROVED approval of the same tenant, case, action and digest by someone other than the requester, and it is the same row in every later state |
| `GateProperties.TerminalResultsAreFinal` | aftercare_agent/persistence/actions.py:257-361 | A CONFIRMED or FAILED row never changes again |
| `GateProperties.ReservedRowMatches` | aftercare_agent/persistence/actions.py:119-204 | A successful reserve returns a stored row with the intent's parameters, and replays change nothing |
| `GateProperties.OneObligationPerBusinessKey` | aftercare_agent/persistence/actions.py:119-204 | All successful reserves of one business key in a history return the same row with equal parameters |
| `GateProperties.KeyIsBoundIff` | aftercare_agent/persistence/actions.py:157-191 | A successful reserve binds its idempotency key if and only if, before the call, no row with another idempotency key holds the business key |
| `GateProperties.OneRequestPerBoundKey` | aftercare_agent/persistence/actions.py:157-191 | Once a reserve met that condition, its idempotency key names one action and one set of parameters for ever |
| `GateProperties.UnboundKeyNamesAnother` | aftercare_agent/persistence/actions.py:157-191 | Without it the key is not bound: the same key then reserves any other free obligation |
| `GateProperties.ClashIsAlwaysNamed` | aftercare_agent/persistence/actions.py:172-191 | The final refusal of reserve is unreachable: every clash is on a key the scans name |
| `GateProperties.NewerClaimFencesLedger` | aftercare_agent/persistence/actions.py:70-361 | From the moment a newer claim on the run is issued, and in every later state, every mark and every fenced reserve under the older one is an error that changes nothing |
| `Provider.OneOperationPerKey` | aftercare_agent/actions/providers.py:23-63 | Under any mix of calls a provider key has one receipt, for the action that opened it, and UNKNOWN comes at most once |
| `Provider.ConfirmedWithOwnReceipt` | aftercare_agent/persistence/actions.py:257-333 | Whatever is requested, looked up, retried and marked, a confirmed action carries its own receipt, unless some step confirmed it by a direct CONFIRMED mark or from a receipt the provider never issued |
| `Investigation.ScanLedger` | aftercare_agent/domain/investigation.py:320-343 | The pass over the ledger refuses the first bad row with its code, or leaves tables that describe the ledger exactly |
| `Investigation.DecideClaim` | aftercare_agent/domain/investigation.py:345-375 | Each decision cites and rejects exactly as the declarative decision says |
| `Investigation.AssessInvestigation` | aftercare_agent/domain/investigation.py:310-432 | The loops compute the declarative assessment |
| `InvestigationProperties.AssessedIff` | aftercare_agent/domain/investigation.py:320-343 | A ledger is assessed if and only if every row is in scope and no id or source event repeats |
| `InvestigationProperties.DispositionIff` | aftercare_agent/domain/investigation.py:377-419 | Each disposition holds if and only if its condition on completeness, consistency and backing of the cited references does |
| `InvestigationProperties.OrderDoesNotMatter` | aftercare_agent/domain/investigation.py:310-432 | Success and result do not depend on the order of observations; with distinct ids neither does the error |
| `InvestigationOrder.AnswerDependsOnOrderIff` | aftercare_agent/domain/investigation.py:320-343 | Two orders of one ledger are answered differently if and only if the first id that fails has a foreign row and, beside it, two rows in scope or one that repeats a source event of a smaller id |
| `InvestigationOrder.SomeAnswerDependsOnOrder` | aftercare_agent/domain/investigation.py:320-343 | It happens: three rows with one id, one of them foreign, are refused with two different codes in two orders |
| `InvestigationOrder.UnambiguousCodeIs` | aftercare_agent/domain/investigation.py:320-343 | Every other refused ledger has one code in every order: out of scope if and only if the first id that fails has a foreign row, a conflict if and only if it has a conflict |
| `InvestigationProperties.AcceptedRefIff` | aftercare_agent/domain/investigation.py:345-364 | A reference is accepted if and only if a usable row of that id supports the claim |
| `InvestigationProperties.RefsArePartitioned` | aftercare_agent/domain/investigation.py:345-375 | Every reference is either cited or rejected; citations quote usable supporting rows, rejections give the true reason |
| `InvestigationProperties.ProposalCannotSteer` | aftercare_agent/domain/investigation.py:310-432 | Refusals, missing, conflicts and unavailable do not depend on the proposal, and two proposals not sent to review agree on the disposition |
| `WalArchive.SizeAcceptedIff` | aftercare_agent/ops/wal_archive.py:50-58 | A size is accepted if and only if it is 2^20 to 2^30 exactly: the bit trick tests for a power of two |
| `WalArchive.LsnRoundTripIff` | aftercare_agent/ops/wal_archive.py:65-74 | Printing then parsing a position gives it back exactly for 64-bit positions and nothing beyond |
| `WalArchive.NameRoundTripIff` | aftercare_agent/ops/wal_archive.py:97-112 | A segment name parses back if and only if its fields fit 32 bits |
| `WalArchive.NameOrderIsTupleOrder` | aftercare_agent/ops/wal_archive.py:91-112 | Name order is the order of (timeline, log, segno) |
| `WalArchive.HoldingIndex` | aftercare_agent/ops/wal_archive.py:77-104 | The index of the segment holding a position is the position divided by the size, and its number is in range |
| `WalArchive.CoverageIsIndexOrder` | aftercare_agent/ops/wal_archive.py:626-671 | For in-range segments the coverage comparison is the comparison of indexes |
| `WalArchive.CoverageIsIndexOrderIff` | aftercare_agent/ops/wal_archive.py:626-671 | The coverage comparison agrees with the order of positions, for every position, if and only if the number of the newest segment is in range for the size |
| `WalArchive.FindGaps` | aftercare_agent/ops/wal_archive.py:184-208 | The nested loops report exactly the non-adjacent pairs, timeline by timeline |
| `WalProperties.AdjacentIff` | aftercare_agent/ops/wal_archive.py:115-124 | Adjacent means index plus one, or a log crossing that skips segments; every reported gap misses at least one |
| `WalProperties.CrossingHidesHole` | aftercare_agent/ops/wal_archive.py:115-124 | So an archive can pass the contiguity check with segments missing, for every segment size |
| `WalProperties.SpanIsAccountedFor` | aftercare_agent/ops/wal_archive.py:184-208 | The span of a timeline is what is archived plus what is reported missing plus what the crossings hide |
| `WalProperties.ReportedGapsAreReal` | aftercare_agent/ops/wal_archive.py:184-208 | Each reported gap counts at least one missing segment, and counts it right |
| `WalProperties.UnbrokenIff` | aftercare_agent/ops/wal_archive.py:115-208 | The chain is unbroken if and only if no gap is reported and every crossing leaves from the last segment of its log |
| `WalProperties.CoveredArchiveIsComplete` | aftercare_agent/ops/wal_archive.py:626-671 | A covered unbroken archive holds every needed segment if and only if it also starts at or before the needed one |
| `Retention.PlanRetention` | aftercare_agent/ops/backup.py:882-917 | The greedy loop equals the closed form, entry by entry with its reason |
| `Retention.GreedyIsClosedForm` | aftercare_agent/ops/backup.py:896-910 | One round decides as the closed form and keeps the list of days in step |
| `Retention.SurvivorsAreBounded` | aftercare_agent/ops/backup.py:882-917 | At most keep_last + keep_daily survive, and the newest always does |
| `Retention.MorePolicyKeepsMore` | aftercare_agent/ops/backup.py:882-917 | What is kept grows with either parameter |
| `Retention.ReplanningIsIdle` | aftercare_agent/ops/backup.py:882-917 | Planning again on the survivors deletes nothing |
| `Retention.BackupDirectory.ApplyRetention` | aftercare_agent/ops/backup.py:920-937 | Files of the rejected entries are removed, up to the first name that is not acceptable; an all-reject plan removes nothing |
| `Retention.KeptFileRemovedIff` | aftercare_agent/ops/backup.py:920-937 | A file of a kept backup is removed if and only if a rejected entry carries the same name |
| `HistoryImport.FetchPage` | aftercare_agent/connectors/commerce.py:237-283 | A page is the stretch of the export right after a known cursor, as long as the limit or the rest of the export, with the right last id and continuation; an unknown cursor or a bad limit is refused |
| `HistoryImport.Importer.ImportHistory` | aftercare_agent/investigation/connector_bridge.py:770-829 | An uninterrupted call imports precisely the messages after its start cursor up to the first refusal; the cursor is then at the start plus the largest multiple of the page size before the refused message |
| `HistoryImport.RunIff` | aftercare_agent/persistence/investigations.py:98-152 | A run of puts succeeds if and only if the ledger takes each message alone, and adds exactly those |
| `HistoryImportProperties.StepKeepsSafe` | aftercare_agent/investigation/connector_bridge.py:770-829 | Any step of any importer, crash, revocation or other write keeps: all messages up to the cursor are recorded; the cursor does not move back |
| `HistoryImportProperties.ImportIsCrashSafe` | aftercare_agent/investigation/connector_bridge.py:770-829 | Over any history with crashes and concurrent importers the cursor only moves forward in arrival order and every message at or before it is in the ledger exactly once, with its content |
| `HistoryImportProperties.StepKeepsOpenIff` | aftercare_agent/investigation/connector_bridge.py:770-829 | A step leaves the ledger open to every message after the cursor if and only if it neither revokes the row of such a message nor stores another observation under its evidence id or event: importers never block each other |
| `HistoryImportProperties.ImportFinishesIff` | aftercare_agent/investigation/connector_bridge.py:770-829 | An uninterrupted import finishes if and only if the ledger takes every message after its start, and then adds exactly those |
| `HistoryImportProperties.ImportRecovers` | aftercare_agent/investigation/connector_bridge.py:770-829 | After any history of crashed, racing and refused importers without such a revocation or write, the next uninterrupted import runs to the end of the export |
| `HistoryImportProperties.RevokedRowStopsImport` | aftercare_agent/persistence/investigations.py:139-152 | A revoked row after the cursor stops every import before it |
| `ReviewProperties.EveryReleaseIsPaidFor` | aftercare_agent/persistence/reviews.py:193-406 | Over any history a run that stopped on a budget or deadline goes from REVIEW to READY by a decision or by a bare transition, and exactly in the first case its latest checkpoint is raised, by an override that is on record with it in every later state |
| `ReviewProperties.FreeRelease` | aftercare_agent/persistence/repositories.py:257-352 | So a run that ran out of model calls does become READY with no review, no override and the budget it had |
| `ReviewProperties.ReplaysAnswerForever` | aftercare_agent/persistence/reviews.py:227-240 | An identical click at any later time gets the first answer, with or without an override, and moves nothing |
| `ReviewProperties.ResolvedAtMostOnce` | aftercare_agent/persistence/reviews.py:193-278 | Each review is resolved at most once in a history |
| `Introspection.CacheIsBounded` | aftercare_agent/auth/introspection.py:171-199 | Over any history the cache holds at most max_entries, each written by a miss |
| `Introspection.ServedIsFresh` | aftercare_agent/auth/introspection.py:171-181 | A served verdict is the issuer's answer for that token, stored less than ttl ago |
| `Introspection.ServedPastExpiryIff` | aftercare_agent/auth/introspection.py:171-189 | Whatever the cache held, a verdict it stores can be served past its own expiry if and only if it expires before, or less than ttl after, the moment it is written, although the documentation says never |
| `Introspection.GuardClosesTheGap` | aftercare_agent/auth/guard.py:44-72 | The guard lets a request through only on an active verdict less than ttl old and unexpired at that instant |
| `ProjectionProperties.ClashIsRefused` | aftercare_agent/persistence/projection.py:225-262 | Step: an event that contradicts a stored id or position is a conflict and changes nothing |
| `ProjectionProperties.ReplayIsNeutral` | aftercare_agent/persistence/projection.py:225-262 | Step: a replay of an applied or a buffered event changes nothing and releases nothing: the drains on the duplicate paths are idle |
| `OutboxProperties.UnackedBecomesDue` | aftercare_agent/persistence/events.py:319-380 | Step: no event is lost: an unacknowledged row becomes claimable again once its lease and delay pass |
| `Fencing.TransitionFollowsTable` | aftercare_agent/persistence/repositories.py:257-352 | Step: a transition that succeeds took a legal edge to a valid record, under the execution right if the run was RUNNING; an error changes nothing |
| `Fencing.OneHolder` | aftercare_agent/domain/runtime.py:200-211 | Step: at most one claim on a run is valid at any instant |
| `Fencing.IssuedClaimHolds` | aftercare_agent/persistence/repositories.py:94-125 | Step: a fresh claim with a positive lease holds the right |
| `Fencing.ClaimRefinesGuard` | aftercare_agent/domain/runtime.py:214-221 | Step: the repository's claim accepts exactly what the pure guard accepts and issues its token |
| `Fencing.RenewRefinesGuard` | aftercare_agent/persistence/repositories.py:238-255 | Step: renewal accepts exactly what the execution-right guard accepts |
| `Fencing.TransitionRefinesGuards` | aftercare_agent/persistence/repositories.py:257-352 | Step: with scope and case version right, a transition succeeds if and only if the edge is legal, the right is held when leaving RUNNING, and the new record is valid |
| `FencedWrites.OlderAttemptCanBeFinished` | aftercare_agent/persistence/repositories.py:580-647 | Step: otherwise a newer claim does finish an attempt an older one started, although the documentation ties it to the originating claim |
| `DispatchProperties.SharedPicksLowestCursor` | aftercare_agent/persistence/repositories.py:142-175 | Step: a shared worker never picks a tenant whose cursor is ahead of one that waits |
| `AdmissionProperties.PrefilterIsExact` | aftercare_agent/persistence/admission.py:238-332 | Step: a run without a live slot is refused for capacity if and only if the dispatch prefilter calls its tenant saturated |
| `AdmissionProperties.OnlyTheHolderMovesASlot` | aftercare_agent/persistence/admission.py:238-372 | Step: a live slot is renewed and freed by its own claim alone |
| `GateProperties.FailingNeedsNoApproval` | aftercare_agent/persistence/actions.py:49-55 | Step: RESERVED to FAILED is legal without approval |
| `GateProperties.StaleClaimMarksNothing` | aftercare_agent/persistence/actions.py:70-98 | Step: without the execution right every mark and every fenced reserve is an error that changes nothing |
| `GateProperties.DecisionWakesRun` | aftercare_agent/persistence/approvals.py:288-397 | Step: a decision on an active wait makes exactly the waiting run READY; on a pending one it only leaves the signal |
| `Provider.AnyReferenceConfirms` | aftercare_agent/persistence/actions.py:257-305 | Step: a direct CONFIRMED mark does take any well-formed reference for an action that was sent |
| `ReviewProperties.ResumedIsCoherent` | aftercare_agent/persistence/reviews.py:376-406 | Step: the unvalidated copy of a coherent checkpoint is coherent, adds exactly the requested amounts within 64 bits, lowers nothing and strictly raises what was exhausted |
| `ReviewProperties.NoFreeResume` | aftercare_agent/persistence/reviews.py:347-375 | Step: a decision lets a run that stopped on a budget or deadline go on only with a recorded override that raises it |
| `ReviewProperties.AnyClaimReleases` | aftercare_agent/persistence/repositories.py:257-352 | Step: any claim on a run in REVIEW, under whatever token, can make it READY by a transition, and nothing else changes |
| `ReviewProperties.FirstDecisionRoutes` | aftercare_agent/persistence/reviews.py:480-494 | Step: a first decision takes exactly its own run out of REVIEW, by someone other than the requester |
| `ReviewProperties.ReplayNeverRoutes` | aftercare_agent/persistence/reviews.py:227-240 | Step: a decided review changes nothing any more, whatever is submitted for it |
| `Projection.DrainRows` | aftercare_agent/persistence/projection.py:156-203 | Code tie: the drain loop returns exactly the recursive drain: every now-contiguous buffered row moves to the applied ledger, a corrupt one is a conflict |
| `Projection.IngestRows` | aftercare_agent/persistence/projection.py:205-306 | Code tie: one ingest transaction equals its transition function on the rows of the stream, errors included, and keeps event ids unique |
| `Projection.ProjectionRepository.IngestEvent` | aftercare_agent/persistence/projection.py:205-306 | Code tie: an ingest changes only its own consumer's stream of the case, an empty consumer is refused, a failure commits nothing |
| `Projection.LookupById` | aftercare_agent/persistence/projection.py:84-116 | Code tie: the lookup by event id finds the row that carries it, if any |
| `Outbox.HighestSeq` | aftercare_agent/persistence/events.py:46-78 | Code tie: the seed of a missing counter is the highest stored position of the case |
| `Outbox.EventRepository.LockCaseSequence` | aftercare_agent/persistence/events.py:46-78 | Code tie: locking returns the high-water mark and creates the counter row, changing no sequence |
| `Outbox.EventRepository.Append` | aftercare_agent/persistence/events.py:84-163 | Code tie: appending a draft equals its transition: snapshot check, replay, next position |
| `Outbox.EventRepository.AppendExplicit` | aftercare_agent/persistence/events.py:165-222 | Code tie: appending an event that names its position equals its transition, replay and both conflicts included |
| `Outbox.EventRepository.Claim` | aftercare_agent/persistence/events.py:319-380 | Code tie: claiming leases exactly the selected due rows, each under its next attempt number |
| `Outbox.EventRepository.Acknowledge` | aftercare_agent/persistence/events.py:394-422 | Code tie: acknowledging needs the live lease; an acknowledged row answers False; anything else lost its lease |
| `Outbox.EventRepository.Reschedule` | aftercare_agent/persistence/events.py:424-469 | Code tie: rescheduling needs the live lease and never touches an acknowledged row |
| `FencedWrites.WorkRepository.Finish` | aftercare_agent/persistence/repositories.py:580-647 | Code tie: finishing an attempt equals its transition, with every refusal in order |
| `FencedWrites.WorkRepository.SaveCheckpoint` | aftercare_agent/persistence/repositories.py:650-693 | Code tie: saving a checkpoint equals its transition: live lease, own scope, own token, unused version |
| `Dispatch.RunRepository.WriteRun` | aftercare_agent/persistence/migrations/008_execution_queue_trigger.sql:11-54 | Code tie: writing a run row realigns its queue row as the trigger does |
| `Dispatch.RunRepository.Create` | aftercare_agent/persistence/repositories.py:54-70 | Code tie: creating a run equals its transition, with the constraint failures |
| `Dispatch.RunRepository.ClaimByKey` | aftercare_agent/persistence/repositories.py:94-125 | Code tie: claiming a run by key equals its transition and its trigger |
| `Dispatch.RunRepository.TakeNext` | aftercare_agent/persistence/repositories.py:127-203 | Code tie: claiming the next run counts the saturated tenants, takes an eligible unlocked run that no other candidate precedes, or none when there is none, and dispatches it as its transition says |
| `Dispatch.RunRepository.RenewLease` | aftercare_agent/persistence/repositories.py:238-255 | Code tie: renewal equals its transition and fires no trigger |
| `Dispatch.RunRepository.Advance` | aftercare_agent/persistence/repositories.py:257-352 | Code tie: a transition equals its specification, with every refusal in order |
| `Dispatch.ClaimNextInSteps` | aftercare_agent/persistence/repositories.py:176-203 | Code tie: the dispatch transition is the composition of its three statements |
| `Admission.AdmissionRepository.Configure` | aftercare_agent/persistence/admission.py:216-236 | Code tie: setting a limit equals its transition, with its refusals |
| `Admission.AdmissionRepository.CountActive` | aftercare_agent/persistence/admission.py:238-332 | Code tie: the count is the number of unexpired slots of the scope |
| `Admission.AdmissionRepository.Acquire` | aftercare_agent/persistence/admission.py:238-332 | Code tie: acquiring equals its transition: replay, busy run, either limit reached, or one new slot |
| `Admission.AdmissionRepository.RenewReservation` | aftercare_agent/persistence/admission.py:334-365 | Code tie: renewing a slot equals its transition |
| `Admission.AdmissionRepository.Release` | aftercare_agent/persistence/admission.py:367-372 | Code tie: releasing removes the claim's own slot and no other |
| `Admission.AdmissionRepository.SetRetryBudget` | aftercare_agent/persistence/admission.py:374-388 | Code tie: setting a retry budget equals its transition, with the constraint on what is spent |
| `Admission.AdmissionRepository.Reserve` | aftercare_agent/persistence/admission.py:390-432 | Code tie: reserving retries equals its transition, replay and exhaustion included |
| `Actions.ActionRepository.Reserve` | aftercare_agent/persistence/actions.py:119-191 | Code tie: reserve inserts or answers as specified for any order of the fetched candidate rows |
| `Actions.ActionRepository.AnswerConflict` | aftercare_agent/persistence/actions.py:157-191 | Code tie: the three scans give the specified answer: idempotency key first, changed action id, then business key |
| `Actions.ActionRepository.Dispatch` | aftercare_agent/persistence/actions.py:219-255 | Code tie: marking REQUESTED equals its transition through the approval gate |
| `Actions.ActionRepository.Settle` | aftercare_agent/persistence/actions.py:257-305 | Code tie: marking a result equals its transition: argument checks, fence, replay, legal edge, table constraints |
| `Actions.ActionRepository.SettleByReceipt` | aftercare_agent/persistence/actions.py:307-333 | Code tie: marking by receipt equals its transition: the receipt must name the action and its provider key |
| `Approvals.ApprovalRepository.Submit` | aftercare_agent/persistence/approvals.py:184-268 | Code tie: requesting an approval equals its transition, replay and refusals included |
| `Approvals.ApprovalRepository.Rule` | aftercare_agent/persistence/approvals.py:288-397 | Code tie: deciding equals its transition: four eyes, expiry, one key, wake-up of the bound wait |
| `Approvals.ApprovalRepository.Signal` | aftercare_agent/persistence/waits.py:210-331 | Code tie: a decision signal satisfies an active wait and makes its run READY, and is only stored for a pending one |
| `Approvals.ApprovalRepository.Lapse` | aftercare_agent/persistence/approvals.py:399-436 | Code tie: expiring equals its transition |
| `Provider.SyntheticActionProvider.Send` | aftercare_agent/actions/providers.py:23-51 | Code tie: a request equals its transition, counting the call even when the receipt is rejected |
| `Provider.SyntheticActionProvider.Reconcile` | aftercare_agent/actions/providers.py:53-63 | Code tie: a lookup returns the stored receipt or acts as a request |
| `HistoryImport.Importer.ImportPage` | aftercare_agent/investigation/connector_bridge.py:798-829 | Code tie: one round records its page before it moves the cursor |
| `Reviews.ReviewRepository.Request` | aftercare_agent/persistence/reviews.py:130-185 | Code tie: requesting a review equals its transition |
| `Reviews.ReviewRepository.LatestCheckpoint` | aftercare_agent/persistence/reviews.py:305-334 | Code tie: the newest checkpoint of the run by its version column, whatever its payload says |
| `Reviews.ReviewRepository.DecideReview` | aftercare_agent/persistence/reviews.py:193-334 | Code tie: deciding finds the latest checkpoint of the run and equals its transition on it, replay and every refusal in order, a payload that contradicts its columns included |
| `Reviews.ReviewRepository.Write` | aftercare_agent/persistence/reviews.py:259-278 | Code tie: checkpoint, audit row, decision and run change together or not at all |
| `Introspection.CachedIntrospector.Lookup` | aftercare_agent/auth/introspection.py:171-181 | Code tie: the first critical section serves an unexpired entry or drops a stale one |
| `Introspection.CachedIntrospector.Store` | aftercare_agent/auth/introspection.py:182-190 | Code tie: the second one stores an unexpired verdict within the bound |
| `Introspection.CachedIntrospector.Evict` | aftercare_agent/auth/introspection.py:192-199 | Code tie: eviction drops expired entries, then the oldest, until one fits |

## Left out

- PostgreSQL itself: isolation, locking order and row-level security; each method is one atomic step.
- HTTP routes, streaming, CLI parsers, metrics, the web client and deployment validators: plumbing with easy properties.
- The EGM projection record (reserve, rebase, complete) and the EGM library: a single compare-and-set row would only add easy members.
- The outbox event that a gate decision also appends, the inbox row behind a wait signal and the length of the identifiers derived for them: a failure there rolls the step back, so the code has fewer histories than the model.
- The Worker, the publisher, the sandbox, strategy migration and case admission: not part of this model.
- Text accepted by `parse_segment_size` before the byte count is known, and the parsing of other settings.
- Stored JSON that no longer decodes; rows are typed here.
- The end of the 64-bit range for case sequences and attempt numbers; tokens and budgets do have it.
- Foreign keys from slots and queue rows to runs.
- Outbox.EventRepository.Claim: the order of the selected rows is not modelled, because deliveries carry no order; `chosen` is any set the select may return.
- HistoryImport.Importer.ImportHistory: artifacts, the wall-clock check on future evidence and the EGM write count as a step that may fail.
