# Verified model of the Azure managed-service core

This project models, in Dafny 4.11, the parts of the `azure_msp` package whose correctness spans several
functions, processes or months, and proves what they promise. `dafny verify dfyconfig.toml` checks all of it.

**Backup resolution.** One backup incident passes through five modules that share a database.
`EventChain` is the hash chain over a case's events. `BackupResolution` holds the decisions (what to
propose, when a retry may go out, when a backup is proven). `CaseLedger` specifies the four ledger
transactions and proves an invariant of every run; `CaseRules` tells the same transactions from their inputs
alone, down to which alerts may open a case; `CaseStore` is the same ledger as tables updated in
place, each method tied to its transaction. `RetryProtocol` is a state machine in which any number of
`execute_retry` calls, each a program counter between its separate transactions and one runner call,
interleave, crash, time out and fail while others use the ledger; `RetryOutcome` is what each answer of the
runner makes of case and intent; `OperatorStore` is the method itself.
`ReplayWindow` is the nonce table as a function of its two constants. `AlertDelivery` is the state machine
of the authenticated inbox, its leased workers and the bus receiver over one database;
`DeliveryGuarantees` reads the promises off its invariant, `DeliveryStore` holds the methods,
`OverlappingWorkers` decides when a completed message stays complete, and `WorkerDrain` that one worker
empties the inbox. `RestoreDrill` judges restore drills and shows what every attached drill proves;
`EarlyTwin` is a run that meets the exception.

**Graphs.** `DependencyOrder` specifies the two depth-first orders (recovery visits dependencies sorted,
migration as declared) and decides exactly when they succeed; `VisitSequence` says which of the possible
orders they return; `DependencySearch` is the recursive procedure over its mutable sets. `RecoveryDrill`
judges a replayed drill and connects the order to it; `DrillReport` reads its report in plain terms.
`Lineage` is the queue-based search for downstream consumers, `DataRelease` the contracts of data products
and whom a failed one reaches.

**Accounting.** `CostAllocation`, `AiValue` and `UsageMetering` are loops over records tied to recursive
specifications whose conservation laws are proved. `Calendar` is the text order of months and UTC
timestamps, `ServiceReport` the monthly report arithmetic, `PilotDelivery` the pilots, work and drills the
reports are about, `PilotRules` what each of their calls accepts, `DrillFollowups` when their follow-ups are
the failed drills, `Money` the two conversions between dollars and cents, `PartnerOrders` the orders and
statements, `Percentiles` the three 95th percentiles, `Rounding` the two rounding rules. `Common` holds
result types, sorting and text order.

Each method is proved against a function. What that function means is stated apart from it, on inputs and
outputs, and the promises are lemmas about it or about the state machine it is a step of. Concurrency is
always interleaving of atomic transactions.

## Findings

Some promises hold only under a condition, or one way only. Each is stated with what exactly holds and a witness.

- The event chain covers the keys kind, at and detail only: edits to other keys are accepted, and so is
  cutting events off the end, unless the final hash is kept elsewhere (`EventChain.ExtraKeysAreNotCovered`,
  `EventChain.TruncationMovesFinalHash`).
- A drill may be attached to a recovery point older than the backup attempt exactly when the after snapshot
  lists such a point under the id of a new one (`RestoreDrill.TimelineExactly`); a run from the empty ledger
  does it (`EarlyTwin.OutOfOrderDrillIsReachable`).
- "Recorded" means stored, but not the converse: an intent can stay uncertain beside the very attempt its case
  holds (`RetryProtocol.UncertainBesideStored`).
- The nonce retention covers twice the timestamp skew with nothing to spare: a clock that goes back by one
  second between requests admits a replay (`ReplayWindow.GatewayConstantsAreTight`).
- "Complete" is final for an inbox message exactly when no worker still holds one of its attempts or has failed
  at it without settling (`OverlappingWorkers.CompletedIsFinalExactly`). Such a worker, of an earlier or a later
  attempt, can put it back to pending, or to dead if its attempt was the fifth; the row keeps its case
  (`OverlappingWorkers.LateFailureReopens`). It cannot happen when workers lease only while none is at work
  (`OverlappingWorkers.CompletedIsFinalForOneWorker`).
- The AI value report always claims full allocation coverage; with no tokens at all the shared cost is
  charged to nobody (`AiValue.FullCoverageExactly`).
- Negative driver weights can give a workload a negative cost (`CostAllocation.NobodyIsCreditedExactly`).
- Which of two different usage events that share one key is billed depends on arrival order
  (`UsageMetering.ArrivalOrderIsIrrelevantExactly`).
- The reports of December 9999 are empty (`Calendar.WindowExactly`).
- The follow-ups of a pilot are exactly its failed drills unless an accepted failed report meets a passed row of
  its digest (`DrillFollowups.FollowupsExactly`). Reports as `evaluate` gives them never do, short of a digest
  collision (`DrillFollowups.EvaluatedReportsAgree`); a report made by hand can (`DrillFollowups.TablesCanPart`).

## Model

| member | source | states |
|---|---|---|
| `EventChain.VerifyChain` | src/azure_msp/resolution_network.py:220-231 | Answers true exactly when every row has the three covered keys, names its predecessor's hash and carries the digest of that hash and its body |
| `EventChain.SameFinalHashSameHistory` | src/azure_msp/resolution_network.py:220-231 | Two accepted chains with one final hash record the same history, or a computable function returns a digest collision, a preimage of the all-zero genesis or an encoding clash |
| `EventChain.RewrittenEventIsCaught` | src/azure_msp/resolution_network.py:220-231 | A rewritten event is accepted only if its kind, time and detail are unchanged, or a primitive is broken |
| `EventChain.ExtraKeysAreNotCovered` | src/azure_msp/resolution_network.py:226-229 | The limit: keys other than the three are outside the digest, so editing them is always accepted |
| `EventChain.TruncationMovesFinalHash` | src/azure_msp/resolution_network.py:220-231 | Cutting rows off the end is accepted, and moves the final hash unless a primitive is broken |
| `EventChain.AppendKeepsChain` | src/azure_msp/resolution_network.py:89-97 | Appending an event keeps the chain accepted and adds exactly its body to the history |
| `BackupResolution.LatestBackupIsLatest` | src/azure_msp/backup_resolution.py:134-136 | The latest backup job is the first listed of those no other backup job started after; none only when no backup job is listed |
| `BackupResolution.CandidateMeansLatestFailed` | src/azure_msp/backup_resolution.py:139-157 | A retry is proposed exactly when observed evidence shows the latest backup job failed, and the plan names that job |
| `BackupResolution.NewPointIds` | src/azure_msp/backup_resolution.py:211-213 | Exactly the ids of points absent from the first snapshot and created no earlier than the attempt |
| `BackupResolution.CompletedJobIds` | src/azure_msp/backup_resolution.py:214-216 | Nonempty exactly when the returned job completed, as a backup, no earlier than the attempt |
| `BackupResolution.VerifyExact` | src/azure_msp/backup_resolution.py:199-223 | "Verified" exactly when the evidence alone proves the backup: scopes agree, both snapshots observed, request accepted with a job id, that job completed, a new point exists |
| `BackupResolution.VerifyListsNewPoints` | src/azure_msp/backup_resolution.py:199-223 | A passed verification lists exactly the new points, in text order |
| `BackupResolution.VerifyRefusesExactly` | src/azure_msp/backup_resolution.py:199-211 | "Unknown" exactly when a snapshot is unobserved or the request was not accepted with a job id; refused exactly for another scope or a missing time |
| `CaseLedger.WithEventKeeps` | src/azure_msp/resolution_network.py:89-97 | Writing one consistent event keeps every case's chain, history and columns in order |
| `CaseLedger.ReplayShape` | src/azure_msp/resolution_network.py:100-217 | The event kinds of a case form ingested (diagnosed (retry (verification)*)?)?, each allowed only in the state before it |
| `CaseLedger.ChangeStays` | src/azure_msp/resolution_network.py:147-217 | An accepted transaction on a case leaves columns and state that its history, with the one new event, determines |
| `CaseLedger.IngestStep` | src/azure_msp/resolution_network.py:100-120 | Ingesting keeps the ledger sound and leaves the alert with exactly the returned case, in the requested scope |
| `CaseLedger.StepHolds` | src/azure_msp/resolution_network.py:100-217 | Each transaction, accepted or rejected, keeps the ledger invariant and only extends what was there |
| `CaseLedger.RunHolds` | src/azure_msp/resolution_network.py:100-217 | Over every run: chains verify, columns are those the events determine, alerts are unique, the plan is frozen after diagnosis, and what was diagnosed, attempted or verified never changes |
| `CaseLedger.ReachableLedger` | src/azure_msp/resolution_network.py:100-231 | Every ledger reachable from empty satisfies the invariant, so every case passes the chain check |
| `CaseLedger.VerifiedMeans` | src/azure_msp/resolution_network.py:197-217 | A verified case rests on a failed latest job, both approvals, a reviewed cause, the returned job completed and a new recovery point; and it never changes again |
| `CaseLedger.AttemptDecidesState` | src/azure_msp/resolution_network.py:166-194 | A stored attempt's acceptance decides the state: accepted with a job id means awaiting or verified, otherwise review |
| `CaseRules.ParseExactly` | src/azure_msp/resolution_network.py:42-71 | Each refusal of an alert has exactly its own reason; one is taken exactly when it is a complete fired alert of the common schema with a target at or below the vault of the scope |
| `CaseRules.VaultPathIs` | src/azure_msp/resolution_network.py:66-67 | The vault is its resource path read without regard to case |
| `CaseRules.IngestExactly` | src/azure_msp/resolution_network.py:100-120 | An alert opens a case or returns its own exactly when it is fired on the vault of the scope and known in that scope, or new under a free id; the case and its one event carry that alert |
| `CaseRules.ReachableCaseWasAlerted` | src/azure_msp/resolution_network.py:100-120 | Over every run from the empty ledger, each case was opened by an operation whose alert was fired and had a target at or below the vault of that case |
| `CaseRules.ProposesExactly` | src/azure_msp/backup_resolution.py:139-157 | A plan names a job exactly when observed evidence has it as the latest backup job and failed, and is bound to that evidence |
| `CaseRules.RetryAllowedExactly` | src/azure_msp/backup_resolution.py:160-173 | A retry is let through exactly in one scope, with a verified account and both named approvals, while the job it was planned for still is the latest and failed |
| `CaseRules.DiagnosisExactly` | src/azure_msp/resolution_network.py:147-163 | Each refusal exactly for its reason; a diagnosis is written once, with the plan of its evidence, and the case awaits a retry exactly when the latest backup job failed |
| `CaseRules.AttemptExactly` | src/azure_msp/resolution_network.py:166-194 | Recorded exactly when bound to the diagnosis, reviewed and approved by both named roles; the case awaits a result exactly when the request was accepted with a job id |
| `CaseRules.VerificationExactly` | src/azure_msp/resolution_network.py:197-217 | Each refusal exactly for its reason; the case is verified exactly when the new evidence proves the backup |
| `CaseRules.EvidenceDecidesState` | src/azure_msp/resolution_network.py:100-217 | In every sound ledger the stored evidence alone decides the state of a case |
| `CaseStore.Store.LastHash` | src/azure_msp/resolution_network.py:89-97 | The backward scan finds the hash of the case's last event, or genesis |
| `CaseStore.Store.AppendEvent` | src/azure_msp/resolution_network.py:89-97 | The log gains exactly the specified linked row |
| `CaseStore.Store.FindByAlert` | src/azure_msp/resolution_network.py:100-120 | Finds the alert's only case, if any |
| `CaseStore.Store.Open` | src/azure_msp/resolution_network.py:100-120 | In place, does what the ingest transaction specifies, error by error |
| `CaseStore.Store.Diagnose` | src/azure_msp/resolution_network.py:147-163 | In place, does what the diagnosis transaction specifies, error by error |
| `CaseStore.Store.RecordAttempt` | src/azure_msp/resolution_network.py:166-194 | In place, does what the attempt transaction specifies, error by error |
| `CaseStore.Store.RecordVerification` | src/azure_msp/resolution_network.py:197-217 | In place, does what the verification transaction specifies, error by error |
| `CaseStore.Store.ChainValid` | src/azure_msp/resolution_network.py:220-231 | Answers whether the stored rows of a case form a chain, and is true of every sound ledger |
| `RetryProtocol.ReviewedOk` | src/azure_msp/production_resolution.py:55-68 | The checks made on the case and fresh evidence imply every guard `retry_backup` applies later |
| `RetryProtocol.BuiltIsRecordable` | src/azure_msp/backup_resolution.py:160-196 | The attempt built from any reply passes the guards of `record_attempt` on the case it was planned for |
| `RetryProtocol.WrittenHasIntent` | src/azure_msp/production_resolution.py:69-94 | A case with a cloud write has its intent row |
| `RetryProtocol.WriteSpends` | src/azure_msp/production_resolution.py:69-94 | Making the request uses the case's only permission: no call can make another |
| `RetryProtocol.NextHolds` | src/azure_msp/production_resolution.py:52-94 | Every step of any call, crash or other operator keeps the protocol invariant |
| `RetryProtocol.PlayHolds` | src/azure_msp/production_resolution.py:52-94 | So does every run |
| `RetryProtocol.AtMostOneCloudWrite` | src/azure_msp/production_resolution.py:69-94 | Over every interleaving, crash, timeout and failure, at most one backup-now request leaves for a case, after an intent committed while it was diagnosed and still stored |
| `RetryProtocol.AtMostOneCloudWritePerAlert` | src/azure_msp/production_resolution.py:69-94 | Two cloud writes whose cases carry one alert id are the same write: with alert deduplication, at most one backup-now request leaves per alert |
| `RetryProtocol.IntentIsPermanent` | src/azure_msp/production_resolution.py:69-94 | From any state on, a committed intent is never cleared and keeps its start time |
| `RetryProtocol.IntendedCallsTheRunner` | src/azure_msp/production_resolution.py:69-84 | Once an intent is committed no guard can stop the runner call: the call's next step makes it |
| `RetryProtocol.SentAttemptIsRecordable` | src/azure_msp/production_resolution.py:80-89 | The attempt then satisfies `record_attempt` for as long as the case is still diagnosed |
| `RetryProtocol.RecordedMeans` | src/azure_msp/production_resolution.py:85-89 | Intent state "recorded" means that same attempt is stored on the case, was accepted with a job id, and the case is awaiting its result or verified |
| `RetryProtocol.UncertainBesideStored` | src/azure_msp/production_resolution.py:83-94 | The converse fails: when the ledger entry commits and reading it back raises, the intent stays uncertain beside the attempt the case holds |
| `RetryOutcome.RunnerAnswerDecides` | src/azure_msp/production_resolution.py:79-94 | In any run, an undisturbed call with an intent on a diagnosed case sends the request, and the case ends awaiting its result with the intent recorded if and only if the exit code is zero and a job is named; that job and the time of the call are stored. Otherwise review and uncertain; if the runner raises, the case stays and the intent is uncertain |
| `RetryOutcome.FrontExactly` | src/azure_msp/production_resolution.py:55-78 | An intent is committed exactly for a consented request on a diagnosed case without one, whose failed job still is the latest; each refusal has its own reason and changes nothing |
| `RetryOutcome.SoloExactly` | src/azure_msp/production_resolution.py:52-94 | What an undisturbed call leaves, from its inputs alone: nothing, or one request and what the runner answered |
| `OperatorStore.SoloIsARun` | src/azure_msp/production_resolution.py:52-94 | An undisturbed call is one of the protocol's runs |
| `OperatorStore.Operator.Admit` | src/azure_msp/production_resolution.py:55-78 | In place: the checks and the intent, exactly as the protocol's first three steps |
| `OperatorStore.Operator.Carry` | src/azure_msp/production_resolution.py:79-94 | In place: runner call, ledger entry and verdict, exactly as the remaining steps, with one request at most |
| `OperatorStore.Operator.Record` | src/azure_msp/production_resolution.py:83-94 | In place: ledger entry and verdict, exactly as the steps after the runner call |
| `OperatorStore.Operator.Fail` | src/azure_msp/production_resolution.py:90-94 | The exception handler marks the intent uncertain and keeps its start |
| `OperatorStore.Operator.ExecuteRetry` | src/azure_msp/production_resolution.py:52-94 | In place: leaves the tables, the answer and the requests sent of the protocol's undisturbed run; and, told from the inputs alone, refuses and changes nothing or makes one request and leaves case and intent as the exit code and named job decide |
| `RestoreDrill.CeilingDecidesExactly` | src/azure_msp/recovery_operator.py:150-156 | Rounding a duration up to whole seconds never changes its comparison with a budget in minutes |
| `RestoreDrill.PassedMeansInBudget` | src/azure_msp/recovery_operator.py:150-156 | A drill passes exactly when the probe passed and both unrounded durations are in budget |
| `RestoreDrill.ReportExactly` | src/azure_msp/recovery_operator.py:129-165 | A drill is judged exactly when isolated, of its contract, in order and cleaned up; its times are the least whole seconds that cover the durations, and the recovery time is reported exactly when the probe passed |
| `RestoreDrill.RefusedExactly` | src/azure_msp/recovery_operator.py:129-149 | Each refusal exactly for its own reason, in order |
| `RestoreDrill.LastVerificationIs` | src/azure_msp/production_resolution.py:112-113 | The verification looked at is the last one recorded |
| `RestoreDrill.AttachExactly` | src/azure_msp/production_resolution.py:104-122 | A drill is attached exactly to a verified case of its scope, judged, probed no earlier than the last verification and restored from a point listed under a new id |
| `RestoreDrill.TimelineExactly` | src/azure_msp/production_resolution.py:104-130 | Attempt, recovery point, drill start, restored, probe and clean-up are in order, and verification precedes the probe, for every drill a verified case accepts, for each of its contracts, if and only if no point sharing an id with a new point is older than the attempt |
| `RestoreDrill.EarlyTwinIsAccepted` | src/azure_msp/production_resolution.py:104-130 | Under any contract for the case, such an older twin gives a concrete drill that is accepted out of order |
| `EarlyTwin.OutOfOrderDrillIsReachable` | src/azure_msp/production_resolution.py:104-130 | For every scope and contract for it, a run from the empty ledger (ingest, diagnosis, attempt, verification, check, insert) attaches a drill out of order |
| `RestoreDrill.UniqueIdsHaveNoTwins` | src/azure_msp/production_resolution.py:104-130 | Unique point ids within the snapshot are enough |
| `RestoreDrill.DrillRunHolds` | src/azure_msp/production_resolution.py:104-130 | Over every run, each drill row comes from an accepted drill and says what its report says |
| `RestoreDrill.EveryAttachedDrillIsOrdered` | src/azure_msp/production_resolution.py:104-130 | Over every run, each attached drill shows the promised order when no point sharing an id with a new one is older than the attempt, for which unique point ids are enough |
| `ReplayWindow.AdmitKeeps` | src/azure_msp/customer_gateway.py:81-101 | Each atomic request keeps the nonce-table invariant |
| `ReplayWindow.LongRetentionPreventsReplay` | src/azure_msp/customer_gateway.py:81-101 | With retention at least twice the skew plus the clock drift, no accepted request repeats a timestamp and nonce |
| `ReplayWindow.ShortRetentionReplays` | src/azure_msp/customer_gateway.py:81-101 | With any less, a concrete run of three requests with nonces the gateway admits is accepted and repeats one |
| `ReplayWindow.ReplaySafeExactly` | src/azure_msp/customer_gateway.py:81-101 | So replay safety holds over all runs if and only if retention is at least twice the skew plus the drift |
| `ReplayWindow.GatewayConstantsAreTight` | src/azure_msp/customer_gateway.py:21-25 | 300 and 600 seconds suffice for a clock that never goes back; 599, or any drift, does not |
| `AlertDelivery.NextHolds` | src/azure_msp/customer_gateway.py:76-147 | Every step of any poster, worker or receiver, and any crash, keeps the delivery invariant and only extends the tables |
| `AlertDelivery.PlayHolds` | src/azure_msp/customer_gateway.py:76-147 | So does every run |
| `AlertDelivery.ScopedExactly` | src/azure_msp/azure_service_bus_gateway.py:36-47 | Either transport lets in exactly bodies of 1 to 65536 bytes that carry an alert fired on the vault of the configuration |
| `DeliveryGuarantees.OneCasePerAlert` | src/azure_msp/azure_service_bus_gateway.py:60-82 | Over every run an alert has at most one case, and every case id in either delivery table is that alert's case |
| `DeliveryGuarantees.CompletedMeansCaseExists` | src/azure_msp/azure_service_bus_gateway.py:100-112 | When the broker is told a delivery is complete, the alert's case exists and is linked |
| `DeliveryGuarantees.BrokerIsToldExactly` | src/azure_msp/azure_service_bus_gateway.py:60-112 | Over every run, a delivery is dead-lettered if and only if its body is out of scope, its message id is not its alert's, or its alert is on record with another digest in a database of its configuration; what failed otherwise is abandoned, and only what is on record is completed |
| `DeliveryGuarantees.EveryEndIsTold` | src/azure_msp/azure_service_bus_gateway.py:100-112 | A receiver's call ends by telling the broker once, about its own delivery, unless it crashes |
| `DeliveryGuarantees.StartIsTold` | src/azure_msp/azure_service_bus_gateway.py:60-66 | A misaddressed or out-of-scope delivery is dead-lettered at once and touches no table |
| `DeliveryGuarantees.NothingIsLost` | src/azure_msp/customer_gateway.py:76-147 | From any point of a run on, rows keep their alert, digest, body and case, attempts only grow, and the bound configuration stays |
| `DeliveryGuarantees.OneConfiguration` | src/azure_msp/customer_gateway.py:57-65 | Two calls bound to one database used one configuration, or two whose digests collide |
| `DeliveryGuarantees.NoTimestampNonceRepeats` | src/azure_msp/customer_gateway.py:81-101 | Over every run whose accepted clock never goes back, no timestamp and nonce is accepted twice |
| `DeliveryGuarantees.EnqueueExactly` | src/azure_msp/customer_gateway.py:96-113 | An enqueue commits exactly when the request is admitted and the alert is new text or has the digest first received; it adds one row or none, and otherwise nothing changes |
| `DeliveryGuarantees.EnqueueFits` | src/azure_msp/customer_gateway.py:96-113 | Told from the rows: it commits exactly when no row of the alert has another digest and a new one is text, and adds exactly one pending row for a new alert |
| `DeliveryGuarantees.AcceptedAgain` | src/azure_msp/customer_gateway.py:96-113 | Two bodies accepted for one alert are equal or collide |
| `DeliveryGuarantees.RecordDeliveryExactly` | src/azure_msp/azure_service_bus_gateway.py:60-82 | A delivery is refused exactly when the alert is recorded with another digest; otherwise it is recorded with this one, and every other row, table and field stays |
| `DeliveryGuarantees.AcceptedBodiesAgree` | src/azure_msp/azure_service_bus_gateway.py:60-82 | Over every run, in either table, two bodies accepted for one alert are equal or collide |
| `DeliveryGuarantees.OpensExactly` | src/azure_msp/customer_gateway.py:134-135 | Opening succeeds exactly for an alert fired on the vault whose case is there in the same scope, or absent with a free id |
| `DeliveryGuarantees.AtMostFiveAttempts` | src/azure_msp/customer_gateway.py:116-147 | However workers overlap, a message is attempted, and opens a case, at most five times, and is dead only after five |
| `DeliveryGuarantees.UnfinishedIsPositive` | src/azure_msp/customer_gateway.py:116-147 | The work left is never negative, and zero exactly when every row is complete or dead |
| `DeliveryGuarantees.LeaseExactly` | src/azure_msp/customer_gateway.py:128-133 | A lease counts one attempt, holds the message for 60 seconds and then frees it again; after five attempts it is given up |
| `DeliveryGuarantees.EveryLeaseMakesProgress` | src/azure_msp/customer_gateway.py:116-133 | Each lease brings the work left strictly down, even if the worker dies right after |
| `DeliveryGuarantees.SettlingLosesNoProgress` | src/azure_msp/customer_gateway.py:134-147 | Settling a leased row never brings it up |
| `OverlappingWorkers.CompletedIsFinalExactly` | src/azure_msp/customer_gateway.py:116-147 | A completed message stays complete in every continuation if and only if no worker holds one of its attempts or has failed at it without settling |
| `OverlappingWorkers.LateFailureReopens` | src/azure_msp/customer_gateway.py:134-147 | Such a worker can put the row back to pending, or to dead when its attempt was the fifth; the case stays linked |
| `OverlappingWorkers.CompletedIsFinalForOneWorker` | src/azure_msp/customer_gateway.py:116-147 | When workers lease one at a time, a message once complete stays complete, whatever happens next |
| `OverlappingWorkers.CompletedCanReopen` | src/azure_msp/customer_gateway.py:116-147 | From any alert the inbox accepts, a concrete run of two overlapping workers completes a message and then puts it back to pending |
| `WorkerDrain.EachCallCounts` | src/azure_msp/customer_gateway.py:116-147 | With one worker and no arrivals, however each call ends (settled, killed after its lease or after opening the case), the work left drops by at least one for each call that finds a row |
| `WorkerDrain.InboxDrains` | src/azure_msp/customer_gateway.py:116-147 | So at most as many calls find a row as the work left counts; no call at any time finds one exactly when every row is complete or dead |
| `DeliveryStore.Gateway.BindConfig` | src/azure_msp/customer_gateway.py:57-65 | In place: binds a fresh database, accepts the same digest, refuses another |
| `DeliveryStore.Gateway.Expire` | src/azure_msp/customer_gateway.py:96-101 | Keeps exactly the nonces seen since the cut-off |
| `DeliveryStore.Gateway.Post` | src/azure_msp/customer_gateway.py:76-113 | In place: leaves what the protocol's undisturbed post leaves; accepts exactly a signed, in-scope request within 300 seconds, with a fresh well-formed nonce, for a fitting configuration and alert, and adds exactly one row for a new alert |
| `DeliveryStore.Gateway.AddMessage` | src/azure_msp/customer_gateway.py:96-113 | In place: the transaction of a post commits or changes nothing, exactly as specified |
| `DeliveryStore.Gateway.Pick` | src/azure_msp/customer_gateway.py:116-133 | Finds an eligible row received no later than any other, or none is eligible |
| `DeliveryStore.Gateway.WorkOnce` | src/azure_msp/customer_gateway.py:116-147 | In place: leaves what the protocol's undisturbed worker leaves; the message ends complete with its case exactly when it opens, else pending, or dead at its fifth attempt; strictly less is left to do |
| `DeliveryStore.Gateway.LeaseAndOpen` | src/azure_msp/customer_gateway.py:128-147 | In place: lease or give up, open, settle, exactly as the protocol's undisturbed worker |
| `DeliveryStore.SettleOne` | src/azure_msp/azure_service_bus_gateway.py:60-112 | In place: the receiver leaves what the protocol's undisturbed delivery leaves. Told from its inputs: dead-letters exactly what is out of scope, misaddressed or in conflict; completes exactly what then opens, with its case; abandons the rest |
| `DependencyOrder.VisitWorks` | src/azure_msp/recovery.py:107-117 | Visiting from a consistent point closes a real cycle or continues a topological order up to the id |
| `DependencyOrder.SearchExactly` | src/azure_msp/recovery.py:104-121 | The search succeeds exactly on acyclic graphs, and then returns every id once, after all its dependencies |
| `DependencyOrder.OrderExactly` | src/azure_msp/recovery.py:93-121 | Each error is raised exactly for its own reason; otherwise the order is a duplicate-free permutation with every dependency before its dependent |
| `DependencyOrder.ListOrderIsIrrelevant` | src/azure_msp/migration.py:106-134 | The result, error or order, is the same for every listing order of the items, for recovery and for migration |
| `DependencyOrder.DependencyListOrderIsIrrelevant` | src/azure_msp/recovery.py:113 | For recovery it does not depend on how a component lists its dependencies either |
| `VisitSequence.StartsInTextOrder` | src/azure_msp/recovery.py:119-120 | What precedes an item in the order is needed by it or by an item no later in text order, or is one |
| `VisitSequence.DependenciesInTurn` | src/azure_msp/migration.py:126-127 | Dependencies are visited sorted for recovery and as declared for migration: what precedes a dependency of the first start is needed by it or by one whose turn came before |
| `DependencySearch.Search.Visit` | src/azure_msp/recovery.py:107-117 | In place, with its visiting and visited sets, the recursive procedure does what the specification of a visit says |
| `DependencySearch.Search.VisitEach` | src/azure_msp/recovery.py:114-120 | In place, so does the loop over dependencies and over all ids |
| `DependencySearch.Order` | src/azure_msp/recovery.py:93-121 | The whole procedure returns the specified order or error |
| `RecoveryDrill.FindEvent` | src/azure_msp/recovery.py:144 | The last event of a component counts |
| `RecoveryDrill.CheckComponent` | src/azure_msp/recovery.py:150-188 | The loops over dependencies and validations collect exactly the component's findings |
| `RecoveryDrill.EvaluateDrill` | src/azure_msp/recovery.py:140-222 | The loops return the specified report, with graded findings, maxima, costs in cents and validation counts, or the ordering error |
| `RecoveryDrill.OrderFindingsExactly` | src/azure_msp/recovery.py:164-176 | A dependency-order finding, of high severity, exists exactly for each declared dependency that completed after the start |
| `RecoveryDrill.ValidationFindingsExactly` | src/azure_msp/recovery.py:177-188 | A validation finding, critical for the synthetic transaction and high otherwise, exists exactly for each absent or failed validation, and passed plus failed are all required ones |
| `RecoveryDrill.ObjectivesExactly` | src/azure_msp/recovery.py:145-148 | The maxima meet the objectives exactly when every event does, and zero does when there are no events |
| `RecoveryDrill.CleanExactly` | src/azure_msp/recovery.py:140-222 | A drill has no findings exactly when an order exists, every component recovered with dependencies done and validations true, and both objectives were met; then passed equals required |
| `DrillReport.FindingsExactly` | src/azure_msp/recovery.py:150-210 | Each finding, with its severity, is in the report exactly when a component's last event lacks it or an objective is missed |
| `DrillReport.FindingsInOrder` | src/azure_msp/recovery.py:150-188 | Findings come component by component, in the contract's order |
| `DrillReport.ChecksInOrder` | src/azure_msp/recovery.py:164-188 | Within a component they follow the declared order of its dependencies and of its validations |
| `DrillReport.DependenciesFirst` | src/azure_msp/recovery.py:164-188 | No dependency finding of a component follows one of its validations |
| `DrillReport.NumbersExactly` | src/azure_msp/recovery.py:140-215 | Recovery time and point are the worst of the events; the cost is their sum and the exposure the revenue of the recovery time in a month of 43200 minutes, both to the cent |
| `DrillReport.CostsAddUp` | src/azure_msp/recovery.py:213 | The drill's cost is the sum of its events' costs |
| `DrillReport.CountsAddUp` | src/azure_msp/recovery.py:216-222 | Validations required and passed add up over the components; a component without an event passes none |
| `DrillReport.PassedInIs` | src/azure_msp/recovery.py:217-222 | Passed validations are counted by place |
| `RecoveryDrill.CleanRespectsAllDependencies` | src/azure_msp/recovery.py:164-176 | A clean drill respects the whole transitive dependency relation, not only declared pairs |
| `RecoveryDrill.RecoveryOrderWorks` | src/azure_msp/recovery.py:93-222 | Recovering components one after another in the returned order never yields a dependency-order finding |
| `Lineage.BuildGraph` | src/azure_msp/data_reliability.py:94-96 | The adjacency built holds exactly the edges |
| `Lineage.DownstreamNodes` | src/azure_msp/data_reliability.py:93-105 | Sorted, without duplicates, exactly the nodes other than the start that one or more edges reach, on every graph including cyclic ones, and it terminates |
| `DataRelease.EvaluateProduct` | src/azure_msp/data_reliability.py:108-143 | The checks collect exactly the failures of a product and of each contracted field, in order |
| `DataRelease.PassesExactly` | src/azure_msp/data_reliability.py:108-143 | A product passes exactly when its observation meets its whole contract, every field by its last observation |
| `DataRelease.FieldOfIsLast` | src/azure_msp/data_reliability.py:120 | The last observation of a field counts |
| `DataRelease.ObservationOfIsLast` | src/azure_msp/data_reliability.py:151 | The last observation of a product counts |
| `DataRelease.FailsExactly` | src/azure_msp/data_reliability.py:111-137 | Each failure is listed exactly for its own reason, of the product or of a contracted field's last observation |
| `DataRelease.AssessRelease` | src/azure_msp/data_reliability.py:147-170 | Each error exactly for its reason; failed ids, margin at risk and affected consumers are those of exactly the contracts their observations do not meet |
| `DataRelease.BlastRadiusIsClosed` | src/azure_msp/data_reliability.py:160-170 | No edge leads from a failed product or affected consumer to a node that is neither |
| `CostAllocation.WorkloadsAreLatest` | src/azure_msp/finops.py:77-79 | Each workload stands for its latest demand record |
| `CostAllocation.SharesExactly` | src/azure_msp/finops.py:82-100 | A direct record is borne by its workload alone, a shared one in proportion to a driver whose weights add up to something, any other by nobody |
| `CostAllocation.WeightsAddUp` | src/azure_msp/finops.py:90-94 | Weights add up over the workloads; one without the driver has none |
| `CostAllocation.AllocateCosts` | src/azure_msp/finops.py:74-101 | The nested loops report each workload's part and the unallocated part, each rounded once; each error exactly for its reason |
| `CostAllocation.RecordIsConserved` | src/azure_msp/finops.py:82-100 | Direct, split or unallocated, each record's cost is borne exactly once |
| `CostAllocation.MoneyIsConserved` | src/azure_msp/finops.py:82-100 | Before rounding, allocated plus unallocated equals the total, for all records, drivers and weights |
| `CostAllocation.ReportAddsUp` | src/azure_msp/finops.py:137-165 | The reported cents add up to the reported total within half a cent per reported amount |
| `CostAllocation.NobodyIsCreditedExactly` | src/azure_msp/finops.py:90-100 | No workload can get a negative cost, whatever the records, if and only if no driver with a positive total has a negative weight (or a workload named "shared" exists) |
| `Rounding.HalfEven` | src/azure_msp/finops.py:101 | Within half a unit, and even on ties |
| `Rounding.HalfUp` | src/azure_msp/service_delivery.py:222 | Within half a unit, ties up |
| `AiValue.EventCost` | src/azure_msp/ai_value.py:122-128 | Never negative for validated events and rates |
| `AiValue.UnitPrices` | src/azure_msp/ai_value.py:122-128 | What each rate buys: a million input tokens, a million output tokens, an hour of GPU, a tool call |
| `AiValue.CostAdds` | src/azure_msp/ai_value.py:122-128 | Cost adds up over the quantities and over the rates |
| `AiValue.PriceAll` | src/azure_msp/ai_value.py:170-175 | Prices every event, or fails exactly when a rate card is missing |
| `AiValue.AddEvent` | src/azure_msp/ai_value.py:179-206 | `setdefault` and the updates leave exactly the specified row per workflow |
| `AiValue.EvaluateAiValue` | src/azure_msp/ai_value.py:157-233 | Returns the specified total, waste and waste share and a summary per workflow; the total is the summed quantities of each model at its rates plus the shared cost; each error exactly for its reason |
| `AiValue.DirectCostsAreModelCosts` | src/azure_msp/ai_value.py:170-175 | The direct costs are, model by model, the summed quantities at that model's rates |
| `AiValue.WorkflowsTell` | src/azure_msp/ai_value.py:179-231 | Every reported workflow tells its own events: counts, rates, percentile, value, revenue and margin, and the cost of its models with its tokens' part of the shared cost, each rounded once |
| `AiValue.WasteTells` | src/azure_msp/ai_value.py:205-206 | Waste is the cost of exactly the events that were retries or not accepted |
| `AiValue.SeenWhenKeyed` | src/azure_msp/ai_value.py:211-231 | Every reported workflow has at least one event and one latency for each, so its rates and percentile exist |
| `AiValue.RowsHoldAllEvents` | src/azure_msp/ai_value.py:179-206 | Every event is in exactly one row, and the rows are charged what the events cost |
| `AiValue.WorkflowsAreChargedTheTotal` | src/azure_msp/ai_value.py:177-233 | Workflow costs add up to the reported total when some event has tokens, and fall short by exactly the shared cost when none has |
| `AiValue.FullCoverageExactly` | src/azure_msp/ai_value.py:253 | The constant claim of 100% coverage is true if and only if some event has tokens or the shared cost is zero |
| `AiValue.WasteWithinTotal` | src/azure_msp/ai_value.py:205-206 | Waste is never negative and never exceeds the total |
| `UsageMetering.AggregateUsage` | src/azure_msp/commercial.py:114-136 | The loop with its two seen-sets computes the specified tally |
| `UsageMetering.BilledOnce` | src/azure_msp/commercial.py:119-130 | Billed events have pairwise distinct ids and keys and belong to the scope |
| `UsageMetering.DroppedOnlyForARepeat` | src/azure_msp/commercial.py:122-127 | Every dropped event of the scope shares an id or key with one billed before it arrived |
| `UsageMetering.BillUnchangedExactly` | src/azure_msp/commercial.py:114-136 | Further deliveries leave the bill unchanged if and only if each repeats a billed id or key or is out of scope |
| `UsageMetering.ReplayBillsNothing` | src/azure_msp/commercial.py:114-136 | Delivering any already delivered events again, in any order and number, bills nothing |
| `UsageMetering.ArrivalOrderIsIrrelevantExactly` | src/azure_msp/commercial.py:114-136 | The bill is independent of arrival order if and only if no two different events of the scope share an id or key |
| `UsageMetering.DuplicatesExactly` | src/azure_msp/commercial.py:122-127 | Reported duplicates are the ids of events that repeat a billed id, and the keys of others that repeat a billed key |
| `UsageMetering.AmountAddsUp` | src/azure_msp/commercial.py:131 | The amount is quantity times price of each billed event, added up |
| `UsageMetering.AmountIsOrderFree` | src/azure_msp/commercial.py:114-136 | When no two different events of the scope share an id or key, the amount is the same for every arrival order |
| `Calendar.MonthOrder` | src/azure_msp/partner_cloud.py:199-202 | Months compare as their `YYYY-MM` texts do |
| `Calendar.WindowExactly` | src/azure_msp/service_delivery.py:201-204 | The text window of a month holds exactly its timestamps, except December 9999, whose window is empty |
| `Calendar.NextMonthIs` | src/azure_msp/service_delivery.py:250-252 | Except for December 9999, the next-month text is the first day of the following month |
| `ServiceReport.ReportsPartitionTime` | src/azure_msp/service_delivery.py:205-221 | Over consecutive months up to November 9999 the reports neither miss nor double an entry |
| `ServiceReport.LastMonthIsLost` | src/azure_msp/service_delivery.py:250-252 | December 9999 reports nothing, whatever is dated in it |
| `ServiceReport.LaborDrift` | src/azure_msp/service_delivery.py:220-222 | Labor rounded month by month drifts from labor on the total by at most half a cent a month and half a cent more |
| `ServiceReport.ContributionIs` | src/azure_msp/service_delivery.py:220-232 | Over consecutive months the contribution is the fee for each active month less the labor of each month |
| `PilotRules.ReportExactly` | src/azure_msp/service_delivery.py:196-232 | A month's report: the minutes dated in it, labor to the nearest cent, the fee from the month of activation on, and the difference |
| `PilotDelivery.Tables.RequestPilot` | src/azure_msp/service_delivery.py:82-95 | In place: takes a new request by an authenticated partner for an identified customer and 1 to 100 machines, error by error |
| `PilotDelivery.Tables.OnboardPilot` | src/azure_msp/service_delivery.py:109-136 | In place: onboards a requested one-VM pilot once, error by error |
| `PilotDelivery.Tables.ActivatePilot` | src/azure_msp/service_delivery.py:139-162 | In place: activates an onboarded pilot once, on evidence of its whole scope, error by error |
| `PilotDelivery.Tables.AddWork` | src/azure_msp/service_delivery.py:169-184 | In place: records work on an active pilot's resource, as specified |
| `PilotDelivery.Tables.RecordDrill` | src/azure_msp/recovery_operator.py:169-194 | In place: the two ignore-if-present inserts, as specified |
| `PilotRules.RequestExactly` | src/azure_msp/service_delivery.py:82-95 | Each refusal of a request exactly for its reason; a taken one is open and carries its own parties and size |
| `PilotRules.OnboardExactly` | src/azure_msp/service_delivery.py:109-136 | Each refusal exactly for its reason; a pilot carries its request's parties and its offer's scope and money |
| `PilotRules.ActivateExactly` | src/azure_msp/service_delivery.py:139-162 | Each refusal exactly for its reason; activation only sets the state and its time |
| `PilotRules.WorkExactly` | src/azure_msp/service_delivery.py:165-184 | Each refusal exactly for its reason; work is recorded on a case of the same machine, whatever its incident |
| `PilotRules.DrillExactly` | src/azure_msp/recovery_operator.py:169-181 | Each refusal exactly for its reason; a result counts from activation on |
| `PilotDelivery.NewDeskIsSound` | src/azure_msp/service_delivery.py:28-59 | A new desk satisfies the invariant |
| `PilotDelivery.RunKeeps` | src/azure_msp/service_delivery.py:82-184 | Over every run whose clock does not go back: one pilot per request, work and drills only for a pilot already active and its own resource, failed drills have follow-ups, and nothing recorded changes or is lost |
| `PilotDelivery.NoLaborWithoutFee` | src/azure_msp/service_delivery.py:220-232 | In every such run a month that charges no fee for a pilot carries no labor for it |
| `PilotDelivery.DrillIsIdempotent` | src/azure_msp/recovery_operator.py:182-192 | Recording a result again changes nothing |
| `DrillFollowups.FollowupsExactly` | src/azure_msp/recovery_operator.py:182-192 | Over every run from agreeing tables, exactly the failed drills have a follow-up if and only if no accepted failed report ever met a passed row of its digest; and no failed drill ever lacks one |
| `DrillFollowups.EvaluatedReportsAgree` | src/azure_msp/recovery_operator.py:129-194 | Recording only reports as `evaluate` gives them keeps the tables in agreement, or two of their sources share a digest |
| `DrillFollowups.TablesCanPart` | src/azure_msp/recovery_operator.py:169-194 | A concrete run from a new desk with a report made by hand ends with a follow-up beside a passed row |
| `Money.CentsUndoUsd` | src/azure_msp/partner_cloud.py:39-50 | Reading printed dollars gives back every nonnegative amount, and refuses every negative one |
| `Money.UsdIsInjective` | src/azure_msp/partner_cloud.py:49-50 | No two amounts print alike |
| `Money.DollarsRead` | src/azure_msp/partner_cloud.py:39-46 | Whole dollars, one digit and two digits after the point all read as their cents |
| `Money.SignedReads` | src/azure_msp/partner_cloud.py:39-46 | A plus in front changes nothing; after a minus only zero is read |
| `Money.PlainReads` | src/azure_msp/partner_cloud.py:39-46 | Any digits, a point and digits read as the amount they write, or are refused for more than two places |
| `PartnerOrders.OrderTable.RegisterPartner` | src/azure_msp/partner_cloud.py:99-106 | In place: a partner is registered exactly when it is new and its token is long enough |
| `PartnerOrders.OrderTable.CreateOrder` | src/azure_msp/partner_cloud.py:117-138 | In place: validates the whole catalog and request, error by error, and adds one inactive order under a new id |
| `PartnerOrders.OrderTable.ActivateOrder` | src/azure_msp/partner_cloud.py:169-189 | In place: the conditional update succeeds exactly for an acceptable deployment of a known order awaiting activation |
| `PartnerOrders.CatalogExactly` | src/azure_msp/partner_cloud.py:53-79 | A catalog is valid exactly when named, priced with no wholesale above retail, and with sound targets; each price is its own entry, and each error has its reason |
| `PartnerOrders.CreateExactly` | src/azure_msp/partner_cloud.py:117-138 | An order is taken exactly for an offered region and product by a registered partner under a new id, and starts inactive |
| `PartnerOrders.StatementExactly` | src/azure_msp/partner_cloud.py:192-198 | A statement is drawn exactly for the partner's own order under a valid catalog |
| `PartnerOrders.RunKeeps` | src/azure_msp/partner_cloud.py:117-189 | Over every run orders stay sound (wholesale at most retail, active exactly with a time) and change only by their one activation |
| `PartnerOrders.ActivatedAtMostOnce` | src/azure_msp/partner_cloud.py:181-186 | In any run an order is activated at most once, and never changes after |
| `PartnerOrders.OfferIsFrozen` | src/azure_msp/partner_cloud.py:117-138 | An order keeps the whole offer of the catalog it was ordered from, prices and service targets, whatever is published or done later |
| `PartnerOrders.ReadBack` | src/azure_msp/partner_cloud.py:141-146 | A stored price read through its printed form is itself |
| `PartnerOrders.StatementsAddUp` | src/azure_msp/partner_cloud.py:192-216 | Statements over any consecutive months add up to the monthly price per active month and setup once, if its month is among them |
| `PartnerOrders.LinesReadBack` | src/azure_msp/partner_cloud.py:199-213 | Each printed line of a statement, the spread included, reads back as the charge of its own prices |
| `PartnerOrders.SpreadIsMoney` | src/azure_msp/partner_cloud.py:205-213 | The spread is never negative: all three printed amounts read back, and retail is wholesale plus spread |
| `PartnerOrders.OrderedPricesAreCharged` | src/azure_msp/partner_cloud.py:117-216 | Across ordering, any later calls and activation, each line of the statements (retail, wholesale, spread), printed under any later catalog, adds up to the monthly and setup texts of the catalog first ordered from, read as cents |
| `Percentiles.RanksAgree` | src/azure_msp/ai_service_operator.py:143-147 | The ceiling form and the integer form name the same position |
| `Percentiles.RankIsLeastCovering` | src/azure_msp/ai_value.py:131-133 | Both ranked percentiles are the least value with at least 95% of the values at or below it |
| `Percentiles.SameBracket` | src/azure_msp/managed_ai.py:133-139 | The interpolated percentile and the ranked one lie between the same two neighbouring sorted values |
| `Percentiles.InterpolatedExactly` | src/azure_msp/managed_ai.py:133-139 | The interpolated percentile is the value in its place when that is whole, else the two neighbours weighted by how near each is |
| `Sorting.SortUnique` | src/azure_msp/recovery.py:113-119 | Sorting gives one result for every listing of the same elements |

## Left out

- The database engine: each transaction block is one atomic step that commits whole or rolls back, and
  reads see committed rows only.
- SHA-256 (FIPS 180-4), HMAC (section 2 of RFC 2104), JSON encoding, UTF-8 and UUIDs: uninterpreted
  functions or parameters, so statements about digests read "equal, or here is a collision". Constant-time
  comparison and token hashing are not modelled.
- Parsing: documents arrive as parsed values, with None where a field does not parse; instants are integer
  microseconds; exponents in money texts, identifier patterns, URL and address checks are left to the parser.
- Lower-casing follows ASCII, and alert targets are given in lower case.
- Recipes are reduced to their version, and since recipe validation admits one workcell an alert id alone is
  the unique key.
- Floating point and the precision limit of `Decimal`: amounts are exact reals or integers, so rounding is the
  only inexactness. Display rounding of AI value totals, of usage amounts and of the interpolated percentile is
  not modelled.
- ReplayWindow.RunKeeps: takes the clock reading as part of the atomic request, while the program reads it just
  before; the nondecreasing-clock assumption is about accepted requests in commit order.
- DeliveryGuarantees.SettlingLosesNoProgress: is about a row still leased; a late settlement of a completed row
  is among the findings above.
- RetryProtocol.AtMostOneCloudWrite: covers `execute_retry`; the standalone backup command retries without an
  intent by design.
- DeliveryStore.SettleOne: covers one delivery; a redelivery is a further delivery in a run of `AlertDelivery`, and
  the bus client is not modelled.
- PilotDelivery.RunKeeps: treats the read and the conditional write of activation, work and drills as one step,
  which is sound because activation is permanent; the text order of UTC timestamps stands for instants.
- PilotDelivery.Tables.OnboardPilot: checks the length of the customer token and stores no hash of it.
- The optional hand-over of an attached drill to the pilot tables, and the case lists of a monthly report (they
  use the same month window).
- The observed and required texts, remediations and ids of recovery findings, and the severities of all findings but
  recovery ones.
- The duplicate lists of usage aggregation and the workflows of AI value are a set and a map, so their sorted
  order is not stated.
- Release approvals, blockers and proposals, the decision tables around migration waves, cutover evidence,
  optimization options, routing candidates and service scores, and the threshold evaluators for capacity,
  networks, incidents, fleets and operations: short comparisons that would add easy members only.
- Command-line modules, HTTP servers, HTML, the Azure command line and clients, live probes and templates.
