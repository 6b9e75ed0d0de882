# Verified model of the Zulip bridge's durable protocols

This project models, in Dafny 4.11, the parts of the Workspace Zulip bridge whose correctness rests
on protocols rather than on single functions, and proves what those protocols guarantee over all
inputs, all interleavings and all runs. `dafny verify dfyconfig.toml` checks everything.

## What is modelled

**Durable history** (`history*.py`, and the capture statements of `storage.py`). The tables of scopes,
directory revisions, batches, capture markers and failure reports form one value, `HistoryTables.Db`.
`HistoryConfiguration`, `HistoryCapture`, `HistoryDelivery` and `FailureReports` give each transaction
as a function on it; `HistoryStore` performs the same transactions step by step on an object whose
fields are the tables, and each method is proved to have exactly that effect. `HistoryRuns` lets every
worker interleave: whatever a worker read may be applied arbitrarily late, more than once, and
between any other workers' transactions. `HistoryInvariant` proves one invariant of all runs, from
the per-concern modules `RevisionProofs`, `DirectoryProofs`/`DirectorySteps`,
`DeliveryProofs`/`DeliverySteps` and `ReportProofs`. The theorems are in `HistoryTheorems`,
`CaptureTheorems`, `PublicationTheorems`, `PublicationProgress`, `ReportTheorems`,
`ReportingTheorems`, `TerminationTheorems`, `ReconcileTheorems` and `TransactionTheorems`. They come in
pairs: what no run can do, and what each transaction leaves in the columns so that a run can finish.

**Batches** (`history.py`): `HistoryBuilding` validates decoded provider answers with every error path
and builds batches; `HistoryBatches` merges them and relates the fold to an observation log.

**Other protocols**: publisher back-pressure (`Admission`), ordered delivery with bisection
(`ProviderDelivery`), Markdown source mapping and edits (`MarkdownSource`, `MarkdownEdits`), ambiguous
sends (`Scheduler`), crash-safe certificate renewal (`Enrollment`), topic notification convergence
(`Notifications`) and canonical keys (`ProviderKeys`). `Catalogs` and `Decimal` hold shared
dictionaries and decimal text.

## How the source is represented

- A SHA-256 digest is the term it hashes, so digests are equal exactly when the hashed values are.
  Uuids are numbers; a fresh lease is the next unused number.
- A transaction that holds its locks to the end is one atomic step. HTTP requests and preparation
  outside SQL lie between steps.
- Retry times, lease expiry, provider switches and job states are free choices of the environment, so
  results about safety hold for every clock. A run whose event is not enabled leaves the state alone.
- Reconciliation is proved for every order of visiting the known scopes, not only the sorted one.
- Some columns are history variables that no operation reads: the catalogues fetched in a pass, the
  captures merged into a row, the pages installed for a receipt, the accounts acknowledged for a
  report. `ReportTheorems.AckedWasAcknowledged` ties the last to events of the run.
- Runs start before any scope exists, possibly with captured batches that were never published.
- A directory answer may be any canonical catalogue, and a capture any well-formed batch; that
  `user_catalog` and `make_batch` produce just those is proved in `HistoryBuilding`.

## What was found

- The publisher takes the receipt uuid from each answer without comparing it with the receipt it asked
  about (`history_delivery.py:465`). All pages of a row lie under one receipt exactly when no answer
  names another one: `PublicationTheorems.OneReceiptIffNotMixed`, with a reachable run that mixes two
  receipts in `ReceiptsCanMix`. Coverage itself holds regardless.
- A worker that stalls before recording its attempt is reaped to pending, and nothing makes it notice:
  `record_provider_attempt` ignores whether it found the row, and `retry` and `mark_uncertain` test
  neither state nor lease (`storage.py:9926-9984`). Each such worker that sends anyway, or returns a
  row that has moved on to the queue, can add one ambiguous send. `Scheduler` proves, for every run,
  the bound of two plus the number of these acts, that it is reached for every number, and hence that
  two is guaranteed exactly when there are none. A terminal state can be left by a late write, and a
  reaped operation is resent after 25 seconds rather than 30.
- `release` does not test the expiry of its lease (`history_delivery.py:275-301`). A claim that expired
  but was not taken over can no longer install anything, yet with `reset` it discards the receipt and
  cursor of its row: `PublicationTheorems.ReleaseActsIffLeaseStands`, `ExpiredReleaseDiscards`.
- A crash between removing the renewal request and removing the issuance leaves a matching key and
  certificate, but every later start stops at the incomplete renewal (`enrollment.py:292-299`):
  `Enrollment.CleanupCanStrand`, `StrandedForever`.
- A provider event key is uniquely decodable because no kind the bridge emits contains a colon; a pair
  of kinds shares all its keys with another exactly when it contains one: `ProviderKeys.EventKeyDecodes`,
  `KindsMustBeFree`.

## Model

| member | source | states |
|---|---|---|
| HistoryBuilding.UserCatalog | workspace_zulip_bridge/history.py:113-118 | succeeds exactly when every entry is valid; the result is ascending and holds exactly the last entry of each id; the error is that of the first invalid entry |
| HistoryBuilding.ReactionItems | workspace_zulip_bridge/history.py:158-171 | succeeds exactly when every reaction is valid and no two conflict; the dictionary holds exactly the reactions mentioned |
| HistoryBuilding.MessageSnapshot | workspace_zulip_bridge/history.py:121-187 | succeeds exactly on valid messages; every field, reaction, flag and the hash is that of the raw message for this observer |
| HistoryBuilding.SnapshotUnique | workspace_zulip_bridge/history.py:121-187 | a message and an observer have at most one snapshot |
| HistoryBuilding.SnapshotIsStorable | workspace_zulip_bridge/history.py:80-94 | every number of a snapshot is a positive exact integer and every text one the database can store |
| HistoryBuilding.LocationIsWhereItSays | workspace_zulip_bridge/history.py:131-157 | a channel message is where its stream and subject say, a direct one among exactly its participants |
| HistoryBuilding.MentionIsRaw | workspace_zulip_bridge/history.py:159-167 | a stored reaction is spelled out by a raw entry |
| HistoryBuilding.UserIsRaw | workspace_zulip_bridge/history.py:113-118 | a catalogued user is spelled out by a raw entry and storable |
| HistoryBuilding.MakeBatch | workspace_zulip_bridge/history.py:190-215 | a batch is built exactly for an aligned range, valid in-range messages consistent with their duplicates, and valid users; it is well formed and holds exactly their snapshots |
| HistoryBatches.MergeBatch | workspace_zulip_bridge/history.py:218-249 | the loop computes the specified merge, or the range-mismatch error |
| HistoryBatches.MergeWellFormed | workspace_zulip_bridge/history.py:218-249 | merging well-formed batches of one range keeps sorted, unique, in-range, hash-correct form |
| HistoryBatches.MergeOverlays | workspace_zulip_bridge/history.py:218-249 | after a merge each user, message core and per-user flag is the incoming one if there is one, else the stored one |
| HistoryBatches.ObservationsDetermine | workspace_zulip_bridge/history.py:97-110 | well-formed batches of one range with the same observations are the same batch, hash included |
| HistoryBatches.MergeAssociative | workspace_zulip_bridge/history.py:218-249 | merge is associative on well-formed batches of one range |
| HistoryBatches.MergeIdempotent | workspace_zulip_bridge/history.py:218-249 | merging a well-formed batch into itself changes nothing |
| HistoryBatches.FoldRefinesLog | workspace_zulip_bridge/history.py:218-249 | folding any sequence of same-range batches gives the last core of each message, each user's own last flags on it, and loses no message or user |
| HistoryBatches.LastFlagMeaning | workspace_zulip_bridge/history.py:221-225 | a user's last flags come from the last capture that observed that user on the message |
| HistoryBatches.RangesPartition | workspace_zulip_bridge/history.py:195-198 | each message id lies in exactly one aligned range of five thousand ids |
| HistoryBatches.MergeRefusedIff | workspace_zulip_bridge/history.py:226-229 | batches are refused exactly when their ranges differ, and a first batch is taken as it is |
| HistoryConfiguration.BuildWithDirectory | workspace_zulip_bridge/history_configuration.py:206-221 | the loops over references and users compute the specified rewrite |
| DirectoryProofs.ReferencesExact | workspace_zulip_bridge/history_configuration.py:208-214 | an id is referenced exactly when some message names it as sender, recipient, reactor or observer |
| DirectoryProofs.WithDirectoryFacts | workspace_zulip_bridge/history_configuration.py:206-221 | a rewrite keeps the range and every message, and is well formed again |
| DirectoryProofs.DirectoryCatalog | workspace_zulip_bridge/history_configuration.py:215-217 | the new catalogue is the directory plus exactly the known, still referenced users outside it |
| DirectoryProofs.WithDirectoryIdempotent | workspace_zulip_bridge/history_configuration.py:206-221 | rewriting again with the same directory changes nothing |
| RevisionProofs.NewScopeStartsPending | workspace_zulip_bridge/history_configuration.py:117-129 | a scope first created while its realm's revision is outstanding starts pending on that revision |
| HistoryInvariant.NextInv | workspace_zulip_bridge/history_configuration.py:62-398 | every transaction and every read of every worker keeps the invariant over revisions, passes, stored bodies, outstanding reads, receipts, leases and reports |
| HistoryInvariant.AlwaysInv | workspace_zulip_bridge/history_configuration.py:62-398 | the invariant holds in every state reachable by any interleaving |
| HistoryTheorems.InvalidationReachesEveryScope | workspace_zulip_bridge/history_configuration.py:176-189 | after an invalidation, in every later state each scope of the realm that existed is still pending or has acknowledged that revision or a newer one |
| HistoryTheorems.RevisionOutstanding | workspace_zulip_bridge/history_configuration.py:337-356 | a realm's revision row exists exactly while some scope of the realm is pending |
| HistoryTheorems.RevisionDeletedWhenAcknowledged | workspace_zulip_bridge/history_configuration.py:347-356 | the row is deleted only when every scope of the realm has acknowledged exactly that revision |
| HistoryTheorems.StaleQuantumIsNoOp | workspace_zulip_bridge/history_configuration.py:283-305 | a prepared quantum that changes anything finds generation, cursors, sources, target revision and assembled directory exactly as it read them |
| HistoryTheorems.RewriteKeepsCaptures | workspace_zulip_bridge/history_configuration.py:316-336 | applying any quantum keeps all messages, flags and captures of every stored batch |
| HistoryTheorems.StoredIsWhatWasCaptured | workspace_zulip_bridge/storage.py:8599-8722 | in every reachable state the stored body answers with the last captured core and each user's last captured flags |
| HistoryTheorems.SavedCaptureIsRecorded | workspace_zulip_bridge/storage.py:8599-8722 | a save under current authority on an unchanged body adds the capture to the row at once |
| HistoryTheorems.AcknowledgedMeansCovered | workspace_zulip_bridge/history_configuration.py:235-268 | a pass that acknowledges has a directory that is the ordered fold of every source account's catalogue, and every stored batch of the scope contains every user of it |
| HistoryTheorems.CoveredUntilInvalidated | workspace_zulip_bridge/history_configuration.py:306-346 | in every reachable state every batch of a non-pending scope contains the scope's whole directory |
| CaptureTheorems.NoCaptureIsLost | workspace_zulip_bridge/history_configuration.py:206-336 | over every run in which no reconciliation starts the scope over, everything captured so far stays captured |
| CaptureTheorems.ObservationStands | workspace_zulip_bridge/history.py:218-249 | after any such run a flag is that of a later observation of the same user, or else unchanged |
| ReconcileTheorems.ReconcileConverges | workspace_zulip_bridge/history_configuration.py:62-165 | one reconciliation brings every known scope and the legacy fingerprint up to date, and a second changes nothing at all |
| ReconcileTheorems.ReconcileKeepsCaptures | workspace_zulip_bridge/history_configuration.py:88-163 | a stored batch is discarded exactly when its scope's sources changed identity, or the scope has no row and the legacy fingerprint does not match; a kept batch keeps body and captures, and its receipts restart exactly on a metadata revision |
| ReconcileTheorems.RebuildClearsMarkers | workspace_zulip_bridge/history_configuration.py:130-141 | a reconciliation clears exactly the timeout markers of the former and desired sources of the scopes it starts over |
| TransactionTheorems.InvalidationRestartsPasses | workspace_zulip_bridge/history_configuration.py:176-189 | a directory event restarts the pass of every scope of the realm: pending, cursors zero, no users, no attempts spent, fresh generation and revision; every other scope, every batch and every marker stays |
| TransactionTheorems.InvalidatedPassCanComplete | workspace_zulip_bridge/history_configuration.py:184-189 | even a pass that had stopped runs again after an invalidation: some run acknowledges the new revision |
| TransactionTheorems.UnverifiedEventChangesNothing | workspace_zulip_bridge/history_configuration.py:176-183 | an event of an account without a verified realm uses up a generation and nothing else |
| TransactionTheorems.ReconcileStartsOver | workspace_zulip_bridge/history_configuration.py:115-129 | a scope whose sources changed identity, or that is new, gets the desired sources, the realm's revision, its old acknowledgement, zero cursors and attempts, and is pending exactly when it owes an acknowledgement or was pending |
| TransactionTheorems.ProgressClearsAttempts | workspace_zulip_bridge/history_configuration.py:306-346 | every applied fetch, rewrite or acknowledgement clears the attempts spent |
| TransactionTheorems.RewriteRestartsPublication | workspace_zulip_bridge/history_configuration.py:323-329 | a rewritten batch is pending again without receipt, cursor, lease or pages, and keeps its source set |
| TransactionTheorems.SaveLeaves | workspace_zulip_bridge/storage.py:8599-8722 | a save keeps the publication columns of an existing row, starts those of a new one, clears its job's marker and touches nothing else |
| TransactionTheorems.PreparedCatalog | workspace_zulip_bridge/storage.py:8599-8654 | until a directory is assembled a capture is stored as merged, and from then on with the directory |
| TransactionTheorems.StaleSaveIsNoOp | workspace_zulip_bridge/storage.py:8655-8722 | a save without authority, or on a body that changed meanwhile, changes nothing |
| TerminationTheorems.EffectiveQuantumLowersRank | workspace_zulip_bridge/history_configuration.py:283-398 | every quantum that changes anything strictly lowers the rank of its scope: accounts left, ranges beyond the cursor, pending, attempts left |
| TerminationTheorems.QuietKeepsRank | workspace_zulip_bridge/history_configuration.py:62-398 | only an invalidation of the realm, a rebuild or a newly captured range can raise the rank |
| TerminationTheorems.PassesTerminate | workspace_zulip_bridge/history_configuration.py:224-398 | a pass to which no work is added takes at most its rank many effective quanta, whatever else runs |
| TerminationTheorems.OnlyTimeoutsSpendAttempts | workspace_zulip_bridge/history_configuration.py:386-398 | attempts grow only by a statement timeout of the scope's own quantum, by one, and never beyond the maximum |
| TerminationTheorems.StoppedUntilReset | workspace_zulip_bridge/history_configuration.py:228-241 | a pass at the maximum stays stopped and no quantum changes it until a fresh revision or a rebuild |
| TerminationTheorems.PassCanComplete | workspace_zulip_bridge/history_configuration.py:224-366 | from every state in which a pass may run, some run acknowledges it |
| PublicationTheorems.DeliveredMeansCovered | workspace_zulip_bridge/history_delivery.py:534-560 | a complete row had, for each account in order, all user pages and then all message pages installed without a gap under one source set, and of the scope's generation unless it refreshes again |
| PublicationProgress.SourcesOfScope | workspace_zulip_bridge/history_delivery.py:45-65 | the envelope names each desired source in order, up to one past the limit |
| PublicationProgress.ClaimLeaves | workspace_zulip_bridge/history_delivery.py:113-170 | a claim puts a fresh lease and the current source set on the row; the receipt and cursor of the same source set go on, others are given up; without admission a row left without a receipt is neither leased nor handed out |
| PublicationProgress.ClaimedIff | workspace_zulip_bridge/history_delivery.py:68-118 | a batch is claimed exactly when it is pending in a current scope that is not refreshing, has a receipt if nothing may be admitted, and its sources are all captured or too many |
| PublicationProgress.FreshClaimIsCurrent | workspace_zulip_bridge/history_delivery.py:94-101 | a batch just claimed passes every authority check |
| PublicationProgress.PageInstalledIff | workspace_zulip_bridge/history_delivery.py:649-699 | a page is installed exactly under a standing live lease for a scope that is not refreshing, has the claim's generation and still names exactly the claim's sources |
| PublicationProgress.BatchCanBeDelivered | workspace_zulip_bridge/history_delivery.py:534-560 | from every state in which a batch may be claimed, whatever it has installed, some run delivers it |
| PublicationTheorems.OneReceiptIffNotMixed | workspace_zulip_bridge/history_delivery.py:462-484 | a step keeps all pages of each row under one receipt exactly when the answer does not name another receipt for a row that has pages |
| PublicationTheorems.DeliveredUnderOneReceipt | workspace_zulip_bridge/history_delivery.py:478-484 | over runs without such answers every installed page carries the row's receipt |
| PublicationTheorems.ReceiptsCanMix | workspace_zulip_bridge/history_delivery.py:465 | a reachable run leaves pages of two receipts in one row |
| PublicationTheorems.CursorInBounds | workspace_zulip_bridge/history_delivery.py:122-161 | a row without a receipt has no cursor, and the cursor's account index is in bounds exactly until the row is complete |
| PublicationTheorems.LostLeaseIsHarmless | workspace_zulip_bridge/history_delivery.py:275-301 | once a row no longer carries a worker's lease, nothing that worker does after any further run changes anything |
| PublicationTheorems.ExpiredClaimOnlyReleases | workspace_zulip_bridge/history_delivery.py:330-360 | an expired claim installs no page, and its failure clears its lease without marking or reporting anything |
| PublicationTheorems.ReleaseActsIffLeaseStands | workspace_zulip_bridge/history_delivery.py:275-301 | a release changes the row exactly when its lease still stands, expired or not, and then lease, receipt and cursor as stated and nothing else |
| PublicationTheorems.ExpiredReleaseDiscards | workspace_zulip_bridge/history_delivery.py:275-301 | a reachable state in which an expired claim can install nothing and still discards its row's receipt, cursor and page |
| PublicationTheorems.TrailingReleaseIsNoOp | workspace_zulip_bridge/history_delivery.py:478-484 | the release after an installed page never changes the row, whatever ran in between |
| ReportTheorems.ReportCursorSound | workspace_zulip_bridge/history_failure_reports.py:141-269 | in every run each account up to the cursor, and every account of a complete report, was the one an earlier quantum reported for the row's code and got acknowledged, and the row has not been restarted since |
| ReportTheorems.AckedWasAcknowledged | workspace_zulip_bridge/history_failure_reports.py:248-263 | an account counts as acknowledged only through a quantum that called the callback for exactly that account and was acknowledged, while the row carried the scope's generation, the sources matched, a capture timeout had a marker, and a refreshing scope reported only its stopped pass |
| ReportProofs.FingerprintIff | workspace_zulip_bridge/history_configuration.py:39-53 | a fingerprint changes exactly when something other than an assignment generation does |
| ReportProofs.SameFingerprintSameAccounts | workspace_zulip_bridge/history_configuration.py:39-53 | equal fingerprints force the same accounts in the same order |
| ReportTheorems.CaptureTimeoutNeverReplaces | workspace_zulip_bridge/history_failure_reports.py:33-57 | while a report of one generation stands, no run replaces another code by a capture timeout |
| ReportTheorems.StoppedReportStands | workspace_zulip_bridge/history_failure_reports.py:60-99 | the report of a stopped pass survives every event except an invalidation of its realm or a change of source identity, with code, cursor and completion kept or extended |
| ReportTheorems.StoppedReportSurvives | workspace_zulip_bridge/history_failure_reports.py:60-99 | the same over whole runs |
| ReportTheorems.CarryOrderMatters | workspace_zulip_bridge/history_configuration.py:98-99 | with capture timeouts pending, carrying the directory report first keeps it, and the other order loses its code, cursor and completion |
| ReportTheorems.InvalidationRetiresDirectoryReports | workspace_zulip_bridge/history_configuration.py:190-203 | after an invalidation no scope of the realm has a directory report |
| ReportingTheorems.StoppingIsReported | workspace_zulip_bridge/history_configuration.py:386-398 | a pass stops only by its own quantum's statement timeout, which records in the same step an incomplete directory report of the scope's generation without a cursor |
| ReportingTheorems.StoppedReportLostIff | workspace_zulip_bridge/history_failure_reports.py:188-200 | a pass that stays stopped loses its report exactly by a quantum that finds the desired sources changed |
| ReportingTheorems.EveryStoppedPassIsReported | workspace_zulip_bridge/history_failure_reports.py:18-269 | in every run from the start without such a quantum, every stopped pass has its report, stamped with its generation |
| ReportingTheorems.TimeoutLeaves | workspace_zulip_bridge/storage.py:8520-8585 | a capture timeout sets its marker and starts a report, unless another failure stands for the generation; a standing capture report goes on, or starts over once complete |
| ReportingTheorems.StaleTimeoutIsNoOp | workspace_zulip_bridge/storage.py:8533-8551 | a timeout without the job's lease or under an older generation leaves nothing |
| ReportingTheorems.FailureLeaves | workspace_zulip_bridge/history_delivery.py:330-360 | a failure of a current claim fails its row, clears the lease, keeps the cursor and reports its code; a report standing for it goes on, complete or not |
| ReportingTheorems.MetadataRevisionLeaves | workspace_zulip_bridge/history_configuration.py:92-99 | a metadata revision keeps a stopped pass's report with its progress; any other marked scope has a capture report of the new generation that keeps its progress if it was one; otherwise the report stays |
| ReportingTheorems.InvalidationLeavesReport | workspace_zulip_bridge/history_configuration.py:190-203 | an invalidation retires a directory report, carries a marked capture report with its progress, and otherwise leaves the report |
| ReportingTheorems.FlushPostpones | workspace_zulip_bridge/history_failure_reports.py:201-233 | a current row is left alone while the provider is paused, the scope refreshes, or the unlocked query saw another code |
| ReportingTheorems.FlushRetiresIff | workspace_zulip_bridge/history_failure_reports.py:188-226 | a quantum removes the row exactly when its scope moved on, its pass runs again or its last capture marker was cleared |
| ReportingTheorems.FlushAdvances | workspace_zulip_bridge/history_failure_reports.py:234-269 | on a reportable row an acknowledged quantum moves the cursor to the next account, any other leaves it, and one without accounts left completes the report |
| ReportingTheorems.ReportCanComplete | workspace_zulip_bridge/history_failure_reports.py:141-269 | from every reportable row some run of quanta completes the report |
| HistoryStore.Store.Reconcile | workspace_zulip_bridge/history_configuration.py:62-165 | the loop over scopes, reading rows and dirty realms once before it, has exactly the specified effect on all tables |
| HistoryStore.Store.InvalidateDirectory | workspace_zulip_bridge/history_configuration.py:176-203 | the statements in sequence have exactly the specified effect on all tables |
| HistoryStore.Store.ApplyQuantum | workspace_zulip_bridge/history_configuration.py:283-365 | exactly the specified effect, and a stale quantum reports false and changes nothing |
| HistoryStore.Store.DeferQuantum | workspace_zulip_bridge/history_configuration.py:368-398 | exactly the specified effect; reports whether the quantum was still current |
| HistoryStore.Store.Record | workspace_zulip_bridge/history_failure_reports.py:33-57 | the conflict clause has exactly the specified effect |
| HistoryStore.Store.CarryCapture | workspace_zulip_bridge/history_failure_reports.py:60-87 | exactly the specified effect on all reports |
| HistoryStore.Store.CarryDirectory | workspace_zulip_bridge/history_failure_reports.py:90-99 | exactly the specified effect on all reports |
| HistoryStore.Store.FlushOnce | workspace_zulip_bridge/history_failure_reports.py:141-269 | the branches of a quantum have exactly the specified effect; an enqueued account is the new cursor |
| HistoryStore.Store.SaveBatch | workspace_zulip_bridge/storage.py:8599-8722 | exactly the specified compare-and-set; a refused save changes nothing |
| HistoryStore.Store.DeferCapture | workspace_zulip_bridge/storage.py:8520-8585 | exactly the specified marker and report |
| HistoryStore.Store.ClaimBatch | workspace_zulip_bridge/history_delivery.py:122-170 | exactly the specified lease and receipt columns and returned item |
| HistoryStore.Store.ReleaseLease | workspace_zulip_bridge/history_delivery.py:275-301 | exactly the specified effect, and none without the standing lease |
| HistoryStore.Store.FailBatch | workspace_zulip_bridge/history_delivery.py:330-360 | the failure and its report together, or only the release of a stale claim |
| HistoryStore.Store.SaveReferences | workspace_zulip_bridge/history_delivery.py:649-733 | exactly the specified cursor, status and receipt, or nothing when authority or lease is gone |
| Admission.Publisher.RunOnce | workspace_zulip_bridge/history_delivery.py:376-484 | one round changes the publisher's fields and acts exactly as specified |
| Admission.BackPressure | workspace_zulip_bridge/history_delivery.py:400-484 | over every run no admission precedes the deadline of an earlier busy answer unless a receipt ended in between, and two successful polls, the later outside a cooldown, have an admission-preferring claim between them |
| Admission.NoUndueRestraint | workspace_zulip_bridge/history_delivery.py:376-484 | over every run admissions are held back only before the deadline of a busy answer that still holds, active receipts lose their turn only to a probe that is owed, and the backend is asked at most once a minute until it agrees |
| Admission.BusyIff | workspace_zulip_bridge/history_delivery.py:440-455 | admissions are held back exactly by a 429 answer with the busy code |
| Admission.EndedIff | workspace_zulip_bridge/history_delivery.py:435-477 | a receipt ends exactly when the backend answers 404 or 409 or reports it failed, superseded or complete |
| Admission.CooldownLength | workspace_zulip_bridge/history_delivery.py:267-272 | the delay asked for is honoured between one and sixty seconds, and is five seconds if none is asked for |
| Admission.ActiveOnlyClaimIsRegistered | workspace_zulip_bridge/history_delivery.py:137-152 | a claim without admission never returns a batch without a receipt |
| ProviderDelivery.Service.Apply | workspace_zulip_bridge/service.py:4147-4219 | for every API every record is accepted once or quarantined once, in order, within 2n - 1 calls, and the result counts acceptances; on failure a prefix was settled; if rejection means containing a bad record and the store works, exactly the good ones are accepted |
| ProviderDelivery.Service.Flush | workspace_zulip_bridge/service.py:4084-4145 | success settles in order exactly the records with a command, completes those without an event and counts both; a failure before all are settled releases exactly the submitted records; a failure while storing a completion releases none; a nested live flush touches priority 0 only and starts no further one |
| ProviderDelivery.Service.Prepare | workspace_zulip_bridge/service.py:4101-4116 | the submitted records are those not skipped, up to the first that cannot be prepared |
| ProviderDelivery.SubmittedExact | workspace_zulip_bridge/service.py:4101-4116 | a record is submitted exactly when it is reached and not skipped |
| ProviderDelivery.SubmittedSplits | workspace_zulip_bridge/service.py:4101-4145 | when nothing fails the submitted records are exactly those settled and those completed |
| ProviderDelivery.FetchExact | workspace_zulip_bridge/service.py:4093-4097 | a flush fetches the oldest records of its priority range, all of them or as many as its limit |
| MarkdownSource.FromContent | workspace_zulip_bridge/markdown_conversion.py:45-55 | every line stands at its offset, in order, within the content |
| MarkdownSource.SplitLinesAreLines | workspace_zulip_bridge/markdown_conversion.py:45-55 | the content is cut after every line break and nowhere else |
| MarkdownSource.LineRangeIsLines | workspace_zulip_bridge/markdown_conversion.py:57-69 | a line range slices the content to exactly the lines it names |
| MarkdownSource.BodyAndEnding | workspace_zulip_bridge/markdown_conversion.py:80-85 | a line is its body and its whole ending |
| MarkdownSource.BodyHasNoBreaks | workspace_zulip_bridge/markdown_conversion.py:80-85 | the body of a line contains no line feed or carriage return |
| MarkdownSource.LineRangeInBounds | workspace_zulip_bridge/markdown_conversion.py:57-69 | a line range is an ordered range of the source |
| MarkdownSource.InlineBoundaries | workspace_zulip_bridge/markdown_conversion.py:216-261 | mapped boundaries are exactly those of successive last matches, in bounds, monotone, and lead to the same characters |
| MarkdownSource.NextLineIsFirst | workspace_zulip_bridge/markdown_conversion.py:242-251 | each line of text is looked for in the first remaining source line whose body contains it |
| MarkdownSource.LineEndIsFirst | workspace_zulip_bridge/markdown_conversion.py:228 | a line of text ends at its first line feed |
| MarkdownSource.SpanSlices | workspace_zulip_bridge/markdown_conversion.py:216-261 | a span within one line of inline text slices the source to the same text |
| MarkdownSource.AbsoluteSpanExact | workspace_zulip_bridge/markdown_conversion.py:264-277 | a span exists exactly when it is an ordered range with both ends mapped; it leads to those ends, and inside one line slices the source to the same text |
| MarkdownSource.AbsoluteSpanInBounds | workspace_zulip_bridge/markdown_conversion.py:264-277 | an absolute span is always an ordered range of the source |
| MarkdownEdits.SelectEdits | workspace_zulip_bridge/markdown_conversion.py:443-458 | the selection is ascending, disjoint and from the given edits; a dropped well-formed edit starts inside a selected one that sorts no later |
| MarkdownEdits.AllPiecesCover | workspace_zulip_bridge/markdown_conversion.py:531-542 | gaps and edit spans together are the source exactly once |
| MarkdownEdits.EditIsSpan | workspace_zulip_bridge/markdown_conversion.py:700-711 | each selected edit is one piece with its own source range, verbatim without a replacement |
| MarkdownEdits.ApplyEdits | workspace_zulip_bridge/markdown_conversion.py:700-711 | selecting and splicing renders exactly those pieces, and identity transforms return the input |
| Scheduler.Worker.RunOnce | workspace_zulip_bridge/scheduler.py:133-211 | one send has exactly the specified effect on the operation's columns |
| Scheduler.Worker.ReconcileOnce | workspace_zulip_bridge/scheduler.py:228-322 | one reconciliation has exactly the specified effect on the operation's columns |
| Scheduler.CommittedIff | workspace_zulip_bridge/scheduler.py:178-322 | an operation becomes committed exactly by a committed send, an exact match found for an attempted send, or an echo |
| Scheduler.CommittedRunIff | workspace_zulip_bridge/scheduler.py:133-322 | over whole runs it ends up committed exactly when some event committed it and no late write reopened it since |
| Scheduler.HandedOverIff | workspace_zulip_bridge/scheduler.py:236-322 | it is handed over, and rejected, exactly by a check of an unattempted send, a provider failure, or the last empty check without a resend left |
| Scheduler.HandedOverRunIff | workspace_zulip_bridge/scheduler.py:228-322 | over whole runs it is handed over exactly when some check handed it over |
| Scheduler.EndedIff | workspace_zulip_bridge/scheduler.py:133-211 | every other ending is the one its send reported |
| Scheduler.UncertainIff | workspace_zulip_bridge/storage.py:9415-9984 | an operation becomes uncertain exactly by an unknown outcome or by a reap after an attempt, with a fresh schedule that starts in five seconds or at once |
| Scheduler.RetryableCheckOnlyWaits | workspace_zulip_bridge/scheduler.py:248-263 | a provider that cannot be asked costs five seconds and nothing else |
| Scheduler.CheckClaimedIff | workspace_zulip_bridge/storage.py:9986-10045 | a check is handed out exactly for an uncertain operation that is due and not handed over, with its columns as they are |
| Scheduler.Worker.ReconcileLocalEcho | workspace_zulip_bridge/scheduler.py:213-226 | an echoed local id commits an uncertain operation and nothing else |
| Scheduler.AmbiguousSendsBounded | workspace_zulip_bridge/scheduler.py:133-322 | in every run the sends with unknown outcome number at most 1 + MAX_AUTO_RESENDS plus the acts of workers that lost their claim before sending |
| Scheduler.BoundIsTight | workspace_zulip_bridge/storage.py:9941-9984 | for every number of such acts a run reaches the bound with outcomes all reported as unknown |
| Scheduler.BoundedIffClaimed | workspace_zulip_bridge/scheduler.py:80-81 | the bound of 1 + MAX_AUTO_RESENDS holds for all runs with at most n such acts exactly when n is zero |
| Scheduler.UnclaimedReturnBreaksBound | workspace_zulip_bridge/storage.py:9926-9939 | a single late retry by a worker that never sent leads to three ambiguous sends |
| Scheduler.FencedNeverUnclaimed | workspace_zulip_bridge/storage.py:9415-9459 | workers that act while their lease stands never commit such an act |
| Scheduler.ReturnsToQueue | workspace_zulip_bridge/storage.py:9926-10098 | a row returns to the queue by spending a resend, by a reap without evidence of a send, or by a retry, which concerns another worker's row exactly when its own claim was lost |
| Scheduler.TerminalIsFinalIff | workspace_zulip_bridge/storage.py:9926-9984 | a terminal state is left exactly by a late retry or a late unknown outcome |
| Scheduler.ReconciliationTerminates | workspace_zulip_bridge/scheduler.py:228-322 | at most six answered checks occur, and after six the operation is terminal |
| Scheduler.AlwaysOnSchedule | workspace_zulip_bridge/scheduler.py:306-317 | in every fenced run no check is due before its place in the 5/15/30 schedule, which a reap starts five seconds ahead |
| Scheduler.ResendAfterSchedule | workspace_zulip_bridge/scheduler.py:306-322 | a resend or handover happens at least 30 seconds after a reported unknown outcome, and at least 25 after a reap |
| Scheduler.GapsTelescope | workspace_zulip_bridge/scheduler.py:306-317 | over every run whose checks are claimed and answered exactly when due, the next check is due at its listed delay throughout |
| Scheduler.PunctualResend | workspace_zulip_bridge/scheduler.py:306-322 | such an operation is resent or handed over after exactly 30 seconds, or 25 after a reap |
| Enrollment.CrashSafe | workspace_zulip_bridge/enrollment.py:272-429 | with crashes between any two file operations the installed certificate matches the installed key, or a complete validated renewal is on disk |
| Enrollment.RecoveryRestores | workspace_zulip_bridge/enrollment.py:288-300 | restarting with a complete renewal installs it and removes it |
| Enrollment.MismatchIsRepaired | workspace_zulip_bridge/enrollment.py:281-286 | whatever mismatch a crash left, a restart ends with a matching pair |
| Enrollment.RenewalStartsIff | workspace_zulip_bridge/enrollment.py:344-400 | a renewal starts exactly when it is due, nothing it needs is missing and the certificate has not expired |
| Enrollment.AnswerTakenIff | workspace_zulip_bridge/enrollment.py:215-263 | an answer is taken exactly when it names the request, certifies its key and is acceptable |
| Enrollment.RenewalCompletes | workspace_zulip_bridge/enrollment.py:383-429 | a due renewal with a valid answer ends with the new certificate, its key and trust installed and the renewal removed, with the pair on disk if there was one |
| Enrollment.EnrollmentCompletes | workspace_zulip_bridge/enrollment.py:173-213 | a first enrollment with a valid answer ends with a matching certificate, its keys and its trust installed |
| Enrollment.EnrollmentResumes | workspace_zulip_bridge/enrollment.py:321-381 | an interrupted enrollment goes on with the key and request on disk |
| Enrollment.RecoveryFailsIff | workspace_zulip_bridge/enrollment.py:288-296 | a start with a stored issuance stops exactly when the renewal is incomplete or invalid |
| Enrollment.StrandedForever | workspace_zulip_bridge/enrollment.py:292-293 | an issuance without its request or key stops every later start and nothing changes any more |
| Enrollment.CleanupCanStrand | workspace_zulip_bridge/enrollment.py:297-299 | a crash in the cleanup window reaches such a disk, with key and certificate matching |
| Enrollment.Client.RecoverPendingRenewal | workspace_zulip_bridge/enrollment.py:288-300 | every disk on the way is safe; fails exactly on an incomplete or invalid renewal; success leaves the new matching pair |
| Enrollment.Client.RenewInstalled | workspace_zulip_bridge/enrollment.py:388-429 | every disk on the way is safe; success installs the answered certificate and clears the renewal, anything else leaves the pair alone |
| Notifications.Topic.Apply | workspace_zulip_bridge/converter.py:3303-3341 | one event changes the stored metadata and emits exactly as specified; only an unknown policy is an error |
| Notifications.SettingConverges | workspace_zulip_bridge/converter.py:3303-3341 | for every history the stored mode is that of the last-arriving event among those with the greatest provider timestamp, unless all are older than what was stored |
| Notifications.TakenIff | workspace_zulip_bridge/converter.py:3294-3323 | an event is taken exactly when its policy is known and it is newer than the stored provider time, or as new with another mode; older rows stand for their update time |
| Notifications.StampIs | workspace_zulip_bridge/converter.py:3324-3341 | a taken event is stored with its mode and provider time and stamped with its own time, or one microsecond after the last stamp |
| Notifications.SecondsTruncate | workspace_zulip_bridge/converter.py:3310-3314 | provider timestamps are whole seconds, truncated toward zero |
| Notifications.ModeRoundTrip | workspace_zulip_bridge/zulip_adapter.py:2419-2424 | the policy numbers read are exactly those the bridge sends |
| Notifications.EmittedTimesRise | workspace_zulip_bridge/converter.py:3324-3327 | emitted update times strictly increase, even when event times do not |
| Notifications.StaleIsSilent | workspace_zulip_bridge/converter.py:3315-3323 | an older event emits and changes nothing |
| Decimal.PrintRoundTrip | workspace_zulip_bridge/provider_protocol.py:428-440 | reading a printed identifier gives it back |
| ProviderKeys.DirectConversationKey | workspace_zulip_bridge/provider_protocol.py:410-440 | the loop over identifiers computes the specified key or error |
| ProviderKeys.FormatRoundTrip | workspace_zulip_bridge/provider_protocol.py:418-440 | a canonical key names exactly the participants it was made from |
| ProviderKeys.DirectKeyIdempotent | workspace_zulip_bridge/provider_protocol.py:410-440 | canonicalising a canonical key changes nothing |
| ProviderKeys.SpellingsAgree | workspace_zulip_bridge/provider_protocol.py:418-440 | the older spellings of a conversation have the canonical key of the participants they list, in any order |
| ProviderKeys.WrongCountRefused | workspace_zulip_bridge/provider_protocol.py:418-425 | a canonical spelling with a wrong count is refused |
| ProviderKeys.EmptyIgnored | workspace_zulip_bridge/provider_protocol.py:428 | empty identifiers do not count |
| ProviderKeys.InOrderRises | workspace_zulip_bridge/provider_protocol.py:439 | participants are printed in ascending order |
| ProviderKeys.FixedPoints | workspace_zulip_bridge/provider_protocol.py:416-417 | channel and account keys are kept as they are |
| ProviderKeys.DirectKeysAgree | workspace_zulip_bridge/provider_protocol.py:427-440 | direct keys agree exactly when participants plus owner agree as sets |
| ProviderKeys.FixedPointsNeverCollide | workspace_zulip_bridge/provider_protocol.py:416-417 | channel and account keys are fixed points and never equal a direct key |
| ProviderKeys.EncodeRoundTrip | workspace_zulip_bridge/provider_protocol.py:477 | the byte length counts a UTF-8 encoding that decodes to the character |
| ProviderKeys.FreeKindsDecode | workspace_zulip_bridge/provider_protocol.py:476-481 | keys of colon-free kinds have equal kinds, object kinds, ids and digests when they are equal, for arbitrary ids |
| ProviderKeys.EventKeyDecodes | workspace_zulip_bridge/provider_protocol.py:454-481 | the same for every kind and object kind the bridge emits |
| ProviderKeys.KindsAreFree | workspace_zulip_bridge/provider_protocol.py:28-42 | no emitted kind or object kind contains a colon |
| ProviderKeys.KindsMustBeFree | workspace_zulip_bridge/provider_protocol.py:476-481 | a pair of kinds shares all its keys with another pair exactly when it contains a colon |

## Left out

- HTTP clients, TLS, HPKE decryption, configuration, command line, logging, statistics and health rows.
- The rows of `provider_mappings` and their aliases: only the checkpoint of an installed page is modelled.
- Backfill jobs apart from their capture timeout markers; job completion is a free input of a claim.
- File transfer during publication, the capability probe's payload, and lease heartbeats: renewing a lease changes no modelled column.
- A store failure while recording a quarantine's health row.
- The history of a scope whose sources change identity and change back between two reconciliations: its failure report may be deleted meanwhile, so retention is claimed only while the identity stays.
- The Markdown parser and token semantics: inline text, line maps and spans are inputs.
- The order of two edits with equal start, priority and length, and the link rewriting that produces edits.
- Unicode forms of digits and blanks accepted by Python's int(), unpaired surrogates, and Unicode normalisation.
- Stream notification timestamps, queue catch-up deletion, the backfill conversion cache and migrations.
- Causal lanes, priorities and account states that decide which operation a scheduler worker claims next.
- Scheduler.AmbiguousSendsBounded: exceeds the intended two by the acts it counts, because the store's statements test neither the row's state nor the worker's lease; Scheduler.BoundedIffClaimed says when two is guaranteed.
- PublicationTheorems.LostLeaseIsHarmless: speaks of leases the row no longer carries; what an expired lease that still stands can do is stated by PublicationTheorems.ReleaseActsIffLeaseStands.
- PublicationTheorems.DeliveredUnderOneReceipt: holds under the exact condition of PublicationTheorems.OneReceiptIffNotMixed, because the answer's receipt is not compared with the request's.
