# Terraform state manager: a verified model

A Dafny model of five parts of the Terraform state manager and proofs of what they promise over
whole runs, not only over single calls.

* **State-file mutation plane** (`StatePlane`, `StateSafety`, `StateEdits`,
  `StateAlone`, `LockProgress`, `StateHandlers`). Raw
  replaces, rm/mv, deletes, restores and cross-source transfers are operations of one transition
  system that interleave one connector, backup or lock call at a time; every call may fail, and an
  operation that is never scheduled again is a crashed one. `StateHandlers` writes the handlers as
  imperative code and ties each of their calls to a step of that system.
* **Drift plane** (`Tenancy`, `Targets`, `Linkage`, `LinkageHandlers`, `Coverage`, `Dispatch`,
  `Callback`, `Records`, `RecordHandlers`). The organization rule for references between rows
  (checked one load at a time, while other handlers run), the coverage cache that depends on it,
  batch dispatch, the one-shot callback token, and the record ledger with its two producers.
* **Group-mapping reconciliation** (`Membership`).
* **Reports and the dashboard cache** (`Reports`, `Overview`).
* **The analyzer and the resource diff** (`Names`, `Analyzer`, `Diff`).

`Collections` holds what all of them use: options, Go's string order, sorts, totals of maps.
`dafny verify dfyconfig.toml` checks everything.

Modelling decisions a reader should know:

* Database tables, backends and caches are maps or sequences in memory. A statement is one step; a
  failed call changes nothing. Clocks, fresh ids, tokens and the answers of connectors and CI
  providers are parameters.
* File contents carry the analyzer's reading of them, if it accepts them. The result of
  `stateops.RemoveResource` and `MoveResource` is a parameter that must be accepted.
* Semantic-version validity and order, case folding, and which roles an identity provider may not
  grant are function parameters: every result holds for all of them.
* The shared group-mapping resolver is taken to be "first match wins", as `auth.go:806-811` says.
* `int` fields are unbounded except where the code depends on the width: the serial that a
  decommission writes (`StatePlane.Wrap64`) and the widest bounds of a report filter.
* Organizations never change owner, and ids are never reused.

Places where the code does less than its own comments say. Each is stated and proved as it is:

* A transfer overwrites its target without a backup (`transfer.go:156`): `TargetIsNotBackedUp`,
  `TransferCanDestroyItsTarget`.
* The lineage guard can be passed in two writes by way of an empty lineage (`edit.go:94`):
  `LineageChangesInTwoWrites`.
* A decommission at the top of int64 writes a lower serial: `DecommissionBumpsSerial`.
* A failed batch takes the stored callback tokens of its rows away, so that a stray callback is
  refused (`drift_repository.go:307-317`). A failed single run keeps its stored token, although
  `failBatch` blanks it in the run it returns (`drift.go:609-620`): `ErrorLeavesAllFailed`,
  `FailureAndTokens`.
* Both caches stamp an entry after their reads, so the TTL bounds the age of answers exactly when
  the reads take no time: `Coverage.FreshIffFillIsInstant`, `Overview.FreshIffQueriesAreInstant`.
  `AnswerLate` in both modules makes the two calls that show it.
* `external_ref` is said to make retries idempotent (`drift_records.go:170-171`), but a later push
  on the same record overwrites it, a look-up that fails lets the retry through, and two pushes can
  both look it up before either writes: `RetriesCountedAgain`. `ReplayIsRecognised` has the exact
  condition over all interleavings.
* An organization whose lookup fails is skipped by the reconciliation, and the login succeeds with
  whatever membership it had (`auth.go:898-902`): `SkippedLookups` says when that matters.
* The two record producers decide `drifted` alike except for a body with a summary, no counts and
  no flag: `SettlementsAgree`.
* A managed 0.11 resource whose type is `data` is read as a data source: `KeyParsing`.

## Model

| member | source | states |
|---|---|---|
| StatePlane.ExecInv | backend/internal/api/edit.go:65-121 | in every reachable world the lock table says exactly who holds which cells, and each operation's knowledge of the cells it holds (what it read, that it is backed up, that both ends of a migrate agree) is true |
| StatePlane.DecideFits | backend/internal/api/edit.go:710-733 | an operation's next call touches only cells it has locked and changes only its own locks |
| StatePlane.DecideKeeps | backend/internal/api/transfer.go:138-213 | what an operation knows is still true after its own step |
| StatePlane.EffectFrame | backend/internal/db/repositories/lock_repository.go:79-148 | an operation's step leaves content and backups of every cell it does not hold as they were |
| StateSafety.EveryEditIsReversible | backend/internal/api/edit.go:65-121 | in every interleaving without a force-unlock, content that leaves a key other than as a transfer's target stays among that key's backups until a purge |
| StateSafety.LeavingContentIsSaved | backend/internal/api/edit.go:192-254 | the step at which content leaves a key finds it already backed up |
| StateSafety.WhatLeaves | backend/internal/api/transfer.go:144-213 | the only calls that take content off a cell find it backed up, a transfer's target write apart |
| StateEdits.RestoreUndoes | backend/internal/api/edit.go:617-679 | a restore left alone puts back exactly the chosen bytes, saves what it replaces, and changes nothing else |
| StateEdits.RestoreAmongOthers | backend/internal/api/edit.go:617-679 | in any interleaving without a force-unlock a restore that reports success has put back exactly the chosen bytes, at a step at which what it replaced was already backed up |
| StateEdits.ReplacedStaysRestorable | backend/internal/api/edit.go:639-673 | and what it replaced stays among the backups from then on, until a purge |
| StateEdits.EditRuns | backend/internal/api/edit.go:65-121 | a raw replace that passes its guard, left alone, puts its bytes, saves what they replace, and changes nothing else |
| StateEdits.RefusalRuns | backend/internal/api/edit.go:83-97 | one that its guard refuses changes nothing |
| StateAlone.ReplaceExactly | backend/internal/api/edit.go:78-121 | a raw replace left alone writes exactly if there is no readable file, or it is forced, or the serial does not fall and no two non-empty lineages differ; then it puts its bytes and saves what they replace; otherwise it ends in Conflict and nothing changes |
| StateAlone.OperateRuns | backend/internal/api/edit.go:192-254 | an rm/mv left alone over an existing file writes what stateops returns, if the analyzer accepts it, and saves what that replaces; without a file, or with an unacceptable result, it fails and nothing changes |
| StateAlone.DeleteRuns | backend/internal/api/edit.go:268-323 | a delete left alone of an existing file removes it and adds it to its backups, or with purge leaves no backup; without a file it fails and nothing changes |
| StateSafety.MigrateConservesState | backend/internal/api/transfer.go:138-213 | wherever a transfer between distinct cells stops, the bytes it read are at the source, or at the target with a source backup |
| StateSafety.OriginalIsWhatWasRead | backend/internal/api/transfer.go:144-213 | what a transfer reports on to its end is what stood at the source when it read it |
| StateSafety.DecommissionOutcome | backend/internal/api/transfer.go:186-221 | decommissioned=true means the target holds the bytes read, the source a same-lineage, serial+1, resource-free file, and a backup exists; false means the source is untouched |
| StateSafety.DecommissionBumpsSerial | backend/internal/api/transfer.go:320-330 | in every run, the file a decommission leaves at the source has the serial that was read plus one, or the smallest int64 if that was the largest |
| StateSafety.EmptyStateReading | backend/internal/api/transfer.go:320-330 | the reading the model gives the emptied file is what the analyzer makes of the document that is marshalled |
| StateAlone.TransferRuns | backend/internal/api/transfer.go:63-252 | what a backup or migrate left alone ends in and leaves at both cells, for distinct cells and for a transfer onto itself: a missing source fails; a backup copies; a migrate of a readable file is verified; with decommission the source is saved and emptied; an unreadable one is copied and neither |
| StateAlone.VerifiedExactly | backend/internal/api/transfer.go:298-316 | a migrate goes past its verification exactly if the file read back is readable and agrees with the one copied in serial, lineage, total and managed count |
| StateAlone.RecheckedExactly | backend/internal/api/transfer.go:186-204 | an unforced decommission goes ahead exactly if the source still exists and, where both are readable, has the serial and lineage that were read |
| StateSafety.TargetIsNotBackedUp | backend/internal/api/transfer.go:156 | the target write archives nothing |
| StateSafety.TransferCanDestroyItsTarget | backend/internal/api/transfer.go:156 | a run after which the target's former bytes are neither in a cell nor in a backup |
| StateSafety.ForceUnlockCanLoseAnEdit | backend/internal/db/repositories/lock_repository.go:153-162 | one force-unlock suffices to lose an accepted write: why the theorems exclude it |
| StateEdits.UnforcedWritesRegressNothing | backend/internal/api/edit.go:87-97 | over any stretch of any interleaving in which a readable file is written only by unforced raw replaces, its serial never falls |
| StateEdits.LineageIsFixed | backend/internal/api/edit.go:94-97 | and its lineage stays what it is as long as it is never empty |
| StateEdits.LineageChangesInTwoWrites | backend/internal/api/edit.go:94 | from any world, a run of two accepted unforced replaces leads from the file there to another, whatever their lineages, exactly when the serial does not fall |
| LockProgress.SomeOperationCanStep | backend/internal/api/transfer.go:264-294 | with locks that block, some unfinished operation can always step: no wait cycle |
| LockProgress.FirstBelowSecond | backend/internal/api/transfer.go:269-280 | a transfer takes its smaller cell first |
| LockProgress.BlockingRunsFinish | backend/internal/api/transfer.go:264-294 | from any reachable world with n operations, locks that block let a schedule run for at most 12 n steps, and one that cannot go on has finished every operation |
| LockProgress.StepsRunOut | backend/internal/api/transfer.go:63-252 | an operation ends after at most twelve of its own steps, and moves no other operation |
| LockProgress.RefusedLeavesNothing | backend/internal/api/edit.go:710-733 | a refused operation ends holding no lock |
| LockProgress.RefusedSecondLockReleasesFirst | backend/internal/api/transfer.go:280-294 | when the second lock is taken by another, the first is given back and nothing else changes |
| StateHandlers.EditState | backend/internal/api/edit.go:39-127 | a raw replace that reports success passed the guard, wrote its bytes and saved what was there; otherwise no state file changed; if no call fails, the outcome is determined by force, serials and lineages; the lock is back; the call is a run of the protocol |
| StateHandlers.ReadCheckSaveWrite | backend/internal/api/edit.go:78-121 | the guarded read, backup and write under the lock |
| StateHandlers.ApplyOperation | backend/internal/api/edit.go:192-254 | rm/mv: writes only an accepted result over an existing file, after a backup; if no call fails, exactly then |
| StateHandlers.DeleteState | backend/internal/api/edit.go:268-323 | a delete keeps a last backup unless its purge went through; a failure leaves the file; if no call fails it deletes exactly an existing file |
| StateHandlers.RestoreBackup | backend/internal/api/edit.go:617-679 | writes exactly the chosen backup and saves what it replaces, and does so if no call fails |
| StateHandlers.DoTransfer | backend/internal/api/transfer.go:63-252 | what backup and migrate leave at both ends, by what they report; if no call fails, what they report; both locks are back |
| StateHandlers.AcquireTransferLocks | backend/internal/api/transfer.go:264-294 | both locks or none, one for a transfer onto itself |
| StateHandlers.Decommission | backend/internal/api/transfer.go:206-221 | back up, then empty; if either fails the source is as it was |
| StateHandlers.CounterpartyOrganizations | backend/internal/api/transfer.go:409-424 | each owner of an end once, never the acting nor the blank organization |
| Tenancy.DerivedScopes | backend/internal/tenancy/systemscope.go:87-110 | a derived scope permits exactly one organization, never a blank one |
| Targets.VariableNameCollisions | backend/internal/api/drift.go:589-591 | two directories get one variable name exactly when they differ at most in '/' against '_' |
| Targets.ValidateDriftTargets | backend/internal/api/validate.go:97-142 | accepts exactly the lists of at most 100 well-formed items with distinct variables and no state twice |
| Targets.ValidTargetsByFields | backend/internal/api/validate.go:97-142 | those lists over the fields alone: characters, byte length of keys, at most eight params, directories that differ in more than slash and underscore, no (source, key) twice |
| Linkage.LinkageHolds | backend/internal/api/drift.go:464-481 | in every reachable state each reference to a row that still exists stays in the referring row's organization, and the next step leaves all rows of other organizations as they are |
| Linkage.LinkedFields | backend/internal/api/drift.go:464-481 | the same field by field: a connection whose config holds a non-blank ci_source_id of an existing CI source, a schedule whose target names an existing connection or source, and a run or record linked to an existing row have that row's organization |
| Linkage.StepFine | backend/internal/api/schedules.go:264-322 | every step of every handler keeps the ownership invariant and touches only its own organization's rows |
| Linkage.CommitFine | backend/internal/api/schedules.go:184-227 | so does the write after the checks, whatever happened in between |
| Linkage.CheckFine | backend/internal/api/dispatch_ownership.go:102-141 | a load that succeeds under an organization's scope finds a row that organization owns |
| Linkage.DeleteFine | backend/internal/db/migrations/000004_drift.up.sql:18-21 | deleting a row and nulling what refers to it changes only rows of its own organization |
| Linkage.RowDeleted | backend/internal/db/migrations/000004_drift.up.sql:18-21 | a delete takes one row; the links that runs and records have to it through a key of its table become null, and nothing else changes |
| Linkage.MakeRunFine | backend/internal/api/drift.go:732-762 | a dispatched run refers only to rows of the dispatching organization |
| Linkage.DispatchBegins | backend/internal/api/ci_sources.go:830-861 | what a dispatch loads before it writes anything: first its connection, then exactly the sources its items name |
| Linkage.FireDispatches | backend/internal/api/schedules.go:35-64 | a schedule that fires dispatches its own target in its own organization |
| Linkage.RunMade | backend/internal/api/drift.go:732-762 | the run a dispatch inserts next: its item's source and key, through the target's connection, under the dispatching organization |
| Linkage.RunRefused | backend/internal/api/drift.go:746-762 | an insert whose connection or source is gone fails the still-dispatched runs made so far, changes no other row and ends the dispatch |
| Linkage.WriteRecordFine | backend/internal/db/repositories/callback_root_scope.go:616-655 | the record statements, keyed by source and not by organization, reach only records of the source's organization |
| Linkage.RecordMade | backend/internal/db/repositories/callback_root_scope.go:616-655 | with a finding, a state without a live record gets an open one of its source's organization; one with a live record has that one touched, which keeps stage and organization |
| Linkage.RecordClosed | backend/internal/db/repositories/callback_root_scope.go:616-655 | without one, exactly the state's live records in scope are resolved |
| Linkage.PostFine | backend/internal/api/drift.go:1049-1099 | a callback writes only its own run and queues a record write under the run's organization |
| Linkage.RequestsBegin | backend/internal/api/drift_records.go:540-617 | a pushed result queues an observation of its source in that source's organization; a request on a record moves exactly a record in scope whose status allows it |
| Linkage.ResultPosted | backend/internal/api/drift.go:1038-1087 | an accepted callback sets the run's status, completed if it gave none, and queues an observation of the run's own source and key under its organization exactly if it has a source |
| Linkage.DispatchStaysHome | backend/internal/api/ci_sources.go:830-861 | before it creates a run, a dispatch has loaded its connection, every source and the CI source of its credential, each from its own organization |
| Linkage.CredentialIsTheConnections | backend/internal/api/ci_sources.go:838-856 | that CI source is the one the connection named when it was loaded |
| LinkageHandlers.Store.TargetReferencesInOrganization | backend/internal/api/schedules.go:422-462 | true exactly when every reference of the target loads under the organization |
| LinkageHandlers.Store.CheckAll | backend/internal/api/schedules.go:422-462 | checking reference by reference either completes or drops the handler at the first miss, changing no row |
| LinkageHandlers.ConfigLoads | backend/internal/api/drift.go:464-481 | a config's references check out exactly if a non-blank ci_source_id, if there is one, is a CI source of the organization |
| LinkageHandlers.TargetLoads | backend/internal/api/schedules.go:422-462 | a target's references check out exactly if its connection, if any, and each source its items name are the organization's |
| LinkageHandlers.Store.CreateSchedule | backend/internal/api/schedules.go:184-227 | the row is created exactly when its connection, if any, and every source of its items are the organization's, else nothing changes |
| LinkageHandlers.Store.UpdateSchedule | backend/internal/api/schedules.go:264-322 | the row is updated exactly when the caller reaches it and its connection and sources are the row's organization's |
| LinkageHandlers.Store.CreatePipeline | backend/internal/api/drift.go:180-187 | the connection is created exactly when its config holds no non-blank ci_source_id or that is a CI source of the organization, else nothing changes |
| LinkageHandlers.Store.UpdatePipeline | backend/internal/api/drift.go:243-257 | the connection is updated exactly when the caller reaches it and its non-blank ci_source_id, if any, is a CI source of the row's organization |
| Coverage.ScheduledStateKeys | backend/internal/api/drift_coverage.go:219-239 | the keys that enabled drift schedules target at the source |
| Coverage.ScopesAgree | backend/internal/api/drift_coverage.go:294-327 | two scopes that permit a source's organization see the same runs, live records and scheduled keys of it |
| Coverage.JoinForEveryone | backend/internal/api/drift_coverage.go:52-64 | a join read under one such scope is a join of the other, at the same moments |
| Coverage.JoinSays | backend/internal/api/drift_coverage.go:52-64 | what a join holds, over the tables alone: the newest run of each state of the source that has one, all its unresolved records, and the non-empty keys that enabled schedules target, whoever read it |
| Coverage.CoverageCache.Coverage | backend/internal/api/drift_coverage.go:288-327 | no access, no answer; a hit is a join of the caller's own from reads that ended at most 60 s ago; a miss is the caller's reading, stored under the moment the fill ended; a failing read stores nothing |
| Coverage.RunsAreLawful | backend/internal/api/drift_coverage.go:288-327 | every run of the drift API is a history the cache result applies to |
| Coverage.FreshIffFillIsInstant | backend/internal/api/drift_coverage.go:78-92 | for every fill duration d: over all histories, callers and answers served in an entry's life, each matches a join of the caller's own of the last 60 s if and only if d is 0 |
| Coverage.AnswerLate | backend/internal/api/drift_coverage.go:78-92 | for every d > 0, two requests on the cache of which the second gets an answer that no join of the 60 s before it gives |
| Dispatch.Dispatcher.DispatchDriftBatch | backend/internal/api/drift.go:655-843 | error, table, batch and CI inputs of a dispatch, for every failure on the way |
| Dispatch.Dispatcher.CreateRuns | backend/internal/api/drift.go:732-775 | one row, id, token and variable per item up to the first refused insert |
| Dispatch.ErrorLeavesAllFailed | backend/internal/api/drift.go:746-822 | if failure updates persist, every row of a failed dispatch is failed; its token is gone exactly for a fan-out |
| Dispatch.NewRowsExactlyWhen | backend/internal/api/drift.go:668-762 | a dispatch leaves new rows exactly when connection, fan-out rights, every source and the credential are there and the first insert is accepted |
| Dispatch.SucceedsExactlyWhen | backend/internal/api/drift.go:655-822 | when a dispatch succeeds, and when each of its errors comes out, over the target's items and what was met on the way |
| Dispatch.LostFailureUpdate | backend/internal/api/drift.go:609-620 | when the failure update does not persist, the rows that were inserted stay dispatched with their tokens |
| Dispatch.SuccessRow | backend/internal/api/drift.go:732-762 | the row of each item, field by field, with the CI link if there is one and it persists |
| Dispatch.SuccessIsComplete | backend/internal/api/drift.go:732-843 | success leaves exactly one dispatched row per item, with that item's source, key and directory, a token no other row has, and a shared batch id exactly for two or more |
| Dispatch.SentFitsRows | backend/internal/api/drift.go:732-843 | what caller and CI job are told fits the rows: batch id, run ids in item order, and the first row's id, token and directory as the older inputs; a single run goes by its own id and sends no targets |
| Dispatch.OldRowsKept | backend/internal/db/repositories/drift_repository.go:300-324 | no dispatch touches a row that was there before |
| Dispatch.VariablesMatchRows | backend/internal/api/drift.go:769-774 | for valid targets each item's variable carries the token its own row stores |
| Dispatch.OwnTokenIffDistinct | backend/internal/api/drift.go:769-774 | each name carries its own item's token exactly when the names are distinct |
| Dispatch.OneItemIsSingle | backend/internal/api/drift.go:441-446 | one item in targets dispatches exactly as the older single shape |
| Callback.AppliedAtMostOnce | backend/internal/api/drift.go:1025-1099 | over all interleavings at most one post to a run gets past consumption, no kind of effect happens twice, and blank tokens or organizations never get there |
| Callback.ClearedForGood | backend/internal/db/repositories/drift_repository.go:330-341 | a run without a token never has one again, and nobody else ever gets past consumption |
| Callback.ConsumeStep | backend/internal/db/repositories/drift_repository.go:330-341 | the compare-and-clear lets through only the first of those who loaded the token |
| Callback.AuthenticateCallback | backend/internal/api/callback_authority.go:82-97 | a scope is conferred exactly for a non-empty matching token of a run with id and organization, and permits that organization alone |
| Callback.TokenOpens | backend/internal/api/drift.go:997-1036 | a post gets past consumption exactly if what it presents, the trimmed header or else the body's token, is non-empty and stored by a run with id and organization |
| Callback.FailureAndTokens | backend/internal/db/repositories/drift_repository.go:283-324 | a run failed with its batch, or expired, accepts no callback; one failed alone still does, by header or body |
| Callback.FailureMeans | backend/internal/db/repositories/drift_repository.go:283-324 | batch failure and expiry take status and token of still-dispatched runs, run by run; single failure the status alone; no other run changes |
| Callback.PostApplies | backend/internal/api/drift.go:1038-1099 | a post past consumption, let on alone, applies result, record and provenance once each in that order and leaves the run without its token |
| Records.LedgerInvariant | backend/internal/db/migrations/000013_drift_records.up.sql:31-38 | over every interleaving of callbacks, pushes (found, looked up and written in separate steps), requests and deletions: at most one live record per (source, key), one holder per external reference, severity critical exactly when something is destroyed, truncation and acknowledgement consistent |
| Records.Lifecycle | backend/internal/api/drift_records.go:83-125 | statuses only move forward, an acknowledgement is kept, and a live record closes exactly by a manual resolve or a completed, readable, finding-free result |
| Records.RunLifecycle | backend/internal/api/drift_records.go:304-361 | over any stretch of any interleaving: the same, with acknowledgement and first detection kept, and a step that may close a record behind every closing |
| Records.DetectionsCollapse | backend/internal/db/repositories/drift_record_repository.go:201-275 | a detection on a state with a live record updates that record alone: status, acknowledgement and first detection stay, the observation is replaced, absent links do not erase present ones |
| Records.CallbackCounts | backend/internal/api/drift_records.go:83-125 | a completed callback about an existing source with drifted set or a positive infra sum leaves a live record of its state last seen now, in the status it had or open; a readable one with neither leaves none; an unreadable one changes nothing |
| Records.PushCounts | backend/internal/api/drift_records.go:295-361 | the same for an uninterrupted push whose reference is free |
| Records.BodiesSettle | backend/internal/api/drift.go:1038-1045 | drifted of a body without a plan: the explicit flag, else positive counts, and for a push also a summary longer than two characters |
| Records.PlansSettle | backend/internal/api/drift_records.go:235-300 | a push with a plan is refused exactly if the plan cannot be read; else the plan gives counts, summary and marks, while an explicit flag and explicit infra changes win |
| Records.DetectionOpens | backend/internal/db/repositories/drift_record_repository.go:201-275 | a detection on a state without a live record opens one, with what was observed |
| Records.SourceDeleted | backend/internal/db/migrations/000013_drift_records.up.sql:10 | deleting a source takes it off its records, which keep everything else |
| Records.UpsertInv | backend/internal/db/repositories/drift_record_repository.go:201-275 | the upsert keeps both unique indexes |
| Records.ReplayIsRecognised | backend/internal/api/drift_records.go:229-235 | whatever runs between its look-up and its write, a push with a finding changes nothing exactly when the look-up succeeded and saw a holder, or at the write the source is gone or a record other than the live one holds the reference |
| Records.UninterruptedPush | backend/internal/api/drift_records.go:218-361 | what the three steps of a push amount to when nothing comes between |
| Records.RetriesCountedAgain | backend/internal/db/repositories/drift_record_repository.go:241 | retries that are counted again: after an overwritten reference, after a failing look-up, and when two pushes look up before either writes |
| Records.SettlementsAgree | backend/internal/api/drift_records.go:255 | when the two producers decide drifted alike, exactly |
| Records.LedgerIsItsActs | backend/internal/api/drift_records.go:60-62 | in every interleaving the ledger is what the writes and requests make of it, both producers writing through one function of what they observed |
| Records.TwinsActAlike | backend/internal/api/drift_records.go:83-125 | the same observation by either producer takes alike ledgers to alike ledgers |
| Records.MixedRunsAgree | backend/internal/api/drift_records.go:295-361 | runs with the same observations, each by either producer, and the same requests end alike up to origin, links and references, however their pushes interleave, as long as no write is refused for its reference |
| RecordHandlers.RecordLedger.UpsertDetection | backend/internal/db/repositories/drift_record_repository.go:201-275 | the ledger after an upsert, and the record the caller gets, also when the reference is taken |
| RecordHandlers.RecordLedger.ResolveClean | backend/internal/db/repositories/drift_record_repository.go:295-305 | closes the live record of the state and says whether there was one |
| RecordHandlers.RecordLedger.RecordDriftOutcome | backend/internal/api/drift_records.go:83-125 | the callback's ledger step: a finding, by drifted or infra counts, leaves a live record, a readable result without one leaves none |
| RecordHandlers.RecordLedger.IngestDrift | backend/internal/api/drift_records.go:182-375 | an uninterrupted push: its ledger step and answer (missing source, replay, unreadable plan, clean, recorded, told apart by drifted and infra counts), also when the look-up fails |
| RecordHandlers.RecordLedger.AcknowledgeDriftRecord | backend/internal/api/drift_records.go:540-585 | acknowledges exactly an open record, with a note of at most 1000 bytes |
| RecordHandlers.RecordLedger.ResolveDriftRecord | backend/internal/api/drift_records.go:588-617 | closes exactly a record that is not closed |
| Membership.ResolveGroupMappings | backend/internal/api/auth.go:829-853 | desired, managed and all matching roles of a user, for every mapping list |
| Membership.FirstMatchWins | backend/internal/api/auth.go:806-811 | a matching mapping with no match before it gives the desired role |
| Membership.DesiredComesFromFirst | backend/internal/api/auth.go:806-811 | and every desired role comes from such a mapping |
| Membership.AppendingKeepsDesired | backend/internal/api/auth.go:806-811 | appending mappings never changes a role already desired |
| Membership.PreservedMeans | backend/internal/api/auth.go:914-950 | an organization is left untouched exactly when some matching mapping names a refused role |
| Membership.OrderDoesNotMatter | backend/internal/api/auth.go:813-828 | permuting the mapping list changes neither managed nor untouched organizations |
| Membership.Memberships.ReconcileManagedMemberships | backend/internal/api/auth.go:895-1018 | for every iteration order: on success the pointwise closed form, but for managed organizations whose lookup failed, which stay as they were; on failure each organization is as before or as the closed form wants |
| Membership.SkippedLookups | backend/internal/api/auth.go:898-902 | a successful login leaves the closed form exactly when no failed lookup hits an organization that had to change |
| Membership.Memberships.ReconcileOne | backend/internal/api/auth.go:897-987 | one organization settled, or left alone if its lookup fails, all others untouched |
| Membership.OrderFree | backend/internal/api/auth.go:897 | the closed form determines the memberships |
| Membership.Idempotent | backend/internal/api/auth.go:895-1018 | reconciling twice is reconciling once |
| Membership.WhatALoginChanges | backend/internal/api/auth.go:855-874 | in terms of the mapping list: an organization no mapping names keeps what it had, the default one being joined exactly if no mapping is for a group of the user; one that is named but not matched is left; one with a refused match or that does not exist stays; any other gets the role of its first match |
| Reports.SplitExactly | backend/internal/api/reports.go:108-192 | SQL part and residual part together are the whole filter exactly for rows that no dropped bound would exclude |
| Reports.WantedByFields | backend/internal/api/reports.go:108-192 | which rows a filter wants, over its fields: source ids, substrings, the sign of the version comparison for each operator, every count between its bounds |
| Reports.SelectKeepsOrder | backend/internal/api/reports.go:174-192 | a selection stands at increasing positions, which are exactly those of the rows that satisfy the predicate |
| Reports.PushdownPreservesMeaning | backend/internal/api/reports.go:108-192 | for stored counts, pushing down and filtering afterwards selects exactly the wanted rows in order |
| Reports.FastPathSound | backend/internal/api/reports.go:288-311 | without residual predicates the WHERE clause alone does |
| Reports.AnalysesAreWellCounted | backend/internal/analyzer/analyzer.go:134-136 | every analysis has counts for which the dropped bounds are sound |
| Reports.Store.ReportStates | backend/internal/api/reports.go:269-329 | total, sums, truncation flag and first 500 rows over the wanted rows in scope, on both paths |
| Reports.AnsweredRows | backend/internal/api/reports.go:269-329 | a report is on the wanted rows of the organizations in scope and on no others |
| Reports.ReportSays | backend/internal/api/reports.go:288-329 | total and sums count every match, the flag says whether there are more than 500, and the states are the first 500 |
| Reports.Store.PreviewStatesWithTotals | backend/internal/db/repositories/state_analysis_repository.go:502-544 | the page and the totals of the whole match, zero when the page is empty |
| Reports.Store.ApplyResidual | backend/internal/api/reports.go:174-192 | keeps the rows that satisfy the residual predicates, in order |
| Reports.SqlFilter | backend/internal/api/reports.go:108-161 | builds, bound by bound, the query that `SplitExactly` is about |
| Overview.KeyIsScope | backend/internal/api/dashboard.go:69-76 | for plain ids two callers share a key exactly when both are administrators or their ids agree up to order |
| Overview.CallerSees | backend/internal/api/dashboard.go:69-76 | the states an aggregation is over: all of them for an administrator, else those in an organization of the caller's |
| Overview.KeyCollisions | backend/internal/api/dashboard.go:69-76 | an id with a comma, or an empty one, breaks that |
| Overview.OverviewCache.OverviewAggregates | backend/internal/api/dashboard.go:85-121 | a hit is the aggregates of the caller's own organizations under the same sync key, from queries that ended less than 30 s ago; a miss is the caller's own, stored under the moment the queries ended in a map that was emptied at 64 entries; a failing query stores nothing |
| Overview.FreshIffQueriesAreInstant | backend/internal/api/dashboard.go:78-119 | for every duration d: over all stores, callers and answers served in an entry's life, each is an aggregation of the last 30 s if and only if d is 0 |
| Overview.AnswerLate | backend/internal/api/dashboard.go:85-121 | for every d > 0, two loads of which the second gets an answer that no aggregation of the 30 s before it gives |
| Overview.DistributionsAreSums | backend/internal/db/repositories/state_analysis_scope.go:69-105 | per key, the provider, type and version distributions are sums over the states in scope |
| Overview.AggregatesSay | backend/internal/api/dashboard.go:85-121 | what an aggregation says of a label: those sums over the states in the caller's scope at the moment each of its queries ran |
| Overview.OneMoreState | backend/internal/db/repositories/state_analysis_scope.go:69-105 | one more state adds its own provider and type counts and one to its version, or to unknown |
| Overview.VersionsCountEveryState | backend/internal/db/repositories/state_analysis_scope.go:95-105 | the version counts add up to the number of states |
| Overview.TopCounts | backend/internal/api/dashboard.go:400-415 | the first entries of the one sorted list |
| Analyzer.Analyze | backend/internal/analyzer/analyzer.go:94-140 | one pass computes the analysis that `AnalysisConservesCounts` and `TallyMeaning` are about, or rejects the document |
| Analyzer.AcceptedExactly | backend/internal/analyzer/analyzer.go:94-112 | a document is rejected exactly if it has no version, no lineage and no resource in either layout; any other keeps its header |
| Analyzer.AnalysisConservesCounts | backend/internal/analyzer/analyzer.go:113-139 | each breakdown sums to managed; managed + data is every instance; 0 <= RUM <= managed |
| Analyzer.TallyMeaning | backend/internal/analyzer/analyzer.go:127-129 | a label is listed exactly when it has managed instances, with their number |
| Analyzer.OneMoreCounted | backend/internal/analyzer/analyzer.go:113-139 | what one more resource adds to total, managed, data and RUM: placeholders count as managed but not for RUM |
| Analyzer.OneMoreListed | backend/internal/analyzer/analyzer.go:127-129 | ...and its managed instances to the counts of its type, its provider and its module, and to no other |
| Analyzer.NothingToCount | backend/internal/analyzer/analyzer.go:113-139 | ...starting from nothing |
| Analyzer.BreakdownIsUnique | backend/internal/analyzer/analyzer.go:267-279 | there is one list sorted by count then key |
| Analyzer.BreakdownOrder | backend/internal/analyzer/analyzer.go:267-279 | it runs from the largest count down, by label where counts are equal, with no label twice |
| Analyzer.SortedCounts | backend/internal/analyzer/analyzer.go:267-279 | it is produced whatever order the map is read in |
| Analyzer.NormalizeLegacy | backend/internal/analyzer/analyzer.go:190-231 | the fold, whatever order the maps are read in |
| Analyzer.NormalizationMeaning | backend/internal/analyzer/analyzer.go:190-231 | idempotent, a no-op on v4, and total instances = non-null primaries + deposed |
| Analyzer.FoldKeepsInstances | backend/internal/analyzer/analyzer.go:211-229 | the fold loses and invents no instance |
| Analyzer.FoldedEntry | backend/internal/analyzer/analyzer.go:200-229 | the resource an entry [data.]type.name turns into, also when its explicit type differs from the one in its key: module, mode, type, name, provider and instances |
| Analyzer.ListResources | backend/internal/analyzer/resources.go:26-54 | a sorted permutation of the resources whose instance sums agree with the analysis by mode |
| Analyzer.ListedInOrder | backend/internal/analyzer/resources.go:26-54 | its order: module, then type, then name |
| Analyzer.SummaryFields | backend/internal/analyzer/resources.go:26-54 | the entry of each resource field by field, with the keys of the instances that have one, in order |
| Names.KeyParsing | backend/internal/analyzer/analyzer.go:250-264 | mode, type and name of [data.]type.name are recovered, exactly unless it is a managed resource of type data |
| Names.RegistryProvider | backend/internal/analyzer/analyzer.go:146-164 | a registry reference counts under namespace/name |
| Names.AliasedProvider | backend/internal/analyzer/analyzer.go:158-171 | a 0.11 reference counts under its provider type, whatever the alias |
| Names.MissingProvider | backend/internal/analyzer/analyzer.go:173-176 | without a reference a resource counts under what stands before the first underscore of its type |
| Names.ModuleLevels | backend/internal/analyzer/analyzer.go:236-245 | each level of a 0.11 module path below the root adds its name |
| Diff.DiffResources | backend/internal/api/edit.go:476-505 | computes the delta that the lemmas below are about, entries in list order |
| Diff.KeyIsIdentity | backend/internal/api/edit.go:477-480 | the joined key is the identity for fields without NUL |
| Diff.KeyCollision | backend/internal/api/edit.go:477-480 | with a NUL it is not |
| Diff.PrintedTells | backend/internal/api/edit.go:497 | printed key lists tell the lists apart if no key is empty or holds a space, and not otherwise |
| Diff.DeltaMembers | backend/internal/api/edit.go:488-503 | what is added, changed and removed, by identities and views alone |
| Diff.PatchGivesProposed | backend/internal/api/edit.go:470-475 | dropping removed, replacing changed and adding added turns current into proposed |
| Diff.EmptyDiff | backend/internal/api/edit.go:470-475 | the diff is empty exactly when both look alike |
| Diff.EmptyDiffByFields | backend/internal/api/edit.go:470-475 | for such keys: nothing is reported exactly if both states have the same blocks with the same instance counts and keys |
| Diff.SwapExchanges | backend/internal/api/edit.go:470-475 | swapping the arguments exchanges added and removed and keeps the changed identities |

## Left out

- Backup, run and record retention (`PruneBackups`, `PruneRuns`, `PruneResolved`), stale-lock reaping and lock heartbeats: background sweeps with their own schedules.
- Two sources that name the same physical object: cells are told apart by (source, key), as the lock table does.
- Native backend locks: one exclusive lock per cell stands for both lock tables.
- The edit ledger, transfer ledger and audit entries: written beside the effects, read by none of them.
- Decoding of JSON bodies and state files: documents start parsed, an index key is its printed text.
- StateHandlers.DeleteState: a purge that fails is reported as a delete all the same, as in the code; that the audit entry says so is not modelled.
- Linkage: record rows carry only their references and status, because the ledger's content is the subject of `Records`; `last_run_id` of a schedule is not a row reference there.
- Linkage.LinkageHolds: a callback is taken to be authenticated, since `Callback` says when it is; databases that predate the checks and re-owned organizations are not reachable.
- Records: the caller's scope is not repeated in the ledger, since `Linkage` shows that a record's organization is its source's.
- Coverage rows and the summary chips computed from a join, and the fleet summary: single-loop counting.
- Module provenance in a callback is one effect that happens at most once; what it stores is not modelled.
- The health-lab callback: the same one-shot protocol with less behind it.
- Membership.Memberships.ReconcileManagedMemberships: a membership that vanishes between the check and the write (`idstore.ErrNotFound`) is not modelled; credential sweeps after a change are not either.
- Reports: the database's `lower` and Go's `strings.ToLower` are taken to be one case folding; parsing of the query string, the structured description of a filter, and the export renderers; the projection of a preview row drops columns only.
- Reports.Store: the order of rows with equal source name and key is whatever the given sequence has.
- Overview.OverviewCache.OverviewAggregates: the newest sync time is the caller's argument; that it changes with every sync is not modelled.
- Analyzer.ListResources: rows that tie on module, type and name may come out in either order, as the library sort allows.
- Drift counts and infra counts are unbounded integers; a sum of three that overflows int64 is not modelled.
- HTTP status codes, Swagger comments, logging, notifications, connectors, encryption, CI templates, SSO protocols and the UI: plumbing without state of the kind modelled here.
