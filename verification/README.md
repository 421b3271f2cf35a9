# Agreement intelligence: verified model

A Dafny model of the parts of the agreement-intelligence platform whose correctness is hard to see by
reading: durable deletion across many workers, chunking and indexing of analysed documents, the immutable
final review package, the text scanners that guard answers, and two accounting objects.
`dafny verify dfyconfig.toml` checks everything.

## The systems

**Durable deletion.** Tables are maps (`DeletionTables`), every database transaction is a function on them,
and the same transactions are methods of an updating `DeletionRepository` proved equal to those functions.
`DeletionProcessor` holds the loops `handle` and `sweep_once`. `DeletionProtocol` puts any number of workers,
sweepers and API calls side by side: one transaction is one step, while storage deletes, enqueues and lost
transactions are steps of their own, so a crash is a step that never comes. The source delete is two steps,
the EXISTS query and the end of its transaction, because it does not lock everything it reads: only what takes
the lock of its key, request or item is kept out in between. Each step carries its own clock reading, which
may lag. The steps of the API are modelled as they are: `POST /agreements` lists any files and makes the last
one a version under the key lock and the registry check; a later version replaces the list; archive and
restore write back the list they had read; acceptance inventories the version rows and the list as it was
read; uploads, redrive and the late artifacts of the processing worker complete them. Invariants live in one
module each (`DeletionRows`, `DeletionDelivery`, `DeletionLedger`, `DeletionInventory`, `DeletionOwnership`,
`DeletionSafety`, `DeletionSharing`); `DeletionRuns` joins them and states the theorems about requests over
every run, `DeletionRescue` and `DeletionCompletion` say what can still happen from any state,
`DeletionSources` is about stored objects, `DeletionLease` about how long a worker keeps its deletion,
`DeletionCrash` has the runs that go wrong. `DeletionApi` has the API's own transactions, column by column.

A claim that finds its request row locked skips it (`SKIP LOCKED`) and its message is acknowledged. Whoever
held the row and commits leaves it in no need of that message, and the skip counts as coming after the commit;
`claim_due_outbox` holds it too, since its query locks both rows of the join. A holder that rolls back has
changed nothing, so that the message is lost: such a skip is a step of its own, at any time, and is recorded.

**Chunks and index.** `Text` gives Python's `split`, `join` and `strip`; `Chunking` the group and window
loops; `ChunkProperties` what they promise; `PageLayout` the page blocks, offsets and anchors upstream.
`IndexTables`, `IndexSink` and `EmbeddingSink` are the two writers of the retrieval tables, statement by
statement, each statement demanding what the schema's constraints demand; `IndexRuns` is every run of them
with deletions in between.

**Final packages.** `PdfWriter` is the byte printer, `PdfReader` an independent reader that starts at
`startxref` (ISO 32000-1 sections 7.5.4, 7.5.5, 7.3.8 and 7.3.4.2), `PdfRoundTrip` joins them, `PdfFile` spells
the file out byte for byte. `FinalPackage` holds `prepare`, the migration's backfill and its trigger;
`PackageGenerator` the commit as it writes objects and rows; `PackageRuns`, `PackageConvergence` and
`PackageRepairs` every interleaving of commits with crashes.

**Scanners.** `SentenceSplitter`, `Grounding` and `Guardrails`: loops over text proved against declarative
splits, and what an accepted answer is worth.

**Accounting.** `Limits` (the fixed-window fallback) and `Usage` (the monthly ledger).

## Readings and assumptions

- One tenant per set of tables; row identifiers are numbers or textual UUIDs, times are integers (reals in
  `Limits`). A deletion request shares its identifier with its agreement. Rendered identifiers hold no slash.
- SHA-256, JSON, case folding, regular expressions and Base64 decoding are function parameters. Identity
  theorems ask for an injective digest; grounding asks that folding maps white space to itself and every other
  character to a non-empty word.
- The canonical JSON of a manifest is a function of its content, so it survives storage in the outbox.
- Model providers, clocks and fresh identifiers are inputs of the steps that use them.
- The outbox lease that `mark_outbox_delivered` checks is a token, and every token, ticket and message
  identifier is unused before it is issued.

## Where the code differs from what one would expect

- A message that is skipped for a transaction which then rolls back (a late artifact, say) can leave a waiting
  request without any message (`DeletionCrash.SwallowedMessageStrands`). Nothing else does
  (`DeletionRescue.StrandedBySwallowing`). `DeletionRescue.ReclaimableExactly` is the exact condition: workers and
  sweepers can take a waiting request up again if and only if its outbox row is undelivered, or a message of it
  is queued or still to be sent; otherwise only another late artifact helps.
- A storage delete is not undone when its transaction is lost. The registry row then still says "available",
  and a new version may refer to an object that is gone (`DeletionCrash.TornDeleteStrandsReference`). The
  exact condition is `DeletionSources.LiveSourceExactly`: without a new upload, a live agreement keeps the
  object of its version if and only if the object was stored to begin with.
- A file that is listed without being a version takes no lock and no registry check. It can be listed between
  the query of a source delete and the removal, and is lost although it was stored
  (`DeletionCrash.ListedFileIsLost`). `DeletionSources.ListedSourceExactly` is the exact condition: it stays
  for as long as it is listed, in every run, if and only if no source delete of its key that found nobody is
  under way at the start.
- A file that a later version replaced is in no inventory: create an agreement with two files, add a version,
  delete it, and the first file stays stored for ever (`DeletionCrash.ReplacedFileLeaks`,
  `DeletionSources.UnheldStays`). `DeletionSources.LastSharerDecides` is the exact condition: the object goes
  with its last sharer if and only if that agreement still held the key when its deletion was accepted.
- `completed` is not absorbing: a late artifact of the processing worker reopens the request
  (`DeletionCrash.LateArtifactReopens`). `DeletionRuns.TerminalLeavesExactly` says what leaves a terminal
  state and that nothing else does. Purged rows never come back, and each retry cycle still has one terminal
  event.
- The keys of repaired packages have seven parts and are refused by every category of the deletion's key
  check (`PackageRecovery.PackageKeyIsOwned`), so a deletion that inventoried one never completes
  (`PackageRecovery.RepairedPackageBlocksDeletion`). `DeletionCompletion.CompletableExactly` is the exact
  condition: some continuation completes a request if and only if neither its inventory nor an artifact intent
  still to be inventoried holds a key that is not owned.
- A printed line with a carriage return reads back with a line feed in its place, and only such lines differ
  (`PdfRoundTrip.PdfReadsBack`).
- A second embedding run is idle exactly when every answer named the active model; a provider that reports
  another model name is asked for every chunk again (`EmbeddingSink.SecondRunIsIdle`,
  `EmbeddingSink.OtherNameIsAskedAgain`).
- The limiter reads the clock before it takes its lock. `Limits.AnyRate` and `Limits.RateIsAttained` give the
  sharp bound when readings may lag; `Limits.RateHoldsExactly` says when k windows never see more than k + 1
  limits: exactly when the limit is 1, when readings are in order, or when the limit is 2 and no reading lags
  by more than a window.
- `settle_usage` does not look for a cancelled row, so settling one can break the budget even when every
  charge stays within its estimate (`Usage.SettlingACancelledRowOverspends`). `Usage.BudgetHoldsExactly` is the
  exact condition over runs: the budget holds throughout if and only if every settlement fits.

## Model

| member | source | states |
|---|---|---|
| DeletionKeys.PartsRoundTrip | apps/worker/src/agreement_intelligence_worker/agreement_deletion.py:1109 | Splitting a key at "/" loses nothing: rejoining the parts gives the key, so two keys with equal parts are equal |
| DeletionKeys.OwnedKeysAreDisjoint | apps/worker/src/agreement_intelligence_worker/agreement_deletion.py:1108-1153 | A key the validator accepts for one category is accepted for no other, and an analysis key for no other agreement, so a derived-object delete never hits a source of any tenant |
| DeletionKeys.RecoveryKeysAreRefused | apps/worker/src/agreement_intelligence_worker/agreement_deletion.py:1146-1155 | A key of seven parts headed "reviews" is refused in every category |
| DeletionKeys.SourceKeysAre | apps/worker/src/agreement_intelligence_worker/agreement_deletion.py:1115-1121 | The owned source keys are exactly tenants/<org>/workspaces/<ws>/documents/<64 hexadecimal digits>/original.pdf or .docx |
| DeletionKeys.ComparisonKeysAre | apps/worker/src/agreement_intelligence_worker/agreement_deletion.py:1139-1145 | The owned comparison keys are exactly comparisons/<uuid>/version-comparison.v1.json |
| DeletionKeys.AnalysisKeysAre | apps/worker/src/agreement_intelligence_worker/agreement_deletion.py:1122-1138 | An owned analysis key is the one the document processor builds for this agreement, with a SHA-256 checksum |
| DeletionKeys.ReviewKeysAre | apps/worker/src/agreement_intelligence_worker/agreement_deletion.py:1146-1153 | An owned package key is reviews/<org>/<ws>/<uuid>/final-package/manifest.json or report.pdf, as its category says |
| DeletionKeys.AnalysisKeyIsOwned | apps/worker/src/agreement_intelligence_worker/document_processor.py:217-223 | The key the document processor builds for an analysis passes the deletion's key check exactly when it names a SHA-256 checksum |
| PackageRecovery.PackageKeyIsOwned | apps/worker/src/agreement_intelligence_worker/agreement_deletion.py:1143-1153 | The keys the package generator builds pass the deletion's key check exactly when the package is no repair and its review id is a UUID |
| PackageRecovery.RepairedPackageBlocksDeletion | apps/worker/src/agreement_intelligence_worker/agreement_deletion.py:247-266 | In every reachable state, a deletion that inventoried an object of a repaired package is not completed |
| DeletionTables.BackOffIsMonotone | apps/worker/src/agreement_intelligence_worker/agreement_deletion.py:207-219 | The retry delay never decreases with the attempt and stays between 2 and 300 seconds |
| DeletionTables.DelaysDouble | apps/worker/src/agreement_intelligence_worker/agreement_deletion.py:207-219 | The delay starts at two seconds and doubles until it stays at 300; a cycle has five attempts |
| DeletionRepository.DeletionRepository.TakeClaim | apps/worker/src/agreement_intelligence_worker/agreement_deletion.py:347-401 | A claim is granted exactly to a request that is due and waiting or expired; it spends one attempt, names the token, holds a lease of 120 seconds, keeps the first start and clears the failure |
| DeletionRepository.DeletionRepository.PendingObjects | apps/worker/src/agreement_intelligence_worker/agreement_deletion.py:403-424 | Exactly the pending items of a current claim, in increasing order; nothing after the claim is lost |
| DeletionRepository.DeletionRepository.DeleteSourceIfUnreferenced | apps/worker/src/agreement_intelligence_worker/agreement_deletion.py:426-518 | A lost claim raises and changes nothing; an item that is not pending, or not there, is left alone; a storage failure rolls back; otherwise the object goes exactly when no live agreement lists it and no newer upload is on record, the item closes accordingly, and the lease is renewed to 120 seconds from now |
| DeletionRepository.DeletionRepository.Finish | apps/worker/src/agreement_intelligence_worker/agreement_deletion.py:915-940 | Closing an item touches only a pending item of this deletion, and sets the lease of the claim that closes it, and of no other request, to 120 seconds from now |
| DeletionRepository.DeletionRepository.MarkDeleted | apps/worker/src/agreement_intelligence_worker/agreement_deletion.py:520-526 | Closes the item under a current claim and renews its lease to 120 seconds from now, raises without change otherwise |
| DeletionRepository.DeletionRepository.Retry | apps/worker/src/agreement_intelligence_worker/agreement_deletion.py:528-571 | Only the current claim moves its request to retrying, and the outbox row is re-armed with its lease cleared |
| DeletionRepository.DeletionRepository.Fail | apps/worker/src/agreement_intelligence_worker/agreement_deletion.py:573-616 | Only the current claim fails its request, with one audit event of the current cycle |
| DeletionRepository.DeletionRepository.CompleteAndPurge | apps/worker/src/agreement_intelligence_worker/agreement_deletion.py:736-818 | Completes and purges exactly when the claim is current, nothing is pending and every intent is reconciled; a lost claim changes nothing |
| DeletionRepository.DeletionRepository.RecoverStaleDeletions | apps/worker/src/agreement_intelligence_worker/agreement_deletion.py:692-734 | Every expired claim, and no other, returns to retrying with its outbox row re-armed |
| DeletionRepository.DeletionRepository.ClaimDueOutbox | apps/worker/src/agreement_intelligence_worker/agreement_deletion.py:824-873 | Leases the first due row by time and identifier; None exactly when no row is due |
| DeletionRepository.DeletionRepository.MarkOutboxDelivered | apps/worker/src/agreement_intelligence_worker/agreement_deletion.py:875-893 | Closes the row only under the lease it was taken with |
| DeletionRepository.DeletionRepository.ReleaseOutbox | apps/worker/src/agreement_intelligence_worker/agreement_deletion.py:895-912 | Gives the row back only under the lease it was taken with |
| DeletionProcessor.CleanItems | apps/worker/src/agreement_intelligence_worker/agreement_deletion.py:247-263 | The item loop passes, in order, exactly the pending items before the first that cannot be cleaned up, closes each as its sharing demands and removes exactly their unshared keys; it succeeds exactly when that is all of them |
| DeletionProcessor.ReachesAPrefix | apps/worker/src/agreement_intelligence_worker/agreement_deletion.py:247-263 | A pass reaches exactly the pending items up to the first whose key is not owned or whose unshared object cannot be deleted |
| DeletionProcessor.PassClosesItems | apps/worker/src/agreement_intelligence_worker/agreement_deletion.py:247-263 | The items a pass has reached are preserved when somebody else still needs the source and deleted otherwise; no other column of any row changes |
| DeletionProcessor.PassRemovesKeys | apps/worker/src/agreement_intelligence_worker/agreement_deletion.py:247-263 | A pass removes a key exactly when it reached a derived item of it, or a source item of it that nobody else needs, and records exactly those sources as gone |
| DeletionProcessor.Handle | apps/worker/src/agreement_intelligence_worker/agreement_deletion.py:238-287 | One handling completes the request exactly when every item can be removed or must be spared and every intent is settled; otherwise it is rescheduled, or failed once attempts run out, with the items before the failure closed and the rest untouched |
| DeletionProcessor.CompletionCondition | apps/worker/src/agreement_intelligence_worker/agreement_deletion.py:758-790 | After a clean pass over all items, completion depends on the intents alone |
| DeletionProcessor.SharedIsStable | apps/worker/src/agreement_intelligence_worker/agreement_deletion.py:441-493 | Removing unshared sources of one deletion does not change which of its other sources are shared |
| DeletionProcessor.SweepOnce | apps/worker/src/agreement_intelligence_worker/agreement_deletion.py:301-325 | One sweep recovers what expired and delivers every due row, earliest first; when the queue fails it releases the row in hand with back-off and stops |
| DeletionProcessor.SentRowsAre | apps/worker/src/agreement_intelligence_worker/agreement_deletion.py:308-325 | Sending spends one attempt and ends the lease; a failed one is due again after the delay of that attempt |
| DeletionApi.AgreementRepository.AcceptDeletion | apps/api/src/agreement_intelligence_api/agreements/repository.py:357-430 | Acceptance tombstones a live agreement, opens a first retry cycle due at once, and adds inventory, outbox row and audit event; anything else raises and changes nothing |
| DeletionApi.AgreementRepository.RedriveDeletion | apps/api/src/agreement_intelligence_api/agreements/repository.py:454-510 | Only a failed request is redriven: a new cycle with no attempt spent and no failure, its outbox row re-armed, one audit event of the new cycle |
| DeletionApi.AgreementRepository.InventoryLateArtifact | apps/worker/src/agreement_intelligence_worker/processing.py:1418-1517 | A late artifact reuses the row of its category and key or adds one, and sends the request back to retrying, in a new cycle exactly when it had ended, with a fresh outbox row |
| DeletionProtocol.CheckThenClose | apps/worker/src/agreement_intelligence_worker/agreement_deletion.py:426-518 | With nothing in between, the query and the end of a source delete are the one transaction of the repository, rows and store alike |
| DeletionProtocol.ReferenceStepsAre | apps/api/src/agreement_intelligence_api/agreements/repository.py:148-345 | What each API step does to references, registry and store: creation lists all files and makes the last one a version, a later version joins the versions and replaces the list, neither for a key on record as gone; an upload stores and registers its key |
| DeletionProtocol.AcceptListsWhatIsHeld | apps/api/src/agreement_intelligence_api/agreements/repository.py:302-356 | An accepted inventory lists, as pending items of its own, exactly the source keys of the version rows and of the list as it had been read |
| DeletionProtocol.GrantIs | apps/worker/src/agreement_intelligence_worker/agreement_deletion.py:347-401 | A message is granted exactly when its request is due and waiting or expired, as the next attempt under a fresh token; otherwise rows and handouts stay |
| DeletionProtocol.WorkerStorageIs | apps/worker/src/agreement_intelligence_worker/agreement_deletion.py:426-526 | Among worker steps, only the end of a source delete that found nobody and the cleanup of a derived item remove a key, exactly the one read, and only an acknowledgement takes a message away |
| DeletionProtocol.SweeperStepsAre | apps/worker/src/agreement_intelligence_worker/agreement_deletion.py:301-325 | A sweeper sends one message under each lease, naming the leased deletion, and closes or gives back the row under that lease alone |
| DeletionRows.RowsKept | apps/api/migrations/versions/20260826_0033_durable_agreement_deletion.py:138-159 | Every step of every actor keeps the lease, state and timestamp constraints of request and outbox rows and the record of who was issued what |
| DeletionDelivery.DeliveryKept | apps/worker/src/agreement_intelligence_worker/agreement_deletion.py:875-912 | Every step keeps a waiting request deliverable: it is due no later than its outbox row, and a row that is delivered or sent left a message that wakes it, unless that message was skipped for a transaction that rolled back |
| DeletionLedger.LedgerKept | apps/worker/src/agreement_intelligence_worker/agreement_deletion.py:981-1001 | Every step keeps the attempt budget and the audit count of each retry cycle |
| DeletionLedger.TerminalAbsorbsWorkers | apps/worker/src/agreement_intelligence_worker/agreement_deletion.py:942-971 | No worker step changes a completed or failed request |
| DeletionLedger.TerminalAbsorbsSweepers | apps/worker/src/agreement_intelligence_worker/agreement_deletion.py:692-734 | No sweeper step changes a completed or failed request |
| DeletionLedger.LostIsPowerless | apps/worker/src/agreement_intelligence_worker/agreement_deletion.py:942-971 | Any step under a replaced token leaves every row as it is and removes no source object |
| DeletionInventory.InventoryKept | apps/worker/src/agreement_intelligence_worker/agreement_deletion.py:915-940 | Every step keeps each inventory item backed by what was done to storage for it |
| DeletionOwnership.OwnershipKept | apps/worker/src/agreement_intelligence_worker/agreement_deletion.py:247-256 | Every step keeps that no item is closed, wiped or looked up unless its key passed the check of owned keys |
| DeletionSafety.SafetyKept | apps/worker/src/agreement_intelligence_worker/agreement_deletion.py:426-518 | Every step keeps what the lock of the key preserves of a query that found nobody, and the objects of uploads newer than every acceptance |
| DeletionSharing.SharingKept | apps/worker/src/agreement_intelligence_worker/agreement_deletion.py:426-518 | Every step keeps a preserved key answered for by a later sharer or a later upload, the inventory of an accepted deletion equal to the keys it held, and purged agreements empty |
| DeletionRuns.InvariantOverRun | apps/worker/src/agreement_intelligence_worker/agreement_deletion.py:342-1105 | All invariants hold in every state of every run |
| DeletionLease.ClosingRenewsTheLease | apps/worker/src/agreement_intelligence_worker/agreement_deletion.py:915-940 | Closing an item under a current claim at time n, deleted or preserved, sets its lease to n + 120 and moves no other request |
| DeletionLease.NobodyTakesALeasedDeletion | apps/worker/src/agreement_intelligence_worker/agreement_deletion.py:692-718 | In every run, a worker that claims its deletion or closes an item of it at time n keeps it: while its own later steps and late artifacts stay away and clocks read less than n + 120, no claim and no recovery changes the request |
| DeletionRuns.NeverStranded | apps/worker/src/agreement_intelligence_worker/agreement_deletion.py:347-401 | In every reachable state a waiting request has an undelivered outbox row, or a queued message whose handling, whenever it comes, claims it, or its message was skipped for a transaction that rolled back; a processing one is recovered and due as soon as its lease expires |
| DeletionRescue.StrandedBySwallowing | apps/worker/src/agreement_intelligence_worker/agreement_deletion.py:347-375 | A waiting request without any message, queued or still to be sent, had one skipped for a transaction that rolled back |
| DeletionRescue.ReclaimableExactly | apps/worker/src/agreement_intelligence_worker/agreement_deletion.py:301-325 | From every reachable state workers and sweepers can claim an unfinished request again if and only if it is not stranded; from a stranded one nothing but a late artifact leads on |
| DeletionRuns.RowsAlwaysValid | apps/api/migrations/versions/20260826_0033_durable_agreement_deletion.py:138-159 | All CHECK constraints hold, no claim token is current for two requests, and attempts stay within five per cycle plus one for each expired lease or late artifact |
| DeletionRuns.OneTerminalEventPerCycle | apps/api/migrations/versions/20260826_0033_durable_agreement_deletion.py:55-60 | Each closed retry cycle has exactly one terminal event, the current one exactly when the request is terminal and of that kind, and no event twice |
| DeletionRuns.LostForEver | apps/worker/src/agreement_intelligence_worker/agreement_deletion.py:942-971 | Over any run a worker whose token was replaced never regains it and changes no row and no source object |
| DeletionRuns.CompletionIsSound | apps/worker/src/agreement_intelligence_worker/agreement_deletion.py:736-818 | A completed request left no pending item and none whose key is not owned; deleted items were removed from storage after they were inventoried; preserved ones are sources that somebody answers for; references, derived rows and artifact intents are gone |
| DeletionRuns.UnownedNeverCompletes | apps/worker/src/agreement_intelligence_worker/agreement_deletion.py:247-266 | A deletion whose inventory holds a key that is not owned is never completed |
| DeletionCompletion.CompletableExactly | apps/worker/src/agreement_intelligence_worker/agreement_deletion.py:238-287 | From every reachable state some continuation completes the request if and only if neither its inventory nor an artifact intent still to be inventoried holds a key that is not owned |
| DeletionRuns.CompletesExactly | apps/worker/src/agreement_intelligence_worker/agreement_deletion.py:736-818 | A step of any worker, sweeper or API call completes a request exactly when it is the purge under the current claim with nothing pending and every intent reconciled |
| DeletionRuns.CompletionReconcilesIntents | apps/worker/src/agreement_intelligence_worker/agreement_deletion.py:772-796 | The step that completes a request found each artifact intent settled and inventoried, its object removed after that |
| DeletionRuns.TerminalLeavesExactly | apps/worker/src/agreement_intelligence_worker/processing.py:1418-1500 | A terminal request changes exactly by a late artifact of its agreement, or by a redrive when it failed, and then waits in a new cycle |
| DeletionRuns.PurgedForEver | apps/worker/src/agreement_intelligence_worker/completion_fence.py:9-40 | After completion no step of any run brings derived rows or references back |
| DeletionSources.LiveSourceSurvives | apps/api/src/agreement_intelligence_api/agreements/repository.py:148-195 | An object that is stored while a version refers to it stays stored for as long as that agreement is not being deleted, over every run |
| DeletionSources.LiveSourceExactly | apps/worker/src/agreement_intelligence_worker/agreement_deletion.py:441-518 | Without a new upload, a live agreement has the object of its version at the end of a run if and only if the object was there at its start |
| DeletionSources.ListedSourceExactly | apps/api/src/agreement_intelligence_api/agreements/service.py:67-99 | A stored object that a live agreement keeps listing stays stored in every run if and only if no source delete of the key that found nobody is under way |
| DeletionSources.NewUploadIsStored | apps/worker/src/agreement_intelligence_worker/agreement_deletion.py:467-492 | A recorded upload newer than every acceptance of its key is in storage |
| DeletionSources.RemovalIsJustified | apps/worker/src/agreement_intelligence_worker/agreement_deletion.py:436-518 | A source leaves storage only under a current claim whose inventory holds it, with no version of a live agreement and no newer upload on record |
| DeletionSources.HeldForEver | apps/api/src/agreement_intelligence_api/agreements/repository.py:357-430 | The keys an agreement held when its deletion was accepted, and the order of acceptances, are fixed for ever |
| DeletionSources.NoLeak | apps/worker/src/agreement_intelligence_worker/agreement_deletion.py:426-518 | When the last accepted of all that ever referred to a key has completed and held the key at its acceptance, and nothing was uploaded or put since, the object is gone |
| DeletionSources.UnheldStays | apps/api/src/agreement_intelligence_api/agreements/repository.py:302-330 | A stored object that no unfinished inventory and no later acceptance holds stays stored for ever |
| DeletionSources.LastSharerDecides | apps/api/src/agreement_intelligence_api/agreements/repository.py:302-330 | With every other sharer gone, the object goes with the last one if and only if that agreement still held the key when its deletion was accepted |
| DeletionCrash.TornDeleteStrandsReference | apps/api/src/agreement_intelligence_api/agreements/repository.py:148-195 | A concrete run in which a delete whose transaction was lost leaves an available registry row, and a new version refers to a missing object |
| DeletionCrash.ListedFileIsLost | apps/api/src/agreement_intelligence_api/agreements/service.py:67-99 | A concrete run in which a stored object, listed between the query of a delete and its removal, disappears from a live agreement |
| DeletionCrash.ReplacedFileLeaks | apps/api/src/agreement_intelligence_api/agreements/versions.py:165-180 | A concrete run in which a file replaced by a later version stays stored after the only agreement was deleted |
| DeletionCrash.SwallowedMessageStrands | apps/worker/src/agreement_intelligence_worker/agreement_deletion.py:353-378 | A concrete run in which a delivered message is skipped for a transaction that rolls back, and the waiting request has none left |
| DeletionCrash.LateArtifactReopens | apps/worker/src/agreement_intelligence_worker/processing.py:1418-1500 | A concrete run in which a completed, purged deletion waits again after a late artifact, in a new retry cycle with a pending item |
| Text.SplitAtSpace | apps/worker/src/agreement_intelligence_worker/document_indexing.py:386-387 | A white-space character between two texts keeps their words apart |
| Text.SplitJoinWords | apps/worker/src/agreement_intelligence_worker/document_indexing.py:346 | Words joined with spaces split back into the same words |
| Text.SplitJoinLines | apps/worker/src/agreement_intelligence_worker/document_indexing.py:285 | Texts joined with newlines hold exactly their words, in order |
| Text.SplitStrip | apps/worker/src/agreement_intelligence_worker/document_indexing.py:263-265 | Stripping loses no word, and leaves nothing exactly when there is no word |
| Text.WhiteSpaceIs | apps/worker/src/agreement_intelligence_worker/document_indexing.py:264 | White space is exactly the 29 code points Python strips and splits at |
| Text.StripIs | apps/worker/src/agreement_intelligence_worker/document_indexing.py:264 | Stripping takes white space away at both ends, nothing else, and leaves none there |
| Text.JoinIs | apps/worker/src/agreement_intelligence_worker/document_indexing.py:285 | Joining puts one separator between any two neighbours and nowhere else |
| Chunking.BuildGroups | apps/worker/src/agreement_intelligence_worker/document_indexing.py:257-272 | The grouping loop reaches the declarative groups, and raises exactly for a malformed block |
| Chunking.WindowBounds | apps/worker/src/agreement_intelligence_worker/document_indexing.py:301-319 | Window k of an oversized group exists exactly when it still adds a token, and the last one reaches the end |
| Chunking.WindowLoop | apps/worker/src/agreement_intelligence_worker/document_indexing.py:301-319 | The token loop has closed exactly the windows of the closed form and holds the tokens since the start of the next one |
| Chunking.ChunksForGroup | apps/worker/src/agreement_intelligence_worker/document_indexing.py:279-330 | One chunk of the joined text, or all windows over the tokens |
| Chunking.StructuralChunks | apps/worker/src/agreement_intelligence_worker/document_indexing.py:257-276 | The chunk list of the whole document, ordinals running on; raises exactly for a malformed block |
| ChunkProperties.WindowCountIsLeast | apps/worker/src/agreement_intelligence_worker/document_indexing.py:301-330 | The number of windows is the least that reaches the last token: one, and one more for each 900 tokens begun past 1,000 |
| ChunkProperties.ChunkIsItsWindow | apps/worker/src/agreement_intelligence_worker/document_indexing.py:279-347 | Chunk k of an oversized group shows exactly tokens 900k to min(900k + 1000, n): their words joined by spaces and their anchors, each once, in order of first occurrence; the last chunk and no other reaches the last token. A group that fits is one chunk of its joined text with all its anchors. Path, ordinal and the digest of anchors and start follow |
| ChunkProperties.ChunkWordsAreItsWindow | apps/worker/src/agreement_intelligence_worker/document_indexing.py:301-347 | Splitting the text of chunk k gives back the words of that window of the group, or of the whole group |
| ChunkProperties.TokensAre | apps/worker/src/agreement_intelligence_worker/document_indexing.py:316-318 | The tokens of a group are those of its entries, entry by entry |
| ChunkProperties.DocumentChunk | apps/worker/src/agreement_intelligence_worker/document_indexing.py:273-276 | The chunks of a document are the chunks of its groups, group after group, ordinals running on |
| ChunkProperties.GroupOfBlock | apps/worker/src/agreement_intelligence_worker/document_indexing.py:257-272 | Every non-blank block sits, with its anchor and stripped text, in the group whose path is the headings read so far, and opens it exactly when it is a heading or the first block |
| ChunkProperties.PathsFormAChain | apps/worker/src/agreement_intelligence_worker/document_indexing.py:259-272 | Each group's heading path properly extends the one before |
| ChunkProperties.GroupingKeepsWords | apps/worker/src/agreement_intelligence_worker/document_indexing.py:257-272 | The groups hold the words of all blocks in order |
| ChunkProperties.Lossless | apps/worker/src/agreement_intelligence_worker/document_indexing.py:257-347 | From the chunk list of any document alone, dropping repeated words gives back exactly the words of all blocks, in order |
| ChunkProperties.OrdinalsCount | apps/worker/src/agreement_intelligence_worker/document_indexing.py:273-276 | Chunk i of a document has ordinal i |
| ChunkProperties.ChunkIdsAreDistinct | apps/worker/src/agreement_intelligence_worker/document_indexing.py:390-401 | With an injective digest and distinct anchors, no two chunks of a document share an id |
| Decimal.ReadShow | apps/worker/src/agreement_intelligence_worker/document_understanding.py:379-381 | The decimal text of a number reads back as the number |
| Decimal.ShowIs | apps/worker/src/agreement_intelligence_worker/document_understanding.py:379-381 | Decimal notation digit by digit, so the text is canonical |
| PageLayout.PageFromItems | apps/worker/src/agreement_intelligence_worker/document_understanding.py:345-369 | The loop gives each item a block that starts one separator after its predecessor ends and spans its text, under an anchor that hashes checksum, page, index and both offsets |
| PageLayout.OffsetsCutTheText | apps/worker/src/agreement_intelligence_worker/document_understanding.py:350-368 | A block's offsets cut exactly its text out of the page's texts joined by newlines |
| PageLayout.AnchorPayloadIsInjective | apps/worker/src/agreement_intelligence_worker/document_understanding.py:372-382 | The anchor text determines checksum, page, index and both offsets, even for checksums that hold colons |
| PageLayout.AnchorsAreDistinct | apps/worker/src/agreement_intelligence_worker/document_understanding.py:345-382 | With an injective hash, no two blocks of a document share an anchor |
| PageLayout.DocumentChunkIdsAreDistinct | apps/worker/src/agreement_intelligence_worker/document_indexing.py:390-401 | With injective hashes, all chunk ids of any laid-out document are distinct |
| PageLayout.BoundedPdfLines | apps/worker/src/agreement_intelligence_worker/document_understanding.py:275-284 | The stripped non-blank lines, or an error exactly when they exceed the remaining blocks |
| PageLayout.LinesAre | apps/worker/src/agreement_intelligence_worker/document_understanding.py:275-284 | The lines of a text together are the text, and break after every newline and nowhere else |
| PageLayout.NonBlankIs | apps/worker/src/agreement_intelligence_worker/document_understanding.py:275-284 | The lines that hold a word are kept, stripped, in order |
| PageLayout.SizesAre | apps/worker/src/agreement_intelligence_worker/document_understanding.py:256-270 | What the limits count: the characters of all page texts together, the non-blank lines page by page, the objects table by table |
| PageLayout.ParsePdf | apps/worker/src/agreement_intelligence_worker/document_understanding.py:250-272 | The parser refuses exactly the documents with more than 20,000 objects, 250 pages, 1,000,000 characters or 10,000 blocks; otherwise page i shows the non-blank lines of text i, and only a first line of at most 120 characters that ends in none of . ; : is a heading |
| PageLayout.PdfWordsSurvive | apps/worker/src/agreement_intelligence_worker/document_understanding.py:250-272 | From the chunk list of an indexed PDF, exactly the words of its extracted page texts come back |
| IndexTables.RebuildDeletesNothing | apps/worker/src/agreement_intelligence_worker/document_indexing.py:199-202 | The build of an older source holds no row and no embedding refers to it, so the rebuild's delete breaks no foreign key |
| IndexTables.ActivationKeepsConstraints | apps/worker/src/agreement_intelligence_worker/document_indexing.py:222-254 | Activation keeps one active build per agreement, one build per source and both foreign keys |
| IndexTables.ActivationHoldsTheChunks | apps/worker/src/agreement_intelligence_worker/document_indexing.py:203-221 | After an activation every chunk is stored under its key with the checksum and exactly its ordinal, path, anchors and text, and the build holds no other row |
| IndexTables.ActivationRetiresTheFormerBuild | apps/worker/src/agreement_intelligence_worker/document_indexing.py:222-254 | An activation marks the agreement's former active build stale and removes exactly its rows and embeddings; every other build, row and embedding stays as it is |
| IndexTables.ActivationIsLocal | apps/worker/src/agreement_intelligence_worker/document_indexing.py:222-254 | Builds and rows of other agreements stay as they are |
| IndexSink.RetrievalStore.WriteBuild | apps/worker/src/agreement_intelligence_worker/document_indexing.py:184-254 | The writes in the source's order meet no violated constraint on the way and end in the activated tables |
| IndexSink.RetrievalStore.CompleteIndex | apps/worker/src/agreement_intelligence_worker/document_indexing.py:149-254 | One index run ends as the specified transaction: it fails exactly for a malformed block, or for an empty or colliding chunk list that it would have to write; behind the fence or for an active source nothing changes; otherwise an active build of the source holds exactly the document's chunks, field by field |
| IndexRuns.InvariantOverRun | apps/worker/src/agreement_intelligence_worker/document_indexing.py:149-254 | Over every run of indexing, embedding, deletion and creation: one active build, rows and embeddings only for it, its rows field by field the chunker's output, nothing back after a purge |
| IndexRuns.StoredRowsAreLive | apps/worker/src/agreement_intelligence_worker/document_indexing.py:149-254 | After any run, builds are active or stale, one for each source; every row belongs to the active build of its agreement, every embedding to a row, and an active build holds exactly the chunks of the document it was last made from |
| IndexRuns.PurgeRemovesExactly | apps/worker/src/agreement_intelligence_worker/agreement_deletion.py:1045-1048 | A purge removes every build, row and embedding of its agreement and no other |
| IndexRuns.RowsOnlyForTheActiveBuild | apps/worker/src/agreement_intelligence_worker/document_indexing.py:222-254 | After any run, every chunk and embedding of an agreement belongs to its one active build |
| IndexRuns.IndexingActivatesTheSource | apps/worker/src/agreement_intelligence_worker/document_indexing.py:169-254 | Indexing, also when returning to an older source, makes that source's build active with the chunks of this document, or changes nothing when it was active already |
| IndexRuns.IndexingTwiceIsOnce | apps/worker/src/agreement_intelligence_worker/document_indexing.py:182-183 | Indexing the same source again changes nothing |
| EmbeddingSink.EmbeddingIndexSink.ActiveUnembeddedChunks | apps/worker/src/agreement_intelligence_worker/embedding_indexing.py:216-258 | Exactly the active chunks without a ready row of this configuration and model, each once, by ordinal |
| EmbeddingSink.EmbeddingIndexSink.AskGateway | apps/worker/src/agreement_intelligence_worker/embedding_indexing.py:285-311 | The retry loop asks at most max_retries + 1 times, stops at the first answer that is no outage, and returns it |
| EmbeddingSink.EmbeddingIndexSink.ReplaceBatch | apps/worker/src/agreement_intelligence_worker/embedding_indexing.py:353-391 | Deleting and inserting row by row leaves exactly the new rows beside the untouched ones |
| EmbeddingSink.EmbeddingIndexSink.EmbedBatch | apps/worker/src/agreement_intelligence_worker/embedding_indexing.py:260-351 | A batch is written whole with rows that answer one reply; a reindex job refuses it unless every row is ready |
| EmbeddingSink.EmbeddingIndexSink.CompleteEmbedding | apps/worker/src/agreement_intelligence_worker/embedding_indexing.py:163-214 | A run writes one row for each pending chunk, or nothing at all: behind the fence, without an active configuration, which raises, or for a reindex job with a row that is not ready |
| EmbeddingSink.BatchIsReadyOrNot | apps/worker/src/agreement_intelligence_worker/embedding_indexing.py:322-351 | All rows of a batch are ready or none is, and that depends on the shape of its answer alone |
| EmbeddingSink.RunRowIs | apps/worker/src/agreement_intelligence_worker/embedding_indexing.py:260-351 | Every pending chunk gets the vector at its own position in the answer to its own batch, with the answering model and its token share; without a gateway, after an outage on the last attempt, for an invalid answer or a wrong shape it gets the row that names that failure |
| EmbeddingSink.NewRowsAre | apps/worker/src/agreement_intelligence_worker/embedding_indexing.py:353-391 | A run writes the row of chunk i under that chunk's key, index version and dimensions, and no other row |
| EmbeddingSink.RunIsAnEmbedStep | apps/worker/src/agreement_intelligence_worker/embedding_indexing.py:216-258 | Every row of a run belongs to a stored chunk of the agreement, so embedding keeps the index invariant |
| EmbeddingSink.SecondRunIsIdle | apps/worker/src/agreement_intelligence_worker/embedding_indexing.py:198-212 | A second run asks for nothing exactly when every batch of the first got an answer that was well shaped and named the active model |
| EmbeddingSink.OtherNameIsAskedAgain | apps/worker/src/agreement_intelligence_worker/embedding_indexing.py:198-212 | A provider that answers well shaped under another name gets every chunk again, although all its rows are ready |
| EmbeddingSink.EveryChunkHasARow | apps/worker/src/agreement_intelligence_worker/embedding_indexing.py:207-214 | After a run every active chunk of the agreement has a row for the index version and dimensions |
| EmbeddingSink.SharesCoverTheTokens | apps/worker/src/agreement_intelligence_worker/embedding_indexing.py:407-411 | The token shares of a batch add up to at least the tokens used and to less than one more per row |
| PdfWriter.SequentialIsSinglePass | apps/worker/src/agreement_intelligence_worker/final_package.py:568-569 | The three replacements in sequence equal one pass that escapes each character |
| PdfWriter.DeterministicPdf | apps/worker/src/agreement_intelligence_worker/final_package.py:523-565 | The printer builds the closed form of the file, and raises exactly for a line outside Latin-1 |
| PdfWriter.PrintObjects | apps/worker/src/agreement_intelligence_worker/final_package.py:547-565 | The entries it prints are the offsets at which it wrote the objects |
| PdfFile.LiteralIs | apps/worker/src/agreement_intelligence_worker/final_package.py:568-569 | Escaping puts a backslash before each backslash and parenthesis and changes nothing else |
| PdfFile.StreamIs | apps/worker/src/agreement_intelligence_worker/final_package.py:524-530 | The content stream sets the font and the first position, then shows each line as an escaped string, 14 units below the one before |
| PdfFile.BodyIs | apps/worker/src/agreement_intelligence_worker/final_package.py:531-553 | The five objects of every report, byte for byte |
| PdfFile.FileIs | apps/worker/src/agreement_intelligence_worker/final_package.py:554-565 | The cross-reference table and trailer of every report, byte for byte: its five offsets are the same for all reports, and only the start of the table depends on the stream |
| PdfRoundTrip.ObjectIsFound | apps/worker/src/agreement_intelligence_worker/final_package.py:547-565 | For any list of objects with offsets of at most ten digits, the table leads to the exact text of each object |
| PdfRoundTrip.LiteralReadsBack | apps/worker/src/agreement_intelligence_worker/final_package.py:568-569 | A decoder of literal strings with escapes, nesting and line ends recovers the escaped line, up to carriage returns |
| PdfRoundTrip.StreamReadsBack | apps/worker/src/agreement_intelligence_worker/final_package.py:523-565 | Following startxref, the entries, the references and the length finds exactly the content stream |
| PdfRoundTrip.PdfReadsBack | apps/worker/src/agreement_intelligence_worker/final_package.py:523-569 | The reader finds one string per line, in order, and they are the original lines exactly when no line holds a carriage return |
| FinalPackage.BackfilledPrepares | apps/api/migrations/versions/20260826_0035_final_package_immutability.py:293-560 | Every event the backfill builds for a terminal workflow passes all checks of `prepare` |
| FinalPackage.BackfilledFields | apps/api/migrations/versions/20260826_0035_final_package_immutability.py:293-560 | The event the backfill writes, field by field: an unprocessed terminal event under the backfill's key, whose manifest is the snapshot with its keys and provenance, and whose repair names the package row and its metadata |
| FinalPackage.RepairIsAdmitted | apps/worker/src/agreement_intelligence_worker/final_package.py:285-313 | The worker's checks on the row imply the trigger's predicate for the repairing update |
| FinalPackage.AdmittedIsChecked | apps/api/migrations/versions/20260826_0035_final_package_immutability.py:64-107 | For any event, an update the trigger admits is one the worker's checks accept, to exactly the prepared metadata |
| FinalPackage.AdmitsExactly | apps/api/migrations/versions/20260826_0035_final_package_immutability.py:64-107 | The trigger admits an update exactly under an unprocessed terminal event of the backfill, of the row's scope and review, whose repair names the row and its present metadata, and only to what the event announces |
| FinalPackage.RedeliveredRepairIsRefused | apps/worker/src/agreement_intelligence_worker/final_package.py:288-299 | A repair delivered again is refused exactly when it had changed the row |
| FinalPackage.PreparedIsWell | apps/worker/src/agreement_intelligence_worker/final_package.py:214-259 | A prepared payload carries the checksums of its own contents and two different keys |
| FinalPackage.PreparesExactly | apps/worker/src/agreement_intelligence_worker/final_package.py:146-249 | `prepare` accepts exactly the terminal events of this workflow and correlation whose frozen snapshot names the event, its scope, a terminal state and the object keys of its scope, and whose repair, if any, carries its source, package, legacy metadata and both checksums |
| FinalPackage.PreparedFields | apps/worker/src/agreement_intelligence_worker/final_package.py:214-259 | What `prepare` hands over, field by field: manifest, report, keys, both checksums, and the repair |
| FinalPackage.ReportPrints | apps/worker/src/agreement_intelligence_worker/final_package.py:216-225 | A report can be printed unless agreement, review or checksum holds a character outside Latin-1 |
| FinalPackage.ReportNamesItsManifest | apps/worker/src/agreement_intelligence_worker/final_package.py:214-225 | Whatever event prepares from a snapshot, the PDF reads back exactly five lines: the title, that snapshot's agreement, its review, its outcome, and the checksum of the manifest beside it |
| PackageGenerator.TerminalReviewPackageGenerator.EnsureObject | apps/worker/src/agreement_intelligence_worker/final_package.py:420-437 | Create if absent, also when a rival wins the race; succeeds exactly when the object then has the type and checksum |
| PackageGenerator.TerminalReviewPackageGenerator.RepairMetadata | apps/worker/src/agreement_intelligence_worker/final_package.py:376-418 | Succeeds exactly when the guarded update hits one row and the trigger admits it; then the row of the review had the repaired id and exactly the legacy metadata its unprocessed event records, it has the prepared ones now, and no other row moved |
| PackageGenerator.TerminalReviewPackageGenerator.RecordAudit | apps/worker/src/agreement_intelligence_worker/final_package.py:440-516 | Adds the audit event unless it is there |
| PackageGenerator.TerminalReviewPackageGenerator.Commit | apps/worker/src/agreement_intelligence_worker/final_package.py:261-373 | A commit succeeds exactly when its checks pass, both objects are right and the row can be written; then the row of the review carries the prepared metadata and its one audit event is there. A failed one leaves rows and audit events unchanged |
| PackageGenerator.PassesExactly | apps/worker/src/agreement_intelligence_worker/final_package.py:261-373 | When a commit succeeds, in full: both objects stored with type and checksum, and either a free new row without repair, a row that agrees in every column, or a row with the repaired id and the legacy metadata that agrees already or passes keys and trigger |
| PackageRuns.WritesOneRow | apps/worker/src/agreement_intelligence_worker/final_package.py:312-373 | The database writes of a commit touch one row, which stays or becomes the prepared one |
| PackageRuns.NoRowWithoutItsObjects | apps/worker/src/agreement_intelligence_worker/final_package.py:261-373 | Whatever workers do and wherever they crash, no row written by a commit lacks an object or mismatches its checksum, and no audit event is doubled |
| PackageConvergence.Converges | apps/worker/src/agreement_intelligence_worker/final_package.py:261-373 | After any commits by any workers with crashes anywhere, a full commit by an idle worker is a legal continuation and ends with the row, both objects and exactly one audit event |
| PackageConvergence.CommittedForEver | apps/worker/src/agreement_intelligence_worker/final_package.py:273-323 | Once committed, no later step changes the row, its objects or its audit event |
| PackageConvergence.FrozenBytes | apps/worker/src/agreement_intelligence_worker/final_package.py:420-437 | With a collision-free hash the two objects hold the frozen bytes themselves |
| PackageConvergence.OnlyARepairChangesARow | apps/worker/src/agreement_intelligence_worker/final_package.py:375-418 | A row never disappears and changes only by a repair, from the recorded legacy metadata to the prepared ones |
| PackageConvergence.RepairedAtMostOnce | apps/api/migrations/versions/20260826_0035_final_package_immutability.py:64-107 | In any run an event repairs a row at most once |
| PackageConvergence.RepairSucceeds | apps/worker/src/agreement_intelligence_worker/final_package.py:285-323 | A full commit of an admitted repair is a legal run and moves the row to the prepared metadata, with both recovery objects in place and exactly one audit event |
| PackageRepairs.RepairConverges | apps/worker/src/agreement_intelligence_worker/final_package.py:261-373 | After any attempts by any workers with crashes anywhere, a row under repair is repaired, or one more full commit by an idle worker is legal and repairs it, with both recovery objects and exactly one audit event |
| PackageRepairs.RepairedForEver | apps/worker/src/agreement_intelligence_worker/final_package.py:285-323 | Once repaired, no later step changes the row, its objects or its audit event |
| PackageRepairs.BackfilledEndsRepaired | apps/api/migrations/versions/20260826_0035_final_package_immutability.py:293-560 | The same from the migration on: the event backfilled for a row prepares, passes the checks and the trigger, and ends in the repaired row |
| SentenceSplitter.SplitSentences | apps/worker/src/agreement_intelligence_worker/evidence_validation.py:276-291 | The loop yields the trimmed non-empty pieces of the declarative split |
| SentenceSplitter.SentencesKeepWords | apps/worker/src/agreement_intelligence_worker/evidence_validation.py:276-291 | The sentences hold exactly the words of the text, in order: only white space is lost and no word is broken |
| SentenceSplitter.SentencesAreSlices | apps/worker/src/agreement_intelligence_worker/evidence_validation.py:276-291 | Sentences are trimmed slices of the text, in order and without overlap |
| SentenceSplitter.SentencesAreThePieces | apps/worker/src/agreement_intelligence_worker/evidence_validation.py:276-291 | The text is cut at every line end and after every full stop, exclamation or question mark with nothing or white space behind it, and nowhere else; the sentences are the stripped pieces |
| SentenceSplitter.TrimmedIs | apps/worker/src/agreement_intelligence_worker/evidence_validation.py:284-291 | Pieces are stripped one by one and the blank ones dropped |
| Grounding.SplitOfFold | apps/worker/src/agreement_intelligence_worker/evidence_validation.py:298-301 | Case folding commutes with splitting into words |
| Grounding.NormalizedIs | apps/worker/src/agreement_intelligence_worker/evidence_validation.py:298-301 | Normalizing folds each word and puts one space between any two |
| Grounding.FoldIs | apps/worker/src/agreement_intelligence_worker/evidence_validation.py:298-301 | Folding goes character by character |
| Grounding.ContainsIs | apps/worker/src/agreement_intelligence_worker/evidence_validation.py:272-273 | A text contains another exactly when it is that text between two others |
| Grounding.SentenceIsContained | apps/worker/src/agreement_intelligence_worker/evidence_validation.py:272-301 | A sentence of a text is, normalized, part of the normalized text |
| Grounding.CheckEvidence | apps/worker/src/agreement_intelligence_worker/evidence_validation.py:242-263 | Accepts exactly non-empty evidence of material snippets with material identifiers and checksums, pages from one, ordered offsets and distinct anchors, whose conflicts name other anchors of the evidence |
| Grounding.ExtractSupportingQuote | apps/worker/src/agreement_intelligence_worker/evidence_validation.py:185-202 | Finds the first sentence equal to the claim after normalization, exactly when there is one |
| Grounding.ClaimIsJudged | apps/worker/src/agreement_intelligence_worker/evidence_validation.py:222-269 | A claim is valid exactly when all its citations quote an undisputed snippet that holds the quote, with a whole sentence of the quote being the claim; it conflicts exactly when its first citation that does not hold is material and cites a snippet in a conflict that either side declares |
| Grounding.ValidClaim | apps/worker/src/agreement_intelligence_worker/evidence_validation.py:222-239 | The verdict is that of the first citation that does not hold; over distinct anchors it is valid exactly for a supported claim and conflict exactly for a disputed one |
| Grounding.ValidateClaims | apps/worker/src/agreement_intelligence_worker/evidence_validation.py:205-219 | Conflict exactly when some claim conflicts; otherwise the valid claims in order, with rejection reported exactly when a claim is invalid |
| Grounding.AcceptedIs | apps/worker/src/agreement_intelligence_worker/evidence_validation.py:209-219 | The valid claims are kept in order, one by one |
| Grounding.AnswerQuestion | apps/worker/src/agreement_intelligence_worker/evidence_validation.py:104-182 | Claims are shown only on valid evidence that the guardrail allows, without conflict, and exactly the supported ones; the answer is "conflicting" exactly when the first bad citation of some claim cites evidence in a conflict that either side declares; each other status is returned exactly in its case |
| Grounding.SafeIs | apps/worker/src/agreement_intelligence_worker/evidence_validation.py:126-136 | Evidence is safe exactly when no text matches a pattern, in the clear or under two levels of encoding, and none reaches the bound on decoding |
| Grounding.ClaimsAreGrounded | apps/worker/src/agreement_intelligence_worker/evidence_validation.py:222-301 | Every claim of any answer cites authorized anchors that list no anchor of the evidence and that no snippet of the evidence lists as a conflict, and is, normalized, a contiguous part of every snippet it cites |
| Grounding.AnswersAreGroundedAndClean | apps/worker/src/agreement_intelligence_worker/evidence_validation.py:119-182 | An answer that shows claims rests on snippets that contain them and hide no prohibited text, neither in the clear nor under two levels of encoding |
| Grounding.AcceptedAreASubsequence | apps/worker/src/agreement_intelligence_worker/evidence_validation.py:205-219 | The accepted claims are a subsequence of the candidate's |
| Guardrails.FragmentedBase64Tokens | apps/worker/src/agreement_intelligence_worker/guardrails.py:168-203 | The two-buffer scanner finds exactly the joined candidates of the declarative split |
| Guardrails.PiecesAreTheSplit | apps/worker/src/agreement_intelligence_worker/guardrails.py:195-202 | No piece holds a cut character, and with the cut characters put back between them the pieces are the text; so the pieces hold, in order, all the others |
| Guardrails.TokensAreJoinedRuns | apps/worker/src/agreement_intelligence_worker/guardrails.py:180-193 | Every token is a run of two or more fragments without its white space, of decodable length and padding |
| Guardrails.ClassesAre | apps/worker/src/agreement_intelligence_worker/guardrails.py:168-202 | The alphabet, the white space and the separators of the scanner, by code point |
| Guardrails.CandidateIs | apps/worker/src/agreement_intelligence_worker/guardrails.py:180-193 | A joined text is a token exactly when it is 8 to 4096 data characters, of a length not one more than a multiple of four, then at most two padding characters |
| Guardrails.CandidatesAre | apps/worker/src/agreement_intelligence_worker/guardrails.py:168-203 | Every run is a token, without its white space, exactly when white space breaks it into two or more fragments that join to a candidate |
| Guardrails.DecodedTextCandidates | apps/worker/src/agreement_intelligence_worker/guardrails.py:131-152 | The bounded decode loop equals the unbounded two-level decoding, cut off at eight with the marker |
| Guardrails.KnownIs | apps/worker/src/agreement_intelligence_worker/guardrails.py:131-150 | A token adds its decoded text unless it is known, and each text offers its Base64, fragmented and hexadecimal tokens in this order |
| Guardrails.CandidatesAreBounded | apps/worker/src/agreement_intelligence_worker/guardrails.py:131-152 | At most eight distinct texts and the marker, the marker exactly when eight were reached |
| Guardrails.ValidateUntrustedEvidence | apps/worker/src/agreement_intelligence_worker/guardrails.py:93-128 | Block exactly when some item has a blocking reason, review exactly when there is only an instruction marker; the reasons are those of the items in order, each once |
| Guardrails.DecisionIs | apps/worker/src/agreement_intelligence_worker/guardrails.py:93-128 | The reasons to block and to review, in full: an unknown anchor, exfiltration, action, anything prohibited behind an encoding, or the bound on decoding; an instruction behind neither stronger pattern |
| Guardrails.ReasonsAre | apps/worker/src/agreement_intelligence_worker/guardrails.py:100-112 | The reason codes come up item by item, each once, in the order they are looked for |
| Guardrails.CapBlocks | apps/worker/src/agreement_intelligence_worker/guardrails.py:147-148 | Reaching the decode bound always blocks |
| Guardrails.AllowedIsClean | apps/worker/src/agreement_intelligence_worker/guardrails.py:206-213 | An item that does not block has no prohibited text anywhere in what two levels of decoding reach |
| Limits.LocalFallback.Reserve | apps/api/src/agreement_intelligence_api/limits.py:88-100 | Counts the call in the key's window, opening a new one when it is over, and allows it within max(1, min(limit, 10)) |
| Limits.AnyRate | apps/api/src/agreement_intelligence_api/limits.py:88-100 | Any interval of k windows sees at most (k + 1 + m) limits less m + 1 when clock readings lag by at most m windows |
| Limits.RateIsAttained | apps/api/src/agreement_intelligence_api/limits.py:88-100 | For every limit, every k and every lag some run of calls attains that bound |
| Limits.RateHoldsExactly | apps/api/src/agreement_intelligence_api/limits.py:88-96 | k windows never see more than k + 1 limits exactly when the limit is 1, when readings are in order, or when the limit is 2 and the lag at most one window |
| Usage.UsageLedger.CurrentUsage | apps/api/src/agreement_intelligence_api/usage.py:146-166 | The loop computes the organization's total over counted rows of the month |
| Usage.TotalIs | apps/api/src/agreement_intelligence_api/usage.py:146-166 | The month total sums, over the organization's rows of this month or later that are not cancelled, the actual amount where there is one and the estimate otherwise |
| Usage.UsageLedger.ReserveUsage | apps/api/src/agreement_intelligence_api/usage.py:65-114 | A new reservation is added, reserved and unsettled, exactly when the month total and its estimate together fit tokens and cost of the budget; a known id is allowed exactly for the same scope and operation |
| Usage.UsageLedger.SettleUsage | apps/api/src/agreement_intelligence_api/usage.py:116-135 | Settles an unsettled row with the actual amount exactly when no other row has the key; a settled row accepts only its own key; an error changes nothing |
| Usage.UsageLedger.CancelUsage | apps/api/src/agreement_intelligence_api/usage.py:137-144 | Cancels a reserved row, ignores a missing or cancelled one, refuses a settled one |
| Usage.BudgetHoldsExactly | apps/api/src/agreement_intelligence_api/usage.py:65-166 | Over every run of non-negative estimates, every month total stays within the budget throughout if and only if every settlement that takes effect fits |
| Usage.BudgetIsSafe | apps/api/src/agreement_intelligence_api/usage.py:65-166 | Over every run whose settlements hit reserved rows within their estimates, every organization's month total stays within the budget after every step |
| Usage.SettlementEffect | apps/api/src/agreement_intelligence_api/usage.py:116-135 | Settling changes the total by the actual amount less what the row counted for |
| Usage.SettlementFits | apps/api/src/agreement_intelligence_api/usage.py:116-135 | A settlement keeps the total within the budget exactly when its amount fits beside the other rows |
| Usage.RepeatedReservationAddsNothing | apps/api/src/agreement_intelligence_api/usage.py:75-88 | Asking again with a reservation id adds nothing |
| Usage.SettlingACancelledRowOverspends | apps/api/src/agreement_intelligence_api/usage.py:116-135 | A concrete run in which settling a cancelled reservation breaks the budget |

## Left out

- SQL, row-level security, ORM sessions and retries of transactions: tables are maps and a transaction is one step, the source delete two. What `SKIP LOCKED` does to a claim or a recovery is modelled as above; a recovery may pass over any request.
- Titles, error texts, correlation identifiers and the scrubbing of playbook and review rows during the purge: columns without influence on the protocol.
- Keys of versions that are no source keys (`POST /agreements` takes any text): a deletion that inventories one never completes, and the theorems on stored sources ask for a source key.
- Intents of embedding jobs: their marker keys are inventoried by nobody, so they may be dropped at any time, also after acceptance, without reopening the deletion.
- The order in which `_purge_owned_rows` deletes child tables: the purge is one step on the modelled tables.
- Redelivery visibility times of the queue: a message stays until it is acknowledged and may be handled any number of times.
- Several sweepers inside one call of `SweepOnce`: the method is one sweeper alone; `DeletionRuns` interleaves its steps with everything else.
- Package objects removed by a deletion: the package runs do not contain deletions, which act behind the agreement fence.
- Storage errors other than "already there" and "not there" during a commit: they end the commit like a crash.
- Cost in US dollars of an embedding: a rounded product of the token share.
- DOCX parsing, PDF text extraction, parser isolation and time limits: libraries and processes outside the model.
- `Number`, `Literal` and the dictionary reader of `PdfReader`: they read keys in the order this printer writes them, not arbitrary dictionaries.
- Decimal contexts of the usage sums: costs are exact reals.
- The Redis path of the rate limiter, and `retry_after`: not part of this model.
- Concurrent reservations: the ledger runs are sequential, as the service relies on its session for isolation.
- Classification, clause extraction, summaries and provider payload checks: single-branch rules.
