# Arco: a verified model of the catalog's storage protocols

Arco keeps all catalog state as objects in a store whose only concurrency primitive is a
conditional write (`DoesNotExist` or `MatchesVersion`). This project models the protocols
built on that store and the read structures on top of them, and proves what they keep over
every interleaving, crash point and lost reply. Everything is Dafny 4.11;
`dafny verify dfyconfig.toml` checks the whole project.

## How the model is built

- `ObjectStore` is the store: a path maps to a version and a body, every successful write
  gets a version never used before, nothing is deleted, and a put may fail before or after
  it took effect. Reading the version (`head`) and reading the body (`get`) are separate
  steps everywhere, as in the code.
- Each protocol is a state machine: a function `Next` for one step, `Exec` for a run, and
  one program counter per caller. A crash is a caller that is never stepped again. The
  clock, new ids, storage faults and the outcome of work the repository delegates are
  choices of the step. Fields called histories (`proposals`, `applied`, `markerLost`,
  `recordLost`, `ambiguous`, `cuts`, `grants`, `finalizers`) record what happened and are
  read by no step; `owners` also records who drew which transaction id, and a claim reads it
  only to draw an id nobody has.
- Theorems are about the state after an arbitrary run from the initial state, or about a
  state and an arbitrary continuation. Beside these safety results stand two other kinds: where
  something came from (every stored marker, receipt or outcome goes back to a moment of the run
  at which it was justified), and what one caller does when it is left alone without faults,
  stated exactly and on stored fields, for every state it can start from. Where a property fails in some runs, a concrete run
  shows it and an if-and-only-if over the configuration says exactly when it holds.

| modules | what they model |
|---|---|
| `TransactionTypes`, `TransactionSteps` | control-plane transactions: claim, steal of stale claims, work, finalize, replay, repair, abort, root transactions with participants |
| `TransactionInvariant`, `TransactionProofs` | the inductive invariant and one lemma per step |
| `TransactionTheorems`, `TransactionRecords`, `RootTransactions`, `RootRequests` | what transactions keep in every run, when records follow their markers, and how root requests and their participants hang together |
| `TransactionReplay`, `TransactionClaims`, `TransactionReceipts`, `TransactionTimes`, `TransactionCommits` | that replays finish, when a claim is respected and when it passes on, where receipts and times come from, and whole requests from claim to answer |
| `TransactionRuns`, `TransactionCounterexamples` | concrete runs, and the exact boundaries of the properties that fail in some |
| `CompactorFold`, `CompactorBatch` | one compaction batch: its meaning, and the loops that compute it |
| `CompactorProtocol`, `CompactorCoverage`, `CompactorTheorems`, `CompactorBoundary`, `CompactorBatching`, `LateEvents`, `CompactorAlone` | concurrent compactors that publish snapshots and watermarks, and one compaction from start to manifest |
| `SequenceAllocation` | sequence positions and the append-only ledger |
| `DdlIdempotency`, `DdlTheorems`, `DdlChecks` | idempotency markers of catalog DDL |
| `RowScans`, `ReadModel`, `ReaderCache` | the indexed read model and the double-checked cache |
| `LexOrder`, `MachineIntegers`, `ManifestIds`, `ManifestChain` | fixed-width ids, manifest succession, commit hash chains |

## Where the code and its documentation part

- The compactor's header says compaction is idempotent through deduplication by key. Keys
  are remembered for one batch only, so a duplicate delivered in a later batch is applied
  again (`DuplicateAcrossBatches`). `RedeliveryIsHarmlessIff` says exactly when a batch
  changes nothing, `BatchSplitIsInvisibleIff` exactly when cutting a batch in two cannot be
  seen, and `RunsPublishOneFoldIff` exactly for which ledgers no compaction schedule can be
  seen in the published snapshot.
- When the marker write of a finalize meets a storage error, the record is still written as
  visible. If the error left the marker without the transaction, one key can have two
  visible transactions (`TwoVisibleTransactions`), two answers (`AnswersDifferAfterLoss`), and
  a root receipt that names another commit than the visible participant's
  (`RootReportsAnotherCommit`). A lost reply of a marker write that took effect does no
  harm. The boundaries are exact (`OneVisiblePerKeyIffNoMarkerErrors`,
  `OneCatalogCommitPerRootIffNoMarkerErrors`, `OneAnswerPerKeyIff`); pinned root reads,
  super-manifests, marker consistency and the visibility of records do not depend on it.
- A replay that finds the marker visible and the record behind answers even when its own
  write of the record fails, so a caller can hold a root read token that the reader refuses
  as not visible (`AnsweredTokenIsRefused`). The record itself and the super-manifest are
  never missing (`VisibleRootResolves`). Every answered token resolves, in all runs, exactly
  when the write of a visible record cannot fail without effect
  (`AnsweredTokensResolveIffNoRecordErrors`).
- Finalizing an orchestration batch does not look at the current status, so concurrent
  repairs of a batch whose append ended ambiguously can answer one key with two receipts.
  No other domain is affected (`OneAnswerPerKeyIff`).
- A claim that finds an orchestration batch waiting for repair hands it to the repair path
  before comparing request hashes, so a request with another hash gets the batch's receipt
  instead of a conflict (`ForeignRequestIsAnswered`). It happens only there
  (`AnswersFitIff`).
- An owner whose claim was replaced while it was working still runs the catalog writer after
  another transaction of its key became visible (`SlowOwnerStillWrites`). Once the marker of
  a key is visible, the writer can still run for it exactly when such a working caller is
  left (`MutationIsAppliedAgainIff`). When only the record is visible because the marker
  write was lost, a caller that was merely claiming runs it too (`ClaimantStillWrites`), and
  that happens only then (`OnlyWorkersReapplyIffNoMarkerErrors`).
- The listing compaction never publishes a file that is late, whatever the late-event policy
  (`LateFilesAreNeverPublished`), and an explicit compaction moves the watermark past files
  it skips (`ExplicitNamesSkipFiles`). `CoverageIff` says exactly when snapshots cover what
  the watermark says.

## Model

| member | source | states |
|---|---|---|
| `ObjectStore.TryPut` | crates/arco-core/src/storage.rs:543-600 | a put either leaves the store alone or was admitted by its precondition and is the only write; a reported failure of the precondition changed nothing |
| `ObjectStore.PutIsExact` | crates/arco-core/src/storage.rs:543-600 | a put takes effect exactly when its precondition admits it and no error came before; without an error it reports what it did, with one only the error |
| `ObjectStore.HeadThenGetThenCas` | crates/arco-api/src/control_plane_transactions.rs:1392-1415 | version read first, body read later, any writes by anybody in between: if a conditional write on that version is admitted, the body it replaces is exactly the body read |
| `TransactionSteps.CheckDistinctDomains` | crates/arco-api/src/control_plane_transactions.rs:190-202 | the loop accepts a root request if and only if no two of its non-metastore mutations share a domain |
| `TransactionProofs.AdvanceClaimOk` | crates/arco-api/src/control_plane_transactions.rs:882-976 | every step of claiming, including replacing a stale claim, keeps the invariant of markers, records and receipts and moves shared state only forward; which claims may be replaced is `KeyPassesOnlyWhenExpired` and `ClaimAlone` |
| `TransactionProofs.AdvanceWorkOk` | crates/arco-api/src/control_plane_transactions.rs:473-834 | the same for storing the prepared record, running the delegated work, composing a root transaction and repairing a batch |
| `TransactionProofs.AdvancePersistOk` | crates/arco-api/src/control_plane_transactions.rs:1108-1183 | the same for publishing marker first and record second, including the branch that goes on after a storage error |
| `TransactionProofs.AdvanceRecordOk` | crates/arco-api/src/control_plane_transactions.rs:1197-1373 | the same for resolving a visible transaction, aborting and marking repair pending |
| `TransactionProofs.JoinOk` | crates/arco-api/src/control_plane_transactions.rs:287-332 | joining a participant's outcome extends the root's commits and manifest references one to one, or aborts the root |
| `TransactionProofs.ExecKeepsInv` | crates/arco-api/src/control_plane_transactions.rs:473-1373 | the invariant holds after every run of any number of callers with any storage errors, and the later state evolves from the earlier one |
| `TransactionTheorems.AtMostOneVisibleTransaction` | crates/arco-api/src/control_plane_transactions.rs:882-1293 | unless a finalize went on after a failed marker write that left the marker without its transaction, two records of one domain and key that are visible, at the same or at different times of a run, belong to one transaction |
| `TransactionTheorems.MarkersAreConsistent` | crates/arco-api/src/control_plane_transactions.rs:916-967 | in every run a cached record agrees with its marker on transaction, key and hash and is visible; such a marker is never given to another transaction; a key's request hash never changes |
| `TransactionTheorems.AnswersAgree` | crates/arco-api/src/control_plane_transactions.rs:1197-1293 | in the same runs any two successful answers for one key name one transaction and carry the same receipt, whether from the owner, the record or the marker's copy; only orchestration receipts after an ambiguous append may differ |
| `TransactionTheorems.AnswersMatchRecords` | crates/arco-api/src/control_plane_transactions.rs:999-1034 | in the same runs an answer and a visible record of its key are of one transaction, and the record holds the answered receipt, orchestration after an ambiguous append excepted |
| `TransactionTheorems.AnswersMatchTheRequest` | crates/arco-api/src/control_plane_transactions.rs:1295-1328 | in every run, marker errors included, an answered receipt belongs to a transaction claimed for the caller's key and, orchestration after an ambiguous append excepted, with the caller's own request hash |
| `TransactionTheorems.ExecKeepsFlags` | crates/arco-api/src/control_plane_transactions.rs:1161-1180 | a run of a configuration without harmful marker errors loses no marker, one without harmful record errors loses no record, and one without ambiguous appends has none |
| `TransactionTheorems.VisibleIsAbsorbing` | crates/arco-api/src/control_plane_transactions.rs:999-1106 | a visible record stays visible under every mix of finalize, abort, repair marks and replay, storage errors included |
| `TransactionRecords.AdvanceMoves` | crates/arco-api/src/control_plane_transactions.rs:999-1373 | whatever step a process takes, a catalog or root record changes only to visible, unless the process is aborting a transaction it allocated itself |
| `TransactionRecords.ExecFollows` | crates/arco-api/src/control_plane_transactions.rs:1108-1293 | in every run the versions that owners and replaying callers of catalog and root transactions have read are current or the record is visible, and behind every visible marker the record is visible or its owner is about to write it, until the write of a visible record fails without effect |
| `TransactionRecords.AnswersAreRecorded` | crates/arco-api/src/control_plane_transactions.rs:1108-1293 | until then the record of every catalog and root answer is visible, whether it was given by the owner, from the record or from the marker's copy |
| `TransactionReplay.ReplayConverges` | crates/arco-api/src/control_plane_transactions.rs:1197-1293 | from every reachable state in which a key is visible in its marker or only in its record, a new caller with its request hash, stepped alone and without faults, is answered for that transaction within ten steps and leaves marker and record visible with that receipt (in orchestration after an ambiguous append the marker may keep another) |
| `TransactionClaims.KeyPassesOnlyWhenExpired` | crates/arco-api/src/control_plane_transactions.rs:916-967 | in every run, if the marker of a key passes from one transaction to another, then at some earlier moment of the run the replacing caller, with the key's request hash, read the old transaction's record as aborted, or as prepared at least the stale timeout before, or found no record and a marker at least that old |
| `TransactionClaims.ClaimAlone` | crates/arco-api/src/control_plane_transactions.rs:882-976 | a new caller left alone, of a key that is neither visible nor under repair: it owns the key as a new transaction if and only if it has the key's hash and the claim is aborted or stale when it looks; otherwise it fails and no marker or record changes |
| `TransactionClaims.FreshKeyIsClaimed` | crates/arco-api/src/control_plane_transactions.rs:889-905 | the first caller of a key owns it after one step, with its own hash and time |
| `TransactionClaims.ForeignHashAlone` | crates/arco-api/src/control_plane_transactions.rs:916-928 | a caller with another hash than the key's fails and changes no marker or record, unless the key's batch waits for a repair |
| `TransactionClaims.FaultsFail` | crates/arco-api/src/control_plane_transactions.rs:882-997 | a storage fault while claiming, storing the prepared record or reading a record to repair makes the caller fail; one before the write changes nothing |
| `TransactionClaims.FailedWorkIsAborted` | crates/arco-api/src/control_plane_transactions.rs:1330-1373 | a caller whose work fails, left alone in any reachable state, leaves its record aborted and otherwise as prepared, every other record and every marker as it was, and answers an error |
| `TransactionTimes.MarkersAreDated` | crates/arco-api/src/control_plane_transactions.rs:889-905 | in every run every marker has the transaction, the hash and the creation time of a claim that was made in the run for its key |
| `TransactionTimes.RecordsAreDated` | crates/arco-api/src/control_plane_transactions.rs:978-997 | in every run every record has the key, the hash and the preparation time with which its owner stored it as prepared |
| `TransactionTimes.RefusedCallersRetry` | crates/arco-api/src/control_plane_transactions.rs:890-976 | in every run a caller whose replacement of a claim is refused claims again, unless it was refused four times |
| `TransactionReceipts.ReceiptsReportCommits` | crates/arco-api/src/control_plane_transactions.rs:519-600 | in every run every receipt reports, in all its fields, what the delegated work or the root's participants returned at some earlier moment to a caller working on its transaction, and that caller went on to publish it with the repair flag it was given |
| `TransactionReceipts.PublishAlone` | crates/arco-api/src/control_plane_transactions.rs:999-1183 | a caller about to publish, left alone: if the key still belongs to its transaction it is answered, and marker and record carry exactly the receipt, its time and its repair flag; otherwise it fails, no marker changes, and only a root record does, to aborted |
| `TransactionCommits.FirstCallCommits` | crates/arco-api/src/control_plane_transactions.rs:473-588 | in every reachable state the first catalog or orchestration caller of a key, left alone with a writer that commits, is answered with a receipt of that commit, and marker and record carry it with the times of the claim and of the preparation |
| `TransactionCommits.RetryCommits` | crates/arco-api/src/control_plane_transactions.rs:882-976 | the same for a caller that retries a key whose last transaction was aborted or went stale |
| `TransactionCommits.AmbiguousWorkIsMarked` | crates/arco-api/src/control_plane_transactions.rs:1070-1106 | a caller whose append ended ambiguously, left alone, leaves its record waiting for a repair of exactly the appended paths, touches no marker and answers an error |
| `TransactionCommits.RepairAlone` | crates/arco-api/src/control_plane_transactions.rs:699-834 | a caller of a key whose batch waits for a repair, left alone in any reachable state: if the record names appended events and compacting them commits, it is answered with that commit and the batch's transaction is visible; otherwise it fails and no marker or record changes |
| `TransactionCounterexamples.TwoVisibleTransactions` | crates/arco-api/src/control_plane_transactions.rs:1161-1180 | in every domain, a run in which a marker write that failed without effect leaves two visible transactions for one key |
| `TransactionCounterexamples.OneVisiblePerKeyIffNoMarkerErrors` | crates/arco-api/src/control_plane_transactions.rs:1108-1183 | in every domain, one visible transaction per key in all runs if and only if no storage error can leave a marker without the transaction being published; lost replies of writes that took effect are possible either way |
| `TransactionRuns.AnswersDifferAfterLoss` | crates/arco-api/src/control_plane_transactions.rs:1197-1293 | in every domain, a run with a lost marker write in which two callers of one key are answered for two transactions |
| `TransactionCounterexamples.SlowOwnerStillWrites` | crates/arco-api/src/control_plane_transactions.rs:473-588 | a run in which an owner that was already working runs the catalog writer after another transaction of its key became visible |
| `TransactionCounterexamples.ClaimantStillWrites` | crates/arco-api/src/control_plane_transactions.rs:1161-1180 | a run with a lost marker write in which a caller that was only claiming runs the catalog writer although a record of its key is visible |
| `TransactionCounterexamples.OnlyWorkersReapplyIffNoMarkerErrors` | crates/arco-api/src/control_plane_transactions.rs:1108-1183 | once a catalog record is visible only callers already working then run the writer for its key, in all runs, if and only if no marker write can be lost |
| `TransactionCounterexamples.AnsweredTokenIsRefused` | crates/arco-api/src/control_plane_transactions.rs:1278-1293 | a run in which a caller is answered with the token of a root transaction that has a catalog participant, and reading with it is refused as not visible |
| `TransactionCounterexamples.AnsweredTokensResolveIffNoRecordErrors` | crates/arco-api/src/control_plane_transactions.rs:1108-1293 | the token of every answered root transaction with a catalog participant resolves to the manifest its receipt names, in all runs, if and only if the write of a visible record cannot fail without effect |
| `TransactionCounterexamples.RootReportsAnotherCommit` | crates/arco-api/src/control_plane_transactions.rs:287-332 | after a lost marker write a root receipt reports another commit than that of the visible participant |
| `TransactionCounterexamples.OneCatalogCommitPerRootIffNoMarkerErrors` | crates/arco-api/src/control_plane_transactions.rs:287-377 | all root receipts of a key report the commit of its visible catalog participant in all runs if and only if no marker write can be lost |
| `TransactionCounterexamples.OrchestrationAnswersDiffer` | crates/arco-api/src/control_plane_transactions.rs:1018-1025 | a run without marker errors in which two repairs of one batch answer with different receipts |
| `TransactionCounterexamples.OneAnswerPerKeyIff` | crates/arco-api/src/control_plane_transactions.rs:760-1293 | all answers for a key of a domain carry one receipt, in all runs, if and only if no marker write can be lost and, in orchestration, no append ends ambiguously |
| `TransactionCounterexamples.AnswersMatchRecordsIff` | crates/arco-api/src/control_plane_transactions.rs:999-1034 | every answer of a domain matches the visible record of its key, in all runs, under the same condition and no other |
| `TransactionCounterexamples.ForeignRequestIsAnswered` | crates/arco-api/src/control_plane_transactions.rs:916-967 | a run in which a request with another hash is answered with the receipt of a batch under repair |
| `TransactionCounterexamples.AnswersFitIff` | crates/arco-api/src/control_plane_transactions.rs:916-967 | requests are answered only for transactions claimed with their own hash, in all runs of a domain, if and only if it is not orchestration or no append ends ambiguously |
| `RootTransactions.TokenRoundTrip` | crates/arco-catalog/src/reader.rs:1138-1145 | a read token parses to a transaction if and only if it was made from it; every other token is refused as invalid |
| `RootTransactions.RootTokenIsPinned` | crates/arco-catalog/src/reader.rs:408-455 | in every run, whatever storage errors occur, a reader makes its three reads at three moments; the manifest it gets is the one the token resolves to in every later state, however the pointer moves |
| `RootTransactions.VisibleRootHasSuperManifest` | crates/arco-api/src/control_plane_transactions.rs:334-377 | in every run a root transaction visible in its record or in the marker's copy has a super-manifest that bears its transaction and time, matches its domain commits one to one and never changes |
| `RootTransactions.VisibleRootResolves` | crates/arco-catalog/src/reader.rs:408-455 | in every run the token of a root transaction with a catalog participant that is visible in its record or in its marker resolves to the manifest that participant's commit names if the record is visible, and is refused as not visible otherwise; record, super-manifest and manifest are never missing |
| `RootTransactions.RootTokenReads` | crates/arco-catalog/src/reader.rs:408-455 | what reading with the token of any transaction gives, in every run: an error if there is no root record or it is not visible, otherwise the manifest the receipt's catalog commit names, or an error if it has none; super-manifest and manifest are never missing |
| `RootTransactions.AnsweredTokensResolveWithoutLoss` | crates/arco-api/src/control_plane_transactions.rs:999-1034 | in every run in which no write of a visible record failed without effect, the token of every root answer with a catalog participant resolves to the manifest the answer names |
| `RootTransactions.RetriesReportOneCommit` | crates/arco-api/src/control_plane_transactions.rs:287-332 | unless a marker write was lost, once a participant of a root key is visible, the root receipts of all retries report that participant's commit: always for the catalog, and for orchestration while no append was ambiguous |
| `RootTransactions.ParticipantKeyIsInjective` | crates/arco-api/src/control_plane_transactions.rs:836-847 | the key of a participant determines the root key and the domain it was derived from |
| `RootTransactions.CommitsAreClaimedForTheRoot` | crates/arco-api/src/control_plane_transactions.rs:836-847 | in every run each commit of a root receipt is of a transaction claimed under the participant key of that receipt's own root key |
| `RootTransactions.RootsShareNoParticipant` | crates/arco-api/src/control_plane_transactions.rs:287-332 | in every run two root receipts claimed under different root keys share no participant transaction |
| `TransactionReceipts.RootReceiptsAnswerRequests` | crates/arco-api/src/control_plane_transactions.rs:287-332 | in every run the commits of a root receipt answer the mutations of the request that built it one for one and in order: each of the mutation's domain, under that root's participant key and, orchestration after an ambiguous append excepted, for the mutation's own hash |
| `RootRequests.RootJoinsParticipants` | crates/arco-api/src/control_plane_transactions.rs:287-332 | in every run what a root caller has gathered are the answers of participants it started, one per mutation in order, each referred to by its transaction, commit, manifest and read token; it notes a repair if and only if one of them reported one |
| `RootRequests.RootReceiptsJoinParticipants` | crates/arco-api/src/control_plane_transactions.rs:287-377 | every root receipt of a run lists what the participants of its request were answered, and is published as needing repair if and only if one of them was |
| `RootRequests.FailedRootIsAborted` | crates/arco-api/src/control_plane_transactions.rs:342-451 | a root whose participant failed or whose super-manifest was not stored, left alone in any reachable state, leaves its record aborted, changes no marker and no other record and answers an error |
| `RootRequests.AuditAlone` | crates/arco-api/src/control_plane_transactions.rs:379-425 | the audit receipt of a visible root: if it is written, or the root needs repair anyway, nothing else changes; otherwise marker and record are marked as needing repair; the caller is answered either way and told which |
| `RootRequests.VisibleRootIsAnswered` | crates/arco-api/src/control_plane_transactions.rs:379-428 | once a root is visible its caller never fails, whatever faults follow: in every continuation it is about to be answered or has been answered with its receipt, with a repair pending if the audit receipt failed |
| `RootTransactions.MutationIsNotAppliedAgain` | crates/arco-api/src/control_plane_transactions.rs:492-507 | in every run, once the marker of a catalog key is visible, a caller that runs the catalog writer for it was already working then: neither a claiming caller nor one that starts later does |
| `RootTransactions.MutationIsAppliedAgainIff` | crates/arco-api/src/control_plane_transactions.rs:473-588 | in every reachable state in which the marker of a catalog key is visible, some continuation runs the writer for it again if and only if some caller of the key is working |
| `CompactorFold.WinnerWins` | crates/arco-catalog/src/compactor.rs:104-110 | the recursive winner is the surviving event with the highest sequence, latest on ties, no sequence lowest, and exists whenever any survivor concerns the id |
| `CompactorFold.FoldBatchMeaning` | crates/arco-catalog/src/compactor.rs:425-608 | after a batch each id holds its winner's record, ids without a surviving event keep what the snapshot had, and nothing else changes |
| `CompactorFold.FoldCounts` | crates/arco-catalog/src/compactor.rs:439-608 | processed events are applied, dropped as duplicates or quarantined, and something is applied if and only if something is readable |
| `CompactorFold.BatchSplitIsInvisibleIff` | crates/arco-catalog/src/compactor.rs:425-608 | for all snapshots and batches, folding the parts in turn equals folding them at once if and only if, for every id, the suffix's winner has the record the whole batch decides, or the one the snapshot holds when the whole batch decides none |
| `CompactorFold.KeylessSplitIsInvisibleIff` | crates/arco-catalog/src/compactor.rs:104-110 | when no key spans the cut, that is the case if and only if for every id the suffix's winner has at least the prefix winner's sequence or is the same record |
| `CompactorFold.MonotoneSequencesSplit` | crates/arco-catalog/src/compactor.rs:425-437 | sequences that never fall per id make every cut without shared keys invisible |
| `CompactorFold.DuplicateAcrossBatches` | crates/arco-catalog/src/compactor.rs:439 | for any two records of one id, a duplicate in a later batch brings the overwritten record back, while one batch would have dropped it |
| `CompactorFold.RedeliveryIsHarmlessIff` | crates/arco-catalog/src/compactor.rs:584-608 | a batch leaves a snapshot unchanged if and only if the snapshot already holds every id's winner |
| `CompactorFold.BadPrefixIsInvisible` | crates/arco-catalog/src/compactor.rs:447-583 | unreadable events in front of a batch change nothing but the quarantine count |
| `CompactorBatch.FoldFiles` | crates/arco-catalog/src/compactor.rs:425-608 | the loop stops with an error if and only if the policy rejects and some file is unreadable; otherwise every id holds the record of the file that wins it: readable, the first delivery of its key, with the highest sequence, latest on ties; ids no file concerns keep what the snapshot had |
| `CompactorBatch.DecodedFiles` | crates/arco-catalog/src/compactor.rs:447-560 | a file is unreadable if and only if it is no legacy payload and no valid envelope of the expected type and version with a payload; a readable one contributes its own record and sequence, a legacy one no sequence; two legacy files are one delivery if and only if their records are equal |
| `CompactorBatch.LegacyFilesAreKept` | crates/arco-catalog/src/compactor.rs:535-560 | a batch of legacy files with distinct ids loses none of them |
| `CompactorBatch.SortRows` | crates/arco-catalog/src/compactor.rs:611-623 | the rows written are exactly the records, once each, in strictly ascending id order |
| `CompactorBatch.SnapshotRoundTrip` | crates/arco-catalog/src/compactor.rs:867-930 | reading a written snapshot back gives the records that were written, without sequence positions |
| `CompactorBatch.CompactBatch` | crates/arco-catalog/src/compactor.rs:376-626 | what is read back from the written snapshot holds, for every id, the record of the file that wins it, or else what the snapshot held; something counts as applied if and only if some file is readable |
| `CompactorProtocol.WatermarkNeverRegresses` | crates/arco-catalog/src/compactor.rs:251-373 | between any two points of any run of listing and explicit compactors the watermark does not regress and the snapshot path changes exactly when the snapshot version does |
| `CompactorProtocol.PublicationsAdvance` | crates/arco-catalog/src/compactor.rs:611-697 | a publication replaces exactly the manifest its compactor read and counts its batch; the snapshot version grows by one exactly when the path changes; a listing run's batch has only names after the replaced watermark and moves it strictly; the counters move with it |
| `CompactorAlone.ListingTakes` | crates/arco-catalog/src/compactor.rs:251-302 | for every ledger a listing compaction takes exactly the files after the watermark, in ascending order |
| `CompactorAlone.ExplicitTakes` | crates/arco-catalog/src/compactor.rs:317-362 | an explicit compaction takes exactly the given names after the watermark, and late ones too if and only if the policy processes them, as often as given and in ascending order |
| `CompactorAlone.BatchIsRead` | crates/arco-catalog/src/compactor.rs:447-460 | a batch is read if and only if every name is a ledger file's, and then event by event in the order of the names |
| `CompactorAlone.CompactAlone` | crates/arco-catalog/src/compactor.rs:376-697 | a compaction left alone: with nothing to take it changes nothing, or stamps only the time if it met late files; a missing file or snapshot or, under `Reject`, an unreadable file makes it fail and changes nothing; otherwise watermark, versions and counters move past exactly the names taken, and if any is readable their fold on the old snapshot, or the file already under its name, is the new one |
| `CompactorAlone.FaultsFail` | crates/arco-catalog/src/compactor.rs:376-697 | a compactor that meets a storage fault fails |
| `CompactorAlone.RefusedCompactorsRetry` | crates/arco-catalog/src/compactor.rs:181-210 | in every run a compactor whose manifest is refused changes nothing and starts over, unless it was refused as often as it may try |
| `CompactorCoverage.CoveredIs` | crates/arco-catalog/src/compactor.rs:276-302 | in a ledger in name order the files after the watermark are exactly those behind the covered ones |
| `CompactorCoverage.FileContent` | crates/arco-catalog/src/compactor.rs:926-929 | the file of a published snapshot version holds that version's content, even when it was written by another compactor and reused |
| `CompactorCoverage.NextCovers` | crates/arco-catalog/src/compactor.rs:251-697 | every step of listing compactors and appending writers keeps the coverage invariant |
| `CompactorTheorems.FoldOntoLaws` | crates/arco-catalog/src/compactor.rs:425-626 | the compactor's fold meets the two laws the protocol proof relies on |
| `CompactorTheorems.PublishedSnapshotCovers` | crates/arco-catalog/src/compactor.rs:376-697 | in every reachable state the published snapshot is obtained by folding consecutive batches that cover exactly the files at or below the watermark, each once, and the event total counts them |
| `CompactorTheorems.PublishedSnapshotIsOneFold` | crates/arco-catalog/src/compactor.rs:376-697 | if no key is delivered twice and sequences never fall for an id, that snapshot is a single fold of everything at or below the watermark, however the compactors cut it |
| `CompactorBatching.ChainsEndInOneFoldIff` | crates/arco-catalog/src/compactor.rs:376-626 | for every ledger, every way of cutting it into consecutive batches ends in the single fold of its files if and only if, for all positions and ids, what the files from one position to another decide on their own is what all files up to there decide |
| `CompactorBatching.TwoRounds` | crates/arco-catalog/src/compactor.rs:251-697 | for every ledger in name order and every cut of files that can be compacted, a run that publishes exactly those two batches |
| `CompactorBatching.RunsPublishOneFoldIff` | crates/arco-catalog/src/compactor.rs:376-697 | for every ledger in name order, under both policies for unreadable files, every run of listing compactors over it publishes the single fold of the files at or below the watermark if and only if the ledger meets that condition as far as it can be compacted |
| `CompactorBoundary.CoverageIff` | crates/arco-catalog/src/compactor.rs:251-373 | the published snapshot covers exactly the files at or below the watermark in all runs if and only if all compactors list and names are appended in order, or no compactor makes any attempt |
| `CompactorBoundary.ExplicitNamesSkipFiles` | crates/arco-catalog/src/compactor.rs:317-373 | a run in which an explicit compaction moves the watermark past a file it was not given |
| `CompactorBoundary.LateAppendsStayOut` | crates/arco-catalog/src/compactor.rs:276-302 | a run in which a file appended below the watermark is not covered |
| `LateEvents.LateFilesAreNeverFolded` | crates/arco-catalog/src/compactor.rs:276-302 | a name at or below the published watermark is in no batch of a listing compaction that starts later |
| `LateEvents.LateFilesAreNeverPublished` | crates/arco-catalog/src/compactor.rs:666-697 | no listing compaction, whenever it started, publishes a batch with a name at or below an earlier published watermark |
| `SequenceAllocation.SequenceCounter.Allocate` | crates/arco-catalog/src/event_writer.rs:37-46 | hands out the current position and moves the counter by one; on overflow reports an error and leaves the counter alone |
| `SequenceAllocation.PositionsFollowTheCounter` | crates/arco-catalog/src/event_writer.rs:239-339 | the position an append holds is its place in the order of counter writes, so a position held now, even by an append that fails later, is held by no other append at any later time, and no append draws twice |
| `SequenceAllocation.RealTimeOrder` | crates/arco-catalog/src/event_writer.rs:239-339 | an allocation that finished before another began got the smaller position, whatever ran in between |
| `SequenceAllocation.LedgerPositions` | crates/arco-catalog/src/event_writer.rs:114-196 | every position in the ledger is below the counter and no two files carry the same one |
| `SequenceAllocation.LedgerIsWriteOnce` | crates/arco-catalog/src/event_writer.rs:165-196 | a ledger file never changes in any later state |
| `SequenceAllocation.AppendedEventsAreStored` | crates/arco-catalog/src/event_writer.rs:114-196 | a successful append leaves its payload under its position for good, and an append reported as duplicate finds a file there |
| `SequenceAllocation.AppendAlone` | crates/arco-catalog/src/event_writer.rs:114-196 | an append left alone: a path in the ledger is a duplicate and changes nothing; otherwise the event is stored under the counter's position, the first under 1, and the counter moves by one; on overflow it fails and changes nothing |
| `SequenceAllocation.RefusedAppendsRetry` | crates/arco-catalog/src/event_writer.rs:239-339 | in every run an append whose counter write is refused tries again, unless it was refused ten times |
| `SequenceAllocation.FaultsFail` | crates/arco-catalog/src/event_writer.rs:114-339 | an append that meets a storage fault fails; one before the write changes nothing |
| `DdlIdempotency.MarkerTransitions` | crates/arco-catalog/src/idempotency.rs:200-282 | finalized markers answer with the outcome they were given, all transitions keep the request hash, and a refreshed claim keeps its reservation and becomes stale only after the timeout |
| `DdlIdempotency.ExecKeepsInv` | crates/arco-catalog/src/idempotency.rs:482-796 | after every run stored markers hold the information their status needs, owners hold what they would replace, and terminal markers, hashes, reservations and finalizers have not changed; when a claim may be taken over is `CheckAlone` and `TakeoverWasTimedOut` |
| `DdlTheorems.TerminalIsAbsorbing` | crates/arco-catalog/src/idempotency.rs:555-637 | a committed or failed marker never changes again, so no takeover overwrites it; a key keeps the hash of its first claim |
| `DdlTheorems.AtMostOneFinalize` | crates/arco-catalog/src/idempotency.rs:555-584 | at most one request per key finalizes successfully, and the key holds what it wrote |
| `DdlTheorems.SupersededOwnerNeverFinalizes` | crates/arco-catalog/src/idempotency.rs:555-584 | a request whose version was overtaken never finalizes in any continuation |
| `DdlTheorems.SupersededFinalizeConflicts` | crates/arco-catalog/src/idempotency.rs:571-583 | its finalize changes nothing and reports the conflict |
| `DdlTheorems.TakeoverSupersedes` | crates/arco-catalog/src/idempotency.rs:586-637 | a takeover that takes effect replaced a marker still in progress and overtakes every owner of it |
| `DdlTheorems.LaterChecksAgree` | crates/arco-catalog/src/idempotency.rs:686-796 | once a key is finalized, every check that starts later or is still claiming, loading, taking over or reloading gets the recorded outcome with the bound hash, a recovery reporting a commit as its own error, and a conflict with any other hash, and none becomes an owner |
| `DdlTheorems.MissingInfoIsUnreachable` | crates/arco-catalog/src/idempotency.rs:772-796 | the error branches for markers without their information, or that vanished, are never reached |
| `DdlChecks.CheckAlone` | crates/arco-catalog/src/idempotency.rs:686-770 | a new request for a key with a marker, without faults, changes nothing and learns: a conflict if and only if its hash differs; the recorded outcome of a finalized marker; that the work is in progress, with its start, if and only if start plus timeout is not past; otherwise it recovers the reservation if there is one and takes over if there is none |
| `DdlChecks.FirstCheckOwns` | crates/arco-catalog/src/idempotency.rs:482-518 | the first request for a key owns it after one step, with its hash and start and no reservation |
| `DdlChecks.TakeoverOwns` | crates/arco-catalog/src/idempotency.rs:586-637 | a takeover nobody overtakes owns the claim with a new start, the same hash and the same reservation |
| `DdlChecks.LostTakeoverAlone` | crates/arco-catalog/src/idempotency.rs:606-637 | a takeover that was overtaken changes nothing and reports what the key holds by then, a recovery reporting a commit as its own error |
| `DdlChecks.FaultsStop` | crates/arco-catalog/src/idempotency.rs:482-637 | a request whose storage operation meets a fault stops, and an owner that gives up leaves its claim as it is |
| `DdlChecks.TakeoverWasTimedOut` | crates/arco-catalog/src/idempotency.rs:686-770 | in every run a takeover that takes effect replaces exactly the marker its request had read at some earlier moment of the run, in progress, with its own hash and past the timeout |
| `DdlChecks.FinalizedAsDecided` | crates/arco-catalog/src/idempotency.rs:224-278 | in every run what a request finalizes is exactly the commit or failure its owner asked for at some earlier moment, or the entity reserved in an abandoned claim and found to exist |
| `DdlChecks.ReserveAlone` | crates/arco-catalog/src/writer.rs:790-836 | an owner that reserves an entity undisturbed holds exactly that reservation; reserving the same again writes nothing; reserving another stops and writes nothing |
| `DdlChecks.RecoverAlone` | crates/arco-catalog/src/writer.rs:837-970 | the recovery of a stale reservation undisturbed: an entity that exists is committed, one that does not leaves the request owner with a new start and the reservation kept, a mismatch stops and writes nothing |
| `DdlChecks.OvertakenReservationConflicts` | crates/arco-catalog/src/writer.rs:790-836 | a reservation by an overtaken owner changes nothing and is refused |
| `DdlChecks.ReservationsAreKept` | crates/arco-catalog/src/idempotency.rs:586-600 | in every run, once an entity is reserved for a key every later claim of the key keeps exactly that reservation |
| `RowScans.IndexLast` | crates/arco-catalog/src/read_model.rs:105-119 | collecting rows into a map finds for every key the last row a scan finds |
| `RowScans.IndexFirst` | crates/arco-catalog/src/read_model.rs:110-115 | inserting only into vacant entries finds for every key the first row a scan finds |
| `RowScans.FirstIs` | crates/arco-catalog/src/read_model.rs:266-280 | finding by name yields the first row with it, and nothing exactly when there is none |
| `RowScans.GroupRows` | crates/arco-catalog/src/read_model.rs:122-136 | every key's vector is the filtered rows in row order |
| `RowScans.SortStably` | crates/arco-catalog/src/read_model.rs:137-139 | the result is ascending and keeps the row order among equal ordinals |
| `RowScans.StableSortIsUnique` | crates/arco-catalog/src/read_model.rs:137-139 | ascending order and the rows per ordinal determine the result completely |
| `ReadModel.FromParts` | crates/arco-catalog/src/read_model.rs:98-151 | the tables built by the loops agree with scans of the rows for every key |
| `ReadModel.GetTableScans` | crates/arco-catalog/src/read_model.rs:231-269 | a lookup by names finds the first table row so named under the first namespace row so named, and reports a missing namespace or an empty snapshot |
| `ReadModel.GetTableByIdScans` | crates/arco-catalog/src/read_model.rs:284-286 | a lookup by id finds the last row with that id, and nothing exactly when there is none |
| `ReadModel.GetColumnsScans` | crates/arco-catalog/src/read_model.rs:290-295 | the columns of a table are the one stable ordinal sort of its rows |
| `ReadModel.GetColumnsPicks` | crates/arco-catalog/src/read_model.rs:290-295 | those are all and only the column rows of the table, each as often as it occurs |
| `ReadModel.ListSchemasScans` | crates/arco-catalog/src/read_model.rs:178-219 | for all rows, lists all and only the namespace rows that belong to the last catalog row so named, in row order and as often as they occur, with the null and default rules, or reports the missing catalog |
| `ReadModel.ListTablesScans` | crates/arco-catalog/src/read_model.rs:231-250 | for all rows, lists all and only the table rows of the first namespace row so named, in row order and as often as they occur, or reports the missing namespace |
| `ReadModel.ListedUnderExactlyOneCatalog` | crates/arco-catalog/src/read_model.rs:178-219 | with unique catalog names and ids and valid references, each namespace is listed under exactly one catalog name, a null catalog id counting as the default |
| `ReadModel.ListTablesInSchemaScans` | crates/arco-catalog/src/read_model.rs:252-263 | for all rows, lists the table rows of the first namespace row so named that belongs to the last catalog row so named, with the null and default rules, or reports the missing catalog or schema |
| `ReadModel.ListTablesInSchemaByHome` | crates/arco-catalog/src/read_model.rs:178-263 | with unique catalogs and valid references that namespace row is the first so named whose home is the catalog |
| `ReadModel.GetTableInSchemaScans` | crates/arco-catalog/src/read_model.rs:272-280 | for all rows, finds the first table row so named under that namespace row, or reports the same errors |
| `ReaderCache.OneRefresher` | crates/arco-catalog/src/reader.rs:351-372 | at most one reader is between taking the refresh lock and leaving it |
| `ReaderCache.LockIsGivenBack` | crates/arco-catalog/src/reader.rs:351-372 | in every interleaving the refresh lock is held exactly while some reader refreshes; returning, failing and being cancelled give it back |
| `ReaderCache.LoadsOnlyWhatIsMissing` | crates/arco-catalog/src/reader.rs:351-356 | in every interleaving a reader that loads finds nothing cached for its snapshot: whoever waited for a refresh of the same snapshot uses it |
| `ReaderCache.ReaderAlone` | crates/arco-catalog/src/reader.rs:326-375 | a reader left alone returns the model cached under its identity and leaves the cache alone, or loads, returns and caches its own, or fails and leaves the cache alone |
| `ReaderCache.CacheIsTransparentIff` | crates/arco-catalog/src/reader.rs:326-375 | in every interleaving every reader gets the model of its own manifest, if and only if the snapshot identity determines the model |
| `ManifestIds.ParseOfFormat` | crates/arco-catalog/src/manifest.rs:75-94 | every u64 formats to exactly 20 digits that parse back to it |
| `ManifestIds.ParseIffFormatted` | crates/arco-catalog/src/manifest.rs:84-94 | a string parses to a value if and only if it is that value's formatted form, and is malformed if and only if it is not twenty digits |
| `ManifestIds.IdOrder` | crates/arco-catalog/src/manifest.rs:75-77 | identifiers compare as strings exactly as their values compare |
| `ManifestIds.NextIdIsNext` | crates/arco-catalog/src/manifest.rs:101-107 | the successor of a well-formed id is the next value, larger in both orders, and is refused only for the last value; malformed ids are refused |
| `ManifestChain.ChainIsMonotone` | crates/arco-catalog/src/manifest.rs:411-468 | between any two members of an accepted chain the id, in both orders, the snapshot version and the epoch never fall |
| `ManifestChain.FencingIsMonotone` | crates/arco-catalog/src/manifest.rs:442-448 | fencing tokens never fall over a stretch on which all members carry one |
| `ManifestChain.UlidsIncrease` | crates/arco-catalog/src/manifest.rs:457-465 | commit ULIDs strictly increase over a stretch on which all members carry one |
| `ManifestChain.ChainExtendsIff` | crates/arco-catalog/src/manifest.rs:411-468 | an accepted chain stays accepted when extended by a manifest if and only if ids are well-formed and do not fall, version and epoch do not fall, the parent hash is absent or the last one, a token on both sides does not fall and a ULID on both sides strictly rises |
| `ManifestChain.VerdictNamesTheViolation` | crates/arco-catalog/src/manifest.rs:411-468 | a succession that violates exactly one of these is refused with that one's verdict |
| `ManifestChain.TokensOrderedIffPresent` | crates/arco-catalog/src/manifest.rs:442-448 | which members carry a fencing token guarantees order between two of them, over all accepted chains, if and only if no member in between lacks one |
| `ManifestChain.UlidsOrderedIffPresent` | crates/arco-catalog/src/manifest.rs:457-465 | the same for strictly increasing commit ULIDs |
| `ManifestChain.ParentIsPinned` | crates/arco-catalog/src/manifest.rs:433-440 | an accepted member that names a parent hash names the hash of its predecessor's stored bytes |
| `ManifestChain.LastManifestPinsHistory` | crates/arco-catalog/src/manifest.rs:433-440 | with a collision-free hash, accepted chains whose members name their parents and that end in one manifest agree as far back as both reach |
| `ManifestChain.NewRecordsExtendChains` | crates/arco-catalog/src/manifest.rs:1063-1110 | a commit record extends a chain if and only if it is the new successor of its head |
| `ManifestChain.HeadHashDeterminesHistory` | crates/arco-catalog/src/manifest.rs:1063-1110 | with a collision-free hash, two successor chains have equal head hashes if and only if they are identical back to genesis |

## Left out

- Parquet and Arrow encoding, JSON and SHA-256: snapshots and objects are values, digests are collision-free functions.
- Multi-key and cross-object reads are not atomic in the code and not in the model, except that listing the ledger, reading a batch of immutable ledger files and loading a snapshot are one step each.
- The ledger directory is flat and holds `.json` files only.
- `validate_event_paths`: the explicit path is modelled for arbitrary name lists, without the prefix and extension checks and without removing repeated paths.
- Quarantine copies and logging of late events: they change neither snapshot nor manifest.
- The catalog writer, the orchestration compactor, the distributed lock and the ledger's bulk append: steps that return a commit or an error.
- Request ids, lock paths, fencing tokens and audit entries of transaction records: no modelled step reads them.
- Atomicity of a root transaction across domains: the code leaves participants visible when the root aborts.
- The lineage, executions and search manifests' succession checks and the pointer's: the same checks on fewer fields.
- `RootManifest::normalize_manifest_path`, `touch`, `add_file`: single-pass field updates.
- HTTP and gRPC handlers, authentication, credential vending, metrics, configuration, backoff and retry timing.
- The transaction and marker protocols are modelled on values, as state machines, because many callers share the store; the loops of the compactor, of the read model and of the domain check are methods.
