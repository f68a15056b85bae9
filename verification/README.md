# LandIQ RAG ingestion, chunking and search: a verified model

A Dafny 4.11 model of the parts of LandIQ RAG that decide what a search can find, with proofs of what they keep.

- **The ingest and rebuild protocol.** Leased jobs write a new document version, embed it batch by batch and flip the live version; uploads, removals, retries, crashes, a rebuild and the clock interleave with them over one database.
- **The chunker.** Token windows with character spans and provenance, and the paragraph splitter it inverts.
- **The search.** Reciprocal-rank fusion of a vector ranking and a text ranking, and what it returns over any reachable database.

`dafny verify dfyconfig.toml` checks everything.

## How to read it

| files | content |
|---|---|
| `Schema`, `Tasks`, `Documents`, `Embeddings` | the tables as values, and one function per statement |
| `Pipeline` | the two job bodies as step programs: one step is one awaited call, so one transaction or one call to storage or a provider |
| `Protocol` | the state machine: `Next` takes one event, `Exec` a trace; events that cannot happen change nothing |
| `Store`, `Queue`, `Worker`, `Uploads` | the imperative form: a `Database` object whose methods are the repository's statements, the batch claim, the two job bodies with their loops, `process_job`, the upload and removal requests. Each is proved to do what the functions and the step programs say |
| `Replay` | a worker's job body played alone is a stretch of a protocol trace, so results about traces speak of the methods of `Worker`; `Uploads` says the same of the upload request |
| `Integrity`, `Frames` | keys, foreign keys, addresses and vectors under every interleaving; what one step leaves alone |
| `Removal`, `Coverage`, `Status`, `Constraints`, `Atomicity`, `VersionRows`, `StoredOnce`, `Rows`, `Leasing`, `Retries`, `Flags`, `Scope` | results that hold under every interleaving |
| `Doubling`, `Stranding`, `LostRuns`, `Budget`, `Exposure`, `Rewrites`, `Numbering`, `Stale` | properties the code does not always keep, each with the exact condition on the trace under which it does |
| `Readers`, `Snapshots`, `Serial`, `SerialRuns`, `Versions`, `Contents`, `Attempts`, `Leases`, `Scheduling`, `Liveness` | results that need a guard on the schedule |
| `Accounting`, `Resume` | counters over all attempts; a rebuild that is cut and leased again |
| `IngestRun`, `RebuildRun` | the two jobs when nothing disturbs them: how many calls they make, and all they leave |
| `Witnesses`, `Overlap` | traces from the empty database on which a property fails without its guard |
| `Windows`, `Chunker`, `Spans`, `Provenance`, `Paragraphs`, `Words` | chunking and its inverse; what the paragraph splitter keeps together |
| `Fusion`, `FusionLaws`, `FusionLimits`, `Search` | ranking, and search over the protocol's databases |
| `Sets` | sizes of finite sets |

### Guards

The code does not serialise the jobs of a document, so some properties hold only for schedules with a guard. Each guard is a predicate on one event in the state it meets, and `Guarded(guard, s, es)` says that a whole trace respects it.

| guard | meaning | why it is needed | exact condition |
|---|---|---|---|
| none | any interleaving | | |
| `NoAbandon(a)` | no upload request to address `a` dies between its document write and its enqueue | `Witnesses.TornUpload` | `Status.FullyIndexedIsSound` |
| `NoOverlap` | a job is leased only when no run of it is left | `Witnesses.StrandedJob` | `Doubling.NeverTwoRunsIff`, `Stranding.NeverStrandedIff` |
| `Exclusive` | a document's job is leased only when no run of the document is left | `Overlap.OverlapEmptiesDocument` | `VersionRows.LiveDocumentHasRows` |
| `Serially` | `Exclusive`, changed content waits for the document's jobs, and `mark_done` follows a commit | `Witnesses.SharedVersion`, `Overlap.CrashAfterCommitExposes` | `Numbering.AlwaysCountedIff`, `Numbering.AlwaysAdjacentIff`, `Exposure.AlwaysEmbeddedIff` |
| `Changing(true)` | `Serially`, and no upload brings back content that is already live | such content is indexed whatever becomes of its job | `Stale.AlwaysCurrentIff` |
| `Punctual` | runs neither crash nor outlive their lease, no `mark_failed` raises, no delivery by id reaches a job that has a run, and no lease is of negative length | `Witnesses.CrashesAreNotCounted` | `Budget.ClaimsIff` |

### Assumptions

- uuid4 never repeats: identifiers come from one counter.
- A provider is a function of the text, one vector per text; a vector is named by its model and its text.
- `decode(encode(t)) == t`, and decoding a run of tokens of the text splits at every token (`Spans.Lossless`). Only the results in `Spans` use it.
- A transaction is atomic and a SELECT returns the rows its WHERE names, in an order its ORDER BY allows and otherwise open.
- Registered models have distinct embedding tables.
- Scores are exact reals.
- The status endpoint reads one snapshot: the code runs its queries, and the read of the active model, as separate statements.

### What the proofs show about the code

- `claim` is described as never letting two workers process one job, but nothing renews a lease, and `set_state`, `mark_done` and `mark_failed` ignore who holds the job. Two runs of one job are reached (`Doubling.TwoRunsOfOneJob`), and a trace has none if and only if no claim takes a job while a run of it is left: a polling claim after its lease has passed, or a delivery by id at any time (`Doubling.NeverTwoRunsIff`). An outlived lease can leave a job in flight without a lease (`Witnesses.StrandedJob`) or a live document without chunks that reads as fully indexed (`Overlap.OverlapEmptiesDocument`).
- A job gets stranded exactly by a run that sets its state after the lease was cleared (`Stranding.StrandedStep`), so a trace never strands one if and only if no run does that (`Stranding.NeverStrandedIff`). Once stranded without a run it stays so in every continuation that does not deliver it by its id, until its document is removed: no polling worker ever takes it (`Stranding.StrandedForEver`).
- A live document has chunks exactly if the last write of its live version was not empty and since then no other version was committed (`VersionRows.NeverAMix`, `VersionRows.LiveDocumentHasRows`).
- Readers get chunks without vectors exactly by a step that writes rows at the live version or commits a version with an unembedded row (`Exposure.ExposureStep`, `Exposure.AlwaysEmbeddedIff`). A crash between the commit and `mark_done` leads there: the next attempt rewrites the live version in place (`Overlap.CrashAfterCommitExposes`). A commit meets an unembedded row only if another run has written the version since the committing run's SELECT (`Rewrites.BareRowIsRewritten`).
- `fully_indexed` is true of an address whose only document was never indexed, after an upload request that died before its enqueue (`Witnesses.TornUpload`). The exact rule, in every reachable state, is `Status.FullyIndexedIsSound`: under a true flag a document is live exactly if it has a job row that is not a skipped upload.
- An upload is skipped by its hash alone. The content it repeats is then unindexed exactly if the upload that brought it was given up or its job failed (`Contents.SkippedUploadUnindexedIff`), and nothing but changed content queues it again.
- `max_attempts` bounds the attempts of a job that raises, not of one that kills its worker (`Witnesses.CrashesAreNotCounted`). Under every interleaving a job is leased at most `max_attempts` times more than runs of it were lost or a claim took it while a run of it was left, and every such number is reached (`Budget.ClaimsIff`).
- The live version counts the committed jobs exactly as long as each commit is of the version after the live one, or of the live one for a job that has committed before (`Numbering.AlwaysCountedIff`); chunks keep to the live version and the next exactly as long as no other version is written (`Numbering.AlwaysAdjacentIff`).
- What is live is of another content than the document's row names exactly after a commit with another hash, or an upload that changes a live document's, and until a commit or an upload makes the two agree again (`Stale.IndexedStep`, `Stale.AlwaysCurrentIff`).
- The 4k candidate cut of the search is harmless for membership exactly when `rrf_k <= 2k` (`FusionLimits.CutHarmlessIff`), so for the default `k = 8` and `rrf_k = 60` it is not. Every chunk found by both rankings is returned before every chunk found by one, in every search, exactly when `4k <= rrf_k + 1` (`FusionLimits.TwiceWinsIff`), so for the defaults it does.
- Splitting the joined text gives back the extracted paragraphs exactly when none of them has a carriage-return line end inside (`Paragraphs.RoundTripIff`); an input with "\r\r\n" can leave one (`Paragraphs.DoubledReturnDoesNotComeBack`).

## Model

| member | source | states |
|---|---|---|
| `Store.Database.Enqueue` | src/landiq_rag/store/tasks.py:22-44 | inserts a pending row under a fresh key, or nothing when the document is gone (foreign key) |
| `Store.Database.RecordSkipped` | src/landiq_rag/store/tasks.py:145-163 | inserts a terminal skipped row with its finish time, or nothing when the document is gone |
| `Store.Database.TakeLease` | src/landiq_rag/store/tasks.py:50-56 | the row update both claims share: state by job type, lease from now, one more attempt; the worker's copy carries the new attempt number |
| `Store.Database.ClaimById` | src/landiq_rag/store/tasks.py:100-142 | leases the job exactly if its row exists and is not terminal, whatever its lease; otherwise changes nothing |
| `Store.Database.SetState` | src/landiq_rag/store/tasks.py:167-171 | sets the state of the row whoever asks; a missing row changes nothing |
| `Store.Database.SetProgress` | src/landiq_rag/store/tasks.py:174-194 | chunk count is replaced, the other counters are added to, absent arguments change nothing |
| `Store.Database.MarkDone` | src/landiq_rag/store/tasks.py:197-203 | sets state and finish time and clears the fault whoever asks |
| `Store.Database.MarkFailed` | src/landiq_rag/store/tasks.py:206-233 | pending again exactly if the fault is transient and the worker's copy has attempts left, else failed; the lease is cleared |
| `Store.Database.GetDocumentByUpload` | src/landiq_rag/store/documents.py:48-68 | finds a document of this address and upload, or there is none |
| `Store.Database.UpsertDocument` | src/landiq_rag/store/documents.py:71-105 | new documents start at live version 0 and version 1 to write, existing ones get the next after the live one; only the hash changes |
| `Store.Database.DeleteChunks` | src/landiq_rag/store/db.py:76-85 | deleting chunks takes exactly their embeddings from every table with them |
| `Store.Database.DeleteVersionChunks` | src/landiq_rag/store/documents.py:135-142 | drops the rows of one document version and their embeddings |
| `Store.Database.InsertChunks` | src/landiq_rag/store/documents.py:108-132 | row by row under fresh keys; refused exactly when there are rows and no document |
| `Store.Database.SetLiveVersion` | src/landiq_rag/store/documents.py:145-148 | moves the live pointer of a document that exists |
| `Store.Database.DeleteOtherVersions` | src/landiq_rag/store/documents.py:151-158 | drops every other version of the document with its embeddings |
| `Store.Database.DeleteDocument` | src/landiq_rag/store/documents.py:161-164 | removes the document, its chunks, their embeddings and its jobs, and says whether there was one |
| `Store.Database.LiveChunks` | src/landiq_rag/store/documents.py:167-178 | the chunks of a version, each once, in ordinal order, with their texts |
| `Store.Database.EnsureEmbeddingTable` | src/landiq_rag/store/db.py:68-98 | creates the model's table if absent |
| `Store.Database.InsertEmbeddings` | src/landiq_rag/store/embeddings.py:22-48 | row by row with the conflict rule; refused exactly when a chunk is gone |
| `Store.Database.SelectMissing` | src/landiq_rag/ingest/pipeline.py:144-156 | the live chunks in scope without a row in the table, each once |
| `Queue.Claim` | src/landiq_rag/store/tasks.py:46-89 | leases as many claimable rows as the limit allows, oldest first, all decided by the rows before the update |
| `Queue.BatchIsClaims` | src/landiq_rag/store/tasks.py:50-66 | with a lease that is not already over, the batch is that many single claims in the protocol, each of an oldest claimable job |
| `Worker.Extract` | src/landiq_rag/ingest/pipeline.py:51-66 | set_state, extraction and chunking in the order and with the failure step names of the source |
| `Worker.WriteVersion` | src/landiq_rag/ingest/pipeline.py:67-82 | replaces the version's rows in one transaction that is rolled back whole, then records their number |
| `Worker.SelectVersion` | src/landiq_rag/ingest/pipeline.py:86-90 | ensures the table and lists the version's chunks in one transaction |
| `Worker.EmbedBatch` | src/landiq_rag/ingest/pipeline.py:92-108 | one batch: embed, upsert in one transaction, add the deltas |
| `Worker.EmbedVersion` | src/landiq_rag/ingest/pipeline.py:84-112 | the loop over batches of 128 ends at the commit point or with the recorded fault |
| `Worker.CommitVersion` | src/landiq_rag/ingest/pipeline.py:114-122 | flip and sweep in one transaction, then mark_done as its own step |
| `Worker.RunIngestJob` | src/landiq_rag/ingest/pipeline.py:35-122 | the whole body ends in the state and at the point of the step program for the same call outcomes, whatever raises |
| `Worker.FindMissing` | src/landiq_rag/ingest/pipeline.py:144-156 | the backfill query and the completeness sweep read, and change nothing |
| `Worker.InsertRows` | src/landiq_rag/ingest/pipeline.py:161-171 | one insert per row, each under its own address, equals one insert of the batch |
| `Worker.FillBatch` | src/landiq_rag/ingest/pipeline.py:159-175 | one batch of a rebuild, with ON CONFLICT DO NOTHING |
| `Worker.FinishRebuild` | src/landiq_rag/ingest/pipeline.py:213-218 | the pointer moves only for the global scope, then mark_done |
| `Worker.RunRebuildJob` | src/landiq_rag/ingest/pipeline.py:125-218 | the whole body ends in the state and at the point of the step program for the same call outcomes |
| `Worker.ProcessJob` | src/landiq_rag/ingest/runner.py:45-76 | dispatches, records a failure under its step and re-raises exactly when the row went back to pending or could not be written; succeeds exactly when the body did; a recorded row is pending exactly after a transient exception with an attempt left |
| `Replay.PlayIsExec` | src/landiq_rag/ingest/runner.py:45-54 | a body played to any point is that many protocol events with nothing in between |
| `Uploads.IngestDocument` | src/landiq_rag/api/routes_ingest.py:60-141 | unchanged content records a skipped job at the live version and changes no document; storage failure changes nothing; otherwise the document is written and one pending job queued at the next version |
| `Uploads.UploadIsEvents` | src/landiq_rag/api/routes_ingest.py:114-132 | a request with changed content is one `Upload` and one `Enqueue` event with nothing in between: the same document write and the same job row under a later number, and nothing else changes |
| `Uploads.SkipIsEvent` | src/landiq_rag/api/routes_ingest.py:81-99 | a request with unchanged content is one `Skip` event |
| `Uploads.RemoveDocument` | src/landiq_rag/api/routes_ingest.py:145-167 | afterwards nothing in the database belongs to the document |
| `Constraints.ReuploadFindsIt` | src/landiq_rag/api/routes_ingest.py:75-99 | the same upload sent again finds the document the first one wrote, with its hash, so it takes the unchanged path |
| `Constraints.ConstraintsHold` | migrations/0001_init.sql:28-46 | under every interleaving there is one document per (address, upload) and one chunk per (document, version, ordinal) |
| `Integrity.NextSound` | src/landiq_rag/ingest/pipeline.py:71-104 | every event keeps keys, foreign keys, embedding address = chunk address = document address, and each vector that of its chunk's text under the table's model; rows only appear under new keys and keep what identifies them |
| `Integrity.ExecSound` | src/landiq_rag/ingest/pipeline.py:35-218 | hence every reachable state has all of that |
| `Integrity.ExecEvolves` | src/landiq_rag/ingest/pipeline.py:71-118 | along every trace a row that was there stays the same row or goes; an embedding goes only with its chunk, a job only with its document, a table never |
| `Frames.JobChange` | src/landiq_rag/store/tasks.py:46-233 | one event leaves a job row alone, leases it while it is open, or does to the run's own row what the run's program point is for |
| `Leasing.LeaseLasts` | src/landiq_rag/store/tasks.py:50-66 | a job that a poll or a delivery by id took is claimable again after a further time exactly when that is longer than the seconds of its lease |
| `Leasing.TakenJob` | src/landiq_rag/store/tasks.py:50-66 | the claim changes one row: one more attempt, in flight in the state of its type; and starts one run, on a copy of the row, at the first step of its body |
| `Leasing.QueuedIsClaimable` | src/landiq_rag/store/tasks.py:22-66 | a queued job is claimable at once, and taken when no other is claimable |
| `Leasing.RebuildIsQueued` | src/landiq_rag/api/routes_admin.py:45-56 | a requested rebuild is a pending job of its own for the requested model and scope, claimable at once |
| `Leasing.StepsShow` | src/landiq_rag/ingest/pipeline.py:35-218 | the state a job row shows after each step of its run |
| `Leasing.LostRunLeavesRow` | src/landiq_rag/store/tasks.py:58-61 | a run that dies, or whose mark_failed raises, leaves the database as it is; its row is claimable again exactly when its lease has passed |
| `Leasing.EndedForGood` | src/landiq_rag/store/tasks.py:100-142 | a job that is done, skipped or failed and has no run left keeps its row through every continuation until its document goes, and nothing claims it |
| `Rows.RowsAlwaysTell` | src/landiq_rag/store/tasks.py:145-233 | under every interleaving: done and skipped rows have no fault, failed rows have one, all three a finish time; a pending row has no lease, and a transient fault exactly if it was leased before |
| `Retries.FailureIsRecorded` | src/landiq_rag/ingest/runner.py:23-64 | under every interleaving, after an exception and a mark_failed that goes through: for a timeout, a lost connection or one of the nine names, with an attempt left, the row is pending and claimable, otherwise failed and, without another run, never claimed again; it names the exception and the part of the body |
| `Readers.WrittenByStep` | src/landiq_rag/ingest/pipeline.py:71-79 | every recorded write is a chunking step of the trace |
| `Snapshots.ExecEmbeds` | src/landiq_rag/ingest/pipeline.py:92-118 | with exclusive runs, a run in its embedding loop has embedded every row of its version that it has still not to visit |
| `Snapshots.OwnWrite` | src/landiq_rag/ingest/pipeline.py:71-79 | with exclusive runs, the last write of the version of a run that has written and not yet committed is that run's own chunking step |
| `SerialRuns.ExecSerial` | src/landiq_rag/store/documents.py:97-105 | the invariant behind the version law: one open job per document, writing the next version |
| `Leases.ExecTimely` | src/landiq_rag/store/tasks.py:50-66 | punctual runs: an in-flight job has its run, of its current attempt, within its lease |
| `Liveness.RunEnds` | src/landiq_rag/ingest/pipeline.py:35-218 | a run that gets its steps ends, by the measure (program point, batches left) |
| `Liveness.GetsClaimed` | src/landiq_rag/store/tasks.py:58-65 | a pending job is leased or removed, by the measure of attempts left to the jobs created no later |
| `Removal.RemovalIsFinal` | src/landiq_rag/store/documents.py:161-164 | after a removal no continuation brings back the document, a chunk, an embedding in any table or a job, and its chunks' keys stay unused |
| `Removal.RemovalIsExact` | src/landiq_rag/store/documents.py:161-164 | a removal takes nothing that is not the document's |
| `Coverage.RebuildCoverage` | src/landiq_rag/ingest/pipeline.py:177-217 | when a global rebuild activates its model, every chunk live at its sweep query that still exists has a row in the model's table, whatever happened in between |
| `Coverage.PointerMoves` | src/landiq_rag/ingest/pipeline.py:213-217 | after start-up the active model changes only there, to that rebuild's model, and a scoped rebuild never changes it |
| `Scope.ScopeIsCovered` | src/landiq_rag/ingest/pipeline.py:139-218 | under every interleaving: at a rebuild's mark_done every chunk that was live at its sweep query, belongs to its address (any for "*") and still exists has a vector under its model |
| `Scope.GlobalActivates` | src/landiq_rag/ingest/pipeline.py:213-218 | under every interleaving: a global rebuild at its mark_done has made its model active |
| `Scope.StartUpActivates` | src/landiq_rag/main.py:36-46 | start-up makes the configured model active, with a table, unless one is active; it changes no document, chunk, vector or job |
| `Status.FullyIndexedIsSound` | src/landiq_rag/api/routes_ingest.py:187-238 | in any reachable state a true flag means: a document is live exactly if it has a job row that is not a skipped upload; every live chunk has its vector under the active model; the search examines exactly the live chunks |
| `Status.FullyIndexedMeansAllLive` | src/landiq_rag/api/routes_ingest.py:225-236 | if no upload to the address died half way and none is half way, a true flag means every document of the address is live |
| `Flags.StatusCounts` | src/landiq_rag/api/routes_ingest.py:189-238 | the counts are the numbers of documents of the address, of its job rows not ended, of those failed, and of its live chunks without a vector under the active model |
| `Flags.FullyIndexedIff` | src/landiq_rag/api/routes_ingest.py:225-236 | the flag is true if and only if every job row of the address is done or skipped and every live chunk has its vector under the active model |
| `Flags.SkipKeepsStatus` | src/landiq_rag/api/routes_ingest.py:81-99 | the record of a skipped upload changes no status of any address |
| `Flags.EnqueueShows` | src/landiq_rag/api/routes_ingest.py:114-132 | a queued upload is one more job in flight at its address, which is then not fully indexed |
| `VersionRows.NeverAMix` | src/landiq_rag/ingest/pipeline.py:71-118 | under every interleaving: a version has exactly the rows of its last write if since then no other version of the document was committed and it was not removed; otherwise it has none |
| `VersionRows.LiveDocumentHasRows` | src/landiq_rag/ingest/pipeline.py:71-118 | a live document has rows if and only if that write stands and was not empty |
| `Exposure.ExposureStep` | src/landiq_rag/ingest/pipeline.py:71-118 | a step gives readers of a document a chunk without a vector if and only if it writes non-empty rows at the live version or commits a version with a row without one |
| `Exposure.AlwaysEmbeddedIff` | src/landiq_rag/ingest/pipeline.py:71-118 | along a trace readers always get only chunks with a vector if and only if no event of it is such a step |
| `Exposure.WriteBares` | src/landiq_rag/ingest/pipeline.py:71-79 | a non-empty write leaves the version with a row without a vector in any table |
| `Rewrites.BareRowIsRewritten` | src/landiq_rag/ingest/pipeline.py:86-118 | under every interleaving: a row that a run at its commit finds without a vector of its model was written by another run after this run's SELECT, and that write stands |
| `Rewrites.CommitExposesRewritten` | src/landiq_rag/ingest/pipeline.py:86-118 | so a commit gives readers a chunk without a vector only after such a rewrite, as long as vectors of the committing model count |
| `Readers.ReaderAtomicity` | src/landiq_rag/ingest/pipeline.py:115-118 | with exclusive runs readers see exactly the rows of one chunking step of the trace, and nothing before the first commit |
| `Snapshots.CommitSnapshot` | src/landiq_rag/ingest/pipeline.py:63-118 | at a commit readers get exactly (ordinal, text, vector) of the rows the committing run itself wrote, all embedded under the committing model |
| `Snapshots.ResumedIngest` | src/landiq_rag/ingest/pipeline.py:63-108 | two ingests whose committing runs wrote the same chunks under one model, whatever cuts and retries led to them, publish the same (ordinal, text, vector) rows |
| `IngestRun.IngestSucceeds` | src/landiq_rag/ingest/pipeline.py:35-122 | an undisturbed ingest of n chunks is done after eight calls, two per batch of at most 128, and two more: live at the job's version with exactly these chunks in order and their vectors; the row counts them with the reported tokens and cost; other documents keep their chunks |
| `IngestRun.SoloIsPlay` | src/landiq_rag/ingest/pipeline.py:35-218 | a run whose calls all return is the run the worker plays, so these results are about `Worker.RunIngestJob` and `Worker.RunRebuildJob` |
| `IngestRun.OrderIsForced` | src/landiq_rag/store/documents.py:167-178 | the SELECT by ordinal can return the rows of the version in no other order than the chunker's |
| `IngestRun.RemovedIsSkipped` | src/landiq_rag/ingest/pipeline.py:41-49 | a job whose document is gone is skipped after one look, with nothing extracted, written or embedded |
| `Versions.VersionLaw` | src/landiq_rag/store/documents.py:97-105 | under the serial guard the live version counts the committed jobs, chunks exist only at the live version and the next, and every live chunk is embedded under the committing model |
| `Numbering.CountStep` | src/landiq_rag/store/documents.py:97-105 | where every live version is the number of committed jobs, a step breaks that if and only if it commits a version of an existing document other than live + 1, or other than live for a job that has committed before |
| `Numbering.AlwaysCountedIff` | src/landiq_rag/store/documents.py:97-105 | along a trace every live version counts the committed jobs if and only if no event is such a commit |
| `Numbering.AdjacentStep` | src/landiq_rag/ingest/pipeline.py:71-118 | where chunks are at the live version and the next only, a step breaks that if and only if it writes non-empty rows at another version |
| `Numbering.AlwaysAdjacentIff` | src/landiq_rag/ingest/pipeline.py:71-118 | along a trace chunks are at those two versions only if and only if no event is such a write |
| `Contents.FullyIndexedIsCurrent` | src/landiq_rag/api/routes_ingest.py:187-238 | under the serial guard and with no upload to the address given up, a true flag means each document's live version was committed by a finished job that carries the document's content hash |
| `Contents.UnindexedOnlyIf` | src/landiq_rag/api/routes_ingest.py:81-132 | under the serial guard, content of a document at rest is unindexed only if its upload was given up or its job failed before the commit |
| `Contents.SkippedUploadUnindexedIff` | src/landiq_rag/api/routes_ingest.py:81-99 | a skipped upload changes nothing about that, and where no upload brings back live content the condition is exact |
| `Stale.IndexedStep` | src/landiq_rag/ingest/pipeline.py:114-118 | under every interleaving: a commit makes a document's content indexed if and only if it carries the hash of the row, an upload if and only if it brings back what is live, and nothing else changes whether it is |
| `Stale.AlwaysCurrentIff` | src/landiq_rag/api/routes_ingest.py:81-132 | along a trace every live document is of the content its row names if and only if no commit carries another hash and no upload changes a live document's |
| `Leases.InFlightReclaimable` | src/landiq_rag/store/tasks.py:58-61 | without overlap an in-flight row always has a lease, so it becomes claimable when that has passed, whatever crashed; the exact condition is `Stranding.NeverStrandedIff` |
| `Doubling.DoubleStep` | src/landiq_rag/store/tasks.py:46-142 | where jobs have one run each and rows agree with their runs, a job gets a second run if and only if a claim takes it while a run of it is left; for a polling claim its lease has then passed; otherwise rows go on agreeing |
| `Doubling.NeverTwoRunsIff` | src/landiq_rag/store/tasks.py:3-4 | along a trace no job ever has two runs if and only if no claim takes a job while a run of it is left |
| `Doubling.TwoRunsOfOneJob` | src/landiq_rag/store/tasks.py:58-61 | reached from the empty database: a lease passes, the first run goes on and a second worker starts on the same job |
| `Stranding.ReclaimableIffLeased` | src/landiq_rag/store/tasks.py:58-61 | some passing of time makes an in-flight job claimable if and only if it has a lease |
| `Stranding.StrandedStep` | src/landiq_rag/store/tasks.py:167-233 | a job gets in flight without a lease if and only if a run of it sets its state when the lease is cleared, and leaves that if and only if it is delivered by id or a run of it settles the row |
| `Stranding.NeverStrandedIff` | src/landiq_rag/store/tasks.py:167-233 | along a trace every in-flight row has a lease if and only if no event of it is such a set_state |
| `Stranding.StrandedForEver` | src/landiq_rag/store/tasks.py:58-61 | without a run it stays so through every continuation that does not deliver it by id, or goes with its document; no polling claim takes it |
| `Leases.OneRunFewAttempts` | src/landiq_rag/store/tasks.py:206-233 | punctual runs: at most one run per job, at most max_attempts claims, and a claimable job is pending with an attempt left; with lost runs the bound is `LostRuns.AttemptsBound` |
| `LostRuns.AttemptsBound` | src/landiq_rag/store/tasks.py:206-233 | without overlap, and whatever dies: at most max_attempts claims more than runs of the job ended without mark_failed or mark_done, and pending only with an attempt left |
| `LostRuns.AttemptsIff` | src/landiq_rag/store/tasks.py:206-233 | and exactly: a number of claims is reached with so many lost runs if and only if it is at most max_attempts more |
| `Budget.ClaimsBound` | src/landiq_rag/store/tasks.py:46-233 | under every interleaving: at most max_attempts claims more than runs of the job were lost or a claim took it while a run of it was left |
| `Budget.ClaimsIff` | src/landiq_rag/store/tasks.py:46-233 | and exactly: a number of claims is reached with so many lost runs and such claims if and only if it is at most max_attempts more |
| `Scheduling.SchedulingBound` | src/landiq_rag/store/tasks.py:58-65 | punctual runs: while a pending job waits at most max_attempts claims per older job are made, a row inserted in the same clock instant counting as older |
| `Liveness.EveryJobEnds` | src/landiq_rag/ingest/runner.py:45-76 | punctual runs that go on, workers that poll and a clock that runs: every job becomes terminal or is removed |
| `Accounting.UsageIsConserved` | src/landiq_rag/store/tasks.py:183-194 | under every interleaving a job's counters are the sums over all batches its attempts recorded |
| `Attempts.DoneMeansAllRecorded` | src/landiq_rag/ingest/pipeline.py:82-108 | a finished ingest has recorded at least chunk_count vectors, and exactly chunk_count when one attempt did it |
| `Attempts.VectorsPerAttempt` | src/landiq_rag/ingest/pipeline.py:82-108 | with a fixed chunking into n chunks embedding_count is at most attempts * n, and at least n when done |
| `Resume.RebuildAlone` | src/landiq_rag/ingest/pipeline.py:125-208 | wherever a rebuild stops it has stored one vector per chunk no longer missing and touched no other table, and at its mark_done the table has every live chunk of the scope |
| `Scope.RebuildEmbedsWanted` | src/landiq_rag/ingest/pipeline.py:139-171 | an undisturbed rebuild at its mark_done has given a vector of its text to exactly the live chunks of its address (of any for "*") that had none, and changed no other |
| `Scope.RebuildKeepsRows` | src/landiq_rag/store/embeddings.py:22-47 | on any database and however far its calls got, a rebuild leaves every vector that is stored exactly as it was |
| `Scope.RebuildActivates` | src/landiq_rag/ingest/pipeline.py:211-218 | an undisturbed rebuild has moved the active pointer, to its own model, by its mark_done exactly if its scope is "*", and never before |
| `RebuildRun.RebuildSucceeds` | src/landiq_rag/ingest/pipeline.py:125-218 | an undisturbed rebuild of n such chunks is done after five calls, two per batch of at most 128, one more for "*", and the mark_done; the active model has changed exactly for "*"; the row counts n and is done |
| `RebuildRun.BatchIsRecorded` | src/landiq_rag/ingest/pipeline.py:92-108 | a batch adds its size and the tokens and cost its provider call reported to the row, in an ingest and in a rebuild |
| `Resume.ResumedRebuild` | src/landiq_rag/ingest/pipeline.py:125-208 | cut after any step and leased again, it ends with the table of an uncut rebuild, and both parts together store each missing chunk once |
| `StoredOnce.StoredByOneBatch` | src/landiq_rag/store/embeddings.py:22-48 | under every interleaving: each vector in a table was stored by exactly one event, a batch of a job for that model |
| `StoredOnce.RebuildStoresOnce` | src/landiq_rag/ingest/pipeline.py:159-217 | so at a global rebuild's activation each chunk live at its sweep that still exists has had its vector stored by exactly one batch, whatever was cut, removed or ingested in between |
| `Witnesses.TornUpload` | src/landiq_rag/api/routes_ingest.py:114-132 | a request that dies before its enqueue leaves fully_indexed true with a document that was never indexed, and the same upload is then skipped |
| `Witnesses.StrandedJob` | src/landiq_rag/store/tasks.py:167-171 | reached from the empty database: an outlived lease leaves a job in flight without a lease or a run, and no passing of time makes it claimable |
| `Witnesses.SharedVersion` | src/landiq_rag/store/documents.py:97 | reached from the empty database: changed content uploaded before the first commit is queued at the same version |
| `Witnesses.SharedVersionIff` | src/landiq_rag/store/documents.py:97-105 | an upload to an existing document is queued at the version of another of its jobs if and only if that one is for the version after the live one |
| `Witnesses.CrashesAreNotCounted` | src/landiq_rag/store/tasks.py:46-66 | from the empty database: a job that kills its worker is leased any number of times, its leases never overlapping |
| `Overlap.BothCommitsLoseAllChunks` | src/landiq_rag/ingest/pipeline.py:115-118 | whenever two runs of a document stand at commits of different versions, both commits leave it live without a chunk |
| `Overlap.OverlapEmptiesDocument` | src/landiq_rag/ingest/pipeline.py:115-122 | such a state is reachable without a removal, ends with both jobs done and fully_indexed true |
| `Overlap.RewriteExposes` | src/landiq_rag/ingest/pipeline.py:71-79 | a run that writes the version already live leaves readers chunks without any vector |
| `Overlap.CrashAfterCommitExposes` | src/landiq_rag/ingest/pipeline.py:116-122 | such a state is reachable by a crash between commit and mark_done, with no runs overlapping |
| `Chunker.BisectRight` | src/landiq_rag/ingest/chunk.py:52 | splits the starts into those at most the position and those after it |
| `Chunker.Layout` | src/landiq_rag/ingest/chunk.py:36-46 | the joined text, where each segment starts in it, and its page and paragraph |
| `Chunker.ChunkSegments` | src/landiq_rag/ingest/chunk.py:27-83 | ValueError exactly for segments with overlap >= chunk_tokens; no rows without segments; otherwise one row per window with its text, span, tokens and provenance |
| `Windows.Shape` | src/landiq_rag/ingest/chunk.py:60-83 | windows start at 0, all but the last have chunk_tokens tokens, neighbours share exactly the overlap, the last ends the text and after others has more than the overlap |
| `Windows.NoGaps` | src/landiq_rag/ingest/chunk.py:60-83 | every token is in a window exactly when the overlap is not negative or one window takes them all |
| `Windows.Count` | src/landiq_rag/ingest/chunk.py:60-83 | the number of windows in closed form |
| `Provenance.RowShape` | src/landiq_rag/ingest/chunk.py:56-83 | the stored rows: their number in closed form, ordinals from 0, chunk_tokens tokens each but the last, which after others has more than the overlap |
| `Provenance.RowTokens` | src/landiq_rag/ingest/chunk.py:62-82 | row k holds the tokens from position k times the stride on, chunk_tokens of them or all that are left; its text is what they decode to, its token count is their number and its span is as long as the text, also for a negative overlap |
| `Spans.TextIsSlice` | src/landiq_rag/ingest/chunk.py:62-64 | each chunk's text is exactly the slice of the full text its span names |
| `Spans.GluingRebuilds` | src/landiq_rag/ingest/chunk.py:60-83 | dropping the overlap the stored spans show rebuilds the full text |
| `Provenance.SegmentInText` | src/landiq_rag/ingest/chunk.py:36-46 | each segment's text stands in the full text where its start says, followed by the separator |
| `Provenance.LocateFinds` | src/landiq_rag/ingest/chunk.py:51-54 | the bisection finds the one segment whose text or following separator holds the position |
| `Provenance.ChunkProvenance` | src/landiq_rag/ingest/chunk.py:63-75 | a chunk carries the page and paragraph of the segment its first character falls in |
| `Provenance.ProvenanceNeverDecreases` | src/landiq_rag/ingest/chunk.py:63-65 | later chunks begin in the same or later segments, and on the same or later pages when pages are in order; no assumption on the tokeniser |
| `Paragraphs.SplitGivesParagraphs` | src/landiq_rag/ingest/extract.py:34-36 | every extracted paragraph is not blank, has no space at either end and no blank line inside |
| `Words.NothingIsLost` | src/landiq_rag/ingest/extract.py:34-36 | for every text the characters of its paragraphs that are not spaces are exactly its own, in order |
| `Words.StretchStaysWhole` | src/landiq_rag/ingest/extract.py:34-36 | a stretch between two such characters without a blank line in it, line ends normalised, comes back whole in one paragraph at its place |
| `Words.SameParagraphIff` | src/landiq_rag/ingest/extract.py:34-36 | two such characters come back in the same paragraph if and only if no blank line stands between them, each at exactly one place |
| `Words.SpacesAre` | src/landiq_rag/ingest/extract.py:35 | the characters taken for spaces, one by one |
| `Paragraphs.RoundTripIff` | src/landiq_rag/ingest/extract.py:34-36 | paragraphs come back from their join exactly when none has a carriage-return line end inside |
| `Paragraphs.ExtractionRoundTrip` | src/landiq_rag/ingest/extract.py:210-215 | splitting the chunker's full text gives back the segment texts exactly under that condition, and always for inputs without "\r\r\n" |
| `Paragraphs.DoubledReturnDoesNotComeBack` | src/landiq_rag/ingest/extract.py:34-36 | an input with "\r\r\n" for which it fails |
| `FusionLaws.FuseIsFusion` | src/landiq_rag/store/embeddings.py:126-148 | a ranking that meets the ORDER BY and LIMIT over the full outer join exists for any two lists |
| `FusionLaws.ResultShape` | src/landiq_rag/store/embeddings.py:94-151 | results have no duplicate, number min(k, size of the union), fall in score within (0, 2/(rrf_k + 1)] |
| `FusionLaws.HigherComesFirst` | src/landiq_rag/store/embeddings.py:146-147 | a found chunk with a strictly higher score than a returned one is returned before it |
| `FusionLaws.AheadStaysAhead` | src/landiq_rag/store/embeddings.py:126-133 | in a search, a chunk that in both uncut rankings is ahead of another wherever that one is found at all is returned before it |
| `FusionLaws.NoTextMatches` | src/landiq_rag/store/embeddings.py:170-186 | without text matches the result is exactly the first k of the vector order, as ann_search promises |
| `FusionLimits.CutIsHarmless` | src/landiq_rag/store/embeddings.py:94-133 | when rrf_k <= 2k a chunk outside both 4k candidate lists is never in the top k of the uncut fusion |
| `FusionLimits.CutHarmlessIff` | src/landiq_rag/store/embeddings.py:94-133 | and for k >= 1 only then: otherwise two rankings lose one |
| `FusionLimits.FoundTwiceComesFirst` | src/landiq_rag/store/embeddings.py:94-147 | when 4k <= rrf_k + 1 every chunk both rankings found precedes every chunk only one found |
| `FusionLimits.TwiceWinsIff` | src/landiq_rag/store/embeddings.py:126-133 | and only then: for larger k some search returns a chunk found once before one found twice |
| `FusionLimits.ScoresAgree` | src/landiq_rag/store/embeddings.py:146-147 | two results of one search agree in every score, so ties are all that is open |
| `Search.SearchIsIsolated` | src/landiq_rag/store/embeddings.py:100-147 | under every interleaving each returned chunk is a live chunk of the address and of a document of the address, although the vector branch filters the embedding row only |
| `Search.RemovedIsNeverReturned` | src/landiq_rag/store/documents.py:161-164 | no search after a removal returns a chunk of the document, whatever was in flight |
| `Search.FullyIndexedSearch` | src/landiq_rag/store/embeddings.py:154-167 | a search of a fully indexed address examines all live chunks and returns min(k, live chunks) of them |
| `Search.ExaminedAre` | src/landiq_rag/store/embeddings.py:100-108 | under every interleaving the vector branch ranges over exactly the live chunks of the address with a vector under the model |

## Left out

- Requests, DTOs, logging, configuration loading, SSM, Lambda handlers, CDK and scripts: plumbing around the steps that are modelled.
- Storage backends, pdfplumber, OCR, the Claude fallback and its page format: extraction is an outcome of the extraction call, except for plain text.
- UTF-8 decoding with replacement: `Paragraphs` starts from the decoded text.
- Embedding providers, cosine distance, HNSW, `ts_rank_cd` and stemming: the two rankings are arbitrary lists over the rows the filters allow.
- tiktoken's byte-pair algorithm and its special-token errors: `encode` and `decode` are parameters. A negative `chunk_tokens` is not modelled.
- Row locks and transactions that overlap in time (`FOR UPDATE SKIP LOCKED`, two first uploads of one document at once): each transaction is one step.
- Columns no modelled statement reads: `storage_ref`, `content_type`, `original_name`, `worker_id`, `claimed_at`, `dim`, error messages; the `address` table and its cascade.
- `max_attempts` is the column default 5, as no statement writes another; `ingest_max_attempts` in the settings is not used by the code.
- `heartbeat`: the pipeline never calls it.
- `sanitise_model_table`, which can map two model ids to one table.
- The rebuild exclusion check: check and enqueue are separate transactions, so the code decides nothing about overlapping rebuilds.
- Model coverage after the pointer has moved: ingests queued earlier still embed under the old model.
- The rows a search joins in for display (file name, page, text): only which chunks are returned, and in which order.
- Leases of negative length: `Queue.BatchIsClaims` is about leases that are not already over.
- EveryJobEnds: fairness of workers and clock is a hypothesis on an infinite schedule, as the code leaves it to the operating system.
- FullyIndexedMeansAllLive: needs that no upload request to the address died half way; without it the exact rule is FullyIndexedIsSound.
- FullyIndexedIsSound: the endpoint's statements read one snapshot; in the code a commit can fall between them.
- IngestDocument: nothing falls between the request's transactions; the interleavings are those of the events it consists of.
- SkippedUploadUnindexedIff: speaks of serial schedules and sets aside uploads that bring back the live content; for those one direction is UnindexedOnlyIf, and without any guard the step law is IndexedStep.
- ResumedRebuild: nothing else happens while the rebuild is cut and resumed; with other events in between, what it covers is RebuildCoverage and that each vector is stored once is RebuildStoresOnce.
