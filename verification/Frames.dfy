/** What one step of a run leaves alone. */
module Frames {
  import opened Schema
  import opened Tasks
  import opened Documents
  import opened Embeddings
  import opened Pipeline
  import opened Protocol

  lemma ReplaceChunksFrame(db: Db, d: Option<DocId>, address: string, v: int, rows: seq<ChunkRow>)
    requires CanInsert(db, d, rows)
    ensures var db' := ReplaceChunks(db, d, address, v, rows);
      db' == db.(chunks := db'.chunks, tables := db'.tables, next := db.next + |rows|)
  {
    hide Cascade, VersionChunks, Ids;
  }

  lemma FlipFrame(db: Db, d: Option<DocId>, v: int)
    ensures var db' := Flip(db, d, v);
      db' == db.(documents := db'.documents, chunks := db'.chunks, tables := db'.tables)
    ensures Flip(db, d, v).documents.Keys == db.documents.Keys
  {
    hide Cascade;
  }

  predicate WritesTables(pc: Pc) {
    pc.AtSelect? || pc.AtBatch? || pc.AtEnsure? || pc.AtFill? || pc.AtWrite? || pc.AtCommit?
  }

  ghost predicate Framed(db: Db, pc: Pc, db': Db) {
    && (!pc.AtCommit? ==> db'.documents == db.documents)
    && (!pc.AtWrite? ==> db'.next == db.next)
    && (!pc.AtWrite? && !pc.AtCommit? ==> db'.chunks == db.chunks)
    && (!WritesTables(pc) ==> db'.tables == db.tables)
    && db'.now == db.now
  }

  lemma IngestFrame(db: Db, run: Run, a: Answer)
    requires IsIngestPc(run.pc)
    ensures Framed(db, run.pc, IngestStep(db, run, a).0)
    ensures IngestStep(db, run, a).0.documents.Keys == db.documents.Keys
  {
    IngestWriteFrame(db, run, a);
    hide Lists, ItemsOf, CanEmbed, CanInsert, Numbered, ByOrdinal, VersionChunks, InsertAll, ReplaceChunks, Flip;
  }

  lemma RebuildFrame(db: Db, run: Run, a: Answer)
    requires IsRebuildPc(run.pc)
    ensures Framed(db, run.pc, RebuildStep(db, run, a).0)
    ensures RebuildStep(db, run, a).0.documents == db.documents
  {
    hide Lists, ItemsOf, CanEmbed, Missing, InsertAll;
  }

  lemma ProceedFrame(db: Db, run: Run, a: Answer)
    ensures Framed(db, run.pc, Proceed(db, run, a).0)
    ensures Proceed(db, run, a).0.documents.Keys == db.documents.Keys
  {
    if IsIngestPc(run.pc) { IngestFrame(db, run, a); }
    if IsRebuildPc(run.pc) { RebuildFrame(db, run, a); }
    hide IngestStep, RebuildStep;
  }

  /** The two steps that write chunks. */
  lemma IngestWriteFrame(db: Db, run: Run, a: Answer)
    requires IsIngestPc(run.pc)
    ensures
      var db' := IngestStep(db, run, a).0;
      && (run.pc.AtWrite? ==> db' == db.(chunks := db'.chunks, tables := db'.tables, next := db'.next))
      && (run.pc.AtCommit? ==>
           && db' == db.(documents := db'.documents, chunks := db'.chunks, tables := db'.tables)
           && db'.documents.Keys == db.documents.Keys)
  {
    var spec := run.job.spec;
    if run.pc.AtWrite? && CanInsert(db, spec.documentId, run.pc.rows) {
      ReplaceChunksFrame(db, spec.documentId, spec.addressId, spec.docVersion, run.pc.rows);
    }
    FlipFrame(db, spec.documentId, spec.docVersion);
    hide ReplaceChunks, Flip, CanInsert;
  }

  /** The state the step leaves the run's own job row in. */
  function StateAfter(run: Run, state: JobState): JobState {
    match run.pc
    case AtSkip => Skipped
    case AtExtracting => Extracting
    case AtChunking(_) => Chunking
    case AtEmbedding => Embedding
    case AtRebuilding => Embedding
    case AtDone => Done
    case AtFailing(fault) => FailureOutcome(run.job, fault.exc)
    case _ => state
  }

  /** Only the run's own row changes, and only what the step is for. */
  ghost predicate JobsFramed(db: Db, run: Run, db': Db) {
    var t := run.job.taskId;
    if t !in db.jobs then db'.jobs == db.jobs else
    && t in db'.jobs && db'.jobs == db.jobs[t := db'.jobs[t]]
    && var j, j' := db.jobs[t], db'.jobs[t];
    && j'.spec == j.spec && j'.attempts == j.attempts && j'.createdAt == j.createdAt
    && j'.state == StateAfter(run, j.state)
    && j'.leaseUntil == (if run.pc.AtFailing? then None else j.leaseUntil)
  }

  lemma IngestJobs(db: Db, run: Run, a: Answer)
    requires IsIngestPc(run.pc)
    ensures JobsFramed(db, run, IngestStep(db, run, a).0)
  {
    IngestWriteFrame(db, run, a);
    hide Lists, ItemsOf, CanEmbed, CanInsert, Numbered, ByOrdinal, VersionChunks, InsertAll, ReplaceChunks, Flip;
  }

  lemma RebuildJobs(db: Db, run: Run, a: Answer)
    requires IsRebuildPc(run.pc)
    ensures JobsFramed(db, run, RebuildStep(db, run, a).0)
  {
    hide Lists, ItemsOf, CanEmbed, Missing, InsertAll;
  }

  lemma ProceedJobs(db: Db, run: Run, a: Answer)
    ensures JobsFramed(db, run, Proceed(db, run, a).0)
  {
    if IsIngestPc(run.pc) { IngestJobs(db, run, a); }
    if IsRebuildPc(run.pc) { RebuildJobs(db, run, a); }
    hide IngestStep, RebuildStep;
  }

  /** What one event can do to a job row that stays. */
  lemma JobChange(s: State, e: Event, t: TaskId)
    requires t in s.db.jobs && t in Next(s, e).db.jobs && t < s.db.next
    ensures
      var j, j' := s.db.jobs[t], Next(s, e).db.jobs[t];
      || j' == j
      || ((e.Claim? || e.ClaimById?) && e.t == t && !Terminal(j.state) && j' == Lease(s.db, t, e.seconds).jobs[t])
      || (e.Go? && e.r in s.runs && s.runs[e.r].job.taskId == t && JobsFramed(s.db, s.runs[e.r], Next(s, e).db))
  {
    if e.Go? && e.r in s.runs {
      ProceedJobs(s.db, s.runs[e.r], e.a);
      hide Proceed;
    } else {
      hide Proceed, KeepChunks, LookedUp, UploadSpec;
    }
  }
}
