/** The two job bodies as step programs. One step is one awaited call: a
    transaction, or a call to storage or a provider. */
module Pipeline {
  import opened Schema
  import opened Tasks
  import opened Documents
  import opened Embeddings

  datatype Pc =
    // ingest
    | AtLoad
    | AtSkip
    | AtExtracting
    | AtExtract
    | AtChunking(rows: seq<ChunkRow>)
    | AtWrite(rows: seq<ChunkRow>)
    | AtCount(n: nat)
    | AtEmbedding
    | AtSelect
    | AtBatch(items: seq<Item>, pos: nat)
    | AtRecord(items: seq<Item>, pos: nat, done: nat, tokens: int, cost: real)
    | AtCommit
    // rebuild
    | AtEnsure
    | AtRebuilding
    | AtMissing
    | AtCountMissing(items: seq<Item>)
    | AtFill(items: seq<Item>, pos: nat, sweep: bool)
    | AtRecordFill(items: seq<Item>, pos: nat, done: nat, tokens: int, cost: real, sweep: bool)
    | AtSweep
    | AtActivate
    // both
    | AtDone
    | AtFailing(fault: Fault)
    | Finished

  datatype Run = Run(job: ClaimedJob, pc: Pc)

  /** What comes back from outside the database: the chunks of the stored bytes,
      the order a SELECT returns its rows in, the usage a provider reports. */
  datatype Answer = Answer(rows: seq<ChunkRow>, order: seq<ChunkId>, tokens: int, cost: real)

  /** The chunker numbers its rows from 0. */
  predicate Numbered(rows: seq<ChunkRow>) {
    forall k | 0 <= k < |rows| :: rows[k].ordinal == k
  }

  /** `order` lists exactly the chunks in `ids`, each once. */
  predicate Lists(order: seq<ChunkId>, ids: set<ChunkId>) {
    && (forall c | c in ids :: c in order)
    && (forall i | 0 <= i < |order| :: order[i] in ids)
    && (forall i, j | 0 <= i < j < |order| :: order[i] != order[j])
  }

  predicate ByOrdinal(db: Db, order: seq<ChunkId>)
    requires forall i | 0 <= i < |order| :: order[i] in db.chunks
  {
    forall i, j | 0 <= i < j < |order| :: db.chunks[order[i]].row.ordinal <= db.chunks[order[j]].row.ordinal
  }

  /** The rows of a SELECT, with the address given by the caller or read from each row. */
  function ItemsOf(db: Db, order: seq<ChunkId>, address: Option<string>): (items: seq<Item>)
    requires forall i | 0 <= i < |order| :: order[i] in db.chunks
  {
    seq(|order|, i requires 0 <= i < |order| && order[i] in db.chunks =>
      Item(order[i], if address.Some? then address.value else db.chunks[order[i]].addressId,
          db.chunks[order[i]].row.text))
  }

  function BatchEnd(items: seq<Item>, pos: nat): nat {
    if pos + EMBED_BATCH <= |items| then pos + EMBED_BATCH else |items|
  }

  function NextBatch(items: seq<Item>, pos: nat): Pc {
    if pos < |items| then AtBatch(items, pos) else AtCommit
  }

  function NextFill(items: seq<Item>, pos: nat, sweep: bool, scope: string): Pc {
    if pos < |items| then AtFill(items, pos, sweep)
    else if !sweep then AtSweep
    else if scope == "*" then AtActivate
    else AtDone
  }

  /** The step name recorded when the call at `pc` raises: the enclosing `try`, or the leased state. */
  function StepName(job: ClaimedJob, pc: Pc): string {
    match pc
    case AtExtract => "extract"
    case AtWrite(_) => "chunking"
    case AtSelect | AtBatch(_, _) | AtRecord(_, _, _, _, _) => "embedding"
    case AtCommit => "commit"
    case AtMissing | AtCountMissing(_) | AtFill(_, _, _) | AtRecordFill(_, _, _, _, _, _) | AtSweep => "rebuild"
    case _ => StateName(job.state)
  }

  function Raise(job: ClaimedJob, pc: Pc, e: Exc): Pc {
    AtFailing(Fault(StepName(job, pc), e))
  }

  const FOREIGN_KEY := Named("ForeignKeyViolation")

  predicate IsRebuildPc(pc: Pc) {
    || pc.AtEnsure? || pc.AtRebuilding? || pc.AtMissing? || pc.AtCountMissing? || pc.AtFill? || pc.AtRecordFill?
    || pc.AtSweep? || pc.AtActivate?
  }

  predicate IsIngestPc(pc: Pc) {
    !IsRebuildPc(pc) && !pc.AtDone? && !pc.AtFailing? && !pc.Finished?
  }

  /** The body of `run_ingest_job` up to its `mark_done`. */
  function IngestStep(db: Db, run: Run, a: Answer): (Db, Pc)
    requires IsIngestPc(run.pc)
  {
    var job := run.job;
    var t := job.taskId;
    var d := job.spec.documentId;
    var v := job.spec.docVersion;
    var m := job.spec.modelId;
    var address := job.spec.addressId;
    match run.pc
    case AtLoad =>
      if d.Some? && d.value in db.documents then (db, AtExtracting) else (db, AtSkip)
    case AtSkip => (MarkDone(db, t, Skipped), Finished)
    case AtExtracting => (SetState(db, t, Extracting), AtExtract)
    case AtExtract =>
      if Numbered(a.rows) then (db, AtChunking(a.rows)) else (db, Raise(job, run.pc, Named("ValueError")))
    case AtChunking(rows) => (SetState(db, t, Chunking), AtWrite(rows))
    case AtWrite(rows) =>
      if CanInsert(db, d, rows) then (ReplaceChunks(db, d, address, v, rows), AtCount(|rows|))
      else (db, Raise(job, run.pc, FOREIGN_KEY))
    case AtCount(n) => (SetChunkCount(db, t, n), AtEmbedding)
    case AtEmbedding => (SetState(db, t, Embedding), AtSelect)
    case AtSelect =>
      if Lists(a.order, VersionChunks(db, d, v)) && ByOrdinal(db, a.order)
      then (EnsureTable(db, m), NextBatch(ItemsOf(db, a.order, Some(address)), 0))
      else (db, Raise(job, run.pc, Named("OperationalError")))
    case AtBatch(items, pos) =>
      var end := BatchEnd(items, pos);
      if pos <= end && CanEmbed(db, m, items[pos..end])
      then (InsertEmbeddings(db, m, items[pos..end], DoUpdate), AtRecord(items, end, end - pos, a.tokens, a.cost))
      else (db, Raise(job, run.pc, FOREIGN_KEY))
    case AtRecord(items, pos, done, tokens, cost) => (AddUsage(db, t, done, tokens, cost), NextBatch(items, pos))
    case AtCommit => (Flip(db, d, v), AtDone)
  }

  /** The body of `run_rebuild_job` up to its `mark_done`. */
  function RebuildStep(db: Db, run: Run, a: Answer): (Db, Pc)
    requires IsRebuildPc(run.pc)
  {
    var job := run.job;
    var t := job.taskId;
    var m := job.spec.modelId;
    var scope := job.spec.addressId;
    match run.pc
    case AtEnsure => (EnsureTable(db, m), AtRebuilding)
    case AtRebuilding => (SetState(db, t, Embedding), AtMissing)
    case AtMissing =>
      if Lists(a.order, Missing(db, m, scope)) then (db, AtCountMissing(ItemsOf(db, a.order, None)))
      else (db, Raise(job, run.pc, Named("OperationalError")))
    case AtCountMissing(items) => (SetChunkCount(db, t, |items|), NextFill(items, 0, false, scope))
    case AtFill(items, pos, sweep) =>
      var end := BatchEnd(items, pos);
      if pos <= end && CanEmbed(db, m, items[pos..end])
      then (InsertEmbeddings(db, m, items[pos..end], DoNothing),
          AtRecordFill(items, end, end - pos, a.tokens, a.cost, sweep))
      else (db, Raise(job, run.pc, FOREIGN_KEY))
    case AtRecordFill(items, pos, done, tokens, cost, sweep) =>
      (AddUsage(db, t, done, tokens, cost), NextFill(items, pos, sweep, scope))
    case AtSweep =>
      if Lists(a.order, Missing(db, m, scope)) then (db, NextFill(ItemsOf(db, a.order, None), 0, true, scope))
      else (db, Raise(job, run.pc, Named("OperationalError")))
    case AtActivate => (db.(active := Some(m)), AtDone)
  }

  /** The step at `run.pc` when the call returns. An answer that no call can give
      counts as a call that raised. */
  function Proceed(db: Db, run: Run, a: Answer): (Db, Pc) {
    if IsIngestPc(run.pc) then IngestStep(db, run, a)
    else if IsRebuildPc(run.pc) then RebuildStep(db, run, a)
    else match run.pc
      case AtDone => (MarkDone(db, run.job.taskId, Done), Finished)
      case AtFailing(fault) => (MarkFailed(db, run.job, fault), Finished)
      case Finished => (db, Finished)
  }

  /** The first step of a leased job. */
  function Start(job: ClaimedJob): Run {
    Run(job, if job.spec.jobType == Rebuild then AtEnsure else AtLoad)
  }
}
