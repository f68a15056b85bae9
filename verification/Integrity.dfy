/** What every interleaving keeps: keys, foreign keys, addresses, vectors; and how
    one database state may turn into a later one. */
module Integrity {
  import opened Schema
  import opened Tasks
  import opened Documents
  import opened Embeddings
  import opened Pipeline
  import opened Protocol

  ghost predicate KeysIssued(db: Db) {
    && (forall d | d in db.documents :: d < db.next && db.documents[d].liveVersion >= 0)
    && (forall c | c in db.chunks :: c < db.next)
    && (forall t | t in db.jobs :: t < db.next)
  }

  ghost predicate ChunksSound(db: Db) {
    forall c | c in db.chunks ::
      && db.chunks[c].documentId in db.documents
      && db.chunks[c].addressId == db.documents[db.chunks[c].documentId].addressId
      && db.chunks[c].docVersion >= 1
  }

  /** Each embedding belongs to a chunk, is filed under its address, and is its vector under the table's model. */
  ghost predicate TablesSound(db: Db) {
    forall m, c | m in db.tables && c in db.tables[m] ::
      && c in db.chunks
      && db.tables[m][c] == EmbeddingRow(db.chunks[c].addressId, m, VectorOf(m, db.chunks[c].row.text))
  }

  ghost predicate JobSound(db: Db, j: Job) {
    && (j.spec.jobType == Ingest <==> j.spec.documentId.Some?)
    && (j.spec.documentId.Some? ==>
         && j.spec.documentId.value in db.documents
         && db.documents[j.spec.documentId.value].addressId == j.spec.addressId)
    && (j.spec.jobType == Ingest && !Terminal(j.state) ==> j.spec.docVersion >= 1)
  }

  ghost predicate DbSound(db: Db) {
    && KeysIssued(db) && ChunksSound(db) && TablesSound(db)
    && forall t | t in db.jobs :: JobSound(db, db.jobs[t])
  }

  ghost predicate ItemsSound(db: Db, items: seq<Item>) {
    forall i | 0 <= i < |items| ::
      && items[i].id < db.next
      && (items[i].id in db.chunks ==>
           db.chunks[items[i].id].row.text == items[i].text && db.chunks[items[i].id].addressId == items[i].addressId)
  }

  function PcItems(pc: Pc): seq<Item> {
    match pc
    case AtBatch(items, _) => items
    case AtRecord(items, _, _, _, _) => items
    case AtCountMissing(items) => items
    case AtFill(items, _, _) => items
    case AtRecordFill(items, _, _, _, _, _) => items
    case _ => []
  }

  /** A loop position is within the rows it walks over. */
  predicate PositionSound(pc: Pc) {
    match pc
    case AtBatch(items, pos) => pos < |items|
    case AtRecord(items, pos, _, _, _) => pos <= |items|
    case AtFill(items, pos, _) => pos < |items|
    case AtRecordFill(items, pos, _, _, _, _) => pos <= |items|
    case _ => true
  }

  /** The worker's copy agrees with the row while the row exists. */
  ghost predicate RunSound(db: Db, r: RunId, run: Run) {
    var spec := run.job.spec;
    && run.job.taskId == r.0 && run.job.attempts == r.1 && r.0 < db.next && r.1 >= 1
    && (spec.jobType == Ingest <==> spec.documentId.Some?)
    && (spec.jobType == Ingest ==> spec.docVersion >= 1 && spec.documentId.value < db.next)
    && (r.0 in db.jobs ==> db.jobs[r.0].spec == spec && r.1 <= db.jobs[r.0].attempts)
    && (spec.documentId.Some? && spec.documentId.value in db.documents ==>
         r.0 in db.jobs && db.documents[spec.documentId.value].addressId == spec.addressId)
    && (spec.jobType == Rebuild ==> r.0 in db.jobs)
    && (IsRebuildPc(run.pc) ==> spec.jobType == Rebuild)
    && (IsIngestPc(run.pc) ==> spec.jobType == Ingest)
    && (run.pc.AtActivate? ==> spec.addressId == "*")
    && !run.pc.Finished?
    && PositionSound(run.pc)
    && ItemsSound(db, PcItems(run.pc))
  }

  ghost predicate UploadSound(db: Db, u: nat, spec: Spec) {
    && u < db.next
    && spec.jobType == Ingest && spec.documentId.Some? && spec.documentId.value < db.next && spec.docVersion >= 1
    && (spec.documentId.value in db.documents ==> db.documents[spec.documentId.value].addressId == spec.addressId)
  }

  ghost predicate Sound(s: State) {
    && DbSound(s.db)
    && (forall r | r in s.runs :: RunSound(s.db, r, s.runs[r]))
    && (forall u | u in s.uploads :: UploadSound(s.db, u, s.uploads[u]))
  }

  /** How a database may change: rows appear under new keys only, keep what identifies
      them, and an embedding goes only with its chunk, a job only with its document. */
  ghost predicate Evolves(a: Db, b: Db) {
    && a.next <= b.next && a.now <= b.now
    && (forall d | d in b.documents && d < a.next ::
          d in a.documents && b.documents[d].addressId == a.documents[d].addressId)
    && (forall c | c in b.chunks && c < a.next :: c in a.chunks && b.chunks[c] == a.chunks[c])
    && (forall t | t in b.jobs && t < a.next ::
          && t in a.jobs && b.jobs[t].spec == a.jobs[t].spec && b.jobs[t].createdAt == a.jobs[t].createdAt
          && a.jobs[t].attempts <= b.jobs[t].attempts)
    && (forall t | t in a.jobs && t !in b.jobs ::
          a.jobs[t].spec.documentId.Some? && a.jobs[t].spec.documentId.value !in b.documents)
    && (forall m | m in a.tables :: m in b.tables)
    && (forall m, c | m in a.tables && c in a.tables[m] && c in b.chunks :: c in b.tables[m])
  }

  lemma EvolvesReflexive(db: Db)
    ensures Evolves(db, db)
  {
  }

  lemma EvolvesTransitive(a: Db, b: Db, c: Db)
    requires Evolves(a, b) && Evolves(b, c)
    requires DbSound(a)
    ensures Evolves(a, c)
  {
  }

  // ---- the transactions, one by one -------------------------------------------------

  lemma InsertJobSound(db: Db, spec: Spec, state: JobState)
    requires DbSound(db) && DocumentExists(db, spec.documentId)
    requires spec.jobType == Ingest <==> spec.documentId.Some?
    requires spec.documentId.Some? ==> db.documents[spec.documentId.value].addressId == spec.addressId
    requires spec.jobType == Ingest && !Terminal(state) ==> spec.docVersion >= 1
    ensures DbSound(InsertJob(db, spec, state)) && Evolves(db, InsertJob(db, spec, state))
  {
  }

  /** Every update of one job row that leaves its spec alone and does not lower its attempts. */
  lemma UpdateJobSound(db: Db, t: TaskId, j: Job)
    requires DbSound(db) && t in db.jobs
    requires j.spec == db.jobs[t].spec && j.createdAt == db.jobs[t].createdAt && j.attempts >= db.jobs[t].attempts
    requires j.spec.jobType == Ingest && !Terminal(j.state) ==> j.spec.docVersion >= 1
    ensures var db' := db.(jobs := db.jobs[t := j]); DbSound(db') && Evolves(db, db')
  {
  }

  lemma UpsertSound(db: Db, found: Option<DocId>, address: string, upload: string, hash: string)
    requires DbSound(db) && LookedUp(db, address, upload, found)
    ensures var db' := Upsert(db, found, address, upload, hash); DbSound(db') && Evolves(db, db')
  {
  }

  lemma KeepChunksSound(db: Db, kept: set<ChunkId>)
    requires DbSound(db)
    ensures DbSound(KeepChunks(db, kept)) && Evolves(db, KeepChunks(db, kept))
  {
  }

  /** Dropping a document that has no chunk left, with its jobs. */
  lemma DropDocumentSound(db: Db, d: DocId)
    requires DbSound(db)
    requires forall c | c in db.chunks :: db.chunks[c].documentId != d
    ensures var db' := db.(documents := db.documents - {d},
                           jobs := map t | t in db.jobs && db.jobs[t].spec.documentId != Some(d) :: db.jobs[t]);
      DbSound(db') && Evolves(db, db')
  {
  }

  lemma DeleteDocumentSound(db: Db, d: DocId)
    requires DbSound(db)
    ensures DbSound(DeleteDocument(db, d)) && Evolves(db, DeleteDocument(db, d))
  {
    var kept := ChunksOfOthers(db, d);
    KeepChunksSound(db, kept);
    assert forall c | c in KeepChunks(db, kept).chunks :: db.chunks[c].documentId != d;
    DropDocumentSound(KeepChunks(db, kept), d);
    assert KeepChunks(db, kept).documents == db.documents && KeepChunks(db, kept).jobs == db.jobs;
    hide DbSound, Evolves, KeepChunks;
    EvolvesTransitive(db, KeepChunks(db, kept), DeleteDocument(db, d));
  }

  lemma InsertChunksSound(db: Db, d: Option<DocId>, address: string, v: int, rows: seq<ChunkRow>)
    requires DbSound(db) && CanInsert(db, d, rows) && v >= 1
    requires d.Some? && d.value in db.documents ==> db.documents[d.value].addressId == address
    ensures var db' := InsertChunks(db, d, address, v, rows); DbSound(db') && Evolves(db, db')
  {
  }

  lemma ReplaceChunksSound(db: Db, d: Option<DocId>, address: string, v: int, rows: seq<ChunkRow>)
    requires DbSound(db) && CanInsert(db, d, rows) && v >= 1
    requires d.Some? && d.value in db.documents ==> db.documents[d.value].addressId == address
    ensures var db' := ReplaceChunks(db, d, address, v, rows); DbSound(db') && Evolves(db, db')
  {
    var mid := DeleteVersionChunks(db, d, v);
    KeepChunksSound(db, db.chunks.Keys - VersionChunks(db, d, v));
    InsertChunksSound(mid, d, address, v, rows);
    EvolvesTransitive(db, mid, ReplaceChunks(db, d, address, v, rows));
  }

  lemma FlipSound(db: Db, d: Option<DocId>, v: int)
    requires DbSound(db) && v >= 0
    ensures DbSound(Flip(db, d, v)) && Evolves(db, Flip(db, d, v))
  {
    var mid := SetLiveVersion(db, d, v);
    assert DbSound(mid) && Evolves(db, mid);
    KeepChunksSound(mid, AtVersion(mid, d, v));
    EvolvesTransitive(db, mid, Flip(db, d, v));
  }

  ghost predicate TableSound(db: Db, m: string, table: map<ChunkId, EmbeddingRow>) {
    forall c | c in table ::
      c in db.chunks && table[c] == EmbeddingRow(db.chunks[c].addressId, m, VectorOf(m, db.chunks[c].row.text))
  }

  lemma {:induction false} InsertAllSound(db: Db, table: map<ChunkId, EmbeddingRow>, m: string, items: seq<Item>,
                                          mode: OnConflict)
    requires TableSound(db, m, table) && ItemsSound(db, items)
    requires forall i | 0 <= i < |items| :: items[i].id in db.chunks
    ensures TableSound(db, m, InsertAll(table, m, items, mode))
  {
    if items != [] {
      InsertAllSound(db, table, m, items[..|items| - 1], mode);
    }
  }

  lemma InsertEmbeddingsSound(db: Db, m: string, items: seq<Item>, mode: OnConflict)
    requires DbSound(db) && CanEmbed(db, m, items) && ItemsSound(db, items)
    ensures var db' := InsertEmbeddings(db, m, items, mode); DbSound(db') && Evolves(db, db')
    ensures m in InsertEmbeddings(db, m, items, mode).tables
    ensures forall i | 0 <= i < |items| :: items[i].id in InsertEmbeddings(db, m, items, mode).tables[m]
  {
    hide DbSound, Evolves, InsertAll, ItemsSound;
    InsertAllKeys(db.tables[m], m, items, mode);
    OwnTableSound(db, m);
    InsertAllSound(db, db.tables[m], m, items, mode);
    LargerTableSound(db, m, InsertAll(db.tables[m], m, items, mode));
  }

  lemma OwnTableSound(db: Db, m: string)
    requires DbSound(db) && m in db.tables
    ensures TableSound(db, m, db.tables[m])
  {
  }

  lemma LargerTableSound(db: Db, m: string, table: map<ChunkId, EmbeddingRow>)
    requires DbSound(db) && m in db.tables && TableSound(db, m, table) && forall c | c in db.tables[m] :: c in table
    ensures var db' := db.(tables := db.tables[m := table]); DbSound(db') && Evolves(db, db')
  {
  }

  // ---- the steps ----------------------------------------------------------------------

  /** A run stays sound while the database evolves under it. */
  lemma RunSurvives(a: Db, b: Db, r: RunId, run: Run)
    requires RunSound(a, r, run) && Evolves(a, b)
    ensures RunSound(b, r, run)
  {
    var spec := run.job.spec;
    if spec.documentId.Some? && spec.documentId.value in b.documents {
      assert spec.documentId.value in a.documents;
    }
  }

  lemma UploadSurvives(a: Db, b: Db, u: nat, spec: Spec)
    requires UploadSound(a, u, spec) && Evolves(a, b)
    ensures UploadSound(b, u, spec)
  {
  }

  lemma OthersSurvive(s: State, db: Db)
    requires Sound(s) && Evolves(s.db, db)
    ensures forall r | r in s.runs :: RunSound(db, r, s.runs[r])
    ensures forall u | u in s.uploads :: UploadSound(db, u, s.uploads[u])
  {
    forall r | r in s.runs ensures RunSound(db, r, s.runs[r]) { RunSurvives(s.db, db, r, s.runs[r]); }
    forall u | u in s.uploads ensures UploadSound(db, u, s.uploads[u]) { UploadSurvives(s.db, db, u, s.uploads[u]); }
  }

  /** The job statements of the step programs. */
  lemma JobStatementSound(db: Db, db': Db, r: RunId, run: Run)
    requires DbSound(db) && RunSound(db, r, run)
    requires db' == db || (r.0 in db.jobs && r.0 in db'.jobs && db' == db.(jobs := db.jobs[r.0 := db'.jobs[r.0]]))
    requires r.0 in db.jobs && r.0 in db'.jobs ==>
               && db'.jobs[r.0].spec == db.jobs[r.0].spec && db'.jobs[r.0].createdAt == db.jobs[r.0].createdAt
               && db'.jobs[r.0].attempts == db.jobs[r.0].attempts
    ensures DbSound(db') && Evolves(db, db')
  {
    if r.0 in db.jobs {
      UpdateJobSound(db, r.0, db'.jobs[r.0]);
    }
  }

  lemma ActivateSound(db: Db, m: string)
    requires DbSound(db)
    ensures DbSound(db.(active := Some(m))) && Evolves(db, db.(active := Some(m)))
  {
  }

  lemma EnsureTableSound(db: Db, m: string)
    requires DbSound(db)
    ensures DbSound(EnsureTable(db, m)) && Evolves(db, EnsureTable(db, m))
  {
  }

  lemma ProceedIngestSound(db: Db, r: RunId, run: Run, a: Answer)
    requires DbSound(db) && RunSound(db, r, run) && IsIngestPc(run.pc)
    ensures var db' := Proceed(db, run, a).0; DbSound(db') && Evolves(db, db')
  {
    var spec := run.job.spec;
    var db' := Proceed(db, run, a).0;
    EvolvesReflexive(db);
    hide DbSound, Evolves, ReplaceChunks, Flip, InsertEmbeddings, EnsureTable, RebuildStep;
    hide Lists, ItemsOf, Numbered, ByOrdinal, VersionChunks;
    match run.pc
    case AtWrite(rows) =>
      if CanInsert(db, spec.documentId, rows) {
        ReplaceChunksSound(db, spec.documentId, spec.addressId, spec.docVersion, rows);
      }
    case AtBatch(items, pos) =>
      var end := BatchEnd(items, pos);
      if CanEmbed(db, spec.modelId, items[pos..end]) {
        InsertEmbeddingsSound(db, spec.modelId, items[pos..end], DoUpdate);
      }
    case AtCommit => FlipSound(db, spec.documentId, spec.docVersion);
    case AtSelect => EnsureTableSound(db, spec.modelId);
    case _ => JobStatementSound(db, db', r, run);
  }

  lemma ProceedRebuildSound(db: Db, r: RunId, run: Run, a: Answer)
    requires DbSound(db) && RunSound(db, r, run) && !IsIngestPc(run.pc)
    ensures var db' := Proceed(db, run, a).0; DbSound(db') && Evolves(db, db')
  {
    var spec := run.job.spec;
    var db' := Proceed(db, run, a).0;
    EvolvesReflexive(db);
    hide DbSound, Evolves, InsertEmbeddings, EnsureTable, IngestStep, Lists, ItemsOf, Missing;
    match run.pc
    case AtFill(items, pos, _) =>
      var end := BatchEnd(items, pos);
      if CanEmbed(db, spec.modelId, items[pos..end]) {
        InsertEmbeddingsSound(db, spec.modelId, items[pos..end], DoNothing);
      }
    case AtEnsure => EnsureTableSound(db, spec.modelId);
    case AtActivate => ActivateSound(db, spec.modelId);
    case _ => JobStatementSound(db, db', r, run);
  }

  lemma ProceedDbSound(db: Db, r: RunId, run: Run, a: Answer)
    requires DbSound(db) && RunSound(db, r, run)
    ensures var db' := Proceed(db, run, a).0; DbSound(db') && Evolves(db, db')
  {
    if IsIngestPc(run.pc) { ProceedIngestSound(db, r, run, a); } else { ProceedRebuildSound(db, r, run, a); }
  }

  /** The rows of a SELECT agree with the chunks they were read from. */
  lemma ItemsOfSound(db: Db, order: seq<ChunkId>, address: Option<string>)
    requires DbSound(db)
    requires forall i | 0 <= i < |order| :: order[i] in db.chunks
    requires address.Some? ==> forall i | 0 <= i < |order| :: db.chunks[order[i]].addressId == address.value
    ensures ItemsSound(db, ItemsOf(db, order, address))
  {
  }

  /** A step keeps to its own program. */
  lemma ProceedKeepsProgram(db: Db, r: RunId, run: Run, a: Answer)
    requires RunSound(db, r, run)
    ensures var pc := Proceed(db, run, a).1;
      && (IsRebuildPc(pc) ==> run.job.spec.jobType == Rebuild)
      && (IsIngestPc(pc) ==> run.job.spec.jobType == Ingest)
      && (pc.AtActivate? ==> run.job.spec.addressId == "*")
  {
    assert run.job.spec.jobType == Ingest || run.job.spec.jobType == Rebuild;
    assert (IsRebuildPc(run.pc) ==> run.job.spec.jobType == Rebuild)
        && (IsIngestPc(run.pc) ==> run.job.spec.jobType == Ingest);
    hide RunSound, Lists, ItemsOf, CanEmbed, CanInsert, Numbered, ByOrdinal, VersionChunks, Missing;
  }

  /** The rows and the position of a loop stay sound. */
  lemma ProceedItemsSound(db: Db, r: RunId, run: Run, a: Answer)
    requires DbSound(db) && RunSound(db, r, run)
    ensures var pc := Proceed(db, run, a).1; PositionSound(pc) && ItemsSound(db, PcItems(pc))
  {
    var spec := run.job.spec;
    if run.pc.AtSelect? && Lists(a.order, VersionChunks(db, spec.documentId, spec.docVersion)) {
      ItemsOfSound(db, a.order, Some(spec.addressId));
    }
    if (run.pc.AtMissing? || run.pc.AtSweep?) && Lists(a.order, Missing(db, spec.modelId, spec.addressId)) {
      ItemsOfSound(db, a.order, None);
    }
    assert ItemsSound(db, PcItems(run.pc)) && ItemsSound(db, []) && PositionSound(run.pc);
    hide DbSound, RunSound, ItemsSound, Lists, CanEmbed, CanInsert, Numbered, ByOrdinal, VersionChunks, Missing,
        ItemsOf;
    if IsIngestPc(run.pc) { IngestItems(db, run, a); }
    if IsRebuildPc(run.pc) { RebuildItems(db, run, a); }
    hide IngestStep, RebuildStep;
  }

  /** Where the rows of the next program point come from. */
  ghost predicate ItemsFrom(db: Db, run: Run, a: Answer, pc: Pc) {
    var spec := run.job.spec;
    || pc.AtFailing? || PcItems(pc) == [] || PcItems(pc) == PcItems(run.pc)
    || (run.pc.AtSelect? && Lists(a.order, VersionChunks(db, spec.documentId, spec.docVersion))
        && PcItems(pc) == ItemsOf(db, a.order, Some(spec.addressId)))
    || ((run.pc.AtMissing? || run.pc.AtSweep?) && Lists(a.order, Missing(db, spec.modelId, spec.addressId))
        && PcItems(pc) == ItemsOf(db, a.order, None))
  }

  lemma IngestItems(db: Db, run: Run, a: Answer)
    requires IsIngestPc(run.pc) && PositionSound(run.pc)
    ensures var pc := IngestStep(db, run, a).1; PositionSound(pc) && ItemsFrom(db, run, a, pc)
  {
    hide Lists, CanEmbed, CanInsert, Numbered, ByOrdinal, VersionChunks, Missing, ItemsOf;
  }

  lemma RebuildItems(db: Db, run: Run, a: Answer)
    requires IsRebuildPc(run.pc) && PositionSound(run.pc)
    ensures var pc := RebuildStep(db, run, a).1; PositionSound(pc) && ItemsFrom(db, run, a, pc)
  {
    hide Lists, CanEmbed, CanInsert, Numbered, ByOrdinal, VersionChunks, Missing, ItemsOf;
  }

  lemma ProceedRunSound(db: Db, r: RunId, run: Run, a: Answer)
    requires DbSound(db) && RunSound(db, r, run)
    ensures var (db', pc) := Proceed(db, run, a); pc.Finished? || RunSound(db', r, run.(pc := pc))
  {
    ProceedDbSound(db, r, run, a);
    ProceedKeepsProgram(db, r, run, a);
    ProceedItemsSound(db, r, run, a);
    var (db', pc) := Proceed(db, run, a);
    if !pc.Finished? {
      assert RunSound(db, r, run.(pc := pc));
      hide *;
      RunSurvives(db, db', r, run.(pc := pc));
    }
  }

  lemma GoSound(s: State, r: RunId, a: Answer)
    requires Sound(s) && r in s.runs
    ensures Sound(StepRun(s, r, a)) && Evolves(s.db, StepRun(s, r, a).db)
  {
    ProceedDbSound(s.db, r, s.runs[r], a);
    ProceedRunSound(s.db, r, s.runs[r], a);
    OthersSurvive(s, StepRun(s, r, a).db);
  }

  lemma LeaseSound(s: State, t: TaskId, seconds: int)
    requires Sound(s) && t in s.db.jobs && !Terminal(s.db.jobs[t].state)
    ensures Sound(Lend(s, t, seconds)) && Evolves(s.db, Lend(s, t, seconds).db)
  {
    var s' := Lend(s, t, seconds);
    UpdateJobSound(s.db, t, s'.db.jobs[t]);
    OthersSurvive(s, s'.db);
  }

  lemma SkipIdSound(db: Db)
    requires DbSound(db)
    ensures DbSound(db.(next := db.next + 1)) && Evolves(db, db.(next := db.next + 1))
  {
  }

  lemma UploadSpecSound(db: Db, e: Event)
    requires DbSound(db) && e.Upload? && LookedUp(db, e.addressId, e.uploadId, e.found)
    ensures var db' := Upsert(db, e.found, e.addressId, e.uploadId, e.hash);
      UploadSound(db'.(next := db'.next + 1), db'.next, UploadSpec(db, e))
  {
  }

  lemma UploadEventSound(s: State, e: Event)
    requires Sound(s) && e.Upload? && LookedUp(s.db, e.addressId, e.uploadId, e.found)
    ensures Sound(Next(s, e)) && Evolves(s.db, Next(s, e).db)
  {
    var db := Upsert(s.db, e.found, e.addressId, e.uploadId, e.hash);
    var db' := db.(next := db.next + 1);
    var spec := UploadSpec(s.db, e);
    assert DbSound(db') && Evolves(s.db, db') by {
      UpsertSound(s.db, e.found, e.addressId, e.uploadId, e.hash);
      SkipIdSound(db);
      hide DbSound, Evolves, Upsert, LookedUp;
      EvolvesTransitive(s.db, db, db');
    }
    OthersSurvive(s, db');
    UploadSpecSound(s.db, e);
    assert Next(s, e) == s.(db := db', uploads := s.uploads[db.next := spec]);
    hide DbSound, Evolves, RunSound, UploadSound, Upsert, LookedUp, UploadSpec, Next;
  }

  lemma NextSound(s: State, e: Event)
    requires Sound(s)
    ensures Sound(Next(s, e)) && Evolves(s.db, Next(s, e).db)
  {
    hide Sound, Evolves, StepRun, Lend, DbSound;
    EvolvesReflexive(s.db);
    match e
    case Go(r, a) => if r in s.runs { GoSound(s, r, a); }
    case Upload(found, a, u, hash, _) => if LookedUp(s.db, a, u, found) { UploadEventSound(s, e); }
    case Claim(t, seconds) => if Oldest(s.db, t) { LeaseSound(s, t, seconds); }
    case ClaimById(t, seconds) => if t in s.db.jobs && !Terminal(s.db.jobs[t].state) { LeaseSound(s, t, seconds); }
    case Fail(_, _) => DropSound(s, e);
    case Crash(_) => DropSound(s, e);
    case Abandon(_) => DropSound(s, e);
    case _ => QuietSound(s, e);
  }

  /** A run that raises or dies, and an upload that is given up, leave the database alone. */
  lemma DropSound(s: State, e: Event)
    requires Sound(s) && (e.Fail? || e.Crash? || e.Abandon?)
    ensures Sound(Next(s, e)) && Next(s, e).db == s.db
  {
    if e.Fail? && e.r in s.runs { RaisedSound(s.db, e.r, s.runs[e.r], e.e); }
    hide DbSound, RunSound, UploadSound, Raise;
  }

  lemma RaisedSound(db: Db, r: RunId, run: Run, e: Exc)
    requires RunSound(db, r, run)
    ensures RunSound(db, r, run.(pc := Raise(run.job, run.pc, e)))
  {
  }

  predicate Quiet(e: Event) {
    e.Seed? || e.Enqueue? || e.Skip? || e.RequestRebuild? || e.Delete? || e.Tick?
  }

  lemma QuietDbSound(s: State, e: Event)
    requires Sound(s) && Quiet(e)
    ensures DbSound(Next(s, e).db) && Evolves(s.db, Next(s, e).db)
  {
    EvolvesReflexive(s.db);
    match e
    case Seed(m) =>
      EnsureTableSound(s.db, m);
      ActivateSound(EnsureTable(s.db, m), m);
      EvolvesTransitive(s.db, EnsureTable(s.db, m), EnsureTable(s.db, m).(active := Some(m)));
    case Enqueue(u) =>
      if u in s.uploads && DocumentExists(s.db, s.uploads[u].documentId) {
        InsertJobSound(s.db, s.uploads[u], Pending);
      }
    case Skip(d, hash, v, m) =>
      if d in s.db.documents {
        var doc := s.db.documents[d];
        InsertJobSound(s.db, Spec(Some(d), doc.addressId, doc.uploadId, hash, m, v, Ingest), Skipped);
      }
    case RequestRebuild(m, scope) => InsertJobSound(s.db, RebuildSpec(m, scope), Pending);
    case Delete(d) => DeleteDocumentSound(s.db, d);
    case Tick(_) =>
  }

  lemma QuietSound(s: State, e: Event)
    requires Sound(s) && Quiet(e)
    ensures Sound(Next(s, e)) && Evolves(s.db, Next(s, e).db)
  {
    QuietDbSound(s, e);
    hide DbSound, Evolves, RunSound, UploadSound;
    OthersSurvive(s, Next(s, e).db);
  }

  lemma GoIs(s: State, r: RunId, a: Answer)
    requires r in s.runs
    ensures
      var (db, pc) := Proceed(s.db, s.runs[r], a);
      && Next(s, Go(r, a)) == StepRun(s, r, a)
      && Next(s, Go(r, a)).db == db
      && Next(s, Go(r, a)).hist == Remember(s.hist, s.db, s.runs[r], pc)
  {
    hide Proceed, Remember;
  }

  /** A step of a run that is not there changes nothing. */
  lemma IdleGo(s: State, e: Event)
    requires e.Go? && e.r !in s.runs
    ensures Next(s, e) == s
  {
  }

  /** What one event can do to one run that exists afterwards. */
  lemma RunChange(s: State, e: Event, r: RunId)
    requires r in Next(s, e).runs
    ensures
      var run' := Next(s, e).runs[r];
      || (&& e.Go? && e.r == r && r in s.runs
          && (Next(s, e).db, run') == (Proceed(s.db, s.runs[r], e.a).0,
             s.runs[r].(pc := Proceed(s.db, s.runs[r], e.a).1)))
      || (e.Fail? && e.r == r && r in s.runs && run'.pc.AtFailing? && run'.job == s.runs[r].job
         && Next(s, e).db == s.db)
      || ((e.Claim? || e.ClaimById?) && r == (e.t, run'.job.attempts) && run' == Start(run'.job) && e.t in s.db.jobs
          && run'.job == Claimed(s.db, e.t) && Next(s, e) == Lend(s, e.t, e.seconds))
      || (r in s.runs && run' == s.runs[r] && !(e.Go? && e.r == r) && !(e.Fail? && e.r == r))
  {
    hide Proceed, Upsert, LookedUp, DeleteDocument, EnsureTable, InsertJob, Remember, Lease, UploadSpec;
  }

  lemma {:induction false} ExecSound(es: seq<Event>)
    ensures Sound(Exec(INIT, es))
  {
    if es != [] {
      ExecSound(es[..|es| - 1]);
      NextSound(Exec(INIT, es[..|es| - 1]), es[|es| - 1]);
    }
  }

  lemma {:induction false} ExecEvolves(s: State, es: seq<Event>)
    requires Sound(s)
    ensures Sound(Exec(s, es)) && Evolves(s.db, Exec(s, es).db)
  {
    if es != [] {
      var mid := Exec(s, es[..|es| - 1]);
      ExecEvolves(s, es[..|es| - 1]);
      NextSound(mid, es[|es| - 1]);
      EvolvesTransitive(s.db, mid.db, Exec(s, es).db);
    }
  }

  /** The database at a point of a trace evolves into the one at its end. */
  lemma {:induction false} SuffixEvolves(es: seq<Event>, i: nat)
    requires i <= |es|
    ensures Evolves(Exec(INIT, es[..i]).db, Exec(INIT, es).db)
  {
    if i == |es| {
      assert es[..i] == es;
      EvolvesReflexive(Exec(INIT, es).db);
    } else {
      var front := es[..|es| - 1];
      SuffixEvolves(front, i);
      assert front[..i] == es[..i];
      ExecSound(es[..i]);
      ExecSound(front);
      NextSound(Exec(INIT, front), es[|es| - 1]);
      EvolvesTransitive(Exec(INIT, es[..i]).db, Exec(INIT, front).db, Exec(INIT, es).db);
    }
  }

  lemma SoundDb(s: State)
    requires Sound(s)
    ensures DbSound(s.db)
    ensures forall r | r in s.runs :: RunSound(s.db, r, s.runs[r])
  {
  }

  /** The keys in use were issued, and jobs and runs refer to issued documents. */
  ghost predicate Issued(s: State) {
    && (forall d | d in s.db.documents :: d < s.db.next)
    && (forall t | t in s.db.jobs :: t < s.db.next)
    && (forall t | t in s.db.jobs && s.db.jobs[t].spec.documentId.Some? ::
       s.db.jobs[t].spec.documentId.value in s.db.documents)
    && (forall r | r in s.runs :: r.0 < s.db.next)
    && (forall r | r in s.runs && s.runs[r].job.spec.documentId.Some? ::
       s.runs[r].job.spec.documentId.value < s.db.next)
  }

  lemma SoundIssued(s: State)
    requires Sound(s)
    ensures Issued(s)
  {
    SoundDb(s);
    forall r | r in s.runs
      ensures r.0 < s.db.next
      ensures s.runs[r].job.spec.documentId.Some? ==> s.runs[r].job.spec.documentId.value < s.db.next
    {
      assert RunSound(s.db, r, s.runs[r]);
    }
    forall t | t in s.db.jobs && s.db.jobs[t].spec.documentId.Some?
      ensures s.db.jobs[t].spec.documentId.value in s.db.documents
    {
      assert JobSound(s.db, s.db.jobs[t]);
    }
    hide Sound, RunSound, JobSound, TablesSound, ChunksSound;
  }
}
