/** The tables of the ingestion store, as values.

    Row identifiers are drawn from one counter, `Db.next`: the program uses
    uuid4 everywhere and relies on an identifier never being issued twice. */
module Schema {

  datatype Option<+T> = None | Some(value: T)

  type DocId = nat
  type ChunkId = nat
  type TaskId = nat

  const MAX_ATTEMPTS: nat := 5 // column default of ingest_job.max_attempts; no statement overrides it
  const EMBED_BATCH: nat := 128

  datatype Document = Document(addressId: string, uploadId: string, contentHash: string, liveVersion: int)

  /** One chunk as the chunker hands it over. */
  datatype ChunkRow = ChunkRow(text: string, ordinal: int, pageNumber: Option<int>, paragraphIndex: Option<int>,
                               charStart: int, charEnd: int, tokenCount: int)

  datatype Chunk = Chunk(documentId: DocId, addressId: string, docVersion: int, row: ChunkRow)

  /** The vector a provider returns for a text. A provider is a function of the
      text, so the model and the text name the vector. */
  datatype Vector = VectorOf(modelId: string, text: string)

  datatype EmbeddingRow = EmbeddingRow(addressId: string, modelId: string, vector: Vector)

  datatype JobType = Ingest | Rebuild

  datatype JobState = Pending | Extracting | Chunking | Embedding | Done | Skipped | Failed

  /** What is fixed when a job row is inserted. */
  datatype Spec = Spec(documentId: Option<DocId>, addressId: string, uploadId: string, contentHash: string,
                       modelId: string, docVersion: int, jobType: JobType)

  /** Exceptions, as far as the retry classification tells them apart. */
  datatype Exc = Timeout | ConnectionLost | Named(name: string)

  datatype Fault = Fault(step: string, exc: Exc)

  datatype Job = Job(spec: Spec, state: JobState, chunkCount: int, embeddingCount: int, attempts: nat,
                     tokens: int, cost: real, leaseUntil: Option<int>, createdAt: int,
                     finishedAt: Option<int>, fault: Option<Fault>)

  /** The job as its worker holds it: a copy taken when it was leased. */
  datatype ClaimedJob = ClaimedJob(taskId: TaskId, spec: Spec, attempts: nat, state: JobState)

  datatype Db = Db(documents: map<DocId, Document>,
                   chunks: map<ChunkId, Chunk>,
                   tables: map<string, map<ChunkId, EmbeddingRow>>, // registered embedding tables, by model
                   jobs: map<TaskId, Job>,
                   active: Option<string>,
                   now: int,
                   next: nat)

  const EMPTY_DB := Db(map[], map[], map[], map[], None, 0, 0)

  predicate InFlight(state: JobState) {
    state in {Extracting, Chunking, Embedding}
  }

  predicate Terminal(state: JobState) {
    state in {Done, Skipped, Failed}
  }

  function StateName(state: JobState): string {
    match state
    case Pending => "pending"
    case Extracting => "extracting"
    case Chunking => "chunking"
    case Embedding => "embedding"
    case Done => "done"
    case Skipped => "skipped"
    case Failed => "failed"
  }

  /** Whether chunk `c` is at its document's live version, the join every read uses. */
  predicate IsLive(db: Db, c: ChunkId) {
    && c in db.chunks
    && db.chunks[c].documentId in db.documents
    && db.documents[db.chunks[c].documentId].liveVersion == db.chunks[c].docVersion
  }

  /** The chunks of one document version. */
  function VersionChunks(db: Db, d: Option<DocId>, v: int): set<ChunkId> {
    set c | c in db.chunks && Some(db.chunks[c].documentId) == d && db.chunks[c].docVersion == v
  }
}
