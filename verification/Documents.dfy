/** What each statement of the document repository does to the database. */
module Documents {
  import opened Schema

  /** The answer of a lookup by (address, upload): the document, or its absence. */
  predicate LookedUp(db: Db, address: string, upload: string, found: Option<DocId>) {
    match found
    case Some(d) =>
      d in db.documents && db.documents[d].addressId == address && db.documents[d].uploadId == upload
    case None =>
      forall d | d in db.documents :: !(db.documents[d].addressId == address && db.documents[d].uploadId == upload)
  }

  /** Creates the document under the key `db.next`, or gives an existing one its new content. */
  function Upsert(db: Db, found: Option<DocId>, address: string, upload: string, hash: string): Db
    requires LookedUp(db, address, upload, found)
  {
    match found
    case None =>
      db.(documents := db.documents[db.next := Document(address, upload, hash, 0)], next := db.next + 1)
    case Some(d) =>
      db.(documents := db.documents[d := db.documents[d].(contentHash := hash)])
  }

  function UpsertedId(db: Db, found: Option<DocId>): DocId {
    if found.Some? then found.value else db.next
  }

  /** The version the new content is written at. */
  function NextVersion(db: Db, found: Option<DocId>): int
    requires found.Some? ==> found.value in db.documents
  {
    if found.Some? then db.documents[found.value].liveVersion + 1 else 1
  }

  /** ON DELETE CASCADE from the chunks to every embedding table. */
  function Cascade(tables: map<string, map<ChunkId, EmbeddingRow>>, kept: set<ChunkId>)
    : map<string, map<ChunkId, EmbeddingRow>>
  {
    map m | m in tables :: map c | c in tables[m] && c in kept :: tables[m][c]
  }

  function KeepChunks(db: Db, kept: set<ChunkId>): Db {
    db.(chunks := map c | c in db.chunks && c in kept :: db.chunks[c], tables := Cascade(db.tables, kept))
  }

  function DeleteVersionChunks(db: Db, d: Option<DocId>, v: int): Db {
    KeepChunks(db, db.chunks.Keys - VersionChunks(db, d, v))
  }

  /** All chunks but those of the other versions of `d`. */
  function AtVersion(db: Db, d: Option<DocId>, keep: int): set<ChunkId> {
    set c | c in db.chunks && (Some(db.chunks[c].documentId) == d ==> db.chunks[c].docVersion == keep)
  }

  function DeleteOtherVersions(db: Db, d: Option<DocId>, keep: int): Db {
    KeepChunks(db, AtVersion(db, d, keep))
  }

  /** The not-null and foreign-key constraints of the insert; no row, no violation. */
  predicate CanInsert(db: Db, d: Option<DocId>, rows: seq<ChunkRow>) {
    rows == [] || (d.Some? && d.value in db.documents)
  }

  /** `n` identifiers from `first` on. */
  function Ids(first: nat, n: nat): (ids: set<nat>)
    ensures forall c :: c in ids <==> first <= c < first + n
  {
    if n == 0 then {} else Ids(first, n - 1) + {first + n - 1}
  }

  /** Row k gets the key `db.next + k`. */
  function InsertChunks(db: Db, d: Option<DocId>, address: string, v: int, rows: seq<ChunkRow>): Db
    requires CanInsert(db, d, rows)
  {
    if rows == [] then db else
    db.(chunks := db.chunks + (map c | c in Ids(db.next, |rows|) :: Chunk(d.value, address, v, rows[c - db.next])),
        next := db.next + |rows|)
  }

  /** The one transaction that replaces the rows of a version. */
  function ReplaceChunks(db: Db, d: Option<DocId>, address: string, v: int, rows: seq<ChunkRow>): Db
    requires CanInsert(db, d, rows)
  {
    InsertChunks(DeleteVersionChunks(db, d, v), d, address, v, rows)
  }

  function SetLiveVersion(db: Db, d: Option<DocId>, v: int): Db {
    if d.Some? && d.value in db.documents
    then db.(documents := db.documents[d.value := db.documents[d.value].(liveVersion := v)])
    else db
  }

  /** The one transaction that makes a version live and drops the others. */
  function Flip(db: Db, d: Option<DocId>, v: int): Db {
    DeleteOtherVersions(SetLiveVersion(db, d, v), d, v)
  }

  function ChunksOfOthers(db: Db, d: DocId): set<ChunkId> {
    set c | c in db.chunks && db.chunks[c].documentId != d
  }

  /** Removes the document; chunks, embeddings and jobs go by cascade. */
  function DeleteDocument(db: Db, d: DocId): Db {
    KeepChunks(db, ChunksOfOthers(db, d))
      .(documents := db.documents - {d},
        jobs := map t | t in db.jobs && db.jobs[t].spec.documentId != Some(d) :: db.jobs[t])
  }
}
