/** What the status of an address says, row by row, and which requests change it. */
module Flags {
  import opened Schema
  import opened Tasks
  import opened Embeddings
  import opened Protocol
  import opened Integrity
  import opened Status

  /** Chunk `c` of the address is at the live version of its document. */
  predicate IsLiveOf(db: Db, address: string, c: ChunkId) {
    && c in db.chunks && db.chunks[c].addressId == address && db.chunks[c].documentId in db.documents
    && db.chunks[c].docVersion == db.documents[db.chunks[c].documentId].liveVersion
  }

  /** The chunk has a vector under the active model, or under the configured one while none is active. */
  predicate IsSearchable(db: Db, fallback: string, c: ChunkId) {
    match db.active
    case Some(m) => m in db.tables && c in db.tables[m]
    case None => fallback in db.tables && c in db.tables[fallback]
  }

  /** The counts of the status are the numbers of documents of the address, of its job rows that are not ended,
      of those that failed, and of its live chunks without a vector under the active model. */
  lemma StatusCounts(db: Db, address: string, fallback: string, documents: set<DocId>, open: set<TaskId>,
                     failed: set<TaskId>, missing: set<ChunkId>)
    requires forall d :: d in documents <==> d in db.documents && db.documents[d].addressId == address
    requires forall t :: t in open <==> t in db.jobs && db.jobs[t].spec.addressId == address
                                        && db.jobs[t].state !in {Done, Skipped, Failed}
    requires forall t :: t in failed <==> t in db.jobs && db.jobs[t].spec.addressId == address
                                          && db.jobs[t].state == Failed
    requires forall c :: c in missing <==> IsLiveOf(db, address, c) && !IsSearchable(db, fallback, c)
    ensures
      var status := ReadStatus(db, address, fallback);
      && status.documentCount == |documents| && status.inFlight == |open| && status.failed == |failed|
      && status.missing == |missing|
      && (status.fullyIndexed <==> open == {} && failed == {} && missing == {})
  {
    assert documents == set d | d in db.documents && db.documents[d].addressId == address;
    assert open == JobsIn(db, address, {Pending, Extracting, Chunking, Embedding});
    assert failed == JobsIn(db, address, {Failed});
    var m := ActiveModel(db, fallback);
    if m in db.tables {
      assert missing == MissingAt(db, m, address);
    } else {
      assert missing == LiveAt(db, address);
    }
  }

  /** The flag is true if and only if every job row of the address is done or skipped and every live chunk of
      the address has its vector under the active model. */
  lemma FullyIndexedIff(db: Db, address: string, fallback: string)
    ensures
      ReadStatus(db, address, fallback).fullyIndexed <==>
        && (forall t | t in db.jobs && db.jobs[t].spec.addressId == address :: db.jobs[t].state in {Done, Skipped})
        && (forall c | IsLiveOf(db, address, c) :: IsSearchable(db, fallback, c))
  {
    var documents := set d | d in db.documents && db.documents[d].addressId == address;
    var open := set t | t in db.jobs && db.jobs[t].spec.addressId == address
                        && db.jobs[t].state !in {Done, Skipped, Failed};
    var failed := set t | t in db.jobs && db.jobs[t].spec.addressId == address && db.jobs[t].state == Failed;
    var missing := set c | c in db.chunks && IsLiveOf(db, address, c) && !IsSearchable(db, fallback, c);
    StatusCounts(db, address, fallback, documents, open, failed, missing);
    hide ReadStatus, IsLiveOf, IsSearchable;
    assert missing == {} <==> forall c | IsLiveOf(db, address, c) :: IsSearchable(db, fallback, c) by {
      LiveAreChunks(db, address);
      assert forall c | IsLiveOf(db, address, c) :: c in missing <==> !IsSearchable(db, fallback, c);
    }
    assert forall t | t in db.jobs && db.jobs[t].spec.addressId == address ::
        db.jobs[t].state in {Done, Skipped} <==> t !in open && t !in failed;
  }

  lemma LiveAreChunks(db: Db, address: string)
    ensures forall c | IsLiveOf(db, address, c) :: c in db.chunks
  {
  }

  /** The record of a skipped upload changes no status. */
  lemma SkipKeepsStatus(s: State, d: DocId, hash: string, version: int, model: string, address: string,
                        fallback: string)
    requires Sound(s)
    ensures ReadStatus(Next(s, Skip(d, hash, version, model)).db, address, fallback)
         == ReadStatus(s.db, address, fallback)
  {
    SoundIssued(s);
    var db, db' := s.db, Next(s, Skip(d, hash, version, model)).db;
    SkipAdds(s, d, hash, version, model);
    hide Next, Sound, ReadStatus, Issued;
    SameStatus(db, db', address, fallback);
  }

  lemma SkipAdds(s: State, d: DocId, hash: string, version: int, model: string)
    requires Issued(s)
    ensures
      var db, db' := s.db, Next(s, Skip(d, hash, version, model)).db;
      && db'.documents == db.documents && db'.chunks == db.chunks && db'.tables == db.tables && db'.active == db.active
      && (forall t | t in db.jobs :: t in db'.jobs && db'.jobs[t] == db.jobs[t])
      && forall t | t in db'.jobs && t !in db.jobs :: db'.jobs[t].state == Skipped
  {
  }

  lemma SameStatus(db: Db, db': Db, address: string, fallback: string)
    requires db'.documents == db.documents && db'.chunks == db.chunks && db'.tables == db.tables
    requires db'.active == db.active
    requires forall t | t in db.jobs :: t in db'.jobs && db'.jobs[t] == db.jobs[t]
    requires forall t | t in db'.jobs && t !in db.jobs :: db'.jobs[t].state == Skipped
    ensures ReadStatus(db', address, fallback) == ReadStatus(db, address, fallback)
  {
    SameJobs(db, db', address, {Pending, Extracting, Chunking, Embedding});
    SameJobs(db, db', address, {Failed});
    SameMissing(db, db', ActiveModel(db, fallback), address);
    hide JobsIn, MissingCount;
    assert (set d | d in db'.documents && db'.documents[d].addressId == address)
        == (set d | d in db.documents && db.documents[d].addressId == address);
  }

  lemma SameJobs(db: Db, db': Db, address: string, states: set<JobState>)
    requires forall t | t in db.jobs :: t in db'.jobs && db'.jobs[t] == db.jobs[t]
    requires forall t | t in db'.jobs && t !in db.jobs :: db'.jobs[t].state == Skipped
    requires Skipped !in states
    ensures JobsIn(db', address, states) == JobsIn(db, address, states)
  {
  }

  /** A queued upload shows at once: one more job in flight at its address, which is then not fully indexed. */
  lemma EnqueueShows(s: State, u: nat, fallback: string)
    requires Sound(s) && u in s.uploads && DocumentExists(s.db, s.uploads[u].documentId)
    ensures
      var address := s.uploads[u].addressId;
      var before, after := ReadStatus(s.db, address, fallback), ReadStatus(Next(s, Enqueue(u)).db, address, fallback);
      && after.inFlight == before.inFlight + 1 && after.failed == before.failed && after.missing == before.missing
      && after.documentCount == before.documentCount && !after.fullyIndexed
  {
    SoundIssued(s);
    hide Sound;
    var address := s.uploads[u].addressId;
    var db, db' := s.db, Next(s, Enqueue(u)).db;
    var states := {Pending, Extracting, Chunking, Embedding};
    assert db' == InsertJob(db, s.uploads[u], Pending);
    hide Next;
    assert JobsIn(db', address, states) == JobsIn(db, address, states) + {db.next};
    assert JobsIn(db', address, {Failed}) == JobsIn(db, address, {Failed});
    SameMissing(db, db', ActiveModel(db, fallback), address);
  }

  lemma SameMissing(db: Db, db': Db, m: string, address: string)
    requires db'.chunks == db.chunks && db'.documents == db.documents && db'.tables == db.tables
    ensures MissingCount(db', m, address) == MissingCount(db, m, address)
  {
    assert LiveAt(db', address) == LiveAt(db, address);
    if m in db.tables { assert MissingAt(db', m, address) == MissingAt(db, m, address); }
  }
}
