/** What overlapping runs of one document can do to it. */
module Overlap {
  import opened Schema
  import opened Tasks
  import opened Documents
  import opened Embeddings
  import opened Pipeline
  import opened Protocol
  import opened Integrity
  import opened Replay
  import opened Status
  import opened Witnesses

  /** Every call returns: one chunk, listed under the key it gets. */
  function OneChunk(row: ChunkRow, key: ChunkId): Calls {
    k => Returns(Answer([row], [key], 0, 0.0))
  }

  /** The database of an ingest of one chunk that has come to its commit. */
  ghost predicate Ready(db: Db, job: ClaimedJob, row: ChunkRow, db': Db) {
    var t, d, v := job.taskId, job.spec.documentId, job.spec.docVersion;
    && db'.documents == db.documents && db'.active == db.active && db'.now == db.now && db'.next == db.next + 1
    && t in db.jobs && t in db'.jobs && db'.jobs == db.jobs[t := db'.jobs[t]]
    && db'.jobs[t].(state := db.jobs[t].state, chunkCount := db.jobs[t].chunkCount,
                    embeddingCount := db.jobs[t].embeddingCount, tokens := db.jobs[t].tokens,
                    cost := db.jobs[t].cost) == db.jobs[t]
    && db'.jobs[t].state == Embedding
    && d.Some? && (forall c :: c in db'.chunks <==> c == db.next || (c in db.chunks && c !in VersionChunks(db, d, v)))
    && (forall c | c in db.chunks && c !in VersionChunks(db, d, v) :: db'.chunks[c] == db.chunks[c])
    && db'.chunks[db.next] == Chunk(d.value, job.spec.addressId, v, row)
  }

  lemma ToWrite(db: Db, job: ClaimedJob, row: ChunkRow)
    requires job.taskId in db.jobs && job.spec.documentId.Some? && job.spec.documentId.value in db.documents
    requires row.ordinal == 0
    ensures
      var (db', run) := Play(db, Run(job, AtLoad), OneChunk(row, db.next), 4);
      && run == Run(job, AtWrite([row]))
      && db' == db.(jobs := db.jobs[job.taskId := db.jobs[job.taskId].(state := Chunking)])
  {
    var calls, start := OneChunk(row, db.next), Run(job, AtLoad);
    CallsToWrite(db, job, row, calls(0));
    PlayNone(db, start, calls);
    hide Play, PlayCall;
    PlayNext(db, start, calls, 0, db, start);
    PlayNext(db, start, calls, 1, db, Run(job, AtExtracting));
    var mid := db.(jobs := db.jobs[job.taskId := db.jobs[job.taskId].(state := Extracting)]);
    PlayNext(db, start, calls, 2, mid, Run(job, AtExtract));
    PlayNext(db, start, calls, 3, mid, Run(job, AtChunking([row])));
  }

  lemma CallsToWrite(db: Db, job: ClaimedJob, row: ChunkRow, call: Call)
    requires job.taskId in db.jobs && job.spec.documentId.Some? && job.spec.documentId.value in db.documents
    requires row.ordinal == 0 && call == OneChunk(row, db.next)(0)
    ensures PlayCall(db, Run(job, AtLoad), call) == (db, Run(job, AtExtracting))
    ensures
      var mid := db.(jobs := db.jobs[job.taskId := db.jobs[job.taskId].(state := Extracting)]);
      && PlayCall(db, Run(job, AtExtracting), call) == (mid, Run(job, AtExtract))
      && PlayCall(mid, Run(job, AtExtract), call) == (mid, Run(job, AtChunking([row])))
    ensures
      var mid := db.(jobs := db.jobs[job.taskId := db.jobs[job.taskId].(state := Extracting)]);
      PlayCall(mid, Run(job, AtChunking([row])), call)
        == (db.(jobs := db.jobs[job.taskId := db.jobs[job.taskId].(state := Chunking)]), Run(job, AtWrite([row])))
  {
    var j := db.jobs[job.taskId];
    assert db.jobs[job.taskId := j.(state := Extracting)][job.taskId := j.(state := Chunking)]
        == db.jobs[job.taskId := j.(state := Chunking)];
  }

  /** The write leaves the version with the one chunk. */
  lemma WriteOne(db: Db, job: ClaimedJob, row: ChunkRow, a: Answer)
    requires job.spec.documentId.Some? && job.spec.documentId.value in db.documents
    ensures
      var (db', pc) := Proceed(db, Run(job, AtWrite([row])), a);
      var d, v := job.spec.documentId, job.spec.docVersion;
      && pc == AtCount(1) && db' == db.(chunks := db'.chunks, tables := db'.tables, next := db.next + 1)
      && (forall c :: c in db'.chunks <==> c == db.next || (c in db.chunks && c !in VersionChunks(db, d, v)))
      && (forall c | c in db.chunks && c !in VersionChunks(db, d, v) && c != db.next :: db'.chunks[c] == db.chunks[c])
      && db'.chunks[db.next] == Chunk(d.value, job.spec.addressId, v, row)
      && VersionChunks(db', d, v) == {db.next}
  {
    assert Ids(db.next, 1) == {db.next};
    hide Cascade;
  }

  lemma SelectOne(db: Db, job: ClaimedJob, key: ChunkId, row: ChunkRow)
    requires VersionChunks(db, job.spec.documentId, job.spec.docVersion) == {key} && db.chunks[key].row == row
    ensures
      var (db', pc) := Proceed(db, Run(job, AtSelect), Answer([row], [key], 0, 0.0));
      && db' == EnsureTable(db, job.spec.modelId)
      && pc == AtBatch([Item(key, job.spec.addressId, row.text)], 0)
  {
    assert key in VersionChunks(db, job.spec.documentId, job.spec.docVersion);
    assert Lists([key], VersionChunks(db, job.spec.documentId, job.spec.docVersion)) && ByOrdinal(db, [key]);
    assert ItemsOf(db, [key], Some(job.spec.addressId)) == [Item(key, job.spec.addressId, row.text)];
    hide Lists, VersionChunks, ItemsOf;
  }

  lemma BatchOne(db: Db, job: ClaimedJob, item: Item, a: Answer)
    requires job.spec.modelId in db.tables && item.id in db.chunks
    ensures
      var (db', pc) := Proceed(db, Run(job, AtBatch([item], 0)), a);
      db' == db.(tables := db'.tables) && pc == AtRecord([item], 1, 1, a.tokens, a.cost)
  {
    assert [item][0..1] == [item];
    hide InsertAll;
  }

  lemma TailSteps(db: Db, job: ClaimedJob, a: Answer, item: Item)
    ensures Proceed(db, Run(job, AtCount(1)), a) == (SetChunkCount(db, job.taskId, 1), AtEmbedding)
    ensures Proceed(db, Run(job, AtEmbedding), a) == (SetState(db, job.taskId, Embedding), AtSelect)
    ensures Proceed(db, Run(job, AtRecord([item], 1, 1, 0, 0.0)), a) == (AddUsage(db, job.taskId, 1, 0, 0.0), AtCommit)
  {
  }

  lemma ReadySelect(db: Db, db5: Db, job: ClaimedJob, row: ChunkRow)
    requires job.taskId in db.jobs && job.spec.documentId.Some?
    requires
      var d, v := job.spec.documentId, job.spec.docVersion;
      && db5 == db.(chunks := db5.chunks, tables := db5.tables, next := db.next + 1,
                    jobs := db.jobs[job.taskId := db.jobs[job.taskId].(state := Chunking)])
      && (forall c :: c in db5.chunks <==> c == db.next || (c in db.chunks && c !in VersionChunks(db, d, v)))
      && (forall c | c in db.chunks && c !in VersionChunks(db, d, v) :: db5.chunks[c] == db.chunks[c])
      && db5.chunks[db.next] == Chunk(d.value, job.spec.addressId, v, row)
    ensures Ready(db, job, row, SetState(SetChunkCount(db5, job.taskId, 1), job.taskId, Embedding))
  {
    hide VersionChunks;
  }

  lemma ReadyCommit(db: Db, db7: Db, db9: Db, job: ClaimedJob, row: ChunkRow)
    requires Ready(db, job, row, db7) && db9 == db7.(tables := db9.tables)
    ensures Ready(db, job, row, AddUsage(db9, job.taskId, 1, 0, 0.0))
  {
    hide VersionChunks;
  }

  lemma ToSelect(db: Db, job: ClaimedJob, row: ChunkRow)
    requires job.taskId in db.jobs && job.spec.documentId.Some? && job.spec.documentId.value in db.documents
    requires row.ordinal == 0
    requires db.next !in db.chunks
    ensures
      var (db', run) := Play(db, Run(job, AtLoad), OneChunk(row, db.next), 7);
      && run == Run(job, AtSelect) && Ready(db, job, row, db')
      && VersionChunks(db', job.spec.documentId, job.spec.docVersion) == {db.next}
  {
    var calls, start, a := OneChunk(row, db.next), Run(job, AtLoad), Answer([row], [db.next], 0, 0.0);
    var d, v := job.spec.documentId, job.spec.docVersion;
    ToWrite(db, job, row);
    hide Play, Proceed, VersionChunks, Ready;
    var db4 := Play(db, start, calls, 4).0;
    SameVersion(db, db4, d, v);
    PlayNext(db, start, calls, 4, db4, Run(job, AtWrite([row])));
    WriteOne(db4, job, row, a);
    var db5 := Play(db, start, calls, 5).0;
    ReadySelect(db, db5, job, row);
    hide SetState, SetChunkCount;
    var db6 := SetChunkCount(db5, job.taskId, 1);
    TailSteps(db5, job, a, Item(0, "", ""));
    PlayNext(db, start, calls, 5, db5, Run(job, AtCount(1)));
    TailSteps(db6, job, a, Item(0, "", ""));
    PlayNext(db, start, calls, 6, db6, Run(job, AtEmbedding));
    StateChunks(db5, job.taskId);
    SameVersion(db5, SetState(db6, job.taskId, Embedding), d, v);
  }

  lemma StateChunks(db: Db, t: TaskId)
    ensures SetState(SetChunkCount(db, t, 1), t, Embedding).chunks == db.chunks
  {
  }

  lemma OnlyRow(db: Db, job: ClaimedJob, row: ChunkRow, db': Db)
    requires Ready(db, job, row, db')
    ensures db.next in db'.chunks && db'.chunks[db.next].row == row
  {
  }

  /** From the claim to the commit. */
  lemma ToCommit(db: Db, job: ClaimedJob, row: ChunkRow)
    requires job.taskId in db.jobs && job.spec.documentId.Some? && job.spec.documentId.value in db.documents
    requires row.ordinal == 0
    requires db.next !in db.chunks
    ensures
      var (db', run) := Play(db, Run(job, AtLoad), OneChunk(row, db.next), 10);
      run == Run(job, AtCommit) && Ready(db, job, row, db')
  {
    var calls, start, a := OneChunk(row, db.next), Run(job, AtLoad), Answer([row], [db.next], 0, 0.0);
    var key, item := db.next, Item(db.next, job.spec.addressId, row.text);
    ToSelect(db, job, row);
    hide Play, Proceed, VersionChunks, EnsureTable, Ready, AddUsage;
    var db7 := Play(db, start, calls, 7).0;
    OnlyRow(db, job, row, db7);
    SelectOne(db7, job, key, row);
    PlayNext(db, start, calls, 7, db7, Run(job, AtSelect));
    var db8 := EnsureTable(db7, job.spec.modelId);
    Ensured(db7, job.spec.modelId);
    BatchOne(db8, job, item, a);
    PlayNext(db, start, calls, 8, db8, Run(job, AtBatch([item], 0)));
    var db9 := Play(db, start, calls, 9).0;
    ReadyCommit(db, db7, db9, job, row);
    TailSteps(db9, job, a, item);
    PlayNext(db, start, calls, 9, db9, Run(job, AtRecord([item], 1, 1, 0, 0.0)));
  }

  lemma SameVersion(db: Db, db': Db, d: Option<DocId>, v: int)
    requires db'.chunks == db.chunks
    ensures VersionChunks(db', d, v) == VersionChunks(db, d, v)
  {
  }

  lemma Ensured(db: Db, m: string)
    ensures var db' := EnsureTable(db, m); m in db'.tables && db' == db.(tables := db'.tables)
  {
  }

  // ---- two versions at their commits ------------------------------------------------------------

  ghost predicate AtCommitOf(s: State, r: RunId, d: DocId, v: int) {
    r in s.runs && s.runs[r].pc.AtCommit? && s.runs[r].job.spec.documentId == Some(d)
        && s.runs[r].job.spec.docVersion == v
  }

  lemma CommitIs(s: State, r: RunId, a: Answer)
    requires r in s.runs && s.runs[r].pc.AtCommit?
    ensures
      var s' := Next(s, Go(r, a));
      var run := s.runs[r];
      && s'.db == Flip(s.db, run.job.spec.documentId, run.job.spec.docVersion)
      && s'.runs == s.runs[r := run.(pc := AtDone)] && s'.uploads == s.uploads
  {
    hide Flip, Remember;
  }

  /** Whenever two runs of one document are at the commits of different versions, committing both leaves
      the document live at the second one's version without a single chunk. */
  lemma BothCommitsLoseAllChunks(s: State, q: RunId, r: RunId, d: DocId, v: int, w: int, a: Answer)
    requires d in s.db.documents && AtCommitOf(s, q, d, v) && AtCommitOf(s, r, d, w) && v != w
    ensures
      var s' := Exec(s, [Go(q, a), Go(r, a)]);
      && s'.db.documents == s.db.documents[d := s.db.documents[d].(liveVersion := w)]
      && (forall c | c in s'.db.chunks :: s'.db.chunks[c].documentId != d)
      && s'.db.jobs == s.db.jobs && s'.db.active == s.db.active
      && s'.runs == s.runs[q := s.runs[q].(pc := AtDone)][r := s.runs[r].(pc := AtDone)]
  {
    hide Next, Cascade;
    assert [Go(q, a), Go(r, a)] == [Go(q, a)] + [Go(r, a)];
    OneEvent(s, Go(q, a));
    ExecLast(s, [Go(q, a)], Go(r, a));
    CommitIs(s, q, a);
    CommitIs(Next(s, Go(q, a)), r, a);
  }

  // ---- and this is reachable ----------------------------------------------------------------------

  /** The same as events: a claimed ingest of one chunk comes to its commit. */
  lemma RunsToCommit(s: State, r: RunId, row: ChunkRow)
    requires r in s.runs && s.runs[r].pc.AtLoad? && s.runs[r].job.taskId in s.db.jobs
    requires s.runs[r].job.spec.documentId.Some? && s.runs[r].job.spec.documentId.value in s.db.documents
    requires row.ordinal == 0 && s.db.next !in s.db.chunks
    ensures
      var s' := Exec(s, Trace(r, OneChunk(row, s.db.next), 10));
      && Ready(s.db, s.runs[r].job, row, s'.db) && s'.uploads == s.uploads
      && s'.runs == s.runs[r := s.runs[r].(pc := AtCommit)]
  {
    hide Exec, Ready, Play;
    var run, calls := s.runs[r], OneChunk(row, s.db.next);
    assert run == Run(run.job, AtLoad);
    ToCommit(s.db, run.job, row);
    GoingBack(s.db, run, calls, 10);
    PlayIsExec(s, r, calls, 10);
  }

  const ROW := ChunkRow("text", 0, None, None, 0, 4, 1)

  /** The first version is live, its run died before `mark_done`. */
  ghost predicate Committed1(s: State) {
    && s.runs == map[] && s.uploads == map[] && s.db.active == None && s.db.now == 0 && s.db.next == 4
    && s.db.documents == map[0 := Document("a", "u", "h1", 1)] && (forall c | c in s.db.chunks :: c < 4)
    && 2 in s.db.jobs && s.db.jobs == map[2 := s.db.jobs[2]]
    && var j := s.db.jobs[2];
       j.spec == Uploaded("h1", 1) && j.state == Embedding && j.attempts == 1 && j.leaseUntil == Some(0)
           && j.createdAt == 0
  }

  lemma ReachCommitted1() returns (es: seq<Event>)
    ensures Committed1(Exec(INIT, es))
  {
    var s0 := World(FirstJob(Pending, 0, None), 0, map[]);
    var e1, r := [FIRST, Enqueue(1)], (2, 1);
    var e2 := Trace(r, OneChunk(ROW, 3), 10);
    Enqueued();
    Claimed1(FirstJob(Pending, 0, None), 0, map[]);
    var s1 := Next(s0, Event.Claim(2, 0));
    RunsToCommit(s1, r, ROW);
    var s2 := Exec(s1, e2);
    CommitIs(s2, r, ANY);
    var s3 := Next(s2, Go(r, ANY));
    FlipRows(s2.db, 0, 1);
    es := e1 + [Event.Claim(2, 0)] + e2 + [Go(r, ANY)] + [Crash(r)];
    hide Exec, Next, OneChunk, Flip, Trace;
    ExecLast(INIT, e1, Event.Claim(2, 0));
    ExecConcat(INIT, e1 + [Event.Claim(2, 0)], e2);
    ExecLast(INIT, e1 + [Event.Claim(2, 0)] + e2, Go(r, ANY));
    ExecLast(INIT, e1 + [Event.Claim(2, 0)] + e2 + [Go(r, ANY)], Crash(r));
    assert Next(s3, Crash(r)) == s3.(runs := s3.runs - {r}) by { CrashIs(s3, r); }
  }

  lemma CrashIs(s: State, r: RunId)
    ensures Next(s, Crash(r)) == s.(runs := s.runs - {r})
  {
  }

  lemma FlipRows(db: Db, d: DocId, v: int)
    requires d in db.documents
    ensures
      var db' := Flip(db, Some(d), v);
      && db' == db.(documents := db.documents[d := db.documents[d].(liveVersion := v)],
                    chunks := db'.chunks, tables := db'.tables)
      && forall c | c in db'.chunks :: c in db.chunks
  {
    hide Cascade;
  }

  /** Both jobs are leased: the first one again, at version 1, the second at version 2. */
  ghost predicate BothClaimed(s: State) {
    && s.runs.Keys == {(2, 2), (5, 1)} && s.uploads == map[] && s.db.active == None && s.db.next == 6
    && s.runs[(2, 2)] == Run(ClaimedJob(2, Uploaded("h1", 1), 2, Extracting), AtLoad)
    && s.runs[(5, 1)] == Run(ClaimedJob(5, Uploaded("h2", 2), 1, Extracting), AtLoad)
    && s.db.documents == map[0 := Document("a", "u", "h2", 1)] && (forall c | c in s.db.chunks :: c < 4)
    && s.db.jobs.Keys == {2, 5} && s.db.jobs[2].spec == Uploaded("h1", 1) && s.db.jobs[5].spec == Uploaded("h2", 2)
  }

  /** The changed content arrives and is queued; a second passes. */
  ghost predicate BothQueued(s: State) {
    && s.runs == map[] && s.uploads == map[] && s.db.active == None && s.db.now == 1 && s.db.next == 6
    && s.db.documents == map[0 := Document("a", "u", "h2", 1)] && (forall c | c in s.db.chunks :: c < 4)
    && s.db.jobs.Keys == {2, 5}
    && s.db.jobs[5] == NewJob(Uploaded("h2", 2), Pending, 0)
    && var j := s.db.jobs[2];
       j.spec == Uploaded("h1", 1) && j.state == Embedding && j.attempts == 1 && j.leaseUntil == Some(0)
           && j.createdAt == 0
  }

  lemma Queue2(s: State)
    requires Committed1(s)
    ensures BothQueued(Next(Next(Next(s, CHANGED), Enqueue(4)), Tick(1)))
  {
    var s1 := Next(s, CHANGED);
    assert LookedUp(s.db, "a", "u", Some(0));
    assert s1 == s.(db := s.db.(documents := map[0 := Document("a", "u", "h2", 1)], next := 5),
                    uploads := map[4 := Uploaded("h2", 2)]);
    var s2 := Next(s1, Enqueue(4));
    assert s2 == s1.(db := InsertJob(s1.db, Uploaded("h2", 2), Pending), uploads := map[]);
  }

  lemma Claim2(s: State)
    requires BothQueued(s)
    ensures BothClaimed(Next(Next(s, Event.Claim(2, 0)), Event.Claim(5, 0)))
  {
    assert Oldest(s.db, 2);
    var s1 := Next(s, Event.Claim(2, 0));
    assert s1 == Lend(s, 2, 0);
    assert Oldest(s1.db, 5);
    var s2 := Next(s1, Event.Claim(5, 0));
    assert s2 == Lend(s1, 5, 0);
    assert s2.db.jobs.Keys == {2, 5} && s2.runs.Keys == {(2, 2), (5, 1)};
  }

  lemma ReachBothClaimed() returns (es: seq<Event>)
    ensures BothClaimed(Exec(INIT, es))
  {
    var es1 := ReachCommitted1();
    hide Exec, Next, Committed1, BothClaimed, BothQueued;
    Queue2(Exec(INIT, es1));
    var es2 := es1 + [CHANGED] + [Enqueue(4)] + [Tick(1)];
    ExecLast(INIT, es1, CHANGED);
    ExecLast(INIT, es1 + [CHANGED], Enqueue(4));
    ExecLast(INIT, es1 + [CHANGED] + [Enqueue(4)], Tick(1));
    Claim2(Exec(INIT, es2));
    ExecLast(INIT, es2, Event.Claim(2, 0));
    ExecLast(INIT, es2 + [Event.Claim(2, 0)], Event.Claim(5, 0));
    es := es2 + [Event.Claim(2, 0)] + [Event.Claim(5, 0)];
  }

  /** Both have written their version, one chunk each, and are about to commit it. */
  ghost predicate BothReady(s: State) {
    && s.runs.Keys == {(2, 2), (5, 1)} && s.db.active == None
    && s.runs[(2, 2)] == Run(ClaimedJob(2, Uploaded("h1", 1), 2, Extracting), AtCommit)
    && s.runs[(5, 1)] == Run(ClaimedJob(5, Uploaded("h2", 2), 1, Extracting), AtCommit)
    && s.db.documents == map[0 := Document("a", "u", "h2", 1)]
    && s.db.jobs.Keys == {2, 5} && s.db.jobs[2].spec == Uploaded("h1", 1) && s.db.jobs[5].spec == Uploaded("h2", 2)
    && IsChunkOf(s.db, 6, 1) && IsChunkOf(s.db, 7, 2)
  }

  predicate IsChunkOf(db: Db, c: ChunkId, v: int) {
    c in db.chunks && db.chunks[c].documentId == 0 && db.chunks[c].docVersion == v
  }

  lemma FirstReady(s: State, s': State)
    requires BothClaimed(s) && Ready(s.db, s.runs[(2, 2)].job, ROW, s'.db)
    requires s'.runs == s.runs[(2, 2) := s.runs[(2, 2)].(pc := AtCommit)]
    ensures s'.db.next == 7 && (forall c | c in s'.db.chunks :: c < 7) && IsChunkOf(s'.db, 6, 1)
    ensures s'.db.documents == s.db.documents && s'.db.active == s.db.active && s'.db.jobs.Keys == {2, 5}
    ensures s'.db.jobs[2].spec == Uploaded("h1", 1) && s'.db.jobs[5] == s.db.jobs[5]
  {
  }

  lemma SecondReady(s: State, s': State)
    requires (5, 1) in s.runs && s.runs[(5, 1)].job.spec == Uploaded("h2", 2) && s.runs[(5, 1)].job.taskId == 5
    requires Ready(s.db, s.runs[(5, 1)].job, ROW, s'.db) && s.db.next == 7 && IsChunkOf(s.db, 6, 1)
    ensures IsChunkOf(s'.db, 6, 1) && IsChunkOf(s'.db, 7, 2)
    ensures s'.db.documents == s.db.documents && s'.db.active == s.db.active && s'.db.jobs.Keys == s.db.jobs.Keys
    ensures 5 in s'.db.jobs && s'.db.jobs[5].spec == s.db.jobs[5].spec
    ensures 2 in s.db.jobs ==> s'.db.jobs[2] == s.db.jobs[2]
  {
  }

  lemma ReachBothReady() returns (es: seq<Event>)
    ensures BothReady(Exec(INIT, es))
  {
    var es1 := ReachBothClaimed();
    var s := Exec(INIT, es1);
    hide Exec, Ready, OneChunk;
    RunsToCommit(s, (2, 2), ROW);
    var t1 := Trace((2, 2), OneChunk(ROW, 6), 10);
    var s1 := Exec(s, t1);
    FirstReady(s, s1);
    RunsToCommit(s1, (5, 1), ROW);
    var t2 := Trace((5, 1), OneChunk(ROW, 7), 10);
    var s2 := Exec(s1, t2);
    SecondReady(s1, s2);
    ExecConcat(INIT, es1, t1);
    ExecConcat(INIT, es1 + t1, t2);
    es := es1 + t1 + t2;
    assert s2.runs.Keys == {(2, 2), (5, 1)};
  }

  lemma DoneIs(s: State, r: RunId, a: Answer)
    requires r in s.runs && s.runs[r].pc.AtDone? && s.runs[r].job.taskId in s.db.jobs
    ensures
      var s' := Next(s, Go(r, a));
      var t := s.runs[r].job.taskId;
      && s'.db == MarkDone(s.db, t, Done) && s'.runs == s.runs - {r}
  {
    hide Remember;
  }

  /** Overlapping runs of one document, reached from the empty database without any delete: both jobs end
      well, the address reads as fully indexed, the document is live, and nothing of it is left to find. */
  lemma OverlapEmptiesDocument() returns (es: seq<Event>)
    ensures
      var db := Exec(INIT, es).db;
      && db.jobs.Keys == {2, 5} && db.jobs[2].state == Done && db.jobs[5].state == Done
      && db.documents == map[0 := Document("a", "u", "h2", 2)]
      && (forall c | c in db.chunks :: db.chunks[c].documentId != 0)
      && ReadStatus(db, "a", "m").fullyIndexed
  {
    var es1 := ReachBothReady();
    var s := Exec(INIT, es1);
    var q, r: RunId := (2, 2), (5, 1);
    assert AtCommitOf(s, q, 0, 1) && AtCommitOf(s, r, 0, 2);
    hide Exec, Next, IsChunkOf;
    BothCommitsLoseAllChunks(s, q, r, 0, 1, 2, ANY);
    var es2 := es1 + [Go(q, ANY), Go(r, ANY)];
    ExecConcat(INIT, es1, [Go(q, ANY), Go(r, ANY)]);
    var s2 := Exec(INIT, es2);
    DoneIs(s2, q, ANY);
    var s3 := Next(s2, Go(q, ANY));
    DoneIs(s3, r, ANY);
    ExecLast(INIT, es2, Go(q, ANY));
    ExecLast(INIT, es2 + [Go(q, ANY)], Go(r, ANY));
    es := es2 + [Go(q, ANY)] + [Go(r, ANY)];
    LooksIndexed(Next(s3, Go(r, ANY)).db);
  }

  lemma LooksIndexed(db: Db)
    requires db.jobs.Keys == {2, 5} && db.jobs[2].state == Done && db.jobs[5].state == Done
    requires db.documents.Keys == {0} && forall c | c in db.chunks :: db.chunks[c].documentId != 0
    ensures ReadStatus(db, "a", "m").fullyIndexed
  {
    assert JobsIn(db, "a", {Pending, Extracting, Chunking, Embedding}) == {};
    assert JobsIn(db, "a", {Failed}) == {};
    assert LiveAt(db, "a") == {};
    if ActiveModel(db, "m") in db.tables { assert MissingAt(db, ActiveModel(db, "m"), "a") == {}; }
  }

  // ---- a re-run at the live version ---------------------------------------------------------------

  /** A run that writes the version already live replaces what readers see by chunks without any vector. */
  lemma RewriteExposes(s: State, r: RunId, a: Answer)
    requires Sound(s) && r in s.runs && s.runs[r].pc.AtWrite? && s.runs[r].pc.rows != []
    requires var spec := s.runs[r].job.spec;
      && spec.documentId.Some? && spec.documentId.value in s.db.documents
      && s.db.documents[spec.documentId.value].liveVersion == spec.docVersion
    ensures
      var db := Next(s, Go(r, a)).db;
      var spec := s.runs[r].job.spec;
      && db.documents == s.db.documents && s.db.next in VersionChunks(db, spec.documentId, spec.docVersion)
      && forall c, m | c in VersionChunks(db, spec.documentId, spec.docVersion) && m in db.tables :: c !in db.tables[m]
  {
    var run := s.runs[r];
    var spec := run.job.spec;
    GoIs(s, r, a);
    SoundDb(s);
    WriteIs(s.db, run, a);
    hide Sound, Next, Proceed, StepRun, Remember, RunSound;
    Rewritten(s.db, spec.documentId, spec.addressId, spec.docVersion, run.pc.rows);
  }

  lemma WriteIs(db: Db, run: Run, a: Answer)
    requires run.pc.AtWrite? && CanInsert(db, run.job.spec.documentId, run.pc.rows)
    ensures Proceed(db, run, a).0
      == ReplaceChunks(db, run.job.spec.documentId, run.job.spec.addressId, run.job.spec.docVersion, run.pc.rows)
  {
    hide ReplaceChunks;
  }

  lemma NewHasNoRow(db: Db, c: ChunkId, m: string)
    requires DbSound(db) && c >= db.next && m in db.tables
    ensures c !in db.tables[m]
  {
    assert TablesSound(db) && KeysIssued(db);
    assert c in db.tables[m] ==> c in db.chunks;
  }

  lemma KeptRow(db: Db, d: Option<DocId>, address: string, v: int, rows: seq<ChunkRow>, c: ChunkId)
    requires CanInsert(db, d, rows) && c in ReplaceChunks(db, d, address, v, rows).chunks && c < db.next
    ensures c in db.chunks && c !in VersionChunks(db, d, v)
    ensures ReplaceChunks(db, d, address, v, rows).chunks[c] == db.chunks[c]
  {
  }

  lemma Rewritten(db: Db, d: Option<DocId>, address: string, v: int, rows: seq<ChunkRow>)
    requires DbSound(db) && rows != [] && CanInsert(db, d, rows)
    ensures
      var db' := ReplaceChunks(db, d, address, v, rows);
      && db'.documents == db.documents && db.next in VersionChunks(db', d, v)
      && forall c, m | c in VersionChunks(db', d, v) && m in db'.tables :: c !in db'.tables[m]
  {
    var db' := ReplaceChunks(db, d, address, v, rows);
    assert db.next in Ids(db.next, |rows|);
    forall c | c in VersionChunks(db', d, v) ensures c >= db.next {
      if c < db.next { KeptRow(db, d, address, v, rows, c); }
    }
    forall c, m | c in VersionChunks(db', d, v) && m in db'.tables ensures c !in db'.tables[m] {
      NewHasNoRow(db, c, m);
    }
  }

  /** Reached by a crash between the commit and `mark_done`, with no runs overlapping. */
  lemma CrashAfterCommitExposes() returns (es: seq<Event>)
    ensures
      var db := Exec(INIT, es).db;
      && 0 in db.documents && db.documents[0].liveVersion == 1 && 4 in VersionChunks(db, Some(0), 1)
      && forall c, m | c in VersionChunks(db, Some(0), 1) && m in db.tables :: c !in db.tables[m]
  {
    var es1 := ReachCommitted1();
    hide Exec, Next, Play, VersionChunks, OneChunk;
    var s := Exec(INIT, es1);
    var r: RunId := (2, 2);
    LeasedAgain(s);
    var s1 := Next(Next(s, Tick(1)), Event.Claim(2, 0));
    var calls := OneChunk(ROW, 4);
    ToWrite(s1.db, s1.runs[r].job, ROW);
    GoingBack(s1.db, s1.runs[r], calls, 4);
    PlayIsExec(s1, r, calls, 4);
    var es2 := es1 + [Tick(1)] + [Event.Claim(2, 0)];
    ExecLast(INIT, es1, Tick(1));
    ExecLast(INIT, es1 + [Tick(1)], Event.Claim(2, 0));
    ExecConcat(INIT, es2, Trace(r, calls, 4));
    var es3 := es2 + Trace(r, calls, 4);
    ExecLast(INIT, es3, Go(r, ANY));
    ExecSound(es3);
    RewriteExposes(Exec(INIT, es3), r, ANY);
    GoKeeps(Exec(INIT, es3), r);
    es := es3 + [Go(r, ANY)];
  }

  lemma LeasedAgain(s: State)
    requires Committed1(s)
    ensures
      var s1 := Next(Next(s, Tick(1)), Event.Claim(2, 0));
      && s1.db.documents == s.db.documents && s1.db.next == 4 && s1.db.jobs.Keys == {2}
      && s1.runs == map[(2, 2) := Run(ClaimedJob(2, Uploaded("h1", 1), 2, Extracting), AtLoad)]
  {
    var mid := Next(s, Tick(1));
    assert mid == s.(db := s.db.(now := 1));
    assert Oldest(mid.db, 2);
    assert Next(mid, Event.Claim(2, 0)) == Lend(mid, 2, 0);
  }

  lemma GoKeeps(s: State, r: RunId)
    requires r in s.runs && s.runs[r].pc.AtWrite?
    ensures Next(s, Go(r, ANY)).db.documents == s.db.documents
  {
    GoIs(s, r, ANY);
    hide Next;
  }
}
