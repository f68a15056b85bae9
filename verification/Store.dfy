/** The database the repositories write to, one method per statement. `View` is the
    value the protocol reasons about; each method is proved to do to it what the
    corresponding function says. */
module Store {
  import opened Schema
  import opened Tasks
  import opened Documents
  import opened Embeddings
  import opened Pipeline

  class Database {
    var documents: map<DocId, Document>
    var chunks: map<ChunkId, Chunk>
    var tables: map<string, map<ChunkId, EmbeddingRow>>
    var jobs: map<TaskId, Job>
    var active: Option<string>
    var now: int
    var next: nat

    function View(): (db: Db)
      reads this
    {
      Db(documents, chunks, tables, jobs, active, now, next)
    }

    constructor ()
      ensures View() == EMPTY_DB
    {
      documents, chunks, tables, jobs := map[], map[], map[], map[];
      active, now, next := None, 0, 0;
    }

    /** Leaves a transaction by its exception. */
    method Rollback(before: Db)
      modifies this
      ensures View() == before
    {
      documents, chunks, tables, jobs := before.documents, before.chunks, before.tables, before.jobs;
      active, now, next := before.active, before.now, before.next;
    }

    // ---- job rows -------------------------------------------------------------------------

    method Enqueue(spec: Spec) returns (task: Option<TaskId>)
      modifies this`jobs, this`next
      ensures task.Some? <==> DocumentExists(old(View()), spec.documentId)
      ensures View() == if task.Some? then InsertJob(old(View()), spec, Pending) else old(View())
      ensures task.Some? ==> task.value == old(next)
    {
      if spec.documentId.Some? && spec.documentId.value !in documents {
        return None; // foreign key
      }
      task := Some(next);
      jobs, next := jobs[next := NewJob(spec, Pending, now)], next + 1;
    }

    method RecordSkipped(spec: Spec) returns (task: Option<TaskId>)
      modifies this`jobs, this`next
      ensures task.Some? <==> DocumentExists(old(View()), spec.documentId)
      ensures View() == if task.Some? then InsertJob(old(View()), spec, Skipped) else old(View())
      ensures task.Some? ==> task.value == old(next)
    {
      if spec.documentId.Some? && spec.documentId.value !in documents {
        return None;
      }
      task := Some(next);
      jobs, next := jobs[next := NewJob(spec, Skipped, now)], next + 1;
    }

    /** The row update both claims share. */
    method TakeLease(t: TaskId, seconds: int) returns (job: ClaimedJob)
      requires t in jobs
      modifies this`jobs
      ensures View() == Lease(old(View()), t, seconds) && job == Claimed(old(View()), t)
    {
      var j := jobs[t];
      var state := if j.spec.jobType == Rebuild then Embedding else Extracting;
      jobs := jobs[t := j.(state := state, leaseUntil := Some(now + seconds), attempts := j.attempts + 1)];
      job := ClaimedJob(t, j.spec, j.attempts + 1, state);
    }

    method ClaimById(t: TaskId, seconds: int) returns (job: Option<ClaimedJob>)
      modifies this`jobs
      ensures job.Some? <==> t in old(jobs) && !Terminal(old(jobs)[t].state)
      ensures job.Some? ==> View() == Lease(old(View()), t, seconds) && job.value == Claimed(old(View()), t)
      ensures job.None? ==> View() == old(View())
    {
      if t !in jobs || jobs[t].state in {Done, Skipped, Failed} {
        return None;
      }
      var claimed := TakeLease(t, seconds);
      job := Some(claimed);
    }

    method SetState(t: TaskId, state: JobState)
      modifies this`jobs
      ensures View() == Tasks.SetState(old(View()), t, state)
    {
      if t in jobs { jobs := jobs[t := jobs[t].(state := state)]; }
    }

    /** A missing argument leaves its column alone, or adds nothing to it. */
    method SetProgress(t: TaskId, chunkCount: Option<int>, embeddingCount: Option<int>, tokens: Option<int>,
                       cost: Option<real>)
      modifies this`jobs
      ensures View() ==
        var db := if chunkCount.Some? then SetChunkCount(old(View()), t, chunkCount.value) else old(View());
        AddUsage(db, t, if embeddingCount.Some? then embeddingCount.value else 0,
                 if tokens.Some? then tokens.value else 0, if cost.Some? then cost.value else 0.0)
    {
      if t in jobs {
        var j := jobs[t];
        if chunkCount.Some? { j := j.(chunkCount := chunkCount.value); }
        if embeddingCount.Some? { j := j.(embeddingCount := j.embeddingCount + embeddingCount.value); }
        if tokens.Some? { j := j.(tokens := j.tokens + tokens.value); }
        if cost.Some? { j := j.(cost := j.cost + cost.value); }
        jobs := jobs[t := j];
      }
    }

    method MarkDone(t: TaskId, state: JobState)
      modifies this`jobs
      ensures View() == Tasks.MarkDone(old(View()), t, state)
    {
      if t in jobs { jobs := jobs[t := jobs[t].(state := state, finishedAt := Some(now), fault := None)]; }
    }

    method MarkFailed(job: ClaimedJob, fault: Fault, retryable: bool) returns (outcome: JobState)
      requires retryable == IsRetryable(fault.exc)
      modifies this`jobs
      ensures View() == Tasks.MarkFailed(old(View()), job, fault) && outcome == FailureOutcome(job, fault.exc)
    {
      outcome := if retryable && job.attempts < MAX_ATTEMPTS then Pending else Failed;
      var t := job.taskId;
      if t in jobs {
        var finished := if outcome == Failed then Some(now) else jobs[t].finishedAt;
        jobs := jobs[t := jobs[t].(state := outcome, fault := Some(fault), leaseUntil := None, finishedAt := finished)];
      }
    }

    // ---- documents and chunks -------------------------------------------------------------

    method GetDocumentByUpload(address: string, upload: string) returns (found: Option<DocId>)
      ensures LookedUp(View(), address, upload, found)
    {
      if d :| d in documents && documents[d].addressId == address && documents[d].uploadId == upload {
        found := Some(d);
      } else {
        found := None;
      }
    }

    method UpsertDocument(address: string, upload: string, hash: string)
      returns (found: Option<DocId>, d: DocId, version: int)
      modifies this`documents, this`next
      ensures LookedUp(old(View()), address, upload, found)
      ensures View() == Upsert(old(View()), found, address, upload, hash)
      ensures d == UpsertedId(old(View()), found) && version == NextVersion(old(View()), found)
    {
      found := GetDocumentByUpload(address, upload);
      if found.None? {
        d, version := next, 1;
        documents, next := documents[d := Document(address, upload, hash, 0)], next + 1;
      } else {
        d := found.value;
        version := documents[d].liveVersion + 1;
        documents := documents[d := documents[d].(contentHash := hash)];
      }
    }

    /** DELETE FROM chunk, with its cascade to every embedding table. */
    method DeleteChunks(doomed: set<ChunkId>)
      modifies this`chunks, this`tables
      ensures View() == KeepChunks(old(View()), old(chunks).Keys - doomed)
    {
      var kept := chunks.Keys - doomed;
      chunks := map c | c in chunks && c in kept :: chunks[c];
      tables := Cascade(tables, kept);
    }

    method DeleteVersionChunks(d: Option<DocId>, v: int)
      modifies this`chunks, this`tables
      ensures View() == Documents.DeleteVersionChunks(old(View()), d, v)
    {
      DeleteChunks(set c | c in chunks && Some(chunks[c].documentId) == d && chunks[c].docVersion == v);
    }

    /** Row by row; fails, with rows written, at the first row the foreign key refuses. */
    method InsertChunks(d: Option<DocId>, address: string, v: int, rows: seq<ChunkRow>) returns (ok: bool)
      modifies this`chunks, this`next
      ensures ok <==> CanInsert(old(View()), d, rows)
      ensures ok ==> View() == Documents.InsertChunks(old(View()), d, address, v, rows)
      ensures !ok ==> View() == old(View())
    {
      ghost var was := View();
      ok := true;
      NoChunks(was, d, address, v, rows);
      hide Documents.InsertChunks, CanInsert;
      for i := 0 to |rows|
        invariant CanInsert(was, d, rows[..i]) && documents == was.documents
        invariant View() == Documents.InsertChunks(was, d, address, v, rows[..i])
        invariant i > 0 ==> d.Some? && d.value in documents
      {
        if d.None? || d.value !in documents {
          ok := false;
          Refused(was, d, address, v, rows);
          return;
        }
        OneMoreChunk(was, d, address, v, rows, i);
        chunks, next := chunks[next := Chunk(d.value, address, v, rows[i])], next + 1;
      }
      assert rows[..|rows|] == rows;
    }

    method SetLiveVersion(d: Option<DocId>, v: int)
      modifies this`documents
      ensures View() == Documents.SetLiveVersion(old(View()), d, v)
    {
      if d.Some? && d.value in documents {
        documents := documents[d.value := documents[d.value].(liveVersion := v)];
      }
    }

    method DeleteOtherVersions(d: Option<DocId>, keep: int)
      modifies this`chunks, this`tables
      ensures View() == Documents.DeleteOtherVersions(old(View()), d, keep)
    {
      ghost var was := View();
      var doomed := set c | c in chunks && Some(chunks[c].documentId) == d && chunks[c].docVersion != keep;
      DropOthers(was, d, keep, doomed);
      DeleteChunks(doomed);
    }

    method DeleteDocument(d: DocId) returns (deleted: bool)
      modifies this
      ensures View() == Documents.DeleteDocument(old(View()), d) && deleted == (d in old(documents))
    {
      deleted := d in documents;
      var doomed := set c | c in chunks && chunks[c].documentId == d;
      DropDocument(View(), d, doomed);
      DeleteChunks(doomed);
      documents := documents - {d};
      jobs := map t | t in jobs && jobs[t].spec.documentId != Some(d) :: jobs[t];
    }

    /** The rows of a version, given the order the SELECT returns them in; ties in the ordinal go either way. */
    method LiveChunks(d: Option<DocId>, v: int, order: seq<ChunkId>) returns (rows: Option<seq<(ChunkId, string)>>)
      ensures rows.Some? <==> Lists(order, VersionChunks(View(), d, v)) && ByOrdinal(View(), order)
      ensures rows.Some? ==> |rows.value| == |order|
      ensures rows.Some? ==>
        forall i | 0 <= i < |order| :: order[i] in chunks && rows.value[i] == (order[i], chunks[order[i]].row.text)
    {
      var db := View();
      if Lists(order, VersionChunks(db, d, v)) && ByOrdinal(db, order) {
        rows := Some(seq(|order|, i requires 0 <= i < |order| => (order[i], db.chunks[order[i]].row.text)));
      } else {
        rows := None;
      }
    }

    /** The live chunks in scope without a row in the table of `m`, with their addresses. */
    method SelectMissing(m: string, scope: string, order: seq<ChunkId>) returns (rows: Option<seq<Item>>)
      ensures rows.Some? <==> Lists(order, Missing(View(), m, scope))
      ensures rows.Some? ==> rows.value == ItemsOf(View(), order, None)
    {
      var db := View();
      if Lists(order, Missing(db, m, scope)) {
        rows := Some(ItemsOf(db, order, None));
      } else {
        rows := None;
      }
    }

    // ---- embedding tables -----------------------------------------------------------------

    method EnsureEmbeddingTable(m: string)
      modifies this`tables
      ensures View() == EnsureTable(old(View()), m)
    {
      if m !in tables { tables := tables[m := map[]]; }
    }

    /** Row by row, as `executemany` does; fails at the first row the foreign key refuses. */
    method InsertEmbeddings(m: string, address: string, rows: seq<(ChunkId, Vector)>, mode: OnConflict,
                            ghost items: seq<Item>)
      returns (ok: bool)
      requires |items| == |rows|
      requires forall i | 0 <= i < |rows| ::
                 rows[i] == (items[i].id, VectorOf(m, items[i].text)) && items[i].addressId == address
      requires m in tables
      modifies this`tables
      ensures ok <==> CanEmbed(old(View()), m, items)
      ensures ok ==> View() == Embeddings.InsertEmbeddings(old(View()), m, items, mode)
      ensures !ok ==> m in tables && View() == old(View()).(tables := tables)
    {
      ghost var was := View();
      ok := true;
      assert was.tables == was.tables[m := was.tables[m]];
      for i := 0 to |rows|
        invariant m in tables && CanEmbed(was, m, items[..i])
        invariant View() == was.(tables := was.tables[m := InsertAll(was.tables[m], m, items[..i], mode)])
      {
        var (c, vector) := rows[i];
        if c !in chunks {
          ok := false;
          return;
        }
        var table := tables[m];
        if c !in table {
          table := table[c := EmbeddingRow(address, m, vector)];
        } else if mode == DoUpdate {
          table := table[c := table[c].(modelId := m, vector := vector)];
        }
        assert items[..i + 1][..i] == items[..i];
        tables := tables[m := table];
      }
      assert items[..|rows|] == items;
    }

    method SetActive(m: string)
      modifies this`active
      ensures View() == old(View()).(active := Some(m))
    {
      active := Some(m);
    }
  }

  lemma NoChunks(db: Db, d: Option<DocId>, address: string, v: int, rows: seq<ChunkRow>)
    ensures CanInsert(db, d, rows[..0]) && InsertChunks(db, d, address, v, rows[..0]) == db
  {
  }

  lemma Refused(db: Db, d: Option<DocId>, address: string, v: int, rows: seq<ChunkRow>)
    requires rows != [] && (d.None? || d.value !in db.documents)
    ensures !CanInsert(db, d, rows)
  {
  }

  lemma InsertedRow(db: Db, d: DocId, address: string, v: int, rows: seq<ChunkRow>, c: ChunkId)
    requires d in db.documents
    ensures
      var chunks := InsertChunks(db, Some(d), address, v, rows).chunks;
      if db.next <= c < db.next + |rows| then c in chunks && chunks[c] == Chunk(d, address, v, rows[c - db.next])
      else (c in chunks <==> c in db.chunks) && (c in db.chunks ==> chunks[c] == db.chunks[c])
    ensures InsertChunks(db, Some(d), address, v, rows)
         == db.(chunks := InsertChunks(db, Some(d), address, v, rows).chunks, next := db.next + |rows|)
  {
  }

  lemma DropOthers(db: Db, d: Option<DocId>, keep: int, doomed: set<ChunkId>)
    requires forall c :: c in doomed <==>
               c in db.chunks && Some(db.chunks[c].documentId) == d && db.chunks[c].docVersion != keep
    ensures DeleteOtherVersions(db, d, keep) == KeepChunks(db, db.chunks.Keys - doomed)
  {
    assert AtVersion(db, d, keep) == db.chunks.Keys - doomed;
    hide KeepChunks;
  }

  lemma DropDocument(db: Db, d: DocId, doomed: set<ChunkId>)
    requires forall c :: c in doomed <==> c in db.chunks && db.chunks[c].documentId == d
    ensures DeleteDocument(db, d) == KeepChunks(db, db.chunks.Keys - doomed)
      .(documents := db.documents - {d},
        jobs := map t | t in db.jobs && db.jobs[t].spec.documentId != Some(d) :: db.jobs[t])
  {
    assert ChunksOfOthers(db, d) == db.chunks.Keys - doomed;
    assert DeleteDocument(db, d).jobs == map t | t in db.jobs && db.jobs[t].spec.documentId != Some(d) :: db.jobs[t];
    hide KeepChunks;
  }

  lemma OneMoreChunk(db: Db, d: Option<DocId>, address: string, v: int, rows: seq<ChunkRow>, i: nat)
    requires i < |rows| && d.Some? && d.value in db.documents
    ensures CanInsert(db, d, rows[..i]) && CanInsert(db, d, rows[..i + 1])
    ensures
      var before, after := InsertChunks(db, d, address, v, rows[..i]), InsertChunks(db, d, address, v, rows[..i + 1]);
      && before.next == db.next + i
      && after == before.(chunks := before.chunks[before.next := Chunk(d.value, address, v, rows[i])],
         next := before.next + 1)
  {
    hide InsertChunks;
    var front, more := rows[..i], rows[..i + 1];
    assert more[i] == rows[i] && forall k | 0 <= k < i :: more[k] == front[k];
    var before, after := InsertChunks(db, d, address, v, front), InsertChunks(db, d, address, v, more);
    var expected := before.chunks[db.next + i := Chunk(d.value, address, v, rows[i])];
    forall c ensures c in after.chunks <==> c in expected
             ensures c in expected ==> after.chunks[c] == expected[c]
    {
      InsertedRow(db, d.value, address, v, front, c);
      InsertedRow(db, d.value, address, v, more, c);
    }
    InsertedRow(db, d.value, address, v, front, 0);
    InsertedRow(db, d.value, address, v, more, 0);
    assert after.chunks == expected;
  }
}
