/** An ingest that nothing disturbs: how many calls it makes, and what it leaves. */
module IngestRun {
  import opened Schema
  import opened Documents
  import opened Embeddings
  import opened Pipeline
  import opened Replay
  import opened Resume

  /** Batches of at most 128 chunks. */
  function Batches(n: nat): nat {
    (n + 127) / 128
  }

  /** Tokens and cost of the first `i` batches, as the provider reports them. */
  function TokensOf(answers: Answers, i: nat): int {
    if i == 0 then 0 else TokensOf(answers, i - 1) + answers(6 + 2 * i).tokens
  }

  function CostOf(answers: Answers, i: nat): real {
    if i == 0 then 0.0 else CostOf(answers, i - 1) + answers(6 + 2 * i).cost
  }

  /** The keys of `n` rows written from `first` on, in the order of the rows. */
  function KeysFrom(first: ChunkId, n: nat): seq<ChunkId> {
    seq(n, i requires 0 <= i < n => first + i)
  }

  /** What the storage, the chunker and the SELECT give this run: its rows, numbered from 0, and their keys
      in the order of the rows. */
  predicate Given(db: Db, answers: Answers, rows: seq<ChunkRow>) {
    && answers(2).rows == rows && (forall k | 0 <= k < |rows| :: rows[k].ordinal == k)
    && answers(7).order == KeysFrom(db.next, |rows|)
  }

  /** A run whose calls all return is played the same way by the worker. */
  lemma {:induction false} SoloIsPlay(db: Db, run: Run, answers: Answers, n: nat)
    ensures Play(db, run, (k: nat) => Returns(answers(k)), n) == Solo(db, run, answers, n)
  {
    hide Proceed;
    if n > 0 { SoloIsPlay(db, run, answers, n - 1); }
  }

  // ---- up to the write ------------------------------------------------------------------------

  function WithRow(db: Db, t: TaskId, j: Job): Db {
    db.(jobs := db.jobs[t := j])
  }

  lemma FirstSteps(db: Db, job: ClaimedJob, rows: seq<ChunkRow>, a: Answer)
    requires job.taskId in db.jobs && job.spec.documentId.Some? && job.spec.documentId.value in db.documents
    requires a.rows == rows && forall k | 0 <= k < |rows| :: rows[k].ordinal == k
    ensures
      var t, j := job.taskId, db.jobs[job.taskId];
      var mid := WithRow(db, t, j.(state := Extracting));
      && (forall b :: Proceed(db, Run(job, AtLoad), b) == (db, AtExtracting))
      && (forall b :: Proceed(db, Run(job, AtExtracting), b) == (mid, AtExtract))
      && Proceed(mid, Run(job, AtExtract), a) == (mid, AtChunking(rows))
      && (forall b :: Proceed(mid, Run(job, AtChunking(rows)), b)
                      == (WithRow(db, t, j.(state := Chunking)), AtWrite(rows)))
  {
    var t, j := job.taskId, db.jobs[job.taskId];
    assert db.jobs[t := j.(state := Extracting)][t := j.(state := Chunking)] == db.jobs[t := j.(state := Chunking)];
    hide CanInsert, CanEmbed, Lists, ByOrdinal, ItemsOf, VersionChunks, Missing;
  }

  /** The calls up to the write load the document, extract and chunk it. */
  lemma ToWrite(db: Db, job: ClaimedJob, answers: Answers, rows: seq<ChunkRow>)
    requires job.taskId in db.jobs && job.spec.documentId.Some? && job.spec.documentId.value in db.documents
    requires Given(db, answers, rows)
    ensures Solo(db, Run(job, AtLoad), answers, 4)
         == (WithRow(db, job.taskId, db.jobs[job.taskId].(state := Chunking)), Run(job, AtWrite(rows)))
  {
    var t, j, start := job.taskId, db.jobs[job.taskId], Run(job, AtLoad);
    var mid := WithRow(db, t, j.(state := Extracting));
    FirstSteps(db, job, rows, answers(2));
    SoloNone(db, start, answers);
    hide Proceed, Solo, WithRow;
    SoloNext(db, start, answers, 0, db, start);
    SoloNext(db, start, answers, 1, db, Run(job, AtExtracting));
    SoloNext(db, start, answers, 2, mid, Run(job, AtExtract));
    SoloNext(db, start, answers, 3, mid, Run(job, AtChunking(rows)));
  }

  // ---- the write and the SELECT ---------------------------------------------------------------

  /** The chunks after the write: those of other versions and documents as they were, and the rows. */
  ghost predicate HasRows(was: map<ChunkId, Chunk>, first: ChunkId, chunks: map<ChunkId, Chunk>, d: DocId,
                          address: string, v: int, rows: seq<ChunkRow>)
  {
    && (forall c :: c in chunks <==>
          || first <= c < first + |rows|
          || (c in was && !(was[c].documentId == d && was[c].docVersion == v)))
    && (forall c | first <= c < first + |rows| && c in chunks :: chunks[c] == Chunk(d, address, v, rows[c - first]))
    && (forall c | c in chunks && !(first <= c < first + |rows|) :: c in was && chunks[c] == was[c])
  }

  lemma WriteStep(db: Db, job: ClaimedJob, rows: seq<ChunkRow>, a: Answer)
    requires job.spec.documentId.Some? && job.spec.documentId.value in db.documents
    requires forall c | c in db.chunks :: c < db.next
    ensures
      var (db', pc) := Proceed(db, Run(job, AtWrite(rows)), a);
      && pc == AtCount(|rows|) && db' == db.(chunks := db'.chunks, tables := db'.tables, next := db.next + |rows|)
      && HasRows(db.chunks, db.next, db'.chunks, job.spec.documentId.value, job.spec.addressId, job.spec.docVersion,
                 rows)
      && (forall m :: m in db'.tables <==> m in db.tables)
  {
    hide Ids;
    assert CanInsert(db, job.spec.documentId, rows);
  }

  lemma MiddleSteps(db: Db, job: ClaimedJob, n: nat, a: Answer)
    requires job.taskId in db.jobs
    ensures
      var t, j := job.taskId, db.jobs[job.taskId];
      var mid := WithRow(db, t, j.(chunkCount := n));
      && Proceed(db, Run(job, AtCount(n)), a) == (mid, AtEmbedding)
      && Proceed(mid, Run(job, AtEmbedding), a) == (WithRow(db, t, j.(chunkCount := n, state := Embedding)), AtSelect)
  {
    var t, j := job.taskId, db.jobs[job.taskId];
    assert db.jobs[t := j.(chunkCount := n)][t := j.(chunkCount := n, state := Embedding)]
        == db.jobs[t := j.(chunkCount := n, state := Embedding)];
    hide CanInsert, CanEmbed, Lists, ByOrdinal, ItemsOf, VersionChunks, Missing;
  }

  function Items(first: ChunkId, address: string, rows: seq<ChunkRow>): seq<Item> {
    seq(|rows|, i requires 0 <= i < |rows| => Item(first + i, address, rows[i].text))
  }

  /** The SELECT by ordinal lists the rows in their order. */
  lemma SelectStep(db: Db, db0: Db, job: ClaimedJob, rows: seq<ChunkRow>, a: Answer)
    requires job.spec.documentId.Some? && forall k | 0 <= k < |rows| :: rows[k].ordinal == k
    requires HasRows(db0.chunks, db0.next, db.chunks, job.spec.documentId.value, job.spec.addressId,
                     job.spec.docVersion, rows)
    requires a.order == KeysFrom(db0.next, |rows|)
    ensures
      var items := Items(db0.next, job.spec.addressId, rows);
      Proceed(db, Run(job, AtSelect), a)
        == (EnsureTable(db, job.spec.modelId), if rows == [] then AtCommit else AtBatch(items, 0))
  {
    var d, v := job.spec.documentId.value, job.spec.docVersion;
    forall c ensures c in VersionChunks(db, Some(d), v) <==> db0.next <= c < db0.next + |rows| {
      assert c in db.chunks && db.chunks[c].documentId == d && db.chunks[c].docVersion == v
          <==> db0.next <= c < db0.next + |rows|;
    }
    forall c | c in VersionChunks(db, Some(d), v) ensures c in a.order { assert a.order[c - db0.next] == c; }
    assert Lists(a.order, VersionChunks(db, Some(d), v));
    assert ByOrdinal(db, a.order);
    assert ItemsOf(db, a.order, Some(job.spec.addressId)) == Items(db0.next, job.spec.addressId, rows);
    hide Lists, ByOrdinal, ItemsOf, EnsureTable, VersionChunks, HasRows;
  }

  /** Keys in increasing order that are exactly `n` from `first` on. */
  lemma {:induction false} IncreasingKeys(order: seq<ChunkId>, first: ChunkId, n: nat)
    requires forall i, j | 0 <= i < j < |order| :: order[i] < order[j]
    requires forall c :: c in order <==> first <= c < first + n
    ensures order == KeysFrom(first, n)
    decreases n
  {
    assert |order| > 0 ==> order[0] in order;
    if n > 0 {
      assert first in order;
      var k :| 0 <= k < |order| && order[k] == first;
      assert k == 0;
      var rest := order[1..];
      forall c ensures c in rest <==> first + 1 <= c < first + n {
        if c in rest { assert c in order; }
        if first + 1 <= c < first + n { assert c in order; }
      }
      IncreasingKeys(rest, first + 1, n - 1);
      assert order == [first] + rest;
      forall i | 0 <= i < |order| ensures order[i] == KeysFrom(first, n)[i] {
        if i > 0 { assert order[i] == rest[i - 1] == KeysFrom(first + 1, n - 1)[i - 1]; }
      }
    }
  }

  /** The SELECT by ordinal can return the rows in no other order. */
  lemma OrderIsForced(db: Db, was: map<ChunkId, Chunk>, first: ChunkId, d: DocId, address: string, v: int,
                      rows: seq<ChunkRow>, order: seq<ChunkId>)
    requires HasRows(was, first, db.chunks, d, address, v, rows)
    requires forall k | 0 <= k < |rows| :: rows[k].ordinal == k
    requires Lists(order, VersionChunks(db, Some(d), v)) && ByOrdinal(db, order)
    ensures order == KeysFrom(first, |rows|)
  {
    forall c ensures c in order <==> first <= c < first + |rows| {
      assert c in VersionChunks(db, Some(d), v) <==> first <= c < first + |rows|;
      if c in order { var i :| 0 <= i < |order| && order[i] == c; }
    }
    forall i, j | 0 <= i < j < |order| ensures order[i] < order[j] {
      assert order[i] in order && order[j] in order;
    }
    IncreasingKeys(order, first, |rows|);
  }

  /** The calls up to the recorded number of chunks write the rows. */
  lemma ToCount(db: Db, job: ClaimedJob, answers: Answers, rows: seq<ChunkRow>)
    requires job.taskId in db.jobs && job.spec.documentId.Some? && job.spec.documentId.value in db.documents
    requires Given(db, answers, rows) && forall c | c in db.chunks :: c < db.next
    ensures
      var (db', run) := Solo(db, Run(job, AtLoad), answers, 5);
      && run == Run(job, AtCount(|rows|))
      && db' == db.(chunks := db'.chunks, tables := db'.tables, next := db.next + |rows|,
                    jobs := db.jobs[job.taskId := db.jobs[job.taskId].(state := Chunking)])
      && HasRows(db.chunks, db.next, db'.chunks, job.spec.documentId.value, job.spec.addressId, job.spec.docVersion,
                 rows)
  {
    var start := Run(job, AtLoad);
    var db4 := WithRow(db, job.taskId, db.jobs[job.taskId].(state := Chunking));
    ToWrite(db, job, answers, rows);
    WriteStep(db4, job, rows, answers(4));
    hide Proceed, Solo, Given;
    SoloNext(db, start, answers, 4, db4, Run(job, AtWrite(rows)));
  }

  /** The first eight calls, up to the embedding loop. */
  lemma ToLoop(db: Db, job: ClaimedJob, answers: Answers, rows: seq<ChunkRow>)
    requires job.taskId in db.jobs && job.spec.documentId.Some? && job.spec.documentId.value in db.documents
    requires Given(db, answers, rows) && forall c | c in db.chunks :: c < db.next
    ensures
      var (db', run) := Solo(db, Run(job, AtLoad), answers, 8);
      var t, d := job.taskId, job.spec.documentId.value;
      && run == Run(job, if rows == [] then AtCommit else AtBatch(Items(db.next, job.spec.addressId, rows), 0))
      && db' == db.(chunks := db'.chunks, tables := db'.tables, next := db.next + |rows|,
                    jobs := db.jobs[t := db.jobs[t].(state := Embedding, chunkCount := |rows|)])
      && HasRows(db.chunks, db.next, db'.chunks, d, job.spec.addressId, job.spec.docVersion, rows)
      && job.spec.modelId in db'.tables
  {
    hide Proceed, Solo, HasRows, Given, WithRow, EnsureTable;
    var t, n, start := job.taskId, |rows|, Run(job, AtLoad);
    ToCount(db, job, answers, rows);
    var db5 := Solo(db, start, answers, 5).0;
    var j := db5.jobs[t];
    var db6, db7 := WithRow(db5, t, j.(chunkCount := n)), WithRow(db5, t, j.(chunkCount := n, state := Embedding));
    LoopDb(db, db5, t, n, job.spec.modelId);
    MiddleSteps(db5, job, n, answers(5));
    MiddleSteps(db5, job, n, answers(6));
    GivenOrder(db, answers, rows);
    SelectStep(db7, db, job, rows, answers(7));
    SoloNext(db, start, answers, 5, db5, Run(job, AtCount(n)));
    SoloNext(db, start, answers, 6, db6, Run(job, AtEmbedding));
    SoloNext(db, start, answers, 7, db7, Run(job, AtSelect));
  }

  lemma GivenOrder(db: Db, answers: Answers, rows: seq<ChunkRow>)
    requires Given(db, answers, rows)
    ensures answers(7).order == KeysFrom(db.next, |rows|) && forall k | 0 <= k < |rows| :: rows[k].ordinal == k
  {
  }

  /** The database before and after the SELECT's transaction. */
  lemma LoopDb(db: Db, db5: Db, t: TaskId, n: nat, m: string)
    requires t in db.jobs && db5 == db.(chunks := db5.chunks, tables := db5.tables, next := db.next + n,
                                        jobs := db.jobs[t := db.jobs[t].(state := Chunking)])
    ensures t in db5.jobs
    ensures
      var db7 := WithRow(db5, t, db5.jobs[t].(chunkCount := n, state := Embedding));
      var db8 := EnsureTable(db7, m);
      && db7.chunks == db5.chunks && db8.chunks == db5.chunks && m in db8.tables
      && db8 == db.(chunks := db5.chunks, tables := db8.tables, next := db.next + n,
                    jobs := db.jobs[t := db.jobs[t].(state := Embedding, chunkCount := n)])
  {
    var db7 := WithRow(db5, t, db5.jobs[t].(chunkCount := n, state := Embedding));
    assert db7.jobs == db.jobs[t := db.jobs[t].(state := Embedding, chunkCount := n)];
  }

  /** A job whose document is gone is skipped after one look: nothing is extracted, written or embedded. */
  lemma RemovedIsSkipped(db: Db, job: ClaimedJob, answers: Answers)
    requires !(job.spec.documentId.Some? && job.spec.documentId.value in db.documents)
    ensures
      var (db', run) := Solo(db, Run(job, AtLoad), answers, 2);
      && run == Run(job, Finished) && db' == db.(jobs := db'.jobs)
      && (job.taskId !in db.jobs ==> db' == db)
      && (job.taskId in db.jobs ==> db'.jobs == db.jobs[job.taskId :=
            db.jobs[job.taskId].(state := Skipped, finishedAt := Some(db.now), fault := None)])
  {
    var start := Run(job, AtLoad);
    SoloNone(db, start, answers);
    SoloNext(db, start, answers, 0, db, start);
    SoloNext(db, start, answers, 1, db, Run(job, AtSkip));
    hide Solo, CanInsert, CanEmbed, Lists, ByOrdinal, ItemsOf, VersionChunks, Missing;
  }

  // ---- the embedding loop ---------------------------------------------------------------------

  /** The first `upto` rows have their vectors. */
  ghost predicate HasVectors(db: Db, m: string, first: ChunkId, rows: seq<ChunkRow>, upto: nat)
    requires upto <= |rows|
  {
    && m in db.tables
    && forall c | first <= c < first + upto ::
         c in db.tables[m] && db.tables[m][c].vector == VectorOf(m, rows[c - first].text)
  }

  /** An upsert of distinct keys leaves each with the vector of its text, and other keys as they were. */
  lemma {:induction false} UpsertVectors(table: map<ChunkId, EmbeddingRow>, m: string, items: seq<Item>)
    requires forall i, j | 0 <= i < j < |items| :: items[i].id != items[j].id
    ensures
      var after := InsertAll(table, m, items, DoUpdate);
      && (forall i | 0 <= i < |items| ::
            items[i].id in after && after[items[i].id].vector == VectorOf(m, items[i].text))
      && (forall c | (forall i | 0 <= i < |items| :: items[i].id != c) ::
            (c in after <==> c in table) && (c in table ==> after[c] == table[c]))
  {
    if items != [] {
      var front, last := items[..|items| - 1], items[|items| - 1];
      UpsertVectors(table, m, front);
      var before := InsertAll(table, m, front, DoUpdate);
      var after := InsertAll(table, m, items, DoUpdate);
      assert after == InsertOne(before, m, last, DoUpdate);
      hide InsertAll;
      forall i | 0 <= i < |items|
        ensures items[i].id in after && after[items[i].id].vector == VectorOf(m, items[i].text)
      {
        if i < |front| { assert front[i] == items[i]; }
      }
      forall c | forall i | 0 <= i < |items| :: items[i].id != c
        ensures (c in after <==> c in table) && (c in table ==> after[c] == table[c])
      {
        assert forall i | 0 <= i < |front| :: front[i] == items[i];
      }
    }
  }

  lemma BatchStep(db: Db, job: ClaimedJob, first: ChunkId, rows: seq<ChunkRow>, pos: nat, a: Answer)
    requires pos < |rows| && HasVectors(db, job.spec.modelId, first, rows, pos)
    requires forall c | first <= c < first + |rows| :: c in db.chunks
    ensures
      var items := Items(first, job.spec.addressId, rows);
      var end := if pos + 128 <= |rows| then pos + 128 else |rows|;
      var (db', pc) := Proceed(db, Run(job, AtBatch(items, pos)), a);
      && pc == AtRecord(items, end, end - pos, a.tokens, a.cost) && db' == db.(tables := db'.tables)
      && HasVectors(db', job.spec.modelId, first, rows, end)
  {
    var m, items := job.spec.modelId, Items(first, job.spec.addressId, rows);
    var end := BatchEnd(items, pos);
    var batch := items[pos..end];
    forall i | 0 <= i < |batch| ensures batch[i] == Item(first + pos + i, job.spec.addressId, rows[pos + i].text) {}
    BatchAdds(db, m, first, rows, pos, batch);
    hide InsertAll, HasVectors, InsertEmbeddings, CanEmbed;
  }

  lemma BatchAdds(db: Db, m: string, first: ChunkId, rows: seq<ChunkRow>, pos: nat, batch: seq<Item>)
    requires pos + |batch| <= |rows| && HasVectors(db, m, first, rows, pos)
    requires forall i | 0 <= i < |batch| :: batch[i].id == first + pos + i && batch[i].text == rows[pos + i].text
    requires forall c | first <= c < first + |rows| :: c in db.chunks
    ensures CanEmbed(db, m, batch)
    ensures
      var db' := InsertEmbeddings(db, m, batch, DoUpdate);
      db' == db.(tables := db'.tables) && HasVectors(db', m, first, rows, pos + |batch|)
  {
    UpsertVectors(db.tables[m], m, batch);
    var after := InsertAll(db.tables[m], m, batch, DoUpdate);
    hide InsertAll;
    forall c | first <= c < first + pos + |batch|
      ensures c in after && after[c].vector == VectorOf(m, rows[c - first].text)
    {
      if c >= first + pos {
        assert batch[c - first - pos].id == c;
      }
    }
  }

  lemma VectorsAre(db: Db, m: string, first: ChunkId, rows: seq<ChunkRow>, upto: nat)
    requires upto <= |rows| && m in db.tables
    requires forall c | first <= c < first + upto ::
               c in db.tables[m] && db.tables[m][c].vector == VectorOf(m, rows[c - first].text)
    ensures HasVectors(db, m, first, rows, upto)
  {
  }

  lemma RecordStep(db: Db, job: ClaimedJob, items: seq<Item>, end: nat, done: nat, a: Answer, b: Answer)
    requires job.taskId in db.jobs
    ensures
      var j := db.jobs[job.taskId];
      Proceed(db, Run(job, AtRecord(items, end, done, a.tokens, a.cost)), b) ==
        (WithRow(db, job.taskId, j.(embeddingCount := j.embeddingCount + done, tokens := j.tokens + a.tokens,
                                    cost := j.cost + a.cost)),
         if end < |items| then AtBatch(items, end) else AtCommit)
  {
  }

  function Passed(n: nat, i: nat): nat {
    if 128 * i <= n then 128 * i else n
  }

  /** The job row after `i` batches. */
  function Counted(j: Job, n: nat, answers: Answers, i: nat): Job {
    j.(state := Embedding, chunkCount := n, embeddingCount := j.embeddingCount + Passed(n, i),
       tokens := j.tokens + TokensOf(answers, i), cost := j.cost + CostOf(answers, i))
  }

  /** Nothing but the chunks, the vectors and the job's row has changed. */
  predicate OnlyRow(db: Db, db': Db, t: TaskId, j: Job, n: nat) {
    db' == db.(chunks := db'.chunks, tables := db'.tables, next := db.next + n, jobs := db.jobs[t := j])
  }

  lemma CountedNext(db: Db, db': Db, next: Db, t: TaskId, j: Job, n: nat, answers: Answers, i: nat)
    requires i > 0 && OnlyRow(db, db', t, Counted(j, n, answers, i - 1), n) && next == db'.(tables := next.tables)
    ensures
      var k := 6 + 2 * i;
      var j' := Counted(j, n, answers, i - 1);
      && t in next.jobs && next.jobs[t] == j'
      && OnlyRow(db, WithRow(next, t, j'.(embeddingCount := j'.embeddingCount + (Passed(n, i) - Passed(n, i - 1)),
                                          tokens := j'.tokens + answers(k).tokens, cost := j'.cost + answers(k).cost)),
                 t, Counted(j, n, answers, i), n)
  {
    var j' := Counted(j, n, answers, i - 1);
    assert j'.(embeddingCount := j'.embeddingCount + (Passed(n, i) - Passed(n, i - 1)),
               tokens := j'.tokens + answers(6 + 2 * i).tokens, cost := j'.cost + answers(6 + 2 * i).cost)
        == Counted(j, n, answers, i);
    assert db.jobs[t := j'][t := Counted(j, n, answers, i)] == db.jobs[t := Counted(j, n, answers, i)];
  }

  /** After `i` batches: their rows have vectors, and the row has counted them. */
  lemma {:induction false} InLoop(db: Db, job: ClaimedJob, answers: Answers, rows: seq<ChunkRow>, i: nat)
    requires job.taskId in db.jobs && job.spec.documentId.Some? && job.spec.documentId.value in db.documents
    requires Given(db, answers, rows) && (forall c | c in db.chunks :: c < db.next) && i <= Batches(|rows|)
    ensures
      var (db', run) := Solo(db, Run(job, AtLoad), answers, 8 + 2 * i);
      var n := |rows|;
      && run == Run(job, if Passed(n, i) < n then AtBatch(Items(db.next, job.spec.addressId, rows), Passed(n, i))
                         else AtCommit)
      && OnlyRow(db, db', job.taskId, Counted(db.jobs[job.taskId], n, answers, i), n)
      && HasRows(db.chunks, db.next, db'.chunks, job.spec.documentId.value, job.spec.addressId, job.spec.docVersion,
                 rows)
      && HasVectors(db', job.spec.modelId, db.next, rows, Passed(n, i))
  {
    hide Proceed, Solo, Given, WithRow, HasRows, OnlyRow, Counted, HasVectors;
    if i == 0 {
      ToLoop(db, job, answers, rows);
      LoopStarts(db, Solo(db, Run(job, AtLoad), answers, 8).0, job, answers, rows);
    } else {
      InLoop(db, job, answers, rows, i - 1);
      OneBatch(db, job, answers, rows, i);
    }
  }

  lemma LoopStarts(db: Db, db': Db, job: ClaimedJob, answers: Answers, rows: seq<ChunkRow>)
    requires job.taskId in db.jobs && job.spec.modelId in db'.tables
    requires
      var t := job.taskId;
      db' == db.(chunks := db'.chunks, tables := db'.tables, next := db.next + |rows|,
                 jobs := db.jobs[t := db.jobs[t].(state := Embedding, chunkCount := |rows|)])
    ensures OnlyRow(db, db', job.taskId, Counted(db.jobs[job.taskId], |rows|, answers, 0), |rows|)
    ensures HasVectors(db', job.spec.modelId, db.next, rows, Passed(|rows|, 0))
  {
    var j := db.jobs[job.taskId];
    assert Counted(j, |rows|, answers, 0) == j.(state := Embedding, chunkCount := |rows|);
  }

  lemma RowsAreChunks(was: map<ChunkId, Chunk>, first: ChunkId, chunks: map<ChunkId, Chunk>, d: DocId,
                      address: string, v: int, rows: seq<ChunkRow>)
    requires HasRows(was, first, chunks, d, address, v, rows)
    ensures forall c | first <= c < first + |rows| :: c in chunks
  {
  }

  lemma OneBatch(db: Db, job: ClaimedJob, answers: Answers, rows: seq<ChunkRow>, i: nat)
    requires job.taskId in db.jobs && job.spec.documentId.Some? && 0 < i <= Batches(|rows|)
    requires
      var (db', run) := Solo(db, Run(job, AtLoad), answers, 8 + 2 * (i - 1));
      var n := |rows|;
      && run == Run(job, if Passed(n, i - 1) < n
                         then AtBatch(Items(db.next, job.spec.addressId, rows), Passed(n, i - 1)) else AtCommit)
      && OnlyRow(db, db', job.taskId, Counted(db.jobs[job.taskId], n, answers, i - 1), n)
      && HasRows(db.chunks, db.next, db'.chunks, job.spec.documentId.value, job.spec.addressId, job.spec.docVersion,
                 rows)
      && HasVectors(db', job.spec.modelId, db.next, rows, Passed(n, i - 1))
    ensures
      var (db', run) := Solo(db, Run(job, AtLoad), answers, 8 + 2 * i);
      var n := |rows|;
      && run == Run(job, if Passed(n, i) < n then AtBatch(Items(db.next, job.spec.addressId, rows), Passed(n, i))
                         else AtCommit)
      && OnlyRow(db, db', job.taskId, Counted(db.jobs[job.taskId], n, answers, i), n)
      && db'.chunks == Solo(db, Run(job, AtLoad), answers, 8 + 2 * (i - 1)).0.chunks
      && HasVectors(db', job.spec.modelId, db.next, rows, Passed(n, i))
  {
    hide Proceed, Solo, HasRows, OnlyRow, Counted, HasVectors;
    var start, n, k := Run(job, AtLoad), |rows|, 8 + 2 * (i - 1);
    var mid := Solo(db, start, answers, k).0;
    var items, pos, end := Items(db.next, job.spec.addressId, rows), Passed(n, i - 1), Passed(n, i);
    RowsAreChunks(db.chunks, db.next, mid.chunks, job.spec.documentId.value, job.spec.addressId, job.spec.docVersion,
                  rows);
    BatchStep(mid, job, db.next, rows, pos, answers(k));
    var next := Proceed(mid, Run(job, AtBatch(items, pos)), answers(k)).0;
    CountedNext(db, mid, next, job.taskId, db.jobs[job.taskId], n, answers, i);
    RecordStep(next, job, items, end, end - pos, answers(k), answers(k + 1));
    SoloNext(db, start, answers, k, mid, Run(job, AtBatch(items, pos)));
    var recorded := AtRecord(items, end, end - pos, answers(k).tokens, answers(k).cost);
    SoloNext(db, start, answers, k + 1, next, Run(job, recorded));
    VectorsIgnoreJobs(next, Solo(db, start, answers, k + 2).0, job.spec.modelId, db.next, rows, end);
  }

  lemma VectorsIgnoreJobs(db: Db, db': Db, m: string, first: ChunkId, rows: seq<ChunkRow>, upto: nat)
    requires upto <= |rows| && HasVectors(db, m, first, rows, upto) && db'.tables == db.tables
    ensures HasVectors(db', m, first, rows, upto)
  {
  }

  // ---- the end --------------------------------------------------------------------------------

  lemma CommitIsFlip(db: Db, job: ClaimedJob, a: Answer)
    ensures Proceed(db, Run(job, AtCommit), a) == (Flip(db, job.spec.documentId, job.spec.docVersion), AtDone)
  {
    hide Flip;
  }

  lemma FlipLeaves(db: Db, db0: Db, d: DocId, m: string, address: string, v: int, rows: seq<ChunkRow>)
    requires d in db.documents && HasRows(db0.chunks, db0.next, db.chunks, d, address, v, rows)
    requires HasVectors(db, m, db0.next, rows, |rows|)
    ensures
      var db' := Flip(db, Some(d), v);
      && db' == db.(documents := db.documents[d := db.documents[d].(liveVersion := v)], chunks := db'.chunks,
                    tables := db'.tables)
      && OnlyThese(db0, db'.chunks, d, address, v, rows)
      && HasVectors(db', m, db0.next, rows, |rows|)
  {
  }

  lemma DoneStep(db: Db, job: ClaimedJob, a: Answer)
    requires job.taskId in db.jobs
    ensures
      Proceed(db, Run(job, AtDone), a) ==
        (WithRow(db, job.taskId, db.jobs[job.taskId].(state := Done, finishedAt := Some(db.now), fault := None)),
         Finished)
  {
  }

  /** The document has the rows and no other chunk; the other documents have what they had. */
  ghost predicate OnlyThese(db0: Db, chunks: map<ChunkId, Chunk>, d: DocId, address: string, v: int,
                            rows: seq<ChunkRow>)
  {
    && (forall c :: c in chunks && chunks[c].documentId == d <==> db0.next <= c < db0.next + |rows|)
    && (forall c | db0.next <= c < db0.next + |rows| && c in chunks ::
          chunks[c] == Chunk(d, address, v, rows[c - db0.next]))
    && (forall c | c in db0.chunks && db0.chunks[c].documentId != d && !(db0.next <= c < db0.next + |rows|) ::
          c in chunks && chunks[c] == db0.chunks[c])
  }

  /** An ingest that nothing disturbs, of a document that exists and a text of `n` chunks: after eight calls, two
      per batch of at most 128 chunks, and two more it is done. The document is live at the job's version and has
      exactly these chunks in their order, each with the vector of its text under the job's model; the job row
      counts them, with the tokens and the cost the provider reported, and is done; other documents have kept
      their chunks. */
  lemma IngestSucceeds(db: Db, job: ClaimedJob, answers: Answers, rows: seq<ChunkRow>)
    requires job.taskId in db.jobs && job.spec.documentId.Some? && job.spec.documentId.value in db.documents
    requires Given(db, answers, rows) && forall c | c in db.chunks :: c < db.next
    ensures
      var n, b := |rows|, (|rows| + 127) / 128;
      var (db', run) := Solo(db, Run(job, AtLoad), answers, 8 + 2 * b + 2);
      var t, d, v := job.taskId, job.spec.documentId.value, job.spec.docVersion;
      && run == Run(job, Finished)
      && db'.documents == db.documents[d := db.documents[d].(liveVersion := v)]
      && OnlyThese(db, db'.chunks, d, job.spec.addressId, v, rows)
      && HasVectors(db', job.spec.modelId, db.next, rows, n)
      && db'.jobs == db.jobs[t := db.jobs[t].(state := Done, chunkCount := n, finishedAt := Some(db.now),
           embeddingCount := db.jobs[t].embeddingCount + n, fault := None,
           tokens := db.jobs[t].tokens + TokensOf(answers, b), cost := db.jobs[t].cost + CostOf(answers, b))]
      && db'.active == db.active && db'.now == db.now && db'.next == db.next + n
  {
    hide Given, HasRows, HasVectors, OnlyThese, OnlyRow, Counted, Proceed, Solo, Passed, TokensOf, CostOf;
    var n, b := |rows|, Batches(|rows|);
    AllPassed(n);
    hide Batches;
    var k := 8 + 2 * b;
    InLoop(db, job, answers, rows, b);
    var mid := Solo(db, Run(job, AtLoad), answers, k).0;
    LastRow(db, mid, job.taskId, n, answers, b);
    Ends(db, mid, job, answers, rows, k);
  }

  lemma AllPassed(n: nat)
    ensures Passed(n, Batches(n)) == n && Batches(n) == (n + 127) / 128
  {
  }

  /** The commit and the `mark_done`. */
  lemma Ends(db: Db, mid: Db, job: ClaimedJob, answers: Answers, rows: seq<ChunkRow>, k: nat)
    requires job.taskId in mid.jobs && job.spec.documentId.Some? && job.spec.documentId.value in mid.documents
    requires Solo(db, Run(job, AtLoad), answers, k) == (mid, Run(job, AtCommit))
    requires HasRows(db.chunks, db.next, mid.chunks, job.spec.documentId.value, job.spec.addressId,
                     job.spec.docVersion, rows)
    requires HasVectors(mid, job.spec.modelId, db.next, rows, |rows|)
    ensures
      var (db', run) := Solo(db, Run(job, AtLoad), answers, k + 2);
      var t, d, v := job.taskId, job.spec.documentId.value, job.spec.docVersion;
      && run == Run(job, Finished)
      && db' == mid.(documents := mid.documents[d := mid.documents[d].(liveVersion := v)], chunks := db'.chunks,
                     tables := db'.tables,
                     jobs := mid.jobs[t := mid.jobs[t].(state := Done, finishedAt := Some(mid.now), fault := None)])
      && OnlyThese(db, db'.chunks, d, job.spec.addressId, v, rows)
      && HasVectors(db', job.spec.modelId, db.next, rows, |rows|)
  {
    hide HasRows, HasVectors, OnlyThese, Proceed, Solo;
    CommitIsFlip(mid, job, answers(k));
    FlipLeaves(mid, db, job.spec.documentId.value, job.spec.modelId, job.spec.addressId, job.spec.docVersion, rows);
    var next := Proceed(mid, Run(job, AtCommit), answers(k)).0;
    DoneStep(next, job, answers(k + 1));
    var j := mid.jobs[job.taskId].(state := Done, finishedAt := Some(mid.now), fault := None);
    SoloNext(db, Run(job, AtLoad), answers, k, mid, Run(job, AtCommit));
    SoloNext(db, Run(job, AtLoad), answers, k + 1, next, Run(job, AtDone));
    VectorsIgnoreJobs(next, WithRow(next, job.taskId, j), job.spec.modelId, db.next, rows, |rows|);
  }

  lemma LastRow(db: Db, mid: Db, t: TaskId, n: nat, answers: Answers, b: nat)
    requires t in db.jobs && OnlyRow(db, mid, t, Counted(db.jobs[t], n, answers, b), n) && Passed(n, b) == n
    ensures mid.documents == db.documents && mid.active == db.active && mid.now == db.now && mid.next == db.next + n
    ensures t in mid.jobs
    ensures
      var j, j' := db.jobs[t], mid.jobs[t];
      mid.jobs[t := j'.(state := Done, finishedAt := Some(mid.now), fault := None)]
        == db.jobs[t := j.(state := Done, chunkCount := n, finishedAt := Some(db.now), fault := None,
                           embeddingCount := j.embeddingCount + n, tokens := j.tokens + TokensOf(answers, b),
                           cost := j.cost + CostOf(answers, b))]
  {
  }
}
