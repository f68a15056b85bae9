/** The two job bodies and the failure handling around them, as the worker runs them
    against the database. Every awaited call takes its outcome from `calls`. */
module Worker {
  import opened Schema
  import opened Tasks
  import opened Documents
  import opened Embeddings
  import opened Pipeline
  import opened Replay
  import opened Store
  import opened Rows

  /** What leaves a job body by exception. */
  datatype Raised = PipelineError(step: string, cause: Exc) | Bare(cause: Exc)

  function StepOf(job: ClaimedJob, raised: Raised): Fault {
    match raised
    case PipelineError(step, cause) => Fault(step, cause)
    case Bare(cause) => Fault(StateName(job.state), cause)
  }

  function EndOf(job: ClaimedJob, raised: Option<Raised>): Pc {
    if raised.Some? then AtFailing(StepOf(job, raised.value)) else Finished
  }

  /** After `n` calls a body started at `start` is at `pc`, and was under way until then. */
  ghost predicate Reached(db0: Db, job: ClaimedJob, start: Pc, calls: Calls, n: nat, db: Db, pc: Pc) {
    && Play(db0, Run(job, start), calls, n) == (db, Run(job, pc))
    && forall k | 0 <= k < n :: UnderWay(db0, Run(job, start), calls, k)
  }

  /** After `k` calls the body has neither ended nor raised. */
  ghost predicate UnderWay(db: Db, run: Run, calls: Calls, k: nat) {
    var pc := Play(db, run, calls, k).1.pc;
    !pc.Finished? && !pc.AtFailing?
  }

  lemma Began(db0: Db, job: ClaimedJob, start: Pc, calls: Calls)
    ensures Reached(db0, job, start, calls, 0, db0, start)
  {
  }

  lemma OneMore(db0: Db, job: ClaimedJob, start: Pc, calls: Calls, n: nat, db: Db, pc: Pc)
    requires Reached(db0, job, start, calls, n, db, pc) && !pc.Finished? && !pc.AtFailing?
    ensures
      match calls(n)
      case Returns(a) =>
        var (db', pc') := Proceed(db, Run(job, pc), a); Reached(db0, job, start, calls, n + 1, db', pc')
      case Raises(e) => Reached(db0, job, start, calls, n + 1, db, Raise(job, pc, e))
  {
    hide Proceed, Play;
    PlayNext(db0, Run(job, start), calls, n, db, Run(job, pc));
    assert UnderWay(db0, Run(job, start), calls, n);
  }

  /** The vectors a provider returns, one per text. */
  function Embed(m: string, texts: seq<string>): (vectors: seq<Vector>)
    ensures |vectors| == |texts|
  {
    seq(|texts|, i requires 0 <= i < |texts| => VectorOf(m, texts[i]))
  }

  /** Extract and chunk; the chunks arrive with the outcome of the extraction call. */
  method Extract(store: Database, job: ClaimedJob, calls: Calls, n0: nat, ghost db0: Db)
    returns (raised: Option<Raised>, rows: seq<ChunkRow>, n: nat)
    requires Reached(db0, job, AtLoad, calls, n0, store.View(), AtExtracting)
    modifies store
    ensures Reached(db0, job, AtLoad, calls, n, store.View(), if raised.None? then AtWrite(rows)
        else EndOf(job, raised))
  {
    hide Reached;
    raised, rows, n := None, [], n0;

    OneMore(db0, job, AtLoad, calls, n, store.View(), AtExtracting);
    n := n + 1;
    if calls(n - 1).Raises? { return Some(Bare(calls(n - 1).exc)), [], n; }
    store.SetState(job.taskId, Extracting);

    OneMore(db0, job, AtLoad, calls, n, store.View(), AtExtract);
    n := n + 1;
    if calls(n - 1).Raises? { return Some(PipelineError("extract", calls(n - 1).exc)), [], n; }
    rows := calls(n - 1).answer.rows;
    if !Numbered(rows) { return Some(PipelineError("extract", Named("ValueError"))), [], n; }

    OneMore(db0, job, AtLoad, calls, n, store.View(), AtChunking(rows));
    n := n + 1;
    if calls(n - 1).Raises? { return Some(Bare(calls(n - 1).exc)), [], n; }
    store.SetState(job.taskId, Chunking);
  }

  /** Replace the rows of the version in one transaction, then record their number. */
  method WriteVersion(store: Database, job: ClaimedJob, rows: seq<ChunkRow>, calls: Calls, n0: nat, ghost db0: Db)
    returns (raised: Option<Raised>, n: nat)
    requires Reached(db0, job, AtLoad, calls, n0, store.View(), AtWrite(rows))
    modifies store
    ensures Reached(db0, job, AtLoad, calls, n, store.View(), if raised.None? then AtEmbedding else EndOf(job, raised))
  {
    hide Reached, ReplaceChunks, CanInsert, Documents.InsertChunks, Documents.DeleteVersionChunks;
    raised, n := None, n0;
    var spec := job.spec;

    OneMore(db0, job, AtLoad, calls, n, store.View(), AtWrite(rows));
    n := n + 1;
    if calls(n - 1).Raises? { return Some(PipelineError("chunking", calls(n - 1).exc)), n; }
    var before := store.View();
    store.DeleteVersionChunks(spec.documentId, spec.docVersion);
    var ok := store.InsertChunks(spec.documentId, spec.addressId, spec.docVersion, rows);
    ReplaceIs(before, spec.documentId, spec.addressId, spec.docVersion, rows);
    if !ok {
      store.Rollback(before);
      return Some(PipelineError("chunking", FOREIGN_KEY)), n;
    }

    OneMore(db0, job, AtLoad, calls, n, store.View(), AtCount(|rows|));
    n := n + 1;
    if calls(n - 1).Raises? { return Some(Bare(calls(n - 1).exc)), n; }
    SetChunkCountIs(store.View(), job.taskId, |rows|);
    store.SetProgress(job.taskId, Some(|rows|), None, None, None);
  }

  lemma ReplaceIs(db: Db, d: Option<DocId>, address: string, v: int, rows: seq<ChunkRow>)
    ensures var mid := DeleteVersionChunks(db, d, v);
      && CanInsert(mid, d, rows) == CanInsert(db, d, rows)
      && (CanInsert(db, d, rows) ==> ReplaceChunks(db, d, address, v, rows) == InsertChunks(mid, d, address, v, rows))
  {
    hide InsertChunks;
  }

  lemma SetChunkCountIs(db: Db, t: TaskId, n: int)
    ensures AddUsage(SetChunkCount(db, t, n), t, 0, 0, 0.0) == SetChunkCount(db, t, n)
  {
    if t in db.jobs {
      var mid := SetChunkCount(db, t, n);
      var j := mid.jobs[t];
      assert j.(embeddingCount := j.embeddingCount + 0, tokens := j.tokens + 0, cost := j.cost + 0.0) == j;
      assert mid.jobs[t := j] == mid.jobs;
    }
  }

  /** Embed the version batch by batch, adding each batch to the counters. */
  method EmbedVersion(store: Database, job: ClaimedJob, calls: Calls, n0: nat, ghost db0: Db)
    returns (raised: Option<Raised>, n: nat)
    requires Reached(db0, job, AtLoad, calls, n0, store.View(), AtEmbedding)
    modifies store
    ensures Reached(db0, job, AtLoad, calls, n, store.View(), if raised.None? then AtCommit else EndOf(job, raised))
  {
    hide Reached;
    raised, n := None, n0;

    OneMore(db0, job, AtLoad, calls, n, store.View(), AtEmbedding);
    n := n + 1;
    if calls(n - 1).Raises? { return Some(Bare(calls(n - 1).exc)), n; }
    store.SetState(job.taskId, Embedding);

    var selected, rows, m := SelectVersion(store, job, calls, n, db0);
    n := m;
    if selected.Some? { return selected, n; }
    ghost var items := ItemsOf(store.View(), Firsts(rows), Some(job.spec.addressId));

    var pos := 0;
    while pos < |rows|
      invariant raised.None? && pos <= |rows| == |items| && job.spec.modelId in store.tables
      invariant forall i | 0 <= i < |rows| :: items[i] == Item(rows[i].0, job.spec.addressId, rows[i].1)
      invariant Reached(db0, job, AtLoad, calls, n, store.View(), NextBatch(items, pos))
      decreases |rows| - pos
    {
      var end := if pos + EMBED_BATCH <= |rows| then pos + EMBED_BATCH else |rows|;
      raised, n := EmbedBatch(store, job, rows[pos..end], items, pos, calls, n, db0);
      if raised.Some? { return; }
      pos := end;
    }
  }

  function Firsts(rows: seq<(ChunkId, string)>): seq<ChunkId> {
    seq(|rows|, i requires 0 <= i < |rows| => rows[i].0)
  }

  method SelectVersion(store: Database, job: ClaimedJob, calls: Calls, n0: nat, ghost db0: Db)
    returns (raised: Option<Raised>, rows: seq<(ChunkId, string)>, n: nat)
    requires Reached(db0, job, AtLoad, calls, n0, store.View(), AtSelect)
    modifies store
    ensures raised.Some? ==> Reached(db0, job, AtLoad, calls, n, store.View(), EndOf(job, raised))
    ensures raised.None? ==>
      && job.spec.modelId in store.tables
      && (forall i | 0 <= i < |rows| :: rows[i].0 in store.chunks && store.chunks[rows[i].0].row.text == rows[i].1)
      && Reached(db0, job, AtLoad, calls, n, store.View(),
                 NextBatch(ItemsOf(store.View(), Firsts(rows), Some(job.spec.addressId)), 0))
  {
    hide Reached, Lists, VersionChunks, ByOrdinal;
    raised, rows, n := None, [], n0;
    OneMore(db0, job, AtLoad, calls, n, store.View(), AtSelect);
    n := n + 1;
    if calls(n - 1).Raises? { return Some(PipelineError("embedding", calls(n - 1).exc)), [], n; }
    var order := calls(n - 1).answer.order;
    var was := store.View();
    store.EnsureEmbeddingTable(job.spec.modelId);
    SameListing(was, job.spec.modelId, job.spec.documentId, job.spec.docVersion, order);
    var selected := store.LiveChunks(job.spec.documentId, job.spec.docVersion, order);
    if selected.None? {
      store.Rollback(was);
      return Some(PipelineError("embedding", Named("OperationalError"))), [], n;
    }
    rows := selected.value;
    assert Firsts(rows) == order;
    assert ItemsOf(was, order, Some(job.spec.addressId)) == ItemsOf(store.View(), order, Some(job.spec.addressId));
  }

  lemma SameListing(db: Db, m: string, d: Option<DocId>, v: int, order: seq<ChunkId>)
    ensures VersionChunks(EnsureTable(db, m), d, v) == VersionChunks(db, d, v)
    ensures Lists(order, VersionChunks(db, d, v)) ==>
      && ByOrdinal(EnsureTable(db, m), order) == ByOrdinal(db, order)
  {
  }

  /** What the two calls of an ingest's batch return. */
  lemma BatchReturns(db: Db, job: ClaimedJob, items: seq<Item>, pos: nat, a: Answer)
    requires pos < |items|
    ensures
      var m, end := job.spec.modelId, BatchEnd(items, pos);
      Proceed(db, Run(job, AtBatch(items, pos)), a) ==
        if CanEmbed(db, m, items[pos..end])
        then (Embeddings.InsertEmbeddings(db, m, items[pos..end], DoUpdate),
          AtRecord(items, end, end - pos, a.tokens, a.cost))
        else (db, Raise(job, AtBatch(items, pos), FOREIGN_KEY))
  {
    hide CanEmbed, Embeddings.InsertEmbeddings;
  }

  lemma RecordReturns(db: Db, job: ClaimedJob, items: seq<Item>, end: nat, n: nat, tokens: int, cost: real, a: Answer)
    ensures Proceed(db, Run(job, AtRecord(items, end, n, tokens, cost)), a)
         == (AddUsage(db, job.taskId, n, tokens, cost), NextBatch(items, end))
  {
  }

  /** One batch: embed, insert in one transaction, record. */
  method EmbedBatch(store: Database, job: ClaimedJob, batch: seq<(ChunkId, string)>, ghost items: seq<Item>,
                    ghost pos: nat,
                    calls: Calls, n0: nat, ghost db0: Db)
    returns (raised: Option<Raised>, n: nat)
    requires pos < |items| && |batch| == BatchEnd(items, pos) - pos && job.spec.modelId in store.tables
    requires forall i | 0 <= i < |batch| :: items[pos + i] == Item(batch[i].0, job.spec.addressId, batch[i].1)
    requires Reached(db0, job, AtLoad, calls, n0, store.View(), AtBatch(items, pos))
    modifies store
    ensures raised.Some? ==> Reached(db0, job, AtLoad, calls, n, store.View(), EndOf(job, raised))
    ensures raised.None? ==>
      job.spec.modelId in store.tables
      && Reached(db0, job, AtLoad, calls, n, store.View(), NextBatch(items, BatchEnd(items, pos)))
  {
    hide Reached, CanEmbed, Embeddings.InsertEmbeddings, Proceed;
    raised, n := None, n0;
    var m := job.spec.modelId;
    ghost var end := BatchEnd(items, pos);

    if calls(n).Returns? { BatchReturns(store.View(), job, items, pos, calls(n).answer); }
    OneMore(db0, job, AtLoad, calls, n, store.View(), AtBatch(items, pos));
    n := n + 1;
    if calls(n - 1).Raises? { return Some(PipelineError("embedding", calls(n - 1).exc)), n; }
    var vectors := Embed(m, seq(|batch|, i requires 0 <= i < |batch| => batch[i].1));
    var rows := seq(|batch|, i requires 0 <= i < |batch| => (batch[i].0, vectors[i]));
    var before := store.View();
    var ok := store.InsertEmbeddings(m, job.spec.addressId, rows, DoUpdate, items[pos..end]);
    if !ok {
      store.Rollback(before);
      return Some(PipelineError("embedding", FOREIGN_KEY)), n;
    }
    assert m in store.tables by { InsertKeepsTable(before, m, items[pos..end], DoUpdate); }
    var usage := calls(n - 1).answer;

    if calls(n).Returns? {
      RecordReturns(store.View(), job, items, end, end - pos, usage.tokens, usage.cost, calls(n).answer);
    }
    OneMore(db0, job, AtLoad, calls, n, store.View(), AtRecord(items, end, end - pos, usage.tokens, usage.cost));
    n := n + 1;
    if calls(n - 1).Raises? { return Some(PipelineError("embedding", calls(n - 1).exc)), n; }
    store.SetProgress(job.taskId, None, Some(|rows|), Some(usage.tokens), Some(usage.cost));
  }

  lemma InsertKeepsTable(db: Db, m: string, items: seq<Item>, mode: OnConflict)
    requires CanEmbed(db, m, items)
    ensures m in InsertEmbeddings(db, m, items, mode).tables
  {
  }

  /** The ingest body. It ends at the point the step program gives for the same calls: finished, or
      with the exception the runner records. */
  method RunIngestJob(store: Database, job: ClaimedJob, calls: Calls) returns (raised: Option<Raised>, n: nat)
    modifies store
    ensures Reached(old(store.View()), job, AtLoad, calls, n, store.View(), EndOf(job, raised))
  {
    hide Reached;
    ghost var db0 := store.View();
    raised, n := None, 0;
    var spec := job.spec;

    Began(db0, job, AtLoad, calls);
    OneMore(db0, job, AtLoad, calls, n, store.View(), AtLoad);
    n := n + 1;
    if calls(n - 1).Raises? { return Some(Bare(calls(n - 1).exc)), n; }
    if spec.documentId.None? || spec.documentId.value !in store.documents {
      OneMore(db0, job, AtLoad, calls, n, store.View(), AtSkip);
      n := n + 1;
      if calls(n - 1).Raises? { return Some(Bare(calls(n - 1).exc)), n; }
      store.MarkDone(job.taskId, Skipped);
      return;
    }

    var rows;
    raised, rows, n := Extract(store, job, calls, n, db0);
    if raised.Some? { return; }
    raised, n := WriteVersion(store, job, rows, calls, n, db0);
    if raised.Some? { return; }
    raised, n := EmbedVersion(store, job, calls, n, db0);
    if raised.Some? { return; }
    raised, n := CommitVersion(store, job, calls, n, db0);
  }

  /** Flip and sweep in one transaction, then `mark_done`. */
  method CommitVersion(store: Database, job: ClaimedJob, calls: Calls, n0: nat, ghost db0: Db)
    returns (raised: Option<Raised>, n: nat)
    requires Reached(db0, job, AtLoad, calls, n0, store.View(), AtCommit)
    modifies store
    ensures Reached(db0, job, AtLoad, calls, n, store.View(), EndOf(job, raised))
  {
    hide Reached, Documents.SetLiveVersion, Documents.DeleteOtherVersions;
    raised, n := None, n0;

    OneMore(db0, job, AtLoad, calls, n, store.View(), AtCommit);
    n := n + 1;
    if calls(n - 1).Raises? { return Some(PipelineError("commit", calls(n - 1).exc)), n; }
    store.SetLiveVersion(job.spec.documentId, job.spec.docVersion);
    store.DeleteOtherVersions(job.spec.documentId, job.spec.docVersion);

    OneMore(db0, job, AtLoad, calls, n, store.View(), AtDone);
    n := n + 1;
    if calls(n - 1).Raises? { return Some(Bare(calls(n - 1).exc)), n; }
    store.MarkDone(job.taskId, Done);
  }

  // ---- rebuild ----------------------------------------------------------------------------

  /** What the two calls of a rebuild's batch return. */
  lemma FillReturns(db: Db, job: ClaimedJob, items: seq<Item>, pos: nat, sweep: bool, a: Answer)
    requires pos < |items|
    ensures
      var m, end := job.spec.modelId, BatchEnd(items, pos);
      Proceed(db, Run(job, AtFill(items, pos, sweep)), a) ==
        if CanEmbed(db, m, items[pos..end])
        then (Embeddings.InsertEmbeddings(db, m, items[pos..end], DoNothing),
          AtRecordFill(items, end, end - pos, a.tokens, a.cost, sweep))
        else (db, Raise(job, AtFill(items, pos, sweep), FOREIGN_KEY))
  {
    hide CanEmbed, Embeddings.InsertEmbeddings;
  }

  lemma RecordFillReturns(db: Db, job: ClaimedJob, items: seq<Item>, end: nat, n: nat, tokens: int, cost: real,
                          sweep: bool, a: Answer)
    ensures Proceed(db, Run(job, AtRecordFill(items, end, n, tokens, cost, sweep)), a)
         == (AddUsage(db, job.taskId, n, tokens, cost), NextFill(items, end, sweep, job.spec.addressId))
  {
  }

  lemma FillRaises(job: ClaimedJob, pc: Pc, e: Exc)
    requires pc.AtFill? || pc.AtRecordFill?
    ensures EndOf(job, Some(PipelineError("rebuild", e))) == Raise(job, pc, e)
  {
  }

  /** One batch of a rebuild: embed, insert row by row under each row's own address, record. */
  method FillBatch(store: Database, job: ClaimedJob, items: seq<Item>, pos: nat, sweep: bool,
                   calls: Calls, n0: nat, ghost db0: Db)
    returns (raised: Option<Raised>, n: nat)
    requires pos < |items| && job.spec.modelId in store.tables
    requires Reached(db0, job, AtEnsure, calls, n0, store.View(), AtFill(items, pos, sweep))
    modifies store
    ensures raised.Some? ==> Reached(db0, job, AtEnsure, calls, n, store.View(), EndOf(job, raised))
    ensures raised.None? ==>
      job.spec.modelId in store.tables
      && Reached(db0, job, AtEnsure, calls, n, store.View(), NextFill(items, BatchEnd(items, pos), sweep,
         job.spec.addressId))
  {
    hide Reached, CanEmbed, Embeddings.InsertEmbeddings, Proceed, Raise, EndOf, NextFill;
    raised, n := None, n0;
    var m := job.spec.modelId;
    var end := BatchEnd(items, pos);
    var batch := items[pos..end];

    if calls(n).Returns? { FillReturns(store.View(), job, items, pos, sweep, calls(n).answer); }
    OneMore(db0, job, AtEnsure, calls, n, store.View(), AtFill(items, pos, sweep));
    n := n + 1;
    if calls(n - 1).Raises? {
      FillRaises(job, AtFill(items, pos, sweep), calls(n - 1).exc);
      return Some(PipelineError("rebuild", calls(n - 1).exc)), n;
    }
    var vectors := Embed(m, seq(|batch|, i requires 0 <= i < |batch| => batch[i].text));
    var before := store.View();
    var ok := InsertRows(store, m, batch, vectors);
    if !ok {
      store.Rollback(before);
      FillRaises(job, AtFill(items, pos, sweep), FOREIGN_KEY);
      return Some(PipelineError("rebuild", FOREIGN_KEY)), n;
    }
    assert m in store.tables by { InsertKeepsTable(before, m, batch, DoNothing); }
    var usage := calls(n - 1).answer;

    if calls(n).Returns? {
      RecordFillReturns(store.View(), job, items, end, end - pos, usage.tokens, usage.cost, sweep, calls(n).answer);
    }
    OneMore(db0, job, AtEnsure, calls, n, store.View(), AtRecordFill(items, end, end - pos, usage.tokens, usage.cost,
        sweep));
    n := n + 1;
    if calls(n - 1).Raises? {
      FillRaises(job, AtRecordFill(items, end, end - pos, usage.tokens, usage.cost, sweep), calls(n - 1).exc);
      return Some(PipelineError("rebuild", calls(n - 1).exc)), n;
    }
    store.SetProgress(job.taskId, None, Some(|batch|), Some(usage.tokens), Some(usage.cost));
  }

  /** One `insert_embeddings` call per row. */
  method InsertRows(store: Database, m: string, batch: seq<Item>, vectors: seq<Vector>) returns (ok: bool)
    requires |vectors| == |batch| && (forall i | 0 <= i < |batch| :: vectors[i] == VectorOf(m, batch[i].text))
    requires m in store.tables
    modifies store`tables
    ensures ok <==> CanEmbed(old(store.View()), m, batch)
    ensures ok ==> store.View() == Embeddings.InsertEmbeddings(old(store.View()), m, batch, DoNothing)
  {
    hide InsertAll;
    ghost var was := store.View();
    ok := true;
    NoRows(was, m, DoNothing);
    for i := 0 to |batch|
      invariant ok && m in store.tables && CanEmbed(was, m, batch[..i])
      invariant store.View() == Embeddings.InsertEmbeddings(was, m, batch[..i], DoNothing)
    {
      ok := store.InsertEmbeddings(m, batch[i].addressId, [(batch[i].id, vectors[i])], DoNothing, [batch[i]]);
      OneMoreRow(was, m, batch, i, DoNothing);
      if !ok { return; }
    }
    assert batch[..|batch|] == batch;
  }

  lemma NoRows(db: Db, m: string, mode: OnConflict)
    requires m in db.tables
    ensures CanEmbed(db, m, []) && InsertEmbeddings(db, m, [], mode) == db
  {
    assert db.tables[m := db.tables[m]] == db.tables;
  }

  lemma OneMoreRow(db: Db, m: string, items: seq<Item>, i: nat, mode: OnConflict)
    requires i < |items| && CanEmbed(db, m, items[..i])
    ensures
      var mid := InsertEmbeddings(db, m, items[..i], mode);
      && CanEmbed(mid, m, [items[i]]) == CanEmbed(db, m, items[..i + 1])
      && (CanEmbed(db, m, items[..i + 1]) ==>
           InsertEmbeddings(mid, m, [items[i]], mode) == InsertEmbeddings(db, m, items[..i + 1], mode))
      && (CanEmbed(db, m, items) ==> CanEmbed(db, m, items[..i + 1]))
  {
    var front, more := items[..i], items[..i + 1];
    var mid := InsertEmbeddings(db, m, front, mode);
    assert more[..i] == front && more[i] == items[i];
    assert CanEmbed(db, m, more) <==> items[i].id in db.chunks by {
      assert forall k | 0 <= k < |more| :: k < i ==> more[k] == front[k];
    }
    assert [items[i]][..0] == [] && [items[i]][0] == items[i];
    assert InsertAll(mid.tables[m], m, [], mode) == mid.tables[m];
  }

  /** The batches of one pass. */
  method FillAll(store: Database, job: ClaimedJob, items: seq<Item>, sweep: bool, calls: Calls, n0: nat, ghost db0: Db)
    returns (raised: Option<Raised>, n: nat)
    requires job.spec.modelId in store.tables
    requires Reached(db0, job, AtEnsure, calls, n0, store.View(), NextFill(items, 0, sweep, job.spec.addressId))
    modifies store
    ensures raised.None? ==> job.spec.modelId in store.tables
    ensures Reached(db0, job, AtEnsure, calls, n, store.View(),
                    if raised.None? then NextFill(items, |items|, sweep, job.spec.addressId) else EndOf(job, raised))
  {
    hide Reached;
    raised, n := None, n0;
    var pos := 0;
    while pos < |items|
      invariant raised.None? && pos <= |items| && job.spec.modelId in store.tables
      invariant Reached(db0, job, AtEnsure, calls, n, store.View(), NextFill(items, pos, sweep, job.spec.addressId))
      decreases |items| - pos
    {
      raised, n := FillBatch(store, job, items, pos, sweep, calls, n, db0);
      if raised.Some? { return; }
      pos := BatchEnd(items, pos);
    }
  }

  /** The SELECT of the missing chunks, for the backfill or for the completeness sweep. */
  method FindMissing(store: Database, job: ClaimedJob, sweep: bool, calls: Calls, n0: nat, ghost db0: Db)
    returns (raised: Option<Raised>, items: seq<Item>, n: nat)
    requires Reached(db0, job, AtEnsure, calls, n0, store.View(), if sweep then AtSweep else AtMissing)
    modifies store
    ensures store.View() == old(store.View())
    ensures Reached(db0, job, AtEnsure, calls, n, store.View(),
                    if raised.Some? then EndOf(job, raised)
                    else if sweep then NextFill(items, 0, true, job.spec.addressId) else AtCountMissing(items))
  {
    hide Reached, Lists, Missing, ItemsOf;
    raised, items, n := None, [], n0;
    OneMore(db0, job, AtEnsure, calls, n, store.View(), if sweep then AtSweep else AtMissing);
    n := n + 1;
    if calls(n - 1).Raises? { return Some(PipelineError("rebuild", calls(n - 1).exc)), [], n; }
    var selected := store.SelectMissing(job.spec.modelId, job.spec.addressId, calls(n - 1).answer.order);
    if selected.None? { return Some(PipelineError("rebuild", Named("OperationalError"))), [], n; }
    items := selected.value;
  }

  method StartRebuild(store: Database, job: ClaimedJob, calls: Calls, ghost db0: Db)
    returns (raised: Option<Raised>, n: nat)
    requires db0 == store.View()
    modifies store
    ensures raised.None? ==> job.spec.modelId in store.tables
    ensures Reached(db0, job, AtEnsure, calls, n, store.View(), if raised.None? then AtMissing else EndOf(job, raised))
  {
    hide Reached;
    raised, n := None, 0;
    Began(db0, job, AtEnsure, calls);
    OneMore(db0, job, AtEnsure, calls, n, store.View(), AtEnsure);
    n := n + 1;
    if calls(n - 1).Raises? { return Some(Bare(calls(n - 1).exc)), n; }
    store.EnsureEmbeddingTable(job.spec.modelId);

    OneMore(db0, job, AtEnsure, calls, n, store.View(), AtRebuilding);
    n := n + 1;
    if calls(n - 1).Raises? { return Some(Bare(calls(n - 1).exc)), n; }
    store.SetState(job.taskId, Embedding);
  }

  /** The pointer moves only for a global rebuild; then `mark_done`. */
  method FinishRebuild(store: Database, job: ClaimedJob, calls: Calls, n0: nat, ghost db0: Db)
    returns (raised: Option<Raised>, n: nat)
    requires Reached(db0, job, AtEnsure, calls, n0, store.View(), if job.spec.addressId == "*" then AtActivate
        else AtDone)
    modifies store
    ensures Reached(db0, job, AtEnsure, calls, n, store.View(), EndOf(job, raised))
  {
    hide Reached;
    raised, n := None, n0;
    if job.spec.addressId == "*" {
      OneMore(db0, job, AtEnsure, calls, n, store.View(), AtActivate);
      n := n + 1;
      if calls(n - 1).Raises? { return Some(Bare(calls(n - 1).exc)), n; }
      store.SetActive(job.spec.modelId);
    }
    OneMore(db0, job, AtEnsure, calls, n, store.View(), AtDone);
    n := n + 1;
    if calls(n - 1).Raises? { return Some(Bare(calls(n - 1).exc)), n; }
    store.MarkDone(job.taskId, Done);
  }

  /** The rebuild body. */
  method RunRebuildJob(store: Database, job: ClaimedJob, calls: Calls) returns (raised: Option<Raised>, n: nat)
    modifies store
    ensures Reached(old(store.View()), job, AtEnsure, calls, n, store.View(), EndOf(job, raised))
  {
    hide Reached;
    ghost var db0 := store.View();
    var items;
    raised, n := StartRebuild(store, job, calls, db0);
    if raised.Some? { return; }
    raised, items, n := FindMissing(store, job, false, calls, n, db0);
    if raised.Some? { return; }
    OneMore(db0, job, AtEnsure, calls, n, store.View(), AtCountMissing(items));
    n := n + 1;
    if calls(n - 1).Raises? { return Some(PipelineError("rebuild", calls(n - 1).exc)), n; }
    SetChunkCountIs(store.View(), job.taskId, |items|);
    store.SetProgress(job.taskId, Some(|items|), None, None, None);
    raised, n := FillAll(store, job, items, false, calls, n, db0);
    if raised.Some? { return; }
    raised, items, n := FindMissing(store, job, true, calls, n, db0);
    if raised.Some? { return; }
    raised, n := FillAll(store, job, items, true, calls, n, db0);
    if raised.Some? { return; }
    raised, n := FinishRebuild(store, job, calls, n, db0);
  }

  // ---- the runner ---------------------------------------------------------------------------

  datatype Outcome = Succeeded | Recorded(state: JobState) | Unrecorded

  /** One leased job, with its failure handling. `reraise` asks the transport for another delivery. */
  method ProcessJob(store: Database, job: ClaimedJob, calls: Calls) returns (outcome: Outcome, reraise: bool, n: nat)
    modifies store
    ensures
      var (db, run) := Play(old(store.View()), Start(job), calls, n);
      && store.View() == db
      && (outcome.Unrecorded? <==> run.pc.AtFailing?) && (!outcome.Unrecorded? ==> run.pc.Finished?)
    ensures outcome.Succeeded? ==> forall k | 0 <= k < n :: UnderWay(old(store.View()), Start(job), calls, k)
    ensures !outcome.Succeeded? ==> n > 0 && Play(old(store.View()), Start(job), calls, n - 1).1.pc.AtFailing?
    ensures reraise <==> outcome.Unrecorded? || outcome == Recorded(Pending)
    ensures outcome.Recorded? ==> outcome.state in {Pending, Failed}
    ensures outcome == Recorded(Pending) ==> job.attempts < MAX_ATTEMPTS
    ensures outcome.Recorded? && job.taskId in store.jobs ==>
      var j := store.jobs[job.taskId];
      && j.state == outcome.state && j.leaseUntil.None? && j.fault.Some?
      && (j.state == Pending <==> Transient(j.fault.value.exc) && job.attempts < 5)
    ensures forall k | 0 <= k < n - (if outcome.Unrecorded? then 1 else 0) ::
        Going(old(store.View()), Start(job), calls, k)
  {
    hide Play, Proceed, Transient, IsRetryable, FailureOutcome, Tasks.MarkFailed;
    ghost var db0 := store.View();
    var raised;
    if job.spec.jobType == Rebuild {
      raised, n := RunRebuildJob(store, job, calls);
    } else {
      raised, n := RunIngestJob(store, job, calls);
    }
    if raised.None? {
      forall k | 0 <= k < n ensures Going(db0, Start(job), calls, k) {
        assert UnderWay(db0, Start(job), calls, k);
      }
      return Succeeded, false, n;
    }
    var fault := StepOf(job, raised.value);
    forall k | 0 <= k < n ensures Going(db0, Start(job), calls, k) {
      assert UnderWay(db0, Start(job), calls, k);
    }
    assert calls(n).Returns? ==> Going(db0, Start(job), calls, n);
    PlayNext(db0, Start(job), calls, n, store.View(), Run(job, AtFailing(fault)));
    Recording(store.View(), job, fault, calls(n));
    n := n + 1;
    if calls(n - 1).Raises? { return Unrecorded, true, n; }
    RecordedRow(store.View(), job, fault);
    var state := store.MarkFailed(job, fault, IsRetryable(fault.exc));
    return Recorded(state), state == Pending, n;
  }

  /** The row after `mark_failed` shows the outcome the runner reports. */
  lemma RecordedRow(db: Db, job: ClaimedJob, fault: Fault)
    ensures
      var outcome := FailureOutcome(job, fault.exc);
      var db' := MarkFailed(db, job, fault);
      && outcome in {Pending, Failed} && (outcome == Pending ==> job.attempts < MAX_ATTEMPTS)
      && (job.taskId in db'.jobs ==>
            var j := db'.jobs[job.taskId];
            && j.state == outcome && j.leaseUntil.None? && j.fault.Some?
            && (j.state == Pending <==> Transient(j.fault.value.exc) && job.attempts < 5))
  {
    RetryableIs(fault.exc);
    hide Transient, IsRetryable;
  }

  lemma Recording(db: Db, job: ClaimedJob, fault: Fault, call: Call)
    ensures
      var (db', run) := PlayCall(db, Run(job, AtFailing(fault)), call);
      if call.Returns? then db' == MarkFailed(db, job, fault) && run == Run(job, Finished)
      else db' == db && run.pc.AtFailing?
  {
  }
}
