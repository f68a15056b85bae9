/** Each vector is stored by one event, whatever is cut, resumed, removed or ingested in between. */
module StoredOnce {
  import opened Schema
  import opened Documents
  import opened Embeddings
  import opened Pipeline
  import opened Protocol
  import opened Integrity
  import opened Frames
  import opened Coverage

  /** Event `i` stores the vector of `c` under `m`: there was none before it. */
  predicate Stores(es: seq<Event>, i: nat, m: string, c: ChunkId) {
    i < |es| && !InTable(Exec(INIT, es[..i]).db, m, c) && InTable(Exec(INIT, es[..i + 1]).db, m, c)
  }

  /** A batch of an ingest or of a rebuild for the model. */
  predicate Batches(s: State, e: Event, m: string) {
    && e.Go? && e.r in s.runs && s.runs[e.r].job.spec.modelId == m
    && (s.runs[e.r].pc.AtBatch? || s.runs[e.r].pc.AtFill?)
  }

  // ---- only batches store -----------------------------------------------------------------

  lemma StepStores(db: Db, run: Run, a: Answer, m: string, c: ChunkId)
    requires InTable(Proceed(db, run, a).0, m, c) && !InTable(db, m, c)
    ensures run.job.spec.modelId == m && (run.pc.AtBatch? || run.pc.AtFill?)
  {
    ProceedFrame(db, run, a);
    if run.pc.AtWrite? {
      WriteStores(db, run, a, m, c);
    } else if run.pc.AtCommit? {
      hide Cascade;
      FlipStores(db, run.job.spec.documentId, run.job.spec.docVersion, m, c);
    } else {
      hide Lists, ItemsOf, ByOrdinal, VersionChunks, Missing;
    }
  }

  lemma WriteStores(db: Db, run: Run, a: Answer, m: string, c: ChunkId)
    requires run.pc.AtWrite? && InTable(Proceed(db, run, a).0, m, c)
    ensures InTable(db, m, c)
  {
    hide VersionChunks, Ids;
  }

  lemma FlipStores(db: Db, d: Option<DocId>, v: int, m: string, c: ChunkId)
    requires InTable(Flip(db, d, v), m, c)
    ensures InTable(db, m, c)
  {
  }

  lemma QuietStores(s: State, e: Event, m: string, c: ChunkId)
    requires !e.Go? && InTable(Next(s, e).db, m, c)
    ensures InTable(s.db, m, c)
  {
    hide LookedUp, UploadSpec, ChunksOfOthers;
  }

  lemma OnlyBatchesStore(es: seq<Event>, i: nat, m: string, c: ChunkId)
    requires Stores(es, i, m, c)
    ensures Batches(Exec(INIT, es[..i]), es[i], m)
  {
    var s, e := Exec(INIT, es[..i]), es[i];
    assert es[..i + 1][..i] == es[..i];
    ExecSplit(INIT, es[..i + 1]);
    hide Exec, Next, Proceed, InTable;
    if e.Go? {
      if e.r in s.runs {
        GoIs(s, e.r, e.a);
        StepStores(s.db, s.runs[e.r], e.a, m, c);
      } else {
        IdleGo(s, e);
      }
    } else {
      QuietStores(s, e, m, c);
    }
  }

  // ---- once -------------------------------------------------------------------------------

  /** A vector that is there stays there until its chunk goes, and a chunk that is gone does not come back. */
  lemma StaysStored(es: seq<Event>, i: nat, j: nat, m: string, c: ChunkId)
    requires i <= j <= |es| && InTable(Exec(INIT, es[..i]).db, m, c) && c in Exec(INIT, es[..j]).db.chunks
    ensures InTable(Exec(INIT, es[..j]).db, m, c)
  {
    assert es[..j][..i] == es[..i];
    SuffixEvolves(es[..j], i);
    hide Exec;
  }

  lemma StoredChunk(s: State, m: string, c: ChunkId)
    requires Sound(s) && InTable(s.db, m, c)
    ensures c in s.db.chunks && c < s.db.next
  {
    SoundDb(s);
    assert TablesSound(s.db) && KeysIssued(s.db);
    hide Sound, DbSound;
  }

  lemma WasThere(es: seq<Event>, i: nat, j: nat, k: nat, c: ChunkId)
    requires i <= j <= k <= |es| && c < Exec(INIT, es[..i]).db.next && c in Exec(INIT, es[..k]).db.chunks
    ensures c in Exec(INIT, es[..j]).db.chunks
  {
    assert es[..j][..i] == es[..i] && es[..k][..j] == es[..j];
    SuffixEvolves(es[..j], i);
    SuffixEvolves(es[..k], j);
    hide Exec;
  }

  lemma NotAgain(es: seq<Event>, i: nat, j: nat, m: string, c: ChunkId)
    requires Stores(es, i, m, c) && i < j
    ensures !Stores(es, j, m, c)
  {
    hide Exec, InTable, Sound;
    if Stores(es, j, m, c) {
      ExecSound(es[..i + 1]);
      ExecSound(es[..j + 1]);
      StoredChunk(Exec(INIT, es[..i + 1]), m, c);
      StoredChunk(Exec(INIT, es[..j + 1]), m, c);
      WasThere(es, i + 1, j, j + 1, c);
      StaysStored(es, i + 1, j, m, c);
    }
  }

  lemma {:induction false} SomeStores(es: seq<Event>, m: string, c: ChunkId) returns (i: nat)
    requires InTable(Exec(INIT, es).db, m, c)
    ensures Stores(es, i, m, c)
  {
    hide Exec, InTable, Stores;
    NoneAtFirst(es, m, c);
    if InTable(Exec(INIT, es[..|es| - 1]).db, m, c) {
      i := SomeStores(es[..|es| - 1], m, c);
      StoresLater(es, i, m, c);
    } else {
      StoresLast(es, m, c);
      i := |es| - 1;
    }
  }

  lemma StoresLast(es: seq<Event>, m: string, c: ChunkId)
    requires es != [] && !InTable(Exec(INIT, es[..|es| - 1]).db, m, c) && InTable(Exec(INIT, es).db, m, c)
    ensures Stores(es, |es| - 1, m, c)
  {
    hide Exec, InTable;
    assert es[..|es| - 1 + 1] == es;
  }

  lemma StoresLater(es: seq<Event>, i: nat, m: string, c: ChunkId)
    requires es != [] && Stores(es[..|es| - 1], i, m, c)
    ensures Stores(es, i, m, c)
  {
    hide Exec, InTable;
    var front := es[..|es| - 1];
    assert front[..i] == es[..i] && front[..i + 1] == es[..i + 1];
  }

  lemma NoneAtFirst(es: seq<Event>, m: string, c: ChunkId)
    requires InTable(Exec(INIT, es).db, m, c)
    ensures es != []
  {
  }

  /** Under every interleaving: each vector in a table was stored by exactly one event, a batch for its model. */
  lemma StoredByOneBatch(es: seq<Event>, m: string, c: ChunkId) returns (i: nat)
    requires InTable(Exec(INIT, es).db, m, c)
    ensures Stores(es, i, m, c) && Batches(Exec(INIT, es[..i]), es[i], m)
    ensures forall j: nat | Stores(es, j, m, c) :: j == i
  {
    hide Exec, Stores, InTable, Batches;
    i := SomeStores(es, m, c);
    OnlyBatchesStore(es, i, m, c);
    forall j: nat | Stores(es, j, m, c) ensures j == i {
      if i < j { NotAgain(es, i, j, m, c); }
      if j < i { NotAgain(es, j, i, m, c); }
    }
  }

  /** So, whatever fell in between: at a global rebuild's activation each chunk that was live at its sweep query
      and still exists has had its vector stored by exactly one batch, of this rebuild or of another job. */
  lemma RebuildStoresOnce(es: seq<Event>, r: RunId, c: ChunkId) returns (sweep: nat, i: nat)
    requires r in Exec(INIT, es).runs && Exec(INIT, es).runs[r].pc.AtActivate?
    ensures sweep < |es| && Sweeps(es, sweep, r)
    ensures
      var m := Exec(INIT, es).runs[r].job.spec.modelId;
      c in Exec(INIT, es).db.chunks && IsLive(Exec(INIT, es[..sweep]).db, c) ==>
        && Stores(es, i, m, c) && Batches(Exec(INIT, es[..i]), es[i], m)
        && forall j: nat | Stores(es, j, m, c) :: j == i
  {
    var s := Exec(INIT, es);
    var m := s.runs[r].job.spec.modelId;
    var a := Answer([], [], 0, 0.0);
    hide Exec, Next, Stores, Batches, Sweeps;
    ActivateStep(s, r, a);
    sweep := RebuildCoverage(es, r, a);
    i := 0;
    if c in s.db.chunks && IsLive(Exec(INIT, es[..sweep]).db, c) {
      assert InTable(Next(s, Go(r, a)).db, m, c);
      i := StoredByOneBatch(es, m, c);
    }
  }
}
