/** Exactly which events put chunks without vectors before readers. */
module Exposure {
  import opened Schema
  import opened Documents
  import opened Pipeline
  import opened Protocol
  import opened Integrity
  import opened Frames
  import opened Atomicity
  import opened Coverage
  import opened Readers
  import opened VersionRows

  /** Chunk `c` has a vector under one of the models. */
  ghost predicate Embedded(db: Db, models: iset<string>, c: ChunkId) {
    exists m :: m in models && InTable(db, m, c)
  }

  /** A row of (d, v) without such a vector. */
  ghost predicate BareRow(db: Db, models: iset<string>, d: DocId, v: int) {
    exists c :: IsRow(db, d, v, c) && !Embedded(db, models, c)
  }

  /** Readers of `d` get a chunk without such a vector. */
  ghost predicate Exposed(db: Db, models: iset<string>, d: DocId) {
    d in db.documents && BareRow(db, models, d, db.documents[d].liveVersion)
  }

  /** The event writes non-empty rows at the live version, or commits a version with a bare row. */
  ghost predicate Exposes(s: State, models: iset<string>, e: Event, d: DocId) {
    && e.Go? && e.r in s.runs && d in s.db.documents
    && var run := s.runs[e.r];
      && run.job.spec.documentId == Some(d)
      && ((run.pc.AtWrite? && run.job.spec.docVersion == s.db.documents[d].liveVersion && run.pc.rows != [])
          || (run.pc.AtCommit? && BareRow(s.db, models, d, run.job.spec.docVersion)))
  }

  // ---- the two steps that can -------------------------------------------------------------

  /** New rows have no vector in any table. */
  lemma WriteExposes(s: State, models: iset<string>, r: RunId, a: Answer, d: DocId)
    requires Sound(s) && Whole(s.db, s.hist) && d in s.db.documents
    requires Writes(s, Go(r, a), d, s.db.documents[d].liveVersion) && s.runs[r].pc.rows != []
    ensures Exposed(Next(s, Go(r, a)).db, models, d)
  {
    GoIs(s, r, a);
    LiveVersionAfter(s.db, s.runs[r], a, d);
    hide Next, Proceed, Sound, Whole, Remember, BareRow;
    WriteBares(s, models, r, a, d, s.db.documents[d].liveVersion);
  }

  lemma WriteBares(s: State, models: iset<string>, r: RunId, a: Answer, d: DocId, v: int)
    requires Sound(s) && Whole(s.db, s.hist) && Writes(s, Go(r, a), d, v) && s.runs[r].pc.rows != []
    ensures BareRow(Next(s, Go(r, a)).db, models, d, v)
  {
    var db, db' := s.db, Next(s, Go(r, a)).db;
    var run := s.runs[r];
    WriteRows(s, Go(r, a), d, v);
    GoIs(s, r, a);
    WriteOutcome(db, run, a);
    SoundDb(s);
    hide Next, Proceed, Sound, RunSound, DbSound, Whole, ReplaceChunks, CanInsert, Exactly, Remember;
    FirstRow(db', d, v, WrittenBy(s, Go(r, a)));
    forall m ensures !InTable(db', m, db.next) {
      NewHasNoVector(db, run.job.spec.documentId, run.job.spec.addressId, v, run.pc.rows, m);
    }
    assert IsRow(db', d, v, db.next);
  }

  lemma FirstRow(db: Db, d: DocId, v: int, w: Written)
    requires Exactly(db, d, v, w) && w.rows != []
    ensures IsRow(db, d, v, w.first)
  {
    assert w.first in VersionChunks(db, Some(d), v);
  }

  lemma NewHasNoVector(db: Db, d: Option<DocId>, address: string, v: int, rows: seq<ChunkRow>, m: string)
    requires DbSound(db) && CanInsert(db, d, rows)
    ensures !InTable(ReplaceChunks(db, d, address, v, rows), m, db.next)
  {
    ReplacedTables(db, d, address, v, rows, m);
    UnissuedHasNoVector(db, m);
  }

  lemma UnissuedHasNoVector(db: Db, m: string)
    requires DbSound(db)
    ensures !InTable(db, m, db.next)
  {
    assert TablesSound(db) && KeysIssued(db);
    assert InTable(db, m, db.next) ==> db.next in db.chunks;
  }

  lemma ReplacedTables(db: Db, d: Option<DocId>, address: string, v: int, rows: seq<ChunkRow>, m: string)
    requires CanInsert(db, d, rows)
    ensures InTable(ReplaceChunks(db, d, address, v, rows), m, db.next) ==> InTable(db, m, db.next)
  {
    hide VersionChunks, Ids;
  }

  /** A commit neither adds nor drops a vector of the version it makes live. */
  lemma CommitVectors(s: State, models: iset<string>, r: RunId, a: Answer, d: DocId)
    requires Sound(s) && r in s.runs && s.runs[r].pc.AtCommit? && s.runs[r].job.spec.documentId == Some(d)
    requires d in s.db.documents
    ensures Exposed(Next(s, Go(r, a)).db, models, d) <==> BareRow(s.db, models, d, s.runs[r].job.spec.docVersion)
  {
    var run := s.runs[r];
    var v := run.job.spec.docVersion;
    var db, db' := s.db, Next(s, Go(r, a)).db;
    GoIs(s, r, a);
    CommitOutcome(db, run, a);
    hide Next, Proceed, Sound, RunSound, Remember, Flip;
    FlipVectors(db, d, v);
    hide IsRow, InTable;
    SameBare(db, db', models, d, v);
  }

  lemma FlipVectors(db: Db, d: DocId, v: int)
    requires d in db.documents
    ensures
      var db' := Flip(db, Some(d), v);
      && d in db'.documents && db'.documents[d].liveVersion == v
      && (forall c :: IsRow(db', d, v, c) <==> IsRow(db, d, v, c))
      && (forall c, m | IsRow(db, d, v, c) :: InTable(db', m, c) <==> InTable(db, m, c))
  {
  }

  lemma SameBare(db: Db, db': Db, models: iset<string>, d: DocId, v: int)
    requires forall c :: IsRow(db', d, v, c) <==> IsRow(db, d, v, c)
    requires forall c, m | IsRow(db, d, v, c) :: InTable(db', m, c) <==> InTable(db, m, c)
    ensures BareRow(db', models, d, v) <==> BareRow(db, models, d, v)
  {
    hide IsRow, InTable;
    forall c | IsRow(db, d, v, c) ensures Embedded(db', models, c) <==> Embedded(db, models, c) {}
  }

  // ---- the others -------------------------------------------------------------------------

  /** Rows that stay keep their vectors. */
  lemma VectorsKept(db: Db, db': Db, models: iset<string>, d: DocId, v: int)
    requires Evolves(db, db') && !BareRow(db, models, d, v)
    requires forall c :: IsRow(db', d, v, c) <==> IsRow(db, d, v, c)
    ensures !BareRow(db', models, d, v)
  {
    forall c | IsRow(db', d, v, c) ensures Embedded(db', models, c) {
      assert IsRow(db, d, v, c);
      var m :| m in models && InTable(db, m, c);
      assert InTable(db', m, c);
    }
  }

  /** A step that neither writes nor commits for `d` leaves its live version and the rows at it. */
  lemma OtherStep(s: State, models: iset<string>, e: Event, d: DocId)
    requires Sound(s) && d in s.db.documents && d in Next(s, e).db.documents && !Exposed(s.db, models, d)
    requires var v := s.db.documents[d].liveVersion; !Writes(s, e, d, v) && !Drops(s, e, d, v)
    requires Next(s, e).db.documents[d].liveVersion == s.db.documents[d].liveVersion
    ensures !Exposed(Next(s, e).db, models, d)
  {
    hide Sound, Next, Writes, Drops, Evolves, BareRow;
    KeepRows(s, e, d, s.db.documents[d].liveVersion);
    NextSound(s, e);
    VectorsKept(s.db, Next(s, e).db, models, d, s.db.documents[d].liveVersion);
  }

  /** An empty write leaves nothing to expose. */
  lemma EmptyWrite(s: State, models: iset<string>, e: Event, d: DocId)
    requires Sound(s) && Whole(s.db, s.hist) && d in s.db.documents
    requires var v := s.db.documents[d].liveVersion; Writes(s, e, d, v) && WrittenBy(s, e).rows == []
    ensures d in Next(s, e).db.documents && !Exposed(Next(s, e).db, models, d)
  {
    var v := s.db.documents[d].liveVersion;
    WriteRows(s, e, d, v);
    GoIs(s, e.r, e.a);
    LiveVersionAfter(s.db, s.runs[e.r], e.a, d);
    hide Next, Proceed, Sound, RunSound, Whole, Remember;
    NoneOfIt(Next(s, e).db, d, v, WrittenBy(s, e));
  }

  lemma NoneOfIt(db: Db, d: DocId, v: int, w: Written)
    requires Exactly(db, d, v, w) && w.rows == []
    ensures forall c :: !IsRow(db, d, v, c)
  {
    forall c ensures !IsRow(db, d, v, c) { assert IsRow(db, d, v, c) <==> c in VersionChunks(db, Some(d), v); }
  }

  lemma WriteGoesThrough(s: State, r: RunId, a: Answer, d: DocId)
    requires r in s.runs && s.runs[r].pc.AtWrite? && s.runs[r].job.spec.documentId == Some(d) && d in s.db.documents
    ensures Writes(s, Go(r, a), d, s.runs[r].job.spec.docVersion)
  {
    hide ReplaceChunks;
  }

  /** The law of one step: readers of `d` who had every vector get a chunk without one exactly if the event
      writes non-empty rows at the live version or commits a version with a bare row. */
  lemma ExposureStep(s: State, models: iset<string>, e: Event, d: DocId)
    requires Sound(s) && Whole(s.db, s.hist) && !Exposed(s.db, models, d)
    ensures Exposed(Next(s, e).db, models, d) <==> Exposes(s, models, e, d)
  {
    hide Sound, Whole, Next, BareRow, Writes, Proceed;
    if d !in s.db.documents {
      NewUnexposed(s, models, e, d);
    } else if e.Go? && e.r in s.runs {
      GoExposure(s, models, e.r, e.a, d);
    } else if e.Go? {
      IdleGo(s, e);
    } else if e.Delete? && e.d == d {
      RemovedUnexposed(s, models, d);
    } else {
      SoundIssued(s);
      QuietLiveVersion(s, e, d);
      if d in Next(s, e).db.documents { NoWrite(s, e, d); OtherStep(s, models, e, d); }
    }
  }

  lemma RemovedUnexposed(s: State, models: iset<string>, d: DocId)
    ensures !Exposed(Next(s, Delete(d)).db, models, d)
  {
  }

  lemma NoWrite(s: State, e: Event, d: DocId)
    requires !e.Go? && e != Delete(d)
    ensures forall v :: !Writes(s, e, d, v) && !Drops(s, e, d, v)
  {
  }

  lemma QuietLiveVersion(s: State, e: Event, d: DocId)
    requires Issued(s) && !e.Go? && d in s.db.documents
    ensures d in Next(s, e).db.documents ==>
              Next(s, e).db.documents[d].liveVersion == s.db.documents[d].liveVersion
  {
    if e.Delete? {
      QuietFrame(s, e);
      hide Next;
    } else {
      LiveKept(s, e);
      hide Next;
    }
  }

  lemma NewUnexposed(s: State, models: iset<string>, e: Event, d: DocId)
    requires Sound(s) && d !in s.db.documents
    ensures !Exposed(Next(s, e).db, models, d)
  {
    hide Next, Sound;
    SoundIssued(s);
    NextSound(s, e);
    if d in Next(s, e).db.documents {
      if e.Go? && e.r in s.runs {
        GoIs(s, e.r, e.a);
        ProceedFrame(s.db, s.runs[e.r], e.a);
      } else if e.Go? {
        IdleGo(s, e);
      } else if e.Delete? {
        QuietFrame(s, e);
      } else {
        LiveKept(s, e);
        NoRowsAtZero(Next(s, e), d);
      }
    }
  }

  lemma NoRowsAtZero(s: State, d: DocId)
    requires Sound(s)
    ensures forall c :: !IsRow(s.db, d, 0, c)
  {
    SoundDb(s);
    assert ChunksSound(s.db);
    hide Sound, DbSound;
  }

  lemma GoExposure(s: State, models: iset<string>, r: RunId, a: Answer, d: DocId)
    requires Sound(s) && Whole(s.db, s.hist) && r in s.runs && d in s.db.documents && !Exposed(s.db, models, d)
    ensures Exposed(Next(s, Go(r, a)).db, models, d) <==> Exposes(s, models, Go(r, a), d)
  {
    hide Sound, Whole, Next, BareRow, Proceed, RunSound;
    var run := s.runs[r];
    var v := s.db.documents[d].liveVersion;
    GoIs(s, r, a);
    LiveVersionAfter(s.db, run, a, d);
    if run.job.spec.documentId == Some(d) && run.pc.AtCommit? {
      CommitVectors(s, models, r, a, d);
    } else if run.job.spec.documentId == Some(d) && run.pc.AtWrite? && run.job.spec.docVersion == v {
      WriteGoesThrough(s, r, a, d);
      if run.pc.rows != [] { WriteExposes(s, models, r, a, d); } else { EmptyWrite(s, models, Go(r, a), d); }
    } else {
      OtherStep(s, models, Go(r, a), d);
    }
  }

  // ---- whole traces -----------------------------------------------------------------------

  /** Every document's readers get only chunks with a vector under one of the models. */
  ghost function AllEmbedded(models: iset<string>): State -> bool {
    (s: State) => forall d :: !Exposed(s.db, models, d)
  }

  ghost function NoExposure(models: iset<string>): (State, Event) -> bool {
    (s: State, e: Event) => forall d :: !Exposes(s, models, e, d)
  }

  /** The exact condition: readers always get only embedded chunks if and only if no event of the trace writes
      non-empty rows at a live version or commits a version with a bare row. */
  lemma AlwaysEmbeddedIff(models: iset<string>, es: seq<Event>)
    ensures Always(AllEmbedded(models), es) <==> Guarded(NoExposure(models), INIT, es)
  {
    hide Next, Exec, Sound, Whole, Guarded, Exposes, Always;
    var good, guard := AllEmbedded(models), NoExposure(models);
    assert good(INIT);
    hide Exposed;
    forall es, e | good(Exec(INIT, es)) ensures good(Next(Exec(INIT, es), e)) <==> guard(Exec(INIT, es), e) {
      ExecSound(es);
      ExecWhole(es);
      forall d ensures Exposed(Next(Exec(INIT, es), e).db, models, d) <==> Exposes(Exec(INIT, es), models, e, d) {
        ExposureStep(Exec(INIT, es), models, e, d);
      }
    }
    assert StepLaw(good, guard);
    AlwaysIff(good, guard, es);
  }
}
