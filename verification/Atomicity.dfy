/** What a reader of a document sees: the rows of one chunking step, whole (F10). */
module Atomicity {
  import opened Schema
  import opened Tasks
  import opened Documents
  import opened Pipeline
  import opened Protocol
  import opened Integrity
  import opened Frames

  /** The chunks every read of `d` joins to. */
  function Visible(db: Db, d: DocId): set<ChunkId>
    requires d in db.documents
  {
    VersionChunks(db, Some(d), db.documents[d].liveVersion)
  }

  /** The rows of version `v` are exactly those of the write `w`, all of them. */
  ghost predicate Exactly(db: Db, d: DocId, v: int, w: Written) {
    && (forall c :: c in VersionChunks(db, Some(d), v) <==> w.first <= c < w.first + |w.rows|)
    && (forall c | c in VersionChunks(db, Some(d), v) :: db.chunks[c].row == w.rows[c - w.first])
  }

  predicate IsRow(db: Db, d: DocId, v: int, c: ChunkId) {
    c in db.chunks && db.chunks[c].documentId == d && db.chunks[c].docVersion == v
  }

  /** Every row of the last write of (d, v) is there. */
  ghost predicate Complete(db: Db, h: History, d: DocId, v: int) {
    && (Some(d), v) in h.written
    && var w := h.written[(Some(d), v)];
      forall c | w.first <= c < w.first + |w.rows| :: IsRow(db, d, v, c)
  }

  /** A chunk is a row of the last write of its version, and has all the others beside it. */
  ghost predicate WholeAt(db: Db, h: History, c: ChunkId)
    requires c in db.chunks
  {
    var d, v := db.chunks[c].documentId, db.chunks[c].docVersion;
    && Complete(db, h, d, v)
    && var w := h.written[(Some(d), v)];
      w.first <= c < w.first + |w.rows| && db.chunks[c].row == w.rows[c - w.first]
  }

  ghost predicate Whole(db: Db, h: History) {
    forall c | c in db.chunks :: WholeAt(db, h, c)
  }

  lemma CompleteIsExact(db: Db, h: History, d: DocId, v: int)
    requires Whole(db, h) && Complete(db, h, d, v)
    ensures Exactly(db, d, v, h.written[(Some(d), v)])
  {
    var w := h.written[(Some(d), v)];
    forall c: ChunkId | w.first <= c < w.first + |w.rows|
      ensures c in VersionChunks(db, Some(d), v)
    {
      assert IsRow(db, d, v, c);
    }
    forall c | c in VersionChunks(db, Some(d), v)
      ensures w.first <= c < w.first + |w.rows| && db.chunks[c].row == w.rows[c - w.first]
    {
      assert WholeAt(db, h, c);
    }
  }

  // ---- one transaction --------------------------------------------------------------

  lemma CompleteTransfers(db: Db, db': Db, h: History, d: DocId, v: int)
    requires Complete(db, h, d, v)
    requires forall c | IsRow(db, d, v, c) :: IsRow(db', d, v, c)
    ensures Complete(db', h, d, v)
  {
    var w := h.written[(Some(d), v)];
    forall c: ChunkId | w.first <= c < w.first + |w.rows| ensures IsRow(db', d, v, c) { assert IsRow(db, d, v, c); }
  }

  /** Dropping whole versions keeps the rest whole. */
  lemma KeepWhole(db: Db, h: History, kept: set<ChunkId>)
    requires Whole(db, h)
    requires forall c, c' | c in db.chunks && c' in db.chunks && db.chunks[c].documentId == db.chunks[c'].documentId
               && db.chunks[c].docVersion == db.chunks[c'].docVersion :: c in kept <==> c' in kept
    ensures Whole(KeepChunks(db, kept), h)
  {
    var db' := KeepChunks(db, kept);
    forall c | c in db'.chunks ensures WholeAt(db', h, c) {
      assert WholeAt(db, h, c);
      CompleteTransfers(db, db', h, db.chunks[c].documentId, db.chunks[c].docVersion);
    }
  }

  lemma FlipWhole(db: Db, h: History, d: Option<DocId>, v: int)
    requires Whole(db, h)
    ensures Whole(Flip(db, d, v), h)
  {
    var mid := SetLiveVersion(db, d, v);
    assert mid.chunks == db.chunks;
    SameChunksWhole(db, mid, h);
    hide SetLiveVersion, Whole;
    KeepWhole(mid, h, AtVersion(mid, d, v));
  }

  lemma DeleteWhole(db: Db, h: History, d: DocId)
    requires Whole(db, h)
    ensures Whole(DeleteDocument(db, d), h)
  {
    var kept := ChunksOfOthers(db, d);
    KeepWhole(db, h, kept);
    assert DeleteDocument(db, d).chunks == KeepChunks(db, kept).chunks;
    SameChunksWhole(KeepChunks(db, kept), DeleteDocument(db, d), h);
  }

  lemma SameChunksWhole(db: Db, db': Db, h: History)
    requires Whole(db, h) && db'.chunks == db.chunks
    ensures Whole(db', h)
  {
    forall c | c in db'.chunks ensures WholeAt(db', h, c) {
      assert WholeAt(db, h, c);
      CompleteTransfers(db, db', h, db.chunks[c].documentId, db.chunks[c].docVersion);
    }
  }

  /** The chunks of a version after it is replaced, and of any other version. */
  lemma ReplacedRows(db: Db, d: DocId, address: string, v: int, rows: seq<ChunkRow>, c: ChunkId)
    requires CanInsert(db, Some(d), rows) && KeysIssued(db)
    ensures
      var db' := ReplaceChunks(db, Some(d), address, v, rows);
      && (db.next <= c < db.next + |rows| ==> IsRow(db', d, v, c) && db'.chunks[c].row == rows[c - db.next])
      && (c in db'.chunks ==>
           || db.next <= c < db.next + |rows|
           || (c in db.chunks && db'.chunks[c] == db.chunks[c] && !IsRow(db, d, v, c)))
      && (c in db.chunks && !IsRow(db, d, v, c) ==> c in db'.chunks && db'.chunks[c] == db.chunks[c])
  {
    hide Cascade;
  }

  lemma ReplaceWhole(db: Db, h: History, d: DocId, address: string, v: int, rows: seq<ChunkRow>)
    requires CanInsert(db, Some(d), rows) && KeysIssued(db) && Whole(db, h)
    ensures
      var db' := ReplaceChunks(db, Some(d), address, v, rows);
      var h' := h.(written := h.written[(Some(d), v) := Written(db.next, rows)]);
      Whole(db', h') && Complete(db', h', d, v)
  {
    var db' := ReplaceChunks(db, Some(d), address, v, rows);
    var h' := h.(written := h.written[(Some(d), v) := Written(db.next, rows)]);
    hide ReplaceChunks, KeysIssued, CanInsert;
    forall c | db.next <= c < db.next + |rows| ensures IsRow(db', d, v, c) {
      ReplacedRows(db, d, address, v, rows, c);
    }
    forall c | c in db'.chunks ensures WholeAt(db', h', c) {
      ReplacedRows(db, d, address, v, rows, c);
      if !(db.next <= c < db.next + |rows|) {
        assert WholeAt(db, h, c);
        ReplaceKeeps(db, h, d, address, v, rows, db.chunks[c].documentId, db.chunks[c].docVersion);
      }
    }
  }

  /** Replacing one version leaves every other one as it was. */
  lemma ReplaceKeeps(db: Db, h: History, d: DocId, address: string, v: int, rows: seq<ChunkRow>, d': DocId, v': int)
    requires CanInsert(db, Some(d), rows) && KeysIssued(db) && Complete(db, h, d', v') && (d, v) != (d', v')
    ensures
      var db' := ReplaceChunks(db, Some(d), address, v, rows);
      var h' := h.(written := h.written[(Some(d), v) := Written(db.next, rows)]);
      Complete(db', h', d', v')
  {
    var db' := ReplaceChunks(db, Some(d), address, v, rows);
    var w := h.written[(Some(d'), v')];
    hide ReplaceChunks, KeysIssued, CanInsert;
    forall c | w.first <= c < w.first + |w.rows| ensures IsRow(db', d', v', c) {
      assert IsRow(db, d', v', c);
      ReplacedRows(db, d, address, v, rows, c);
    }
  }

  lemma FlipKeeps(db: Db, h: History, d: DocId, v: int, d': DocId, v': int)
    requires Complete(db, h, d', v') && (d' == d ==> v' == v)
    ensures Complete(Flip(db, Some(d), v), h, d', v')
  {
    CompleteTransfers(db, Flip(db, Some(d), v), h, d', v');
  }

  // ---- one step ---------------------------------------------------------------------

  predicate Replaces(run: Run, next: Pc) {
    run.pc.AtWrite? && next.AtCount?
  }

  /** Writes are recorded by the write step alone, when it goes through. */
  lemma RememberWritten(h: History, db: Db, run: Run, next: Pc)
    ensures
      Remember(h, db, run, next).written ==
        if Replaces(run, next)
        then h.written[(run.job.spec.documentId, run.job.spec.docVersion) := Written(db.next, run.pc.rows)]
        else h.written
  {
  }

  lemma WriteOutcome(db: Db, run: Run, a: Answer)
    requires run.pc.AtWrite?
    ensures
      var (db', pc) := Proceed(db, run, a);
      var spec := run.job.spec;
      if pc.AtCount?
      then CanInsert(db, spec.documentId, run.pc.rows)
           && db' == ReplaceChunks(db, spec.documentId, spec.addressId, spec.docVersion, run.pc.rows)
      else db' == db
  {
    hide ReplaceChunks, CanInsert;
  }

  lemma StepWhole(db: Db, h: History, r: RunId, run: Run, a: Answer)
    requires KeysIssued(db) && RunSound(db, r, run) && Whole(db, h)
    ensures var (db', pc) := Proceed(db, run, a); Whole(db', Remember(h, db, run, pc))
  {
    var (db', pc) := Proceed(db, run, a);
    var h' := Remember(h, db, run, pc);
    var spec := run.job.spec;
    RememberWritten(h, db, run, pc);
    if run.pc.AtWrite? {
      WriteOutcome(db, run, a);
      OwnDocument(db, r, run);
      hide Proceed, RunSound, Remember, Whole;
      if pc.AtCount? {
        ReplaceWhole(db, h, spec.documentId.value, spec.addressId, spec.docVersion, run.pc.rows);
        SameWritten(db', h.(written := h'.written), h');
      } else {
        SameWritten(db', h, h');
      }
    } else if run.pc.AtCommit? {
      hide RunSound, Remember, Whole;
      FlipWhole(db, h, spec.documentId, spec.docVersion);
      SameWritten(db', h, h');
    } else {
      ProceedFrame(db, run, a);
      hide Proceed, RunSound, Remember, Whole;
      SameChunksWhole(db, db', h);
      SameWritten(db', h, h');
    }
  }

  lemma OwnDocument(db: Db, r: RunId, run: Run)
    requires RunSound(db, r, run) && IsIngestPc(run.pc)
    ensures run.job.spec.documentId.Some? && run.job.spec.docVersion >= 1
  {
  }

  lemma SameWritten(db: Db, h: History, h': History)
    requires Whole(db, h) && h'.written == h.written
    ensures Whole(db, h')
  {
    forall c | c in db.chunks ensures WholeAt(db, h', c) { assert WholeAt(db, h, c); }
  }

  /** A complete version stays complete, unless it is the one a commit supersedes. */
  lemma StepComplete(db: Db, h: History, r: RunId, run: Run, a: Answer, d: DocId, v: int)
    requires KeysIssued(db) && RunSound(db, r, run) && Whole(db, h) && Complete(db, h, d, v)
    requires run.pc.AtCommit? && run.job.spec.documentId == Some(d) ==> run.job.spec.docVersion == v
    ensures var (db', pc) := Proceed(db, run, a); Complete(db', Remember(h, db, run, pc), d, v)
  {
    var (db', pc) := Proceed(db, run, a);
    var h' := Remember(h, db, run, pc);
    var spec := run.job.spec;
    RememberWritten(h, db, run, pc);
    if run.pc.AtWrite? {
      WriteOutcome(db, run, a);
      OwnDocument(db, r, run);
      hide Proceed, RunSound, Remember, Whole;
      if pc.AtCount? {
        if (spec.documentId, spec.docVersion) == (Some(d), v) {
          ReplaceWhole(db, h, d, spec.addressId, v, run.pc.rows);
        } else {
          ReplaceKeeps(db, h, spec.documentId.value, spec.addressId, spec.docVersion, run.pc.rows, d, v);
        }
      }
    } else if run.pc.AtCommit? {
      OwnDocument(db, r, run);
      hide RunSound, Remember, Whole;
      FlipKeeps(db, h, spec.documentId.value, spec.docVersion, d, v);
    } else {
      ProceedFrame(db, run, a);
      hide Proceed, RunSound, Remember, Whole;
      CompleteTransfers(db, db', h, d, v);
    }
  }

  lemma WrittenComplete(db: Db, h: History, r: RunId, run: Run, a: Answer)
    requires KeysIssued(db) && RunSound(db, r, run) && Whole(db, h) && Replaces(run, Proceed(db, run, a).1)
    ensures
      var (db', pc) := Proceed(db, run, a);
      Complete(db', Remember(h, db, run, pc), run.job.spec.documentId.value, run.job.spec.docVersion)
  {
    var pc := Proceed(db, run, a).1;
    RememberWritten(h, db, run, pc);
    WriteOutcome(db, run, a);
    OwnDocument(db, r, run);
    hide Proceed, RunSound, Remember, Whole;
    ReplaceWhole(db, h, run.job.spec.documentId.value, run.job.spec.addressId, run.job.spec.docVersion, run.pc.rows);
  }

  /** The history is only read by lemmas: events other than a step leave it and all chunks but a deleted document's. */
  lemma QuietFrame(s: State, e: Event)
    requires !e.Go?
    ensures Next(s, e).hist == s.hist
    ensures !e.Delete? ==> Next(s, e).db.chunks == s.db.chunks
    ensures !e.Upload? && !e.Delete? ==> Next(s, e).db.documents == s.db.documents
    ensures e.Delete? ==> Next(s, e).db == DeleteDocument(s.db, e.d)
  {
    hide Proceed, DeleteDocument, LookedUp, UploadSpec, Oldest;
  }

  lemma NextWhole(s: State, e: Event)
    requires Sound(s) && Whole(s.db, s.hist)
    ensures Whole(Next(s, e).db, Next(s, e).hist)
  {
    if e.Go? && e.r in s.runs {
      SoundDb(s);
      hide Sound, Proceed, Whole, RunSound;
      StepWhole(s.db, s.hist, e.r, s.runs[e.r], e.a);
    } else if e.Delete? {
      hide Whole;
      DeleteWhole(s.db, s.hist, e.d);
    } else if !e.Go? {
      hide Sound, Whole;
      QuietFrame(s, e);
      hide Next;
      SameChunksWhole(s.db, Next(s, e).db, s.hist);
    }
  }

  lemma {:induction false} ExecWhole(es: seq<Event>)
    ensures Whole(Exec(INIT, es).db, Exec(INIT, es).hist)
  {
    if es != [] {
      hide Next, Sound, Whole, Exec;
      var front := es[..|es| - 1];
      ExecSplit(INIT, es);
      ExecSound(front);
      ExecWhole(front);
      NextWhole(Exec(INIT, front), es[|es| - 1]);
    }
  }
}
