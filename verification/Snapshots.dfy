/** What a commit publishes: every row of the version with its vector, whatever attempts came before. */
module Snapshots {
  import opened Schema
  import opened Documents
  import opened Embeddings
  import opened Pipeline
  import opened Protocol
  import opened Integrity
  import opened Frames
  import opened Atomicity
  import opened Readers
  import opened Coverage

  /** Rows of the embedding loop not reached yet. */
  ghost predicate Left(pc: Pc, c: ChunkId) {
    match pc
    case AtBatch(items, pos) => exists i :: pos <= i < |items| && items[i].id == c
    case AtRecord(items, pos, _, _, _) => exists i :: pos <= i < |items| && items[i].id == c
    case _ => false
  }

  predicate Embeds(pc: Pc) {
    pc.AtBatch? || pc.AtRecord? || pc.AtCommit?
  }

  /** Each row of the run's version is in its model's table or still to be embedded. */
  ghost predicate RunEmbeds(db: Db, run: Run) {
    var spec := run.job.spec;
    Embeds(run.pc) && spec.documentId.Some? ==>
      forall c | IsRow(db, spec.documentId.value, spec.docVersion, c) :: InTable(db, spec.modelId, c) || Left(run.pc, c)
  }

  /** A step changes the rows of a version only by writing it or by committing another of the document. */
  predicate Touches(run: Run, d: DocId, v: int) {
    && run.job.spec.documentId == Some(d)
    && ((run.pc.AtWrite? && run.job.spec.docVersion == v) || (run.pc.AtCommit? && run.job.spec.docVersion != v))
  }

  lemma RowsUntouched(db: Db, r: RunId, run: Run, a: Answer, d: DocId, v: int, c: ChunkId)
    requires KeysIssued(db) && RunSound(db, r, run) && !Touches(run, d, v)
    ensures IsRow(Proceed(db, run, a).0, d, v, c) <==> IsRow(db, d, v, c)
  {
    var spec := run.job.spec;
    if run.pc.AtWrite? {
      WriteOutcome(db, run, a);
      OwnDocument(db, r, run);
      hide Proceed, RunSound;
      if Proceed(db, run, a).1.AtCount? {
        hide ReplaceChunks;
        ReplacedRows(db, spec.documentId.value, spec.addressId, spec.docVersion, run.pc.rows, c);
      }
    } else if run.pc.AtCommit? {
      OwnDocument(db, r, run);
      hide RunSound;
      assert Proceed(db, run, a).0 == Flip(db, spec.documentId, spec.docVersion);
      hide Proceed;
    } else {
      ProceedFrame(db, run, a);
      hide Proceed, RunSound;
    }
  }

  /** The SELECT of the embedding step returns every row of the version. */
  lemma SelectEmbeds(db: Db, run: Run, a: Answer)
    requires run.pc.AtSelect? && Embeds(Proceed(db, run, a).1)
    ensures var (db', pc) := Proceed(db, run, a); RunEmbeds(db', run.(pc := pc))
  {
    var spec := run.job.spec;
    var (db', pc) := Proceed(db, run, a);
    var items := ItemsOf(db, a.order, Some(spec.addressId));
    if spec.documentId.Some? {
      forall c | IsRow(db', spec.documentId.value, spec.docVersion, c) ensures Left(pc, c) {
        assert c in VersionChunks(db, spec.documentId, spec.docVersion);
        var i :| 0 <= i < |a.order| && a.order[i] == c;
        assert items[i].id == c;
      }
    }
  }

  lemma SameChunks(db: Db, m: string, items: seq<Item>, mode: OnConflict)
    requires CanEmbed(db, m, items)
    ensures InsertEmbeddings(db, m, items, mode).chunks == db.chunks
  {
    hide InsertAll;
  }

  /** One batch: what it inserts is no longer left. */
  lemma BatchLeft(db: Db, r: RunId, run: Run, a: Answer)
    requires DbSound(db) && RunSound(db, r, run) && run.pc.AtBatch? && Proceed(db, run, a).1.AtRecord?
    ensures
      var (db', pc) := Proceed(db, run, a);
      && db'.chunks == db.chunks && TableKept(db, db', run.job.spec.modelId)
      && forall c | Left(run.pc, c) && !Left(pc, c) :: InTable(db', run.job.spec.modelId, c)
  {
    var m, end := run.job.spec.modelId, BatchEnd(run.pc.items, run.pc.pos);
    BatchOutcome(db, run, a);
    assert ItemsSound(db, PcItems(run.pc)) && PositionSound(run.pc);
    hide Proceed, RunSound, DbSound, InsertEmbeddings, Evolves, TableKept, Left, ItemsSound, CanEmbed;
    var batch := run.pc.items[run.pc.pos..end];
    var (db', pc) := Proceed(db, run, a);
    ItemsSlice(db, run.pc.items, run.pc.pos, end);
    InsertEmbeddingsSound(db, m, batch, DoUpdate);
    EvolvesTable(db, db', m);
    SameChunks(db, m, batch, DoUpdate);
    BatchLeaves(db', m, run.pc, pc);
  }

  lemma BatchEmbeds(db: Db, r: RunId, run: Run, a: Answer)
    requires DbSound(db) && RunSound(db, r, run) && run.pc.AtBatch? && RunEmbeds(db, run)
    requires Proceed(db, run, a).1.AtRecord?
    ensures var (db', pc) := Proceed(db, run, a); RunEmbeds(db', run.(pc := pc))
  {
    hide DbSound, RunSound, Proceed, RunEmbeds, Left, TableKept;
    BatchLeft(db, r, run, a);
    EmbedsAdvance(db, Proceed(db, run, a).0, run, Proceed(db, run, a).1);
  }

  lemma BatchOutcome(db: Db, run: Run, a: Answer)
    requires run.pc.AtBatch? && Proceed(db, run, a).1.AtRecord?
    ensures
      var items, pos, end := run.pc.items, run.pc.pos, BatchEnd(run.pc.items, run.pc.pos);
      var (db', pc) := Proceed(db, run, a);
      && pos <= end <= |items| && CanEmbed(db, run.job.spec.modelId, items[pos..end])
      && db' == InsertEmbeddings(db, run.job.spec.modelId, items[pos..end], DoUpdate)
      && pc.items == items && pc.pos == end && pc.done == end - pos
  {
    hide InsertEmbeddings, CanEmbed;
  }

  lemma ItemsSlice(db: Db, items: seq<Item>, lo: nat, hi: nat)
    requires ItemsSound(db, items) && lo <= hi <= |items|
    ensures ItemsSound(db, items[lo..hi])
  {
  }

  lemma BatchLeaves(db: Db, m: string, pc: Pc, pc': Pc)
    requires pc.AtBatch? && pc'.AtRecord? && pc'.items == pc.items && pc.pos <= pc'.pos <= |pc.items|
    requires forall i | 0 <= i < pc'.pos - pc.pos :: InTable(db, m, pc.items[pc.pos..pc'.pos][i].id)
    ensures forall c | Left(pc, c) && !Left(pc', c) :: InTable(db, m, c)
  {
    var batch := pc.items[pc.pos..pc'.pos];
    forall c | Left(pc, c) && !Left(pc', c) ensures InTable(db, m, c) {
      var i :| pc.pos <= i < |pc.items| && pc.items[i].id == c;
      assert batch[i - pc.pos] == pc.items[i];
    }
  }

  lemma EmbedsAdvance(db: Db, db': Db, run: Run, pc: Pc)
    requires RunEmbeds(db, run) && Embeds(run.pc) && TableKept(db, db', run.job.spec.modelId)
    requires db'.chunks == db.chunks
    requires forall c | Left(run.pc, c) && !Left(pc, c) :: InTable(db', run.job.spec.modelId, c)
    ensures RunEmbeds(db', run.(pc := pc))
  {
    hide Left;
  }

  ghost predicate TableKept(db: Db, db': Db, m: string) {
    forall c | InTable(db, m, c) && c in db'.chunks :: InTable(db', m, c)
  }

  lemma EvolvesTable(db: Db, db': Db, m: string)
    requires Evolves(db, db')
    ensures TableKept(db, db', m)
  {
  }

  /** Rows in place, table grown, nothing dropped from what is left. */
  lemma EmbedsTransfers(db: Db, db': Db, run: Run, pc: Pc)
    requires RunEmbeds(db, run) && Embeds(run.pc) && TableKept(db, db', run.job.spec.modelId)
    requires run.job.spec.documentId.Some? ==> forall c ::
      IsRow(db', run.job.spec.documentId.value, run.job.spec.docVersion, c) ==>
      IsRow(db, run.job.spec.documentId.value, run.job.spec.docVersion, c)
    requires forall c :: Left(run.pc, c) ==> Left(pc, c)
    ensures RunEmbeds(db', run.(pc := pc))
  {
  }

  lemma OwnEmbeds(db: Db, r: RunId, run: Run, a: Answer)
    requires DbSound(db) && RunSound(db, r, run) && RunEmbeds(db, run)
    ensures var (db', pc) := Proceed(db, run, a); RunEmbeds(db', run.(pc := pc))
  {
    var (db', pc) := Proceed(db, run, a);
    if Embeds(pc) {
      EmbedsBefore(db, run, a);
      if run.pc.AtSelect? {
        hide DbSound, RunSound, Proceed, RunEmbeds;
        SelectEmbeds(db, run, a);
      } else if run.pc.AtBatch? {
        hide DbSound, RunSound, Proceed, RunEmbeds;
        BatchEmbeds(db, r, run, a);
      } else {
        RecordLeaves(db, run, a);
        ProceedFrame(db, run, a);
        hide Proceed, RunSound, RunEmbeds;
        EmbedsTransfers(db, db', run, pc);
      }
    }
  }

  lemma EmbedsBefore(db: Db, run: Run, a: Answer)
    ensures var pc := Proceed(db, run, a).1;
      Embeds(pc) ==> run.pc.AtSelect? || (run.pc.AtBatch? && pc.AtRecord?) || (run.pc.AtRecord? && !pc.AtRecord?)
  {
    hide Lists, ItemsOf, CanEmbed, CanInsert, Numbered, ByOrdinal, VersionChunks;
  }

  lemma RecordLeaves(db: Db, run: Run, a: Answer)
    requires run.pc.AtRecord?
    ensures forall c :: Left(run.pc, c) ==> Left(Proceed(db, run, a).1, c)
  {
  }

  // ---- whole traces -------------------------------------------------------------------

  ghost predicate AllEmbed(s: State) {
    forall r | r in s.runs :: RunEmbeds(s.db, s.runs[r])
  }

  lemma OtherEmbeds(s: State, r: RunId, a: Answer, q: RunId)
    requires Sound(s) && OneRunEach(s) && r in s.runs && q in s.runs && q != r && RunEmbeds(s.db, s.runs[q])
    ensures RunEmbeds(Proceed(s.db, s.runs[r], a).0, s.runs[q])
  {
    var run, other := s.runs[r], s.runs[q];
    var db' := Proceed(s.db, run, a).0;
    SoundDb(s);
    assert other.job.spec.documentId.Some? ==> other.job.spec.documentId != run.job.spec.documentId;
    hide Sound, OneRunEach, RunSound, Proceed;
    ProceedDbSound(s.db, r, run, a);
    EvolvesTable(s.db, db', other.job.spec.modelId);
    assert KeysIssued(s.db);
    hide DbSound, Evolves, KeysIssued, TableKept, RunEmbeds;
    if other.job.spec.documentId.Some? && Embeds(other.pc) {
      var d, v := other.job.spec.documentId.value, other.job.spec.docVersion;
      forall c ensures IsRow(db', d, v, c) <==> IsRow(s.db, d, v, c) {
        RowsUntouched(s.db, r, run, a, d, v, c);
      }
      EmbedsTransfers(s.db, db', other, other.pc);
    } else {
      EmbedsVacuous(db', other);
    }
    assert other.(pc := other.pc) == other;
  }

  lemma EmbedsVacuous(db: Db, run: Run)
    requires !Embeds(run.pc) || run.job.spec.documentId.None?
    ensures RunEmbeds(db, run)
  {
  }

  lemma QuietEmbeds(s: State, e: Event, r: RunId)
    requires Sound(s) && AllEmbed(s) && !e.Go? && r in Next(s, e).runs
    ensures RunEmbeds(Next(s, e).db, Next(s, e).runs[r])
  {
    var s' := Next(s, e);
    var run := s'.runs[r];
    hide Sound, Next, RunEmbeds;
    RunChange(s, e, r);
    if Embeds(run.pc) && run.job.spec.documentId.Some? {
      assert r in s.runs && s.runs[r] == run;
      NextSound(s, e);
      EvolvesTable(s.db, s'.db, run.job.spec.modelId);
      hide Evolves;
      QuietRows(s, e, run.job.spec.documentId.value, run.job.spec.docVersion);
      EmbedsTransfers(s.db, s'.db, run, run.pc);
      assert run.(pc := run.pc) == run;
    } else {
      EmbedsVacuous(s'.db, run);
    }
  }

  lemma QuietRows(s: State, e: Event, d: DocId, v: int)
    requires !e.Go?
    ensures forall c :: IsRow(Next(s, e).db, d, v, c) ==> IsRow(s.db, d, v, c)
  {
    QuietFrame(s, e);
    hide Next;
  }

  lemma NextEmbeds(s: State, e: Event)
    requires Sound(s) && OneRunEach(s) && AllEmbed(s)
    ensures AllEmbed(Next(s, e))
  {
    hide Sound, OneRunEach, RunEmbeds, Proceed, DbSound, RunSound;
    forall r | r in Next(s, e).runs ensures RunEmbeds(Next(s, e).db, Next(s, e).runs[r]) {
      if e.Go? && e.r in s.runs {
        if r == e.r {
          SoundDb(s);
          OwnEmbeds(s.db, r, s.runs[r], e.a);
        } else {
          OtherEmbeds(s, e.r, e.a, r);
        }
      } else if !e.Go? {
        hide Next;
        QuietEmbeds(s, e, r);
      }
    }
  }

  lemma {:induction false} ExecEmbeds(es: seq<Event>)
    requires Guarded(Exclusive, INIT, es)
    ensures AllEmbed(Exec(INIT, es))
  {
    if es != [] {
      hide Next, Sound, Exec, Guarded, RunEmbeds;
      var front := es[..|es| - 1];
      ExecSplit(INIT, es);
      GuardedFront(Exclusive, INIT, es);
      ExecSound(front);
      ExecOrderly(front);
      ExecEmbeds(front);
      NextEmbeds(Exec(INIT, front), es[|es| - 1]);
    }
  }

  /** The (ordinal, text, vector) rows a reader of `d` gets from the table of `m`. */
  function PublishedRows(db: Db, d: DocId, m: string): set<(int, string, Vector)>
    requires d in db.documents && m in db.tables
  {
    set c | c in Visible(db, d) && c in db.tables[m] ::
      (db.chunks[c].row.ordinal, db.chunks[c].row.text, db.tables[m][c].vector)
  }

  /** The rows an uninterrupted ingest of these chunks is for. */
  function ExpectedRows(rows: seq<ChunkRow>, m: string): set<(int, string, Vector)> {
    set k | 0 <= k < |rows| :: (rows[k].ordinal, rows[k].text, VectorOf(m, rows[k].text))
  }

  lemma RowsAsExpected(db: Db, d: DocId, m: string, w: Written)
    requires DbSound(db) && d in db.documents && m in db.tables
    requires Exactly(db, d, db.documents[d].liveVersion, w)
    requires forall c | c in Visible(db, d) :: c in db.tables[m]
    ensures PublishedRows(db, d, m) == ExpectedRows(w.rows, m)
  {
    var v := db.documents[d].liveVersion;
    forall k | 0 <= k < |w.rows|
      ensures (w.rows[k].ordinal, w.rows[k].text, VectorOf(m, w.rows[k].text)) in PublishedRows(db, d, m)
    {
      var c := w.first + k;
      assert c in VersionChunks(db, Some(d), v) && db.chunks[c].row == w.rows[c - w.first];
    }
    forall c | c in Visible(db, d)
      ensures (db.chunks[c].row.ordinal, db.chunks[c].row.text, db.tables[m][c].vector) in ExpectedRows(w.rows, m)
    {
      assert 0 <= c - w.first < |w.rows| && db.chunks[c].row == w.rows[c - w.first];
    }
  }

  // ---- the write a run commits is its own ---------------------------------------------------

  /** Event `i` is the run's own write, and what the history holds for its version. */
  ghost predicate OwnWriteAt(es: seq<Event>, i: nat, r: RunId, spec: Spec) {
    && spec.documentId.Some? && (spec.documentId, spec.docVersion) in Exec(INIT, es).hist.written
    && IsWrite(es, i, spec.documentId.value, spec.docVersion,
       Exec(INIT, es).hist.written[(spec.documentId, spec.docVersion)])
    && es[i].r == r
  }

  lemma SameWrite(s: State, e: Event, r: RunId)
    requires OneRunEach(s) && r in s.runs && s.runs[r].job.spec.documentId.Some?
    requires e.Go? && e.r in s.runs ==> e.r != r || !s.runs[r].pc.AtWrite?
    ensures
      var key := (s.runs[r].job.spec.documentId, s.runs[r].job.spec.docVersion);
      && (key in Next(s, e).hist.written <==> key in s.hist.written)
      && (key in s.hist.written ==> Next(s, e).hist.written[key] == s.hist.written[key])
  {
    if e.Go? && e.r in s.runs {
      GoIs(s, e.r, e.a);
      RememberWritten(s.hist, s.db, s.runs[e.r], Proceed(s.db, s.runs[e.r], e.a).1);
      hide Next, Proceed, Remember;
    } else if !e.Go? {
      QuietFrame(s, e);
      hide Next;
    }
  }

  lemma OwnWriteStays(es: seq<Event>, i: nat, r: RunId, spec: Spec)
    requires es != [] && OwnWriteAt(es[..|es| - 1], i, r, spec)
    requires
      var h, h', key := Exec(INIT, es[..|es| - 1]).hist, Exec(INIT, es).hist, (spec.documentId, spec.docVersion);
      key in h'.written && key in h.written && h'.written[key] == h.written[key]
    ensures OwnWriteAt(es, i, r, spec)
  {
    hide Exec, IsWrite;
    InsideFront(es, i, r, spec);
    IsWriteExtends(es, i, spec.documentId.value, spec.docVersion,
        Exec(INIT, es).hist.written[(spec.documentId, spec.docVersion)]);
  }

  lemma InsideFront(es: seq<Event>, i: nat, r: RunId, spec: Spec)
    requires es != [] && OwnWriteAt(es[..|es| - 1], i, r, spec)
    ensures i < |es| - 1
  {
    hide Exec;
  }

  lemma StepOwnWrite(es: seq<Event>, r: RunId)
    requires es != []
    requires
      var s, e := Exec(INIT, es[..|es| - 1]), es[|es| - 1];
      && e.Go? && e.r == r && r in s.runs && Replaces(s.runs[r], Proceed(s.db, s.runs[r], e.a).1)
      && s.runs[r].job.spec.documentId.Some?
    ensures OwnWriteAt(es, |es| - 1, r, Exec(INIT, es[..|es| - 1]).runs[r].job.spec)
  {
    var s, e := Exec(INIT, es[..|es| - 1]), es[|es| - 1];
    var spec := s.runs[r].job.spec;
    ExecSplit(INIT, es);
    GoIs(s, r, e.a);
    RememberWritten(s.hist, s.db, s.runs[r], Proceed(s.db, s.runs[r], e.a).1);
    hide Exec, Next, Proceed, Remember;
    LastIsWrite(es, spec.documentId.value, spec.docVersion);
  }

  /** With exclusive runs, a run that has written its version is the last that did. */
  lemma {:induction false} OwnWrite(es: seq<Event>, r: RunId) returns (i: nat)
    requires Guarded(Exclusive, INIT, es) && r in Exec(INIT, es).runs && PastWrite(Exec(INIT, es).runs[r].pc)
    requires Exec(INIT, es).runs[r].job.spec.documentId.Some?
    ensures OwnWriteAt(es, i, r, Exec(INIT, es).runs[r].job.spec)
  {
    hide Exec, Next, Guarded, Exclusive, Orderly, OneRunEach, OwnWriteAt, Proceed, PastWrite;
    NoRunsAtFirst(es, r);
    var front, e := es[..|es| - 1], es[|es| - 1];
    var s := Exec(INIT, front);
    ExecSplit(INIT, es);
    GuardedFront(Exclusive, INIT, es);
    ExecOrderly(front);
    OrderlyOneRun(s);
    WasPastWrite(s, e, r);
    if e.Go? && e.r == r && Replaces(s.runs[r], Proceed(s.db, s.runs[r], e.a).1) {
      StepOwnWrite(es, r);
      return |front|;
    }
    i := OwnWrite(front, r);
    WrittenInside(front, i, r, s.runs[r].job.spec);
    NotAtWrite(s.runs[r].pc);
    SameWrite(s, e, r);
    OwnWriteStays(es, i, r, s.runs[r].job.spec);
  }

  lemma NoRunsAtFirst(es: seq<Event>, r: RunId)
    requires r in Exec(INIT, es).runs
    ensures es != []
  {
  }

  lemma OrderlyOneRun(s: State)
    requires Orderly(s)
    ensures OneRunEach(s)
  {
  }

  lemma NotAtWrite(pc: Pc)
    requires PastWrite(pc)
    ensures !pc.AtWrite?
  {
  }

  lemma WrittenInside(es: seq<Event>, i: nat, r: RunId, spec: Spec)
    requires OwnWriteAt(es, i, r, spec)
    ensures (spec.documentId, spec.docVersion) in Exec(INIT, es).hist.written
  {
  }

  /** A run past its write was there before the event, and past its write unless the event is it. */
  lemma WasPastWrite(s: State, e: Event, r: RunId)
    requires r in Next(s, e).runs && PastWrite(Next(s, e).runs[r].pc)
    ensures r in s.runs && s.runs[r].job == Next(s, e).runs[r].job
    ensures PastWrite(s.runs[r].pc) || (e.Go? && e.r == r && Replaces(s.runs[r], Proceed(s.db, s.runs[r], e.a).1))
  {
    hide Next, Proceed;
    RunChange(s, e, r);
    if e.Go? && e.r == r && r in s.runs { PastWriteBefore(s.db, s.runs[r], e.a); }
  }

  /** Whatever attempts went before it, a commit publishes exactly the rows its own run wrote, each with
      its vector under the job's model. */
  lemma CommitSnapshot(es: seq<Event>, r: RunId, a: Answer) returns (i: nat, w: Written)
    requires Guarded(Exclusive, INIT, es) && r in Exec(INIT, es).runs && Exec(INIT, es).runs[r].pc.AtCommit?
    requires var d := Exec(INIT, es).runs[r].job.spec.documentId; d.Some? && d.value in Exec(INIT, es).db.documents
    ensures
      var spec := Exec(INIT, es).runs[r].job.spec;
      var d := spec.documentId.value;
      var db := Next(Exec(INIT, es), Go(r, a)).db;
      && IsWrite(es, i, d, spec.docVersion, w) && es[i].r == r
      && d in db.documents && db.documents[d].liveVersion == spec.docVersion
      && (w.rows != [] ==> spec.modelId in db.tables)
      && (spec.modelId in db.tables ==> PublishedRows(db, d, spec.modelId) == ExpectedRows(w.rows, spec.modelId))
  {
    var s := Exec(INIT, es);
    var spec := s.runs[r].job.spec;
    var d, v, m := spec.documentId.value, spec.docVersion, spec.modelId;
    var s' := Next(s, Go(r, a));
    hide Exec, Next, Sound, Guarded, Orderly, AllEmbed, IsWrite, Whole, PublishedRows, ExpectedRows, Exactly, RunEmbeds;
    ExecSound(es);
    ExecWhole(es);
    ExecOrderly(es);
    ExecEmbeds(es);
    CommitHolds(s, r);
    i := OwnWrite(es, r);
    w := s.hist.written[(Some(d), v)];
    CommitView(s, r, a);
    NextSound(s, Go(r, a));
    hide Evolves;
    NextWhole(s, Go(r, a));
    CompleteIsExact(s'.db, s'.hist, d, v);
    SoundDb(s');
    hide DbSound;
    if w.rows != [] { FirstRow(s'.db, d, v, w, m); }
    if m in s'.db.tables { RowsAsExpected(s'.db, d, m, w); }
  }

  lemma FirstRow(db: Db, d: DocId, v: int, w: Written, m: string)
    requires Exactly(db, d, v, w) && w.rows != []
    requires forall c | c in VersionChunks(db, Some(d), v) :: InTable(db, m, c)
    ensures m in db.tables
  {
    assert w.first in VersionChunks(db, Some(d), v);
  }

  lemma CommitHolds(s: State, r: RunId)
    requires Orderly(s) && AllEmbed(s) && r in s.runs && s.runs[r].pc.AtCommit?
    requires s.runs[r].job.spec.documentId.Some? && s.runs[r].job.spec.documentId.value in s.db.documents
    ensures
      var spec := s.runs[r].job.spec;
      var d, v := spec.documentId.value, spec.docVersion;
      && (Some(d), v) in s.hist.written && Complete(s.db, s.hist, d, v)
      && forall c | IsRow(s.db, d, v, c) :: InTable(s.db, spec.modelId, c)
  {
    assert RunHolds(s.db, s.hist, s.runs[r]) && RunEmbeds(s.db, s.runs[r]);
  }

  /** The flip makes the version visible and keeps its rows, its embeddings and the record of its write. */
  lemma CommitView(s: State, r: RunId, a: Answer)
    requires Sound(s) && r in s.runs && s.runs[r].pc.AtCommit?
    requires s.runs[r].job.spec.documentId.Some? && s.runs[r].job.spec.documentId.value in s.db.documents
    requires
      var spec := s.runs[r].job.spec;
      var d, v := spec.documentId.value, spec.docVersion;
      && (Some(d), v) in s.hist.written && Complete(s.db, s.hist, d, v)
      && forall c | IsRow(s.db, d, v, c) :: InTable(s.db, spec.modelId, c)
    ensures
      var spec := s.runs[r].job.spec;
      var d, v := spec.documentId.value, spec.docVersion;
      var s' := Next(s, Go(r, a));
      && d in s'.db.documents && s'.db.documents[d].liveVersion == v
      && s'.hist.written == s.hist.written && Complete(s'.db, s'.hist, d, v)
      && Visible(s'.db, d) == VersionChunks(s'.db, Some(d), v)
      && forall c | c in VersionChunks(s'.db, Some(d), v) :: InTable(s'.db, spec.modelId, c)
  {
    var run := s.runs[r];
    var spec := run.job.spec;
    var d, v := spec.documentId.value, spec.docVersion;
    var db' := Proceed(s.db, run, a).0;
    var s' := Next(s, Go(r, a));
    hide Next, Sound, RunSound, DbSound, Complete, Proceed, Remember, KeysIssued, TableKept;
    GoIs(s, r, a);
    SoundDb(s);
    IssuedKeys(s.db);
    RememberWritten(s.hist, s.db, run, Proceed(s.db, run, a).1);
    LiveVersionAfter(s.db, run, a, d);
    forall c ensures IsRow(db', d, v, c) <==> IsRow(s.db, d, v, c) {
      RowsUntouched(s.db, r, run, a, d, v, c);
    }
    CompleteTransfers(s.db, db', s.hist, d, v);
    SameComplete(db', s.hist, s'.hist, d, v);
    hide Evolves;
    ProceedDbSound(s.db, r, run, a);
    EvolvesTable(s.db, db', spec.modelId);
    KeptRows(s.db, db', d, v, spec.modelId);
  }

  lemma KeptRows(db: Db, db': Db, d: DocId, v: int, m: string)
    requires TableKept(db, db', m)
    requires forall c | IsRow(db, d, v, c) :: InTable(db, m, c)
    requires forall c :: IsRow(db', d, v, c) <==> IsRow(db, d, v, c)
    ensures forall c | c in VersionChunks(db', Some(d), v) :: InTable(db', m, c)
  {
    assert forall c | c in VersionChunks(db', Some(d), v) :: IsRow(db', d, v, c);
  }

  lemma IssuedKeys(db: Db)
    requires DbSound(db)
    ensures KeysIssued(db)
  {
  }

  lemma SameComplete(db: Db, h: History, h': History, d: DocId, v: int)
    requires Complete(db, h, d, v) && h'.written == h.written
    ensures Complete(db, h', d, v)
  {
  }

  /** An ingest that was interrupted any number of times publishes what an uninterrupted one does,
      if the chunks their committing runs wrote and their models are the same. */
  lemma ResumedIngest(es: seq<Event>, r: RunId, a: Answer, es': seq<Event>, r': RunId, a': Answer)
    returns (i: nat, w: Written, i': nat, w': Written)
    requires Guarded(Exclusive, INIT, es) && r in Exec(INIT, es).runs && Exec(INIT, es).runs[r].pc.AtCommit?
    requires var d := Exec(INIT, es).runs[r].job.spec.documentId; d.Some? && d.value in Exec(INIT, es).db.documents
    requires Guarded(Exclusive, INIT, es') && r' in Exec(INIT, es').runs && Exec(INIT, es').runs[r'].pc.AtCommit?
    requires var d := Exec(INIT, es').runs[r'].job.spec.documentId; d.Some? && d.value in Exec(INIT, es').db.documents
    ensures
      var spec, spec' := Exec(INIT, es).runs[r].job.spec, Exec(INIT, es').runs[r'].job.spec;
      var db, db' := Next(Exec(INIT, es), Go(r, a)).db, Next(Exec(INIT, es'), Go(r', a')).db;
      && IsWrite(es, i, spec.documentId.value, spec.docVersion, w) && es[i].r == r
      && IsWrite(es', i', spec'.documentId.value, spec'.docVersion, w') && es'[i'].r == r'
      && (w.rows == w'.rows && w.rows != [] && spec.modelId == spec'.modelId ==>
           && spec.modelId in db.tables && spec.modelId in db'.tables
           && spec.documentId.value in db.documents && spec'.documentId.value in db'.documents
           && PublishedRows(db, spec.documentId.value, spec.modelId)
                == PublishedRows(db', spec'.documentId.value, spec.modelId))
  {
    hide Exec, Next, Guarded, IsWrite, PublishedRows, ExpectedRows;
    i, w := CommitSnapshot(es, r, a);
    i', w' := CommitSnapshot(es', r', a');
  }
}
