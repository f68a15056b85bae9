/** What a rebuild has covered when it finishes, under any interleaving (F9). */
module Coverage {
  import opened Schema
  import opened Tasks
  import opened Documents
  import opened Embeddings
  import opened Pipeline
  import opened Protocol
  import opened Integrity

  /** A rebuild from its sweep query on, up to its `mark_done`. */
  predicate PastSweep(job: ClaimedJob, pc: Pc) {
    match pc
    case AtFill(_, _, sweep) => sweep
    case AtRecordFill(_, _, _, _, _, sweep) => sweep
    case AtActivate => true
    case AtDone => job.spec.jobType == Rebuild
    case _ => false
  }

  predicate InTable(db: Db, m: string, c: ChunkId) {
    m in db.tables && c in db.tables[m]
  }

  /** Rows of the sweep that the run has not reached. */
  ghost predicate Ahead(pc: Pc, c: ChunkId) {
    match pc
    case AtFill(items, pos, _) => exists i :: pos <= i < |items| && items[i].id == c
    case AtRecordFill(items, pos, _, _, _, _) => exists i :: pos <= i < |items| && items[i].id == c
    case _ => false
  }

  /** Every chunk that was live in `then`, is in scope and still exists, is in the table or ahead. */
  ghost predicate Covered(past: Db, db: Db, m: string, scope: string, pc: Pc) {
    forall c | c in db.chunks && IsLive(past, c) && InScope(scope, past.chunks[c].addressId) ::
      InTable(db, m, c) || Ahead(pc, c)
  }

  /** Event `i` is the sweep query of run `r`. */
  predicate Sweeps(es: seq<Event>, i: nat, r: RunId) {
    && i < |es| && es[i].Go? && es[i].r == r
    && var s := Exec(INIT, es[..i]); r in s.runs && s.runs[r].pc.AtSweep?
  }

  ghost predicate CoveredSince(es: seq<Event>, i: nat, r: RunId)
    requires i < |es| && r in Exec(INIT, es).runs
  {
    var s := Exec(INIT, es);
    var spec := s.runs[r].job.spec;
    Covered(Exec(INIT, es[..i]).db, s.db, spec.modelId, spec.addressId, s.runs[r].pc)
  }

  lemma CoveredEvolves(past: Db, a: Db, b: Db, m: string, scope: string, pc: Pc)
    requires Covered(past, a, m, scope, pc) && Evolves(a, b)
    requires forall c | c in past.chunks :: c < a.next
    ensures Covered(past, b, m, scope, pc)
  {
  }

  /** The sweep query itself: what it does not return is in the table already. */
  lemma SweepCovers(db: Db, run: Run, a: Answer)
    requires DbSound(db) && run.pc.AtSweep? && PastSweep(run.job, Proceed(db, run, a).1)
    ensures var (db', pc) := Proceed(db, run, a);
      Covered(db, db', run.job.spec.modelId, run.job.spec.addressId, pc)
  {
    var m, scope := run.job.spec.modelId, run.job.spec.addressId;
    var items := ItemsOf(db, a.order, None);
    var pc := Proceed(db, run, a).1;
    forall c | c in db.chunks && IsLive(db, c) && InScope(scope, db.chunks[c].addressId)
      ensures InTable(db, m, c) || Ahead(pc, c)
    {
      if !InTable(db, m, c) {
        assert c in Missing(db, m, scope);
        var i :| 0 <= i < |a.order| && a.order[i] == c;
        assert items[i].id == c;
      }
    }
  }

  lemma SameAhead(past: Db, db: Db, m: string, scope: string, pc: Pc, pc': Pc)
    requires Covered(past, db, m, scope, pc)
    requires forall c :: Ahead(pc, c) ==> Ahead(pc', c)
    ensures Covered(past, db, m, scope, pc')
  {
  }

  /** One batch: what it inserts is no longer ahead. */
  lemma BatchCovers(past: Db, db: Db, m: string, scope: string, pc: Pc, pc': Pc)
    requires pc.AtFill? && pc.pos < |pc.items| && Covered(past, db, m, scope, pc)
    requires pc'.AtRecordFill? && pc'.items == pc.items && pc'.pos == BatchEnd(pc.items, pc.pos)
    requires m in db.tables
    requires var batch := pc.items[pc.pos..BatchEnd(pc.items, pc.pos)];
      forall i | 0 <= i < |batch| :: batch[i].id in db.tables[m]
    ensures Covered(past, db, m, scope, pc')
  {
    var items, pos, end := pc.items, pc.pos, BatchEnd(pc.items, pc.pos);
    var batch := items[pos..end];
    forall c | Ahead(pc, c) && !Ahead(pc', c) ensures InTable(db, m, c) {
      var i :| pos <= i < |items| && items[i].id == c;
      assert batch[i - pos] == items[i];
    }
  }

  /** A later step of the sweep moves rows from ahead into the table. */
  lemma StepCovers(past: Db, db: Db, r: RunId, run: Run, a: Answer)
    requires DbSound(db) && RunSound(db, r, run) && PastSweep(run.job, run.pc)
    requires forall c | c in past.chunks :: c < db.next
    requires Covered(past, db, run.job.spec.modelId, run.job.spec.addressId, run.pc)
    requires PastSweep(run.job, Proceed(db, run, a).1)
    ensures var (db', pc) := Proceed(db, run, a);
      Covered(past, db', run.job.spec.modelId, run.job.spec.addressId, pc)
  {
    var m, scope := run.job.spec.modelId, run.job.spec.addressId;
    var (db', pc) := Proceed(db, run, a);
    assert ItemsSound(db, PcItems(run.pc)) && PositionSound(run.pc);
    ProceedDbSound(db, r, run, a);
    hide DbSound, RunSound, Evolves, ItemsSound, Covered, InsertEmbeddings;
    CoveredEvolves(past, db, db', m, scope, run.pc);
    if run.pc.AtFill? {
      var items, pos := run.pc.items, run.pc.pos;
      var batch := items[pos..BatchEnd(items, pos)];
      InsertEmbeddingsSound(db, m, batch, DoNothing);
      BatchCovers(past, db', m, scope, run.pc, pc);
    } else {
      SameAhead(past, db', m, scope, run.pc, pc);
    }
  }

  /** Each run past its sweep has a sweep behind it, and has covered or still holds what was live then. */
  lemma {:induction false} SweepBehind(es: seq<Event>, r: RunId) returns (i: nat)
    requires r in Exec(INIT, es).runs && PastSweep(Exec(INIT, es).runs[r].job, Exec(INIT, es).runs[r].pc)
    ensures i < |es| && Sweeps(es, i, r) && CoveredSince(es, i, r)
  {
    var front := es[..|es| - 1];
    var e := es[|es| - 1];
    var s := Exec(INIT, front);
    hide Exec, Next, Sweeps, CoveredSince;
    ExecSplit(INIT, es);
    RunChange(s, e, r);
    assert r in s.runs;
    if e.Go? && e.r == r && s.runs[r].pc.AtSweep? {
      i := |es| - 1;
      SweepStarts(es, r, i);
    } else {
      assert PastSweep(s.runs[r].job, s.runs[r].pc) by {
        if e.Go? && e.r == r {
          ExecSound(front);
          OwnProgram(s, r);
          hide Proceed, Sound;
          PastSweepBefore(s.db, s.runs[r], e.a);
        }
      }
      i := SweepBehind(front, r);
      SweepContinues(es, r, i);
    }
  }

  lemma OwnProgram(s: State, r: RunId)
    requires Sound(s) && r in s.runs
    ensures IsIngestPc(s.runs[r].pc) ==> s.runs[r].job.spec.jobType == Ingest
  {
    assert RunSound(s.db, r, s.runs[r]);
  }

  lemma PastSweepBefore(db: Db, run: Run, a: Answer)
    requires IsIngestPc(run.pc) ==> run.job.spec.jobType == Ingest
    ensures PastSweep(run.job, Proceed(db, run, a).1) ==> PastSweep(run.job, run.pc) || run.pc.AtSweep?
  {
    hide Lists, ItemsOf, CanEmbed, CanInsert, Numbered, ByOrdinal, VersionChunks, Missing;
  }

  lemma SweepStarts(es: seq<Event>, r: RunId, i: nat)
    requires i + 1 == |es| && es[i].Go? && es[i].r == r
    requires r in Exec(INIT, es[..i]).runs && Exec(INIT, es[..i]).runs[r].pc.AtSweep?
    requires r in Exec(INIT, es).runs && PastSweep(Exec(INIT, es).runs[r].job, Exec(INIT, es).runs[r].pc)
    ensures Sweeps(es, i, r) && CoveredSince(es, i, r)
  {
    var s, e := Exec(INIT, es[..i]), es[i];
    hide Exec, Next, Proceed, Sound, Covered;
    ExecSplit(INIT, es);
    RunChange(s, e, r);
    ExecSound(es[..i]);
    SoundDb(s);
    hide DbSound, RunSound;
    SweepCovers(s.db, s.runs[r], e.a);
  }

  lemma ChunkKeys(es: seq<Event>, i: nat)
    requires i <= |es|
    ensures forall c | c in Exec(INIT, es[..i]).db.chunks :: c < Exec(INIT, es).db.next
  {
    ExecSound(es[..i]);
    SuffixEvolves(es, i);
    hide Exec;
  }

  lemma SweepContinues(es: seq<Event>, r: RunId, i: nat)
    requires es != [] && r in Exec(INIT, es).runs && PastSweep(Exec(INIT, es).runs[r].job, Exec(INIT, es).runs[r].pc)
    requires
      var front := es[..|es| - 1];
      && r in Exec(INIT, front).runs && PastSweep(Exec(INIT, front).runs[r].job, Exec(INIT, front).runs[r].pc)
      && i < |front| && Sweeps(front, i, r) && CoveredSince(front, i, r)
    ensures Sweeps(es, i, r) && CoveredSince(es, i, r)
  {
    var front, e := es[..|es| - 1], es[|es| - 1];
    var s, s' := Exec(INIT, front), Exec(INIT, es);
    assert front[..i] == es[..i];
    hide Exec, Next, Proceed, Sound, Covered, Evolves;
    ExecSplit(INIT, es);
    RunChange(s, e, r);
    var past := Exec(INIT, es[..i]).db;
    ChunkKeys(front, i);
    ExecSound(front);
    NextSound(s, e);
    SoundDb(s);
    hide DbSound, RunSound;
    var spec := s.runs[r].job.spec;
    if e.Go? && e.r == r {
      StepCovers(past, s.db, r, s.runs[r], e.a);
    } else {
      CoveredEvolves(past, s.db, s'.db, spec.modelId, spec.addressId, s.runs[r].pc);
    }
  }

  /** Every chunk that was live in `past` and still exists has a row in the table of `m`. */
  ghost predicate AllRows(past: Db, db: Db, m: string) {
    forall c | c in db.chunks && IsLive(past, c) :: InTable(db, m, c)
  }

  /** When a global rebuild activates its model, every chunk that was live at its sweep query
      and still exists has a row in the model's table. */
  lemma RebuildCoverage(es: seq<Event>, r: RunId, a: Answer) returns (sweep: nat)
    requires r in Exec(INIT, es).runs && Exec(INIT, es).runs[r].pc.AtActivate?
    ensures
      var m := Exec(INIT, es).runs[r].job.spec.modelId;
      var db' := Next(Exec(INIT, es), Go(r, a)).db;
      && db'.active == Some(m)
      && sweep < |es| && Sweeps(es, sweep, r)
      && AllRows(Exec(INIT, es[..sweep]).db, db', m)
  {
    hide Exec, Next, Proceed, Sound, AllRows, Covered, Sweeps, CoveredSince, RunSound, DbSound;
    var s := Exec(INIT, es);
    ActivateStep(s, r, a);
    ExecSound(es);
    GlobalOnly(s, r);
    sweep := SweepBehind(es, r);
    AllRowsCovered(es, sweep, r, Next(s, Go(r, a)).db);
  }

  lemma ActivateStep(s: State, r: RunId, a: Answer)
    requires r in s.runs && s.runs[r].pc.AtActivate?
    ensures Next(s, Go(r, a)).db == s.db.(active := Some(s.runs[r].job.spec.modelId))
  {
  }

  lemma GlobalOnly(s: State, r: RunId)
    requires Sound(s) && r in s.runs && s.runs[r].pc.AtActivate?
    ensures s.runs[r].job.spec.addressId == "*" && s.runs[r].job.spec.jobType == Rebuild
  {
    assert RunSound(s.db, r, s.runs[r]);
  }

  lemma AllRowsCovered(es: seq<Event>, i: nat, r: RunId, db': Db)
    requires i < |es| && r in Exec(INIT, es).runs && CoveredSince(es, i, r)
    requires Exec(INIT, es).runs[r].pc.AtActivate? && Exec(INIT, es).runs[r].job.spec.addressId == "*"
    requires db'.chunks == Exec(INIT, es).db.chunks && db'.tables == Exec(INIT, es).db.tables
    ensures AllRows(Exec(INIT, es[..i]).db, db', Exec(INIT, es).runs[r].job.spec.modelId)
  {
    hide Exec;
  }

  lemma OnlyActivateMoves(db: Db, run: Run, a: Answer)
    ensures Proceed(db, run, a).0.active != db.active ==> run.pc.AtActivate?
  {
    hide Lists, ItemsOf, CanEmbed, CanInsert, Numbered, ByOrdinal, VersionChunks, Missing, InsertAll, Cascade;
  }

  /** The pointer is set at startup while unset; after that only a global rebuild moves it,
      and only to its own model. A scoped rebuild never does. */
  lemma PointerMoves(es: seq<Event>, e: Event)
    ensures
      var s := Exec(INIT, es);
      Next(s, e).db.active != s.db.active ==>
        || (e.Seed? && s.db.active == None)
        || (&& e.Go? && e.r in s.runs && s.runs[e.r].pc.AtActivate?
            && s.runs[e.r].job.spec.jobType == Rebuild && s.runs[e.r].job.spec.addressId == "*"
            && Next(s, e).db.active == Some(s.runs[e.r].job.spec.modelId))
  {
    hide Exec, Sound;
    var s := Exec(INIT, es);
    if e.Go? && e.r in s.runs {
      hide Proceed;
      OnlyActivateMoves(s.db, s.runs[e.r], e.a);
      if s.runs[e.r].pc.AtActivate? {
        ExecSound(es);
        GlobalOnly(s, e.r);
        ActivateStep(s, e.r, e.a);
      }
    } else {
      hide LookedUp, KeepChunks, UploadSpec, Oldest, Proceed, Remember;
    }
  }
}
