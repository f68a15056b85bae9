/** A rebuild cut anywhere and run again gives the table an uninterrupted one gives,
    and embeds each missing chunk once. */
module Resume {
  import opened Schema
  import opened Embeddings
  import opened Pipeline
  import opened Protocol
  import opened Integrity

  type Answers = nat -> Answer

  /** `n` steps of one run with nothing else going on. */
  ghost function Solo(db: Db, run: Run, answers: Answers, n: nat): (Db, Run) {
    if n == 0 then (db, run)
    else
      var (mid, at) := Solo(db, run, answers, n - 1);
      var (db', pc) := Proceed(mid, at, answers(n - 1));
      (db', at.(pc := pc))
  }

  /** Vectors a step of a rebuild stores. */
  function Fills(pc: Pc, pc': Pc): nat {
    if pc.AtFill? && pc'.AtRecordFill? then pc'.done else 0
  }

  ghost function Filled(db: Db, run: Run, answers: Answers, n: nat): nat {
    if n == 0 then 0
    else Filled(db, run, answers, n - 1) + Fills(Solo(db, run, answers, n - 1).1.pc, Solo(db, run, answers, n).1.pc)
  }

  lemma SoloNext(db: Db, run: Run, answers: Answers, n: nat, mid: Db, at: Run)
    requires Solo(db, run, answers, n) == (mid, at)
    ensures
      var (db', pc) := Proceed(mid, at, answers(n));
      Solo(db, run, answers, n + 1) == (db', at.(pc := pc))
  {
    hide Proceed;
  }

  lemma SoloNone(db: Db, run: Run, answers: Answers)
    ensures Solo(db, run, answers, 0) == (db, run)
  {
  }

  lemma FilledNext(db: Db, run: Run, answers: Answers, n: nat)
    ensures Filled(db, run, answers, n + 1) == Filled(db, run, answers, n)
              + Fills(Solo(db, run, answers, n).1.pc, Solo(db, run, answers, n + 1).1.pc)
    ensures Filled(db, run, answers, 0) == 0
  {
    hide Solo;
  }

  function Keys(db: Db, m: string): set<ChunkId> {
    if m in db.tables then db.tables[m].Keys else {}
  }

  /** The table of `m` with every live chunk of the scope in it. */
  function Backfilled(db: Db, m: string, scope: string): map<ChunkId, EmbeddingRow> {
    map c | c in Keys(db, m) + Missing(db, m, scope) ::
      if c in Keys(db, m) then db.tables[m][c]
      else EmbeddingRow(db.chunks[c].addressId, m, VectorOf(m, db.chunks[c].row.text))
  }

  /** The rows from `pos` on are the chunks in `ids`, each once. */
  ghost predicate Exact(items: seq<Item>, pos: nat, ids: set<ChunkId>) {
    && pos <= |items|
    && (forall i | pos <= i < |items| :: items[i].id in ids)
    && (forall c | c in ids :: exists i :: pos <= i < |items| && items[i].id == c)
    && (forall i, j | pos <= i < j < |items| :: items[i].id != items[j].id)
  }

  ghost predicate OnTrack(db: Db, run: Run) {
    var m, scope := run.job.spec.modelId, run.job.spec.addressId;
    && (run.pc.AtEnsure? || run.pc.AtFailing? || m in db.tables)
    && match run.pc
       case AtCountMissing(items) => Exact(items, 0, Missing(db, m, scope))
       case AtFill(items, pos, _) => Exact(items, pos, Missing(db, m, scope))
       case AtRecordFill(items, pos, _, _, _, _) => Exact(items, pos, Missing(db, m, scope))
       case AtSweep | AtActivate | AtDone => Missing(db, m, scope) == {}
       case _ => true
  }

  lemma {:induction false} ExactSize(items: seq<Item>, pos: nat, ids: set<ChunkId>)
    requires Exact(items, pos, ids)
    ensures |ids| == |items| - pos
    decreases |items| - pos
  {
    if pos == |items| {
      assert ids == {};
    } else {
      forall c | c in ids - {items[pos].id} ensures exists i :: pos + 1 <= i < |items| && items[i].id == c {
        var i :| pos <= i < |items| && items[i].id == c;
      }
      ExactSize(items, pos + 1, ids - {items[pos].id});
    }
  }

  lemma ExactItems(db: Db, order: seq<ChunkId>, ids: set<ChunkId>)
    requires Lists(order, ids) && forall i | 0 <= i < |order| :: order[i] in db.chunks
    ensures Exact(ItemsOf(db, order, None), 0, ids)
  {
    var items := ItemsOf(db, order, None);
    forall c | c in ids ensures exists i :: 0 <= i < |items| && items[i].id == c {
      var i :| 0 <= i < |order| && order[i] == c;
      assert items[i].id == c;
    }
  }

  function Batch(items: seq<Item>, lo: nat, hi: nat): set<ChunkId>
    requires lo <= hi <= |items|
  {
    set i | lo <= i < hi :: items[i].id
  }

  lemma ExactTail(items: seq<Item>, lo: nat, hi: nat, ids: set<ChunkId>)
    requires Exact(items, lo, ids) && lo <= hi <= |items|
    ensures Exact(items, hi, ids - Batch(items, lo, hi)) && Batch(items, lo, hi) <= ids
  {
    forall c | c in ids - Batch(items, lo, hi) ensures exists i :: hi <= i < |items| && items[i].id == c {
      var i :| lo <= i < |items| && items[i].id == c;
    }
  }

  // ---- one step -----------------------------------------------------------------------

  /** The target table gained exactly `batch`; nothing else that a reader joins has changed. */
  ghost predicate Gained(db: Db, db': Db, m: string, batch: set<ChunkId>) {
    && db'.chunks == db.chunks && db'.documents == db.documents
    && Keys(db', m) == Keys(db, m) + batch
    && (forall k :: k != m ==> (k in db.tables <==> k in db'.tables))
    && (forall k | k in db.tables && k != m :: db'.tables[k] == db.tables[k])
  }

  lemma SameLive(db: Db, db': Db, m: string, scope: string, batch: set<ChunkId>)
    requires Gained(db, db', m, batch)
    ensures Missing(db', m, scope) == Missing(db, m, scope) - batch
  {
  }

  lemma SameGoal(db: Db, db': Db, m: string, scope: string, batch: set<ChunkId>)
    requires DbSound(db) && DbSound(db') && Gained(db, db', m, batch) && batch <= Missing(db, m, scope)
    ensures Backfilled(db', m, scope) == Backfilled(db, m, scope)
  {
    SameLive(db, db', m, scope, batch);
    RowsByKey(db, m);
    RowsByKey(db', m);
    assert Missing(db, m, scope) !! Keys(db, m) && forall c | c in Missing(db, m, scope) :: c in db.chunks;
    hide DbSound, Missing;
  }

  /** Every row of a table is fixed by its chunk. */
  lemma RowsByKey(db: Db, m: string)
    requires DbSound(db)
    ensures forall c | c in Keys(db, m) ::
      c in db.chunks && db.tables[m][c] == EmbeddingRow(db.chunks[c].addressId, m, VectorOf(m, db.chunks[c].row.text))
  {
  }

  /** What a step of a rebuild adds to its table. */
  ghost function Adds(run: Run, pc': Pc): set<ChunkId>
    requires run.pc.AtFill? && pc'.AtRecordFill? ==> run.pc.pos <= pc'.pos <= |run.pc.items|
  {
    if run.pc.AtFill? && pc'.AtRecordFill? then Batch(run.pc.items, run.pc.pos, pc'.pos) else {}
  }

  lemma FillOutcome(db: Db, run: Run, a: Answer)
    requires run.pc.AtFill? && Proceed(db, run, a).1.AtRecordFill?
    ensures
      var items, pos, end := run.pc.items, run.pc.pos, BatchEnd(run.pc.items, run.pc.pos);
      var (db', pc) := Proceed(db, run, a);
      && pos <= end <= |items| && CanEmbed(db, run.job.spec.modelId, items[pos..end])
      && db' == InsertEmbeddings(db, run.job.spec.modelId, items[pos..end], DoNothing)
      && pc.items == items && pc.pos == end && pc.done == end - pos
  {
    hide InsertEmbeddings, CanEmbed;
  }

  lemma FillGains(db: Db, m: string, items: seq<Item>, lo: nat, hi: nat)
    requires lo <= hi <= |items| && CanEmbed(db, m, items[lo..hi])
    ensures Gained(db, InsertEmbeddings(db, m, items[lo..hi], DoNothing), m, Batch(items, lo, hi))
  {
    var batch := items[lo..hi];
    InsertAllKeys(db.tables[m], m, batch, DoNothing);
    var table := InsertAll(db.tables[m], m, batch, DoNothing);
    forall c ensures c in table <==> c in db.tables[m] || c in Batch(items, lo, hi) {
      if c in Batch(items, lo, hi) {
        var i :| lo <= i < hi && items[i].id == c;
        assert batch[i - lo].id == c;
      }
    }
    assert InsertEmbeddings(db, m, batch, DoNothing) == db.(tables := db.tables[m := table]);
    hide InsertAll, InsertEmbeddings;
  }

  lemma RebuildGains(db: Db, run: Run, a: Answer)
    requires run.job.spec.jobType == Rebuild && !IsIngestPc(run.pc)
    ensures
      var (db', pc) := Proceed(db, run, a);
      && (run.pc.AtFill? && pc.AtRecordFill? ==>
              && run.pc.pos <= pc.pos <= |run.pc.items|
              && pc.done == pc.pos - run.pc.pos)
      && Gained(db, db', run.job.spec.modelId, Adds(run, pc))
  {
    var (db', pc) := Proceed(db, run, a);
    if run.pc.AtFill? && pc.AtRecordFill? {
      FillOutcome(db, run, a);
      FillGains(db, run.job.spec.modelId, run.pc.items, run.pc.pos, BatchEnd(run.pc.items, run.pc.pos));
      hide Proceed, Gained, InsertEmbeddings;
    } else {
      OtherGains(db, run, a);
      hide Proceed, Gained;
    }
  }

  lemma OtherGains(db: Db, run: Run, a: Answer)
    requires !IsIngestPc(run.pc) && !(run.pc.AtFill? && Proceed(db, run, a).1.AtRecordFill?)
    ensures Gained(db, Proceed(db, run, a).0, run.job.spec.modelId, {})
  {
    hide Lists, ItemsOf, Missing, InsertAll, CanEmbed;
  }

  lemma StepOnTrack(db: Db, r: RunId, run: Run, a: Answer)
    requires RunSound(db, r, run) && run.job.spec.jobType == Rebuild && !IsIngestPc(run.pc) && OnTrack(db, run)
    ensures var (db', pc) := Proceed(db, run, a); !pc.Finished? ==> OnTrack(db', run.(pc := pc))
  {
    var m, scope := run.job.spec.modelId, run.job.spec.addressId;
    var (db', pc) := Proceed(db, run, a);
    RebuildGains(db, run, a);
    SameLive(db, db', m, scope, Adds(run, pc));
    if run.pc.AtFill? && pc.AtRecordFill? {
      FillOutcome(db, run, a);
      ExactTail(run.pc.items, run.pc.pos, pc.pos, Missing(db, m, scope));
      hide Proceed, Gained, InsertEmbeddings, Exact, CanEmbed;
      assert m in db'.tables by { TableStays(db, m, run.pc.items[run.pc.pos..pc.pos]); }
    } else if (run.pc.AtMissing? || run.pc.AtSweep?) && Lists(a.order, Missing(db, m, scope)) {
      ExactItems(db, a.order, Missing(db, m, scope));
      ExactEnds(ItemsOf(db, a.order, None), Missing(db, m, scope));
      hide Gained, Exact, Missing, ItemsOf, Lists;
    } else {
      StepOnTrackRest(db, run, a);
      hide Proceed, Gained, Exact, Missing;
    }
  }

  lemma TableStays(db: Db, m: string, items: seq<Item>)
    requires CanEmbed(db, m, items)
    ensures m in InsertEmbeddings(db, m, items, DoNothing).tables
  {
  }

  lemma ExactEnds(items: seq<Item>, ids: set<ChunkId>)
    requires Exact(items, 0, ids)
    ensures items == [] ==> ids == {}
  {
  }

  lemma StepOnTrackRest(db: Db, run: Run, a: Answer)
    requires !IsIngestPc(run.pc) && OnTrack(db, run) && PositionSound(run.pc)
    requires Missing(Proceed(db, run, a).0, run.job.spec.modelId, run.job.spec.addressId)
               == Missing(db, run.job.spec.modelId, run.job.spec.addressId)
    requires !(run.pc.AtFill? && Proceed(db, run, a).1.AtRecordFill?)
    requires run.pc.AtMissing? || run.pc.AtSweep? ==>
               !Lists(a.order, Missing(db, run.job.spec.modelId, run.job.spec.addressId))
    ensures var (db', pc) := Proceed(db, run, a); !pc.Finished? ==> OnTrack(db', run.(pc := pc))
  {
    hide Lists, ItemsOf, Missing, InsertAll, CanEmbed;
  }

  // ---- a run on its own -----------------------------------------------------------------

  ghost predicate Alone(db0: Db, r: RunId, db: Db, run: Run, filled: nat) {
    var m, scope := run.job.spec.modelId, run.job.spec.addressId;
    && DbSound(db) && run.job.spec.jobType == Rebuild && !IsIngestPc(run.pc)
    && (run.pc.Finished? || (RunSound(db, r, run) && OnTrack(db, run)))
    && db.chunks == db0.chunks && db.documents == db0.documents
    && Backfilled(db, m, scope) == Backfilled(db0, m, scope)
    && filled + |Missing(db, m, scope)| == |Missing(db0, m, scope)|
    && (forall k :: k != m ==> (k in db0.tables <==> k in db.tables))
    && (forall k | k in db0.tables && k != m :: db.tables[k] == db0.tables[k])
  }

  lemma FillsMissing(db: Db, r: RunId, run: Run, a: Answer)
    requires RunSound(db, r, run) && run.job.spec.jobType == Rebuild && !IsIngestPc(run.pc) && OnTrack(db, run)
    ensures
      var (db', pc) := Proceed(db, run, a);
      var m, scope := run.job.spec.modelId, run.job.spec.addressId;
      && (run.pc.AtFill? && pc.AtRecordFill? ==> run.pc.pos <= pc.pos <= |run.pc.items|)
      && Gained(db, db', m, Adds(run, pc)) && Adds(run, pc) <= Missing(db, m, scope)
      && |Missing(db', m, scope)| + Fills(run.pc, pc) == |Missing(db, m, scope)|
  {
    var m, scope := run.job.spec.modelId, run.job.spec.addressId;
    var (db', pc) := Proceed(db, run, a);
    RebuildGains(db, run, a);
    SameLive(db, db', m, scope, Adds(run, pc));
    if run.pc.AtFill? && pc.AtRecordFill? {
      ExactSize(run.pc.items, run.pc.pos, Missing(db, m, scope));
      ExactTail(run.pc.items, run.pc.pos, pc.pos, Missing(db, m, scope));
      ExactSize(run.pc.items, pc.pos, Missing(db', m, scope));
    }
    hide Proceed, RunSound, Gained, Missing, Exact, Batch;
  }

  lemma StepAlone(db0: Db, r: RunId, db: Db, run: Run, filled: nat, a: Answer)
    requires Alone(db0, r, db, run, filled) && !run.pc.Finished?
    ensures var (db', pc) := Proceed(db, run, a); Alone(db0, r, db', run.(pc := pc), filled + Fills(run.pc, pc))
  {
    hide Proceed, RunSound, DbSound, Missing, Backfilled, OnTrack, Evolves, Fills, Adds;
    var (db', pc) := Proceed(db, run, a);
    var m, scope := run.job.spec.modelId, run.job.spec.addressId;
    ProceedDbSound(db, r, run, a);
    ProceedRunSound(db, r, run, a);
    StepOnTrack(db, r, run, a);
    FillsMissing(db, r, run, a);
    SameGoal(db, db', m, scope, Adds(run, pc));
    StaysRebuild(db, r, run, a);
  }

  lemma StaysRebuild(db: Db, r: RunId, run: Run, a: Answer)
    requires RunSound(db, r, run) && run.job.spec.jobType == Rebuild
    ensures !IsIngestPc(Proceed(db, run, a).1)
  {
    ProceedKeepsProgram(db, r, run, a);
    hide Proceed, RunSound;
  }

  lemma {:induction false} SoloAlone(db: Db, r: RunId, run: Run, answers: Answers, n: nat)
    requires DbSound(db) && RunSound(db, r, run) && run.job.spec.jobType == Rebuild && run.pc.AtEnsure?
    ensures
      var (db', run') := Solo(db, run, answers, n);
      run'.job == run.job && Alone(db, r, db', run', Filled(db, run, answers, n))
  {
    hide Proceed, RunSound, DbSound, Alone;
    if n == 0 {
      StartsAlone(db, r, run);
    } else {
      SoloAlone(db, r, run, answers, n - 1);
      var (mid, at) := Solo(db, run, answers, n - 1);
      if at.pc.Finished? {
        AfterEnd(db, r, mid, at, Filled(db, run, answers, n - 1), answers(n - 1));
      } else {
        StepAlone(db, r, mid, at, Filled(db, run, answers, n - 1), answers(n - 1));
      }
    }
  }

  lemma StartsAlone(db: Db, r: RunId, run: Run)
    requires DbSound(db) && RunSound(db, r, run) && run.job.spec.jobType == Rebuild && run.pc.AtEnsure?
    ensures Alone(db, r, db, run, 0)
  {
  }

  lemma AfterEnd(db0: Db, r: RunId, db: Db, run: Run, filled: nat, a: Answer)
    requires Alone(db0, r, db, run, filled) && run.pc.Finished?
    ensures var (db', pc) := Proceed(db, run, a); Alone(db0, r, db', run.(pc := pc), filled + Fills(run.pc, pc))
  {
    assert Proceed(db, run, a) == (db, Finished);
    assert run == run.(pc := Finished);
    hide Alone;
  }

  /** A rebuild on its own, wherever it stops: chunks, documents and the other tables are as they were, it
      has stored one vector per chunk that is no longer missing, and at its `mark_done` none is missing. */
  lemma RebuildAlone(db: Db, r: RunId, run: Run, answers: Answers, n: nat)
    requires DbSound(db) && RunSound(db, r, run) && run.job.spec.jobType == Rebuild && run.pc.AtEnsure?
    ensures
      var (db', run') := Solo(db, run, answers, n);
      var m, scope := run.job.spec.modelId, run.job.spec.addressId;
      && db'.chunks == db.chunks && db'.documents == db.documents
      && (forall k | k in db.tables && k != m :: k in db'.tables && db'.tables[k] == db.tables[k])
      && Backfilled(db', m, scope) == Backfilled(db, m, scope)
      && Filled(db, run, answers, n) + |Missing(db', m, scope)| == |Missing(db, m, scope)|
      && (run'.pc.AtDone? ==>
           && Filled(db, run, answers, n) == |Missing(db, m, scope)|
           && m in db'.tables && db'.tables[m] == Backfilled(db, m, scope))
  {
    hide Proceed, Solo, Filled, RunSound, DbSound, IsIngestPc, Missing, Backfilled, OnTrack;
    SoloAlone(db, r, run, answers, n);
    var (db', run') := Solo(db, run, answers, n);
    if run'.pc.AtDone? {
      DoneOnTrack(db', run');
      NothingMissing(db', run.job.spec.modelId, run.job.spec.addressId);
    }
  }

  lemma DoneOnTrack(db: Db, run: Run)
    requires OnTrack(db, run) && run.pc.AtDone?
    ensures run.job.spec.modelId in db.tables && Missing(db, run.job.spec.modelId, run.job.spec.addressId) == {}
    ensures |Missing(db, run.job.spec.modelId, run.job.spec.addressId)| == 0
  {
    hide Missing;
  }

  lemma NothingMissing(db: Db, m: string, scope: string)
    requires Missing(db, m, scope) == {} && m in db.tables
    ensures Backfilled(db, m, scope) == db.tables[m]
  {
    hide Missing;
  }

  /** Cut after any number of steps, with `mid` the database when the rebuild is leased again: the second
      run finishes with the table an uncut run gives, and together they store each missing chunk once. */
  lemma ResumedRebuild(db: Db, r: RunId, run: Run, answers: Answers, n: nat,
                       mid: Db, r': RunId, run': Run, answers': Answers, n': nat,
                       uncut: Answers, k: nat)
    requires DbSound(db) && RunSound(db, r, run) && run.job.spec.jobType == Rebuild && run.pc.AtEnsure?
    requires var cut := Solo(db, run, answers, n).0;
      mid.chunks == cut.chunks && mid.documents == cut.documents && mid.tables == cut.tables
    requires DbSound(mid) && RunSound(mid, r', run') && run'.job.spec == run.job.spec && run'.pc.AtEnsure?
    requires Solo(mid, run', answers', n').1.pc.AtDone?
    requires Solo(db, run, uncut, k).1.pc.AtDone?
    ensures
      var m, scope := run.job.spec.modelId, run.job.spec.addressId;
      var last, whole := Solo(mid, run', answers', n').0, Solo(db, run, uncut, k).0;
      && m in last.tables && m in whole.tables && last.tables[m] == whole.tables[m] == Backfilled(db, m, scope)
      && Filled(mid, run', answers', n') == |Missing(mid, m, scope)|
      && Filled(db, run, answers, n) + Filled(mid, run', answers', n') == Filled(db, run, uncut, k)
  {
    hide Proceed, Solo, Filled, DbSound, RunSound;
    RebuildAlone(db, r, run, answers, n);
    RebuildAlone(mid, r', run', answers', n');
    RebuildAlone(db, r, run, uncut, k);
    SameTables(Solo(db, run, answers, n).0, mid, run.job.spec.modelId, run.job.spec.addressId);
    hide Missing, Backfilled;
  }

  lemma SameTables(a: Db, b: Db, m: string, scope: string)
    requires a.chunks == b.chunks && a.documents == b.documents && a.tables == b.tables
    ensures Missing(a, m, scope) == Missing(b, m, scope) && Backfilled(a, m, scope) == Backfilled(b, m, scope)
  {
  }
}
