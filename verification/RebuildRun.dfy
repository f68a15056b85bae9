/** A rebuild that nothing disturbs: how many calls it makes, and what its row says at the end. */
module RebuildRun {
  import opened Schema
  import opened Embeddings
  import opened Pipeline
  import opened Protocol
  import opened Integrity
  import opened Frames
  import opened Resume
  import opened Scope

  /** The SELECTs of the rebuild return each wanted chunk without a vector once, and nothing else. */
  ghost predicate Answered(db: Db, run: Run, a: Answer) {
    run.pc.AtMissing? || run.pc.AtSweep? ==>
      && (forall c :: c in a.order <==>
            Wanted(db, run.job.spec.addressId, c) && !HasVector(db, run.job.spec.modelId, c))
      && forall i, j | 0 <= i < j < |a.order| :: a.order[i] != a.order[j]
  }

  /** There is always such an answer. */
  lemma AnswerExists(db: Db, run: Run) returns (a: Answer)
    ensures Answered(db, run, a)
  {
    var order := Listing(Missing(db, run.job.spec.modelId, run.job.spec.addressId));
    a := Answer([], order, 0, 0.0);
  }

  lemma {:induction false} Listing(ids: set<ChunkId>) returns (order: seq<ChunkId>)
    ensures (forall c :: c in order <==> c in ids) && forall i, j | 0 <= i < j < |order| :: order[i] != order[j]
  {
    order := [];
    if ids != {} {
      var c :| c in ids;
      var rest := Listing(ids - {c});
      order := [c] + rest;
    }
  }

  /** Two calls per batch of at most 128 chunks. */
  function BatchCalls(n: nat): nat {
    2 * ((n + 127) / 128)
  }

  /** Calls from the sweep's end on: a global rebuild sets the active model, then both end. */
  function EndCalls(scope: string): nat {
    if scope == "*" then 2 else 1
  }

  /** The calls a run still makes. */
  function CallsLeft(db: Db, run: Run): nat {
    var m, scope := run.job.spec.modelId, run.job.spec.addressId;
    match run.pc
    case AtEnsure => 4 + BatchCalls(|Missing(db, m, scope)|) + 1 + EndCalls(scope)
    case AtRebuilding => 3 + BatchCalls(|Missing(db, m, scope)|) + 1 + EndCalls(scope)
    case AtMissing => 2 + BatchCalls(|Missing(db, m, scope)|) + 1 + EndCalls(scope)
    case AtCountMissing(items) => 1 + BatchCalls(|items|) + 1 + EndCalls(scope)
    case AtFill(items, pos, sweep) =>
      (if pos <= |items| then BatchCalls(|items| - pos) else 0) + (if sweep then 0 else 1) + EndCalls(scope)
    case AtRecordFill(items, pos, _, _, _, sweep) =>
      1 + (if pos <= |items| then BatchCalls(|items| - pos) else 0) + (if sweep then 0 else 1) + EndCalls(scope)
    case AtSweep => 1 + EndCalls(scope)
    case AtActivate => 2
    case AtDone => 1
    case _ => 0
  }

  lemma AnsweredLists(db: Db, run: Run, a: Answer)
    requires Answered(db, run, a) && (run.pc.AtMissing? || run.pc.AtSweep?)
    ensures Lists(a.order, Missing(db, run.job.spec.modelId, run.job.spec.addressId))
  {
    var ids := Missing(db, run.job.spec.modelId, run.job.spec.addressId);
    forall c ensures c in ids <==> c in a.order {
      assert c in ids <==> Wanted(db, run.job.spec.addressId, c) && !HasVector(db, run.job.spec.modelId, c);
    }
    assert forall i | 0 <= i < |a.order| :: a.order[i] in a.order;
  }

  lemma BatchesShrink(n: nat)
    requires n > 0
    ensures BatchCalls(n) == 2 + BatchCalls(if n <= 128 then 0 else n - 128)
  {
  }

  // ---- one call -----------------------------------------------------------------------------

  lemma SelectCall(db: Db, run: Run, a: Answer)
    requires Answered(db, run, a) && (run.pc.AtMissing? || run.pc.AtSweep?) && OnTrack(db, run)
    ensures
      var (db', pc) := Proceed(db, run, a);
      && db' == db && CallsLeft(db, run.(pc := pc)) + 1 == CallsLeft(db, run)
      && (run.pc.AtMissing? ==>
            && pc.AtCountMissing?
            && |pc.items| == |Missing(db, run.job.spec.modelId, run.job.spec.addressId)|)
      && (run.pc.AtSweep? ==> pc.AtActivate? || pc.AtDone?)
  {
    var ids := Missing(db, run.job.spec.modelId, run.job.spec.addressId);
    AnsweredLists(db, run, a);
    ExactItems(db, a.order, ids);
    ExactSize(ItemsOf(db, a.order, None), 0, ids);
    hide Answered, Missing, Exact, Lists;
  }

  lemma FillCall(db: Db, run: Run, a: Answer)
    requires run.pc.AtFill? && run.pc.pos < |run.pc.items| && OnTrack(db, run)
    ensures
      var (db', pc) := Proceed(db, run, a);
      var end := if run.pc.pos + 128 <= |run.pc.items| then run.pc.pos + 128 else |run.pc.items|;
      && pc == AtRecordFill(run.pc.items, end, end - run.pc.pos, a.tokens, a.cost, run.pc.sweep)
      && db'.jobs == db.jobs && CallsLeft(db', run.(pc := pc)) + 1 == CallsLeft(db, run)
  {
    var items, pos := run.pc.items, run.pc.pos;
    BatchesShrink(|items| - pos);
    MissingCanEmbed(db, run);
    FillIs(db, run, a);
    hide CanEmbed, BatchCalls, Proceed, OnTrack;
  }

  lemma MissingCanEmbed(db: Db, run: Run)
    requires run.pc.AtFill? && run.pc.pos < |run.pc.items| && OnTrack(db, run)
    ensures CanEmbed(db, run.job.spec.modelId, run.pc.items[run.pc.pos..BatchEnd(run.pc.items, run.pc.pos)])
  {
    var m, items, pos := run.job.spec.modelId, run.pc.items, run.pc.pos;
    var batch := items[pos..BatchEnd(items, pos)];
    forall i | 0 <= i < |batch| ensures batch[i].id in db.chunks {
      assert items[pos + i].id in Missing(db, m, run.job.spec.addressId);
    }
  }

  lemma FillIs(db: Db, run: Run, a: Answer)
    requires run.pc.AtFill? && run.pc.pos < |run.pc.items|
    requires CanEmbed(db, run.job.spec.modelId, run.pc.items[run.pc.pos..BatchEnd(run.pc.items, run.pc.pos)])
    ensures
      var (db', pc) := Proceed(db, run, a);
      var end := if run.pc.pos + 128 <= |run.pc.items| then run.pc.pos + 128 else |run.pc.items|;
      pc == AtRecordFill(run.pc.items, end, end - run.pc.pos, a.tokens, a.cost, run.pc.sweep) && db'.jobs == db.jobs
  {
    hide CanEmbed, InsertAll;
  }

  lemma OtherCall(db: Db, run: Run, a: Answer)
    requires !IsIngestPc(run.pc) && !run.pc.AtMissing? && !run.pc.AtSweep? && !run.pc.AtFill? && !run.pc.Finished?
    requires !run.pc.AtFailing? && PositionSound(run.pc) && (run.pc.AtActivate? ==> run.job.spec.addressId == "*")
    requires Missing(Proceed(db, run, a).0, run.job.spec.modelId, run.job.spec.addressId)
               == Missing(db, run.job.spec.modelId, run.job.spec.addressId)
    ensures
      var (db', pc) := Proceed(db, run, a);
      && !pc.AtFailing? && CallsLeft(db', run.(pc := pc)) + 1 == CallsLeft(db, run)
      && (pc.Finished? <==> run.pc.AtDone?)
  {
    hide Missing, BatchCalls;
    assert BatchCalls(0) == 0 by { NoBatches(); }
  }

  lemma NoBatches()
    ensures BatchCalls(0) == 0
  {
  }

  /** Each call brings the run one nearer to its end, and none of them raises. */
  lemma CallSucceeds(db: Db, r: RunId, run: Run, a: Answer)
    requires RunSound(db, r, run) && run.job.spec.jobType == Rebuild && !IsIngestPc(run.pc) && OnTrack(db, run)
    requires !run.pc.AtFailing? && Answered(db, run, a)
    ensures
      var (db', pc) := Proceed(db, run, a);
      && !pc.AtFailing? && CallsLeft(db', run.(pc := pc)) + 1 == CallsLeft(db, run)
      && (pc.Finished? <==> run.pc.AtDone?)
  {
    RunFacts(db, r, run);
    RebuildGains(db, run, a);
    SameLive(db, Proceed(db, run, a).0, run.job.spec.modelId, run.job.spec.addressId, Adds(run, Proceed(db, run, a).1));
    hide RunSound, Missing, OnTrack, CallsLeft, Answered;
    if run.pc.AtMissing? || run.pc.AtSweep? {
      SelectCall(db, run, a);
    } else if run.pc.AtFill? {
      FillCall(db, run, a);
    } else {
      OtherCall(db, run, a);
    }
  }

  lemma RunFacts(db: Db, r: RunId, run: Run)
    requires RunSound(db, r, run)
    ensures PositionSound(run.pc) && !run.pc.Finished? && (run.pc.AtActivate? ==> run.job.spec.addressId == "*")
  {
  }

  // ---- the whole run ------------------------------------------------------------------------

  ghost predicate AllAnswered(db: Db, run: Run, answers: Answers) {
    forall k: nat :: Answered(Solo(db, run, answers, k).0, Solo(db, run, answers, k).1, answers(k))
  }

  /** Vectors stored whose number the row does not have yet. */
  function Unrecorded(pc: Pc): nat {
    if pc.AtRecordFill? then pc.done else 0
  }

  predicate BeforeCount(pc: Pc) {
    pc.AtEnsure? || pc.AtRebuilding? || pc.AtMissing? || pc.AtCountMissing?
  }

  /** The row counts the vectors stored, and once they are known the chunks that were missing. */
  predicate RowCounts(j0: Job, db: Db, run: Run, filled: nat, total: nat) {
    && run.job.taskId in db.jobs
    && var j := db.jobs[run.job.taskId];
      && j.embeddingCount + Unrecorded(run.pc) == j0.embeddingCount + filled
      && (run.pc.AtCountMissing? ==> |run.pc.items| == total)
      && (if BeforeCount(run.pc) then filled == 0 else j.chunkCount == total)
      && j.(state := j0.state, chunkCount := j0.chunkCount, embeddingCount := j0.embeddingCount,
            tokens := j0.tokens, cost := j0.cost) == j0
  }

  lemma CountsNext(j0: Job, db: Db, run: Run, filled: nat, total: nat, a: Answer)
    requires RowCounts(j0, db, run, filled, total) && !IsIngestPc(run.pc) && OnTrack(db, run)
    requires !run.pc.AtFailing? && !run.pc.Finished? && !run.pc.AtDone? && Answered(db, run, a)
    requires PositionSound(run.pc)
    requires run.pc.AtMissing? ==> |Missing(db, run.job.spec.modelId, run.job.spec.addressId)| == total
    ensures
      var (db', pc) := Proceed(db, run, a);
      RowCounts(j0, db', run.(pc := pc), filled + Fills(run.pc, pc), total)
  {
    if run.pc.AtMissing? || run.pc.AtSweep? {
      SelectCall(db, run, a);
      hide OnTrack, Answered, Missing, Proceed, CallsLeft;
    } else if run.pc.AtFill? {
      MissingCanEmbed(db, run);
      FillIs(db, run, a);
      hide OnTrack, Answered, Missing, Proceed;
    } else {
      hide OnTrack, Answered, Missing;
    }
  }

  /** After `k` calls the run is `k` calls nearer to its end, and its row counts what it has stored. */
  lemma {:induction false} Advances(db: Db, r: RunId, run: Run, answers: Answers, k: nat)
    requires DbSound(db) && RunSound(db, r, run) && run.job.spec.jobType == Rebuild && run.pc.AtEnsure?
    requires AllAnswered(db, run, answers) && k < CallsLeft(db, run)
    ensures
      var (db', run') := Solo(db, run, answers, k);
      && CallsLeft(db', run') + k == CallsLeft(db, run) && !run'.pc.AtFailing? && !run'.pc.Finished?
      && run.job.taskId in db.jobs && db'.now == db.now
      && RowCounts(db.jobs[run.job.taskId], db', run', Filled(db, run, answers, k),
                   |Missing(db, run.job.spec.modelId, run.job.spec.addressId)|)
      && run'.job == run.job
  {
    hide Proceed, DbSound, RunSound, Alone, CallsLeft, RowCounts, Missing, Answered, Solo, Filled, Fills;
    if k == 0 {
      StartCounts(db, r, run);
      SoloNone(db, run, answers);
      FilledNext(db, run, answers, 0);
    } else {
      var (mid, at) := Solo(db, run, answers, k - 1);
      Advances(db, r, run, answers, k - 1);
      SoloAlone(db, r, run, answers, k - 1);
      assert Answered(mid, at, answers(k - 1));
      OneCall(db, r, db.jobs[run.job.taskId], mid, at, Filled(db, run, answers, k - 1), answers(k - 1));
      SoloNext(db, run, answers, k - 1, mid, at);
      FilledNext(db, run, answers, k - 1);
    }
  }

  lemma OneCall(db0: Db, r: RunId, j0: Job, db: Db, run: Run, filled: nat, a: Answer)
    requires Alone(db0, r, db, run, filled) && Answered(db, run, a) && !run.pc.AtFailing? && !run.pc.Finished?
    requires CallsLeft(db, run) > 1
    requires RowCounts(j0, db, run, filled, |Missing(db0, run.job.spec.modelId, run.job.spec.addressId)|)
    ensures
      var (db', pc) := Proceed(db, run, a);
      && CallsLeft(db', run.(pc := pc)) + 1 == CallsLeft(db, run) && !pc.AtFailing? && !pc.Finished?
      && db'.now == db.now
      && RowCounts(j0, db', run.(pc := pc), filled + Fills(run.pc, pc),
                   |Missing(db0, run.job.spec.modelId, run.job.spec.addressId)|)
  {
    hide Proceed, RunSound, Alone, CallsLeft, Missing, OnTrack, Answered;
    AloneFacts(db0, r, db, run, filled);
    CallSucceeds(db, r, run, a);
    if run.pc.AtDone? { DoneIsOne(db, run); }
    TimeStays(db, run, a);
    CountsNext(j0, db, run, filled, |Missing(db0, run.job.spec.modelId, run.job.spec.addressId)|, a);
  }

  lemma StartCounts(db: Db, r: RunId, run: Run)
    requires RunSound(db, r, run) && run.job.spec.jobType == Rebuild && run.pc.AtEnsure?
    ensures run.job.taskId in db.jobs
    ensures RowCounts(db.jobs[run.job.taskId], db, run, 0,
                      |Missing(db, run.job.spec.modelId, run.job.spec.addressId)|)
  {
  }

  lemma AloneFacts(db0: Db, r: RunId, db: Db, run: Run, filled: nat)
    requires Alone(db0, r, db, run, filled) && !run.pc.Finished?
    ensures RunSound(db, r, run) && OnTrack(db, run) && !IsIngestPc(run.pc) && run.job.spec.jobType == Rebuild
    ensures PositionSound(run.pc)
    ensures filled + |Missing(db, run.job.spec.modelId, run.job.spec.addressId)|
         == |Missing(db0, run.job.spec.modelId, run.job.spec.addressId)|
  {
  }

  lemma DoneIsOne(db: Db, run: Run)
    requires run.pc.AtDone?
    ensures CallsLeft(db, run) == 1
  {
  }

  lemma TimeStays(db: Db, run: Run, a: Answer)
    ensures Proceed(db, run, a).0.now == db.now
  {
    ProceedFrame(db, run, a);
    hide Proceed;
  }

  lemma LastCall(db: Db, r: RunId, run: Run)
    requires RunSound(db, r, run) && CallsLeft(db, run) == 1
    ensures run.pc.AtDone?
  {
    if run.pc.AtFill? { BatchesShrink(|run.pc.items| - run.pc.pos); }
    hide BatchCalls, Missing;
  }

  lemma DoneStep(db: Db, run: Run, a: Answer)
    requires run.pc.AtDone? && run.job.taskId in db.jobs
    ensures Proceed(db, run, a) ==
      (db.(jobs := db.jobs[run.job.taskId :=
         db.jobs[run.job.taskId].(state := Done, finishedAt := Some(db.now), fault := None)]), Finished)
  {
  }

  lemma CallsAtStart(db: Db, run: Run, ids: set<ChunkId>)
    requires run.pc.AtEnsure?
    requires forall c :: c in ids <==>
               Wanted(db, run.job.spec.addressId, c) && !HasVector(db, run.job.spec.modelId, c)
    ensures Missing(db, run.job.spec.modelId, run.job.spec.addressId) == ids
    ensures CallsLeft(db, run)
         == 4 + 2 * ((|ids| + 127) / 128) + 1 + (if run.job.spec.addressId == "*" then 2 else 1)
  {
  }

  /** A rebuild that nothing disturbs, with `ids` the chunks that are live, of the address of its scope (or of any,
      for "*") and without a vector under its model: after five calls, two per batch of at most 128 of them, one
      more that makes the model active if the scope is "*", and the `mark_done`, it is done. Exactly these chunks
      have got a vector; the active model has changed exactly for "*"; the row counts them and is done. */
  lemma RebuildSucceeds(db: Db, r: RunId, run: Run, answers: Answers, ids: set<ChunkId>)
    requires DbSound(db) && RunSound(db, r, run) && run.job.spec.jobType == Rebuild && run.pc.AtEnsure?
    requires AllAnswered(db, run, answers)
    requires forall c :: c in ids <==>
               Wanted(db, run.job.spec.addressId, c) && !HasVector(db, run.job.spec.modelId, c)
    ensures
      var spec := run.job.spec;
      var calls := 4 + 2 * ((|ids| + 127) / 128) + 1 + (if spec.addressId == "*" then 2 else 1);
      var (db', run') := Solo(db, run, answers, calls);
      && run'.pc.Finished? && db'.chunks == db.chunks && db'.documents == db.documents
      && (forall c :: HasVector(db', spec.modelId, c) <==> HasVector(db, spec.modelId, c) || c in ids)
      && db'.active == (if spec.addressId == "*" then Some(spec.modelId) else db.active)
      && run.job.taskId in db.jobs && run.job.taskId in db'.jobs
      && var j, j' := db.jobs[run.job.taskId], db'.jobs[run.job.taskId];
        && j'.state == Done && j'.finishedAt == Some(db.now) && j'.fault == None && j'.chunkCount == |ids|
        && j'.embeddingCount == j.embeddingCount + |ids| && j'.attempts == j.attempts && j'.spec == j.spec
  {
    hide Proceed, DbSound, RunSound, CallsLeft, Missing, Answered, Solo, Filled, AllAnswered;
    CallsAtStart(db, run, ids);
    var n := CallsLeft(db, run) - 1;
    Advances(db, r, run, answers, n);
    RebuildAlone(db, r, run, answers, n);
    var (mid, at) := Solo(db, run, answers, n);
    SoloAlone(db, r, run, answers, n);
    AloneFacts(db, r, mid, at, Filled(db, run, answers, n));
    LastCall(mid, r, at);
    RebuildActivates(db, r, run, answers, n);
    DoneStep(mid, at, answers(n));
    SoloNext(db, run, answers, n, mid, at);
    hide Alone, OnTrack, Backfilled, Wanted;
    forall c ensures HasVector(mid, run.job.spec.modelId, c) <==> HasVector(db, run.job.spec.modelId, c) || c in ids {
      RebuildEmbedsWanted(db, r, run, answers, n, c);
    }
    SameVectors(mid, Solo(db, run, answers, n + 1).0, run.job.spec.modelId);
  }

  lemma SameVectors(db: Db, db': Db, m: string)
    requires db'.tables == db.tables
    ensures forall c :: HasVector(db', m, c) <==> HasVector(db, m, c)
  {
  }

  /** What the provider reports for a batch is what the row gains, for an ingest and for a rebuild. */
  lemma BatchIsRecorded(db: Db, run: Run, a: Answer, b: Answer)
    requires run.job.taskId in db.jobs && PositionSound(run.pc)
    requires (run.pc.AtBatch? && Proceed(db, run, a).1.AtRecord?)
             || (run.pc.AtFill? && Proceed(db, run, a).1.AtRecordFill?)
    ensures
      var (mid, pc) := Proceed(db, run, a);
      var db' := Proceed(mid, run.(pc := pc), b).0;
      var size := if run.pc.pos + 128 <= |run.pc.items| then 128 else |run.pc.items| - run.pc.pos;
      var j := db.jobs[run.job.taskId];
      db'.jobs == db.jobs[run.job.taskId := j.(embeddingCount := j.embeddingCount + size,
                                               tokens := j.tokens + a.tokens, cost := j.cost + a.cost)]
  {
    hide CanEmbed, InsertAll;
  }
}
