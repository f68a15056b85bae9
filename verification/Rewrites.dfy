/** How a run can come to commit a version with rows that have no vector. */
module Rewrites {
  import opened Schema
  import opened Documents
  import opened Pipeline
  import opened Protocol
  import opened Integrity
  import opened Frames
  import opened Atomicity
  import opened Coverage
  import opened Snapshots
  import opened VersionRows
  import opened Exposure

  /** Event `i` is the SELECT of the run's embedding step, and the run has been in its loop ever since. */
  ghost predicate Selected(es: seq<Event>, i: nat, r: RunId, job: ClaimedJob) {
    && i < |es| && es[i].Go? && es[i].r == r && Selects(Exec(INIT, es[..i]), r, job)
    && forall k | i < k <= |es| :: InLoop(Exec(INIT, es[..k]), r, job)
  }

  predicate Selects(s: State, r: RunId, job: ClaimedJob) {
    r in s.runs && s.runs[r].job == job && s.runs[r].pc.AtSelect?
  }

  predicate InLoop(s: State, r: RunId, job: ClaimedJob) {
    r in s.runs && s.runs[r].job == job && Embeds(s.runs[r].pc)
  }

  /** Rows with keys below `bound` have a vector or are still to be embedded. */
  ghost predicate EmbedsBelow(db: Db, run: Run, bound: ChunkId) {
    var spec := run.job.spec;
    spec.documentId.Some? ==>
      forall c: ChunkId | c < bound && IsRow(db, spec.documentId.value, spec.docVersion, c) ::
        InTable(db, spec.modelId, c) || Left(run.pc, c)
  }

  // ---- one event --------------------------------------------------------------------------

  /** What the run's own steps in the loop leave is still left or has a vector. */
  lemma OwnLeft(s: State, r: RunId, a: Answer)
    requires Sound(s) && r in s.runs && Embeds(s.runs[r].pc) && Embeds(Proceed(s.db, s.runs[r], a).1)
    ensures
      var (db', pc) := Proceed(s.db, s.runs[r], a);
      forall c | Left(s.runs[r].pc, c) && !Left(pc, c) :: InTable(db', s.runs[r].job.spec.modelId, c)
  {
    var run := s.runs[r];
    SoundDb(s);
    EmbedsBefore(s.db, run, a);
    if run.pc.AtBatch? {
      hide DbSound, RunSound, Proceed, Sound;
      BatchLeft(s.db, r, run, a);
    } else {
      RecordLeaves(s.db, run, a);
      hide DbSound, RunSound, Proceed, Sound;
    }
  }

  /** An event after which the run is in its loop, as it was before. */
  lemma BelowNext(s: State, e: Event, r: RunId, job: ClaimedJob, bound: ChunkId)
    requires Sound(s) && InLoop(s, r, job) && InLoop(Next(s, e), r, job) && bound <= s.db.next
    requires EmbedsBelow(s.db, s.runs[r], bound)
    ensures EmbedsBelow(Next(s, e).db, Next(s, e).runs[r], bound)
  {
    var s' := Next(s, e);
    RunChange(s, e, r);
    hide Next, Sound, Evolves, Left, Proceed, EmbedsBelow, TableKept;
    NextSound(s, e);
    EvolvesTable(s.db, s'.db, job.spec.modelId);
    ChunksKept(s, e);
    if e.Go? && e.r == r { OwnLeft(s, r, e.a); }
    BelowTransfers(s.db, s'.db, s.runs[r], s'.runs[r], bound);
  }

  lemma BelowTransfers(db: Db, db': Db, run: Run, run': Run, bound: ChunkId)
    requires EmbedsBelow(db, run, bound) && run'.job == run.job && TableKept(db, db', run.job.spec.modelId)
    requires forall c | c in db'.chunks && c < bound :: c in db.chunks && db'.chunks[c] == db.chunks[c]
    requires forall c | Left(run.pc, c) && !Left(run'.pc, c) :: InTable(db', run.job.spec.modelId, c)
    ensures EmbedsBelow(db', run', bound)
  {
    hide Left;
  }

  /** The step that enters the loop has everything still to embed. */
  lemma EntersLoop(s: State, e: Event, r: RunId, job: ClaimedJob)
    requires Sound(s) && InLoop(Next(s, e), r, job) && !InLoop(s, r, job)
    ensures e.Go? && e.r == r && Selects(s, r, job)
    ensures EmbedsBelow(Next(s, e).db, Next(s, e).runs[r], s.db.next)
  {
    var s' := Next(s, e);
    RunChange(s, e, r);
    hide Next, Sound, Proceed, RunEmbeds;
    EmbedsBefore(s.db, s.runs[r], e.a);
    SelectEmbeds(s.db, s.runs[r], e.a);
    AllBelow(s'.db, s'.runs[r], s.db.next);
  }

  lemma AllBelow(db: Db, run: Run, bound: ChunkId)
    requires RunEmbeds(db, run) && Embeds(run.pc)
    ensures EmbedsBelow(db, run, bound)
  {
  }

  // ---- whole traces -----------------------------------------------------------------------

  lemma SelectedLater(es: seq<Event>, i: nat, r: RunId, job: ClaimedJob)
    requires es != [] && Selected(es[..|es| - 1], i, r, job) && InLoop(Exec(INIT, es), r, job)
    ensures Selected(es, i, r, job)
  {
    hide Exec, InLoop, Selects;
    var front := es[..|es| - 1];
    assert es[..i] == front[..i];
    forall k | i < k <= |es| ensures InLoop(Exec(INIT, es[..k]), r, job) {
      if k <= |front| { assert es[..k] == front[..k]; } else { assert es[..k] == es; }
    }
  }

  lemma SelectedNow(es: seq<Event>, r: RunId, job: ClaimedJob)
    requires es != [] && es[|es| - 1].Go? && es[|es| - 1].r == r && InLoop(Exec(INIT, es), r, job)
    requires Selects(Exec(INIT, es[..|es| - 1]), r, job)
    ensures Selected(es, |es| - 1, r, job)
  {
    hide Exec, InLoop, Selects;
    forall k | |es| - 1 < k <= |es| ensures InLoop(Exec(INIT, es[..k]), r, job) { assert es[..k] == es; }
  }

  /** Under every interleaving: a run in its loop has embedded, or still holds, every row of its version
      that was there at its SELECT. */
  lemma {:induction false} SelectOf(es: seq<Event>, r: RunId, job: ClaimedJob) returns (i: nat)
    requires InLoop(Exec(INIT, es), r, job)
    ensures Selected(es, i, r, job)
    ensures EmbedsBelow(Exec(INIT, es).db, Exec(INIT, es).runs[r], Exec(INIT, es[..i]).db.next)
  {
    hide Exec, Next, Sound, InLoop, EmbedsBelow, Selected, Evolves, Selects;
    NoLoopAtFirst(es, r, job);
    var front, e := es[..|es| - 1], es[|es| - 1];
    ExecSplit(INIT, es);
    ExecSound(front);
    if !InLoop(Exec(INIT, front), r, job) {
      EntersLoop(Exec(INIT, front), e, r, job);
      SelectedNow(es, r, job);
      return |front|;
    }
    i := SelectOf(front, r, job);
    SelectedInside(front, i, r, job);
    assert front[..i] == es[..i];
    NextGrows(front, i);
    BelowNext(Exec(INIT, front), e, r, job, Exec(INIT, es[..i]).db.next);
    SelectedLater(es, i, r, job);
  }

  lemma NoLoopAtFirst(es: seq<Event>, r: RunId, job: ClaimedJob)
    requires InLoop(Exec(INIT, es), r, job)
    ensures es != []
  {
  }

  lemma SelectedInside(es: seq<Event>, i: nat, r: RunId, job: ClaimedJob)
    requires Selected(es, i, r, job)
    ensures i < |es|
  {
    hide Exec;
  }

  lemma NextGrows(es: seq<Event>, i: nat)
    requires i <= |es|
    ensures Exec(INIT, es[..i]).db.next <= Exec(INIT, es).db.next
  {
    hide Exec;
    SuffixEvolves(es, i);
  }

  /** Another run wrote the version after the run's SELECT, and that write stands. */
  ghost predicate Rewritten(es: seq<Event>, i: nat, j: nat, r: RunId, d: DocId, v: int) {
    i < j && Stands(es, j, d, v) && es[j].r != r
  }

  /** Under every interleaving: a row that a run at its commit finds without a vector of its model was written
      by another run after this run's SELECT. */
  lemma BareRowIsRewritten(es: seq<Event>, r: RunId, d: DocId, c: ChunkId) returns (i: nat, j: nat)
    requires r in Exec(INIT, es).runs && Exec(INIT, es).runs[r].pc.AtCommit?
    requires
      var s := Exec(INIT, es);
      var spec := s.runs[r].job.spec;
      spec.documentId == Some(d) && IsRow(s.db, d, spec.docVersion, c) && !InTable(s.db, spec.modelId, c)
    ensures
      var job := Exec(INIT, es).runs[r].job;
      && Selected(es, i, r, job) && Rewritten(es, i, j, r, d, job.spec.docVersion)
      && j < |es| && es[j].Go? && es[j].r in Exec(INIT, es[..j]).runs
  {
    var s := Exec(INIT, es);
    var job := s.runs[r].job;
    var v := job.spec.docVersion;
    hide Exec, Stands, Selected, Exactly, Wrote, Writes, EmbedsBelow, IsRow;
    i := SelectOf(es, r, job);
    NothingLeft(s.db, s.runs[r], d, c, Exec(INIT, es[..i]).db.next);
    NeverAMix(es, d, v);
    StandsForRow(s.db, d, v, c);
    j :| Stands(es, j, d, v);
    var w := s.hist.written[(Some(d), v)];
    InWritten(s.db, d, v, w, c);
    WroteAt(es, i, j, d, v, w);
    SelectedInside(es, i, r, job);
    LoopNotWrite(es, i, j, r, job);
  }

  /** Hence readers get a chunk without a vector by a commit only after such a rewrite, as long as vectors of the
      committing model count. That rewriting leaves its rows without one is `WriteBares`. */
  lemma CommitExposesRewritten(es: seq<Event>, models: iset<string>, r: RunId, a: Answer, d: DocId)
    returns (i: nat, j: nat)
    requires r in Exec(INIT, es).runs && Exec(INIT, es).runs[r].pc.AtCommit?
    requires
      var spec := Exec(INIT, es).runs[r].job.spec;
      spec.documentId == Some(d) && spec.modelId in models && d in Exec(INIT, es).db.documents
    requires Exposed(Next(Exec(INIT, es), Go(r, a)).db, models, d)
    ensures
      var job := Exec(INIT, es).runs[r].job;
      Selected(es, i, r, job) && Rewritten(es, i, j, r, d, job.spec.docVersion)
  {
    var s := Exec(INIT, es);
    hide Exec, Next, Sound, Exposed, Selected, Stands, IsRow, InTable;
    ExecSound(es);
    CommitVectors(s, models, r, a, d);
    var c :| IsRow(s.db, d, s.runs[r].job.spec.docVersion, c) && !Embedded(s.db, models, c);
    assert !InTable(s.db, s.runs[r].job.spec.modelId, c);
    i, j := BareRowIsRewritten(es, r, d, c);
  }

  lemma NothingLeft(db: Db, run: Run, d: DocId, c: ChunkId, bound: ChunkId)
    requires run.pc.AtCommit? && run.job.spec.documentId == Some(d) && EmbedsBelow(db, run, bound)
    requires IsRow(db, d, run.job.spec.docVersion, c) && !InTable(db, run.job.spec.modelId, c)
    ensures c >= bound
  {
  }

  lemma StandsForRow(db: Db, d: DocId, v: int, c: ChunkId)
    requires IsRow(db, d, v, c)
    ensures VersionChunks(db, Some(d), v) != {}
  {
    assert c in VersionChunks(db, Some(d), v);
  }

  lemma InWritten(db: Db, d: DocId, v: int, w: Written, c: ChunkId)
    requires Exactly(db, d, v, w) && IsRow(db, d, v, c)
    ensures w.first <= c < w.first + |w.rows|
  {
    assert c in VersionChunks(db, Some(d), v);
  }

  /** A write up to the SELECT gives keys below those of the SELECT. */
  lemma WroteAt(es: seq<Event>, i: nat, j: nat, d: DocId, v: int, w: Written)
    requires i < |es| && Stands(es, j, d, v) && Wrote(es, j, d, v, w)
    ensures j < |es| && es[j].Go? && es[j].r in Exec(INIT, es[..j]).runs
    ensures Exec(INIT, es[..j]).runs[es[j].r].pc.AtWrite?
    ensures j < i ==> w.first + |w.rows| <= Exec(INIT, es[..i]).db.next
  {
    if j < i {
      var upto := es[..j + 1];
      assert es[..i][..j + 1] == upto && upto[..|upto| - 1] == es[..j];
      ExecSplit(INIT, upto);
      WriteTakesKeys(Exec(INIT, es[..j]), es[j], d, v);
      hide Exec, Next, Writes, Proceed;
      NextGrows(es[..i], j + 1);
    }
  }

  lemma WriteTakesKeys(s: State, e: Event, d: DocId, v: int)
    requires Writes(s, e, d, v)
    ensures Next(s, e).db.next == s.db.next + |s.runs[e.r].pc.rows|
  {
    var run := s.runs[e.r];
    GoIs(s, e.r, e.a);
    WriteOutcome(s.db, run, e.a);
    hide Next, Proceed, ReplaceChunks;
    ReplaceChunksFrame(s.db, run.job.spec.documentId, run.job.spec.addressId, v, run.pc.rows);
  }

  /** The run does not write from its SELECT on. */
  lemma LoopNotWrite(es: seq<Event>, i: nat, j: nat, r: RunId, job: ClaimedJob)
    requires Selected(es, i, r, job) && j < |es| && es[j].Go? && es[j].r in Exec(INIT, es[..j]).runs
    requires Exec(INIT, es[..j]).runs[es[j].r].pc.AtWrite? && i <= j
    ensures i < j && es[j].r != r
  {
    hide Exec;
    assert i < j ==> InLoop(Exec(INIT, es[..j]), r, job);
  }
}
