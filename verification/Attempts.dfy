/** How many vectors an ingest is charged for, attempt by attempt, when the runs of
    one document do not overlap. */
module Attempts {
  import opened Schema
  import opened Tasks
  import opened Documents
  import opened Embeddings
  import opened Pipeline
  import opened Protocol
  import opened Integrity
  import opened Frames
  import opened Atomicity
  import opened Readers
  import opened Leases
  import opened Accounting

  /** Vectors the run has still to record, when its write has `n` rows. */
  function Ahead(pc: Pc, n: nat): int {
    match pc
    case AtBatch(items, pos) => |items| - pos
    case AtRecord(items, pos, done, _, _) => |items| - pos + done
    case AtSkip | AtCommit | AtDone | AtFailing(_) | Finished => 0
    case _ => n
  }

  /** The program points from the recorded chunk count on. */
  predicate Counted(pc: Pc) {
    pc.AtEmbedding? || pc.AtSelect? || pc.AtBatch? || pc.AtRecord? || pc.AtCommit? || pc.AtDone?
  }

  predicate Before(pc: Pc) {
    pc.AtLoad? || pc.AtSkip? || pc.AtExtracting? || pc.AtExtract? || pc.AtChunking? || pc.AtWrite? || pc.AtCount?
  }

  /** The rows the run works on number `n`. */
  predicate Sized(pc: Pc, n: int) {
    match pc
    case AtChunking(rows) => |rows| == n
    case AtWrite(rows) => |rows| == n
    case AtCount(k) => k == n
    case AtBatch(items, _) => |items| == n
    case AtRecord(items, _, _, _, _) => |items| == n
    case _ => true
  }

  function LastWrite(h: History, spec: Spec): nat {
    if (spec.documentId, spec.docVersion) in h.written then |h.written[(spec.documentId, spec.docVersion)].rows| else 0
  }

  /** One run of an ingest job whose row is there: the only run, of the row's attempt. */
  ghost predicate RunCharged(h: History, r: RunId, run: Run, j: Job) {
    && r.1 == j.attempts && InFlight(j.state)
    && (PastWrite(run.pc) ==> Sized(run.pc, LastWrite(h, run.job.spec)))
    && (PastWrite(run.pc) && Counted(run.pc) ==> j.chunkCount == LastWrite(h, run.job.spec))
    && (Before(run.pc) && r.1 == 1 ==> j.embeddingCount == 0)
    && (Counted(run.pc) && j.chunkCount >= 0 ==>
         && j.embeddingCount + Ahead(run.pc, j.chunkCount) >= j.chunkCount
         && (r.1 == 1 ==> j.embeddingCount + Ahead(run.pc, j.chunkCount) == j.chunkCount))
    && j.chunkCount >= 0 && j.embeddingCount >= 0
  }

  predicate RowCharged(j: Job) {
    && (j.attempts == 0 ==> j.embeddingCount == 0)
    && j.chunkCount >= 0 && j.embeddingCount >= 0
    && (j.state == Done ==> j.embeddingCount >= j.chunkCount)
    && (j.state == Done && j.attempts == 1 ==> j.embeddingCount == j.chunkCount)
  }

  ghost predicate Charged(s: State) {
    && (forall r | r in s.runs && r.0 in s.db.jobs && s.runs[r].job.spec.jobType == Ingest ::
          RunCharged(s.hist, r, s.runs[r], s.db.jobs[r.0]))
    && (forall t | t in s.db.jobs && s.db.jobs[t].spec.jobType == Ingest :: RowCharged(s.db.jobs[t]))
  }

  // ---- sizes ----------------------------------------------------------------------------

  lemma {:induction false} IdsSize(first: nat, n: nat)
    ensures |Ids(first, n)| == n
  {
    if n > 0 { IdsSize(first, n - 1); }
  }

  lemma {:induction false} ListSize(order: seq<ChunkId>, ids: set<ChunkId>)
    requires Lists(order, ids)
    ensures |order| == |ids|
  {
    if order == [] {
      assert ids == {};
    } else {
      var last := order[|order| - 1];
      ListSize(order[..|order| - 1], ids - {last});
    }
  }

  lemma CompleteSize(db: Db, h: History, d: DocId, v: int)
    requires Whole(db, h) && Complete(db, h, d, v)
    ensures |VersionChunks(db, Some(d), v)| == |h.written[(Some(d), v)].rows|
  {
    CompleteIsExact(db, h, d, v);
    var w := h.written[(Some(d), v)];
    IdsSize(w.first, |w.rows|);
    assert VersionChunks(db, Some(d), v) == Ids(w.first, |w.rows|);
  }

  // ---- steps ----------------------------------------------------------------------------

  /** Where a step of an ingest leads, as far as counting goes; `listed` is what the SELECT returned. */
  predicate Leads(pc: Pc, pc': Pc, rows: nat, listed: nat) {
    match pc
    case AtLoad => pc'.AtExtracting? || pc'.AtSkip?
    case AtSkip => pc'.Finished?
    case AtExtracting => pc'.AtExtract?
    case AtExtract => (pc'.AtChunking? && |pc'.rows| == rows) || pc'.AtFailing?
    case AtChunking(rows) => pc' == AtWrite(rows)
    case AtWrite(rows) => pc' == AtCount(|rows|) || pc'.AtFailing?
    case AtCount(_) => pc'.AtEmbedding?
    case AtEmbedding => pc'.AtSelect?
    case AtSelect =>
      pc'.AtFailing? || (if listed == 0 then pc'.AtCommit? else pc'.AtBatch? && pc'.pos == 0 && |pc'.items| == listed)
    case AtBatch(items, pos) =>
      pc'.AtFailing? || (pc'.AtRecord? && pc'.items == items && pc'.done == pc'.pos - pos && pos < pc'.pos <= |items|)
    case AtRecord(items, pos, _, _, _) => if pos < |items| then pc' == AtBatch(items, pos) else pc'.AtCommit?
    case AtCommit => pc'.AtDone?
    case _ => pc'.Finished?
  }

  lemma StepLeads(db: Db, run: Run, a: Answer)
    requires !IsRebuildPc(run.pc) && PositionSound(run.pc)
    ensures
      var listed := |VersionChunks(db, run.job.spec.documentId, run.job.spec.docVersion)|;
      Leads(run.pc, Proceed(db, run, a).1, |a.rows|, listed)
  {
    var ids := VersionChunks(db, run.job.spec.documentId, run.job.spec.docVersion);
    if run.pc.AtSelect? && Lists(a.order, ids) { ListSize(a.order, ids); }
    hide Lists, CanEmbed, CanInsert, Numbered, ByOrdinal, VersionChunks, InsertAll, ReplaceChunks, Flip;
  }

  /** The job row after the run's step: its state as `OwnRowAfter` says, its counters as `Counts` says. */
  ghost predicate RowAfter(run: Run, pc: Pc, j: Job, j': Job) {
    && j'.attempts == j.attempts
    && (if pc.Finished? then Terminal(j'.state) || j'.state == Pending else InFlight(j'.state))
    && (j'.state == Done <==> run.pc.AtDone?)
    && j'.chunkCount == (match run.pc case AtCount(n) => n case _ => j.chunkCount)
    && j'.embeddingCount == j.embeddingCount + (if run.pc.AtRecord? then run.pc.done else 0)
  }

  lemma StepRowAfter(db: Db, r: RunId, run: Run, a: Answer)
    requires RunSound(db, r, run) && run.job.spec.jobType == Ingest && r.0 in db.jobs && InFlight(db.jobs[r.0].state)
    ensures var (db', pc) := Proceed(db, run, a); r.0 in db'.jobs && RowAfter(run, pc, db.jobs[r.0], db'.jobs[r.0])
  {
    OwnRowAfter(db, r, run, a);
    StepCounters(db, run, a);
    ProceedJobs(db, run, a);
    KeyOf(db, r, run);
    ProgramOf(db, r, run);
    hide Proceed, RunSound;
  }

  lemma ProgramOf(db: Db, r: RunId, run: Run)
    requires RunSound(db, r, run) && run.job.spec.jobType == Ingest
    ensures !IsRebuildPc(run.pc) && PositionSound(run.pc) && !run.pc.Finished?
  {
  }

  /** The arithmetic of one step. */
  lemma Charge(h: History, h': History, r: RunId, run: Run, pc: Pc, j: Job, j': Job, rows: nat, listed: nat)
    requires RunCharged(h, r, run, j) && RowAfter(run, pc, j, j') && Leads(run.pc, pc, rows, listed)
    requires PositionSound(run.pc) && !IsRebuildPc(run.pc) && !run.pc.Finished? && r.1 >= 1
    requires run.pc.AtSelect? ==> listed == LastWrite(h, run.job.spec)
    requires LastWrite(h', run.job.spec) == if Replaces(run, pc) then |run.pc.rows| else LastWrite(h, run.job.spec)
    ensures RowCharged(j')
    ensures !pc.Finished? ==> RunCharged(h', r, run.(pc := pc), j')
  {
    hide LastWrite;
  }

  lemma StepCharged(db: Db, h: History, r: RunId, run: Run, a: Answer)
    requires RunSound(db, r, run) && run.job.spec.jobType == Ingest && r.0 in db.jobs
    requires Whole(db, h) && RunHolds(db, h, run)
    requires run.job.spec.documentId.Some? && run.job.spec.documentId.value in db.documents
    requires RunCharged(h, r, run, db.jobs[r.0])
    ensures
      var (db', pc) := Proceed(db, run, a);
      && r.0 in db'.jobs
      && RowCharged(db'.jobs[r.0])
      && (!pc.Finished? ==> RunCharged(Remember(h, db, run, pc), r, run.(pc := pc), db'.jobs[r.0]))
  {
    var (db', pc) := Proceed(db, run, a);
    var spec := run.job.spec;
    StepRowAfter(db, r, run, a);
    ProgramOf(db, r, run);
    OwnKeyAttempt(db, r, run);
    StepLeads(db, run, a);
    RememberWritten(h, db, run, pc);
    if run.pc.AtSelect? { CompleteSize(db, h, spec.documentId.value, spec.docVersion); }
    hide Proceed, RunSound, Whole, Complete, RunCharged, RowAfter, Leads, RowCharged, Remember;
    var listed := |VersionChunks(db, spec.documentId, spec.docVersion)|;
    Charge(h, Remember(h, db, run, pc), r, run, pc, db.jobs[r.0], db'.jobs[r.0], |a.rows|, listed);
  }

  lemma OwnKeyAttempt(db: Db, r: RunId, run: Run)
    requires RunSound(db, r, run)
    ensures r.1 >= 1
  {
  }

  // ---- traces ---------------------------------------------------------------------------

  lemma GetRunCharged(s: State, r: RunId)
    requires Charged(s) && r in s.runs && r.0 in s.db.jobs && s.runs[r].job.spec.jobType == Ingest
    ensures RunCharged(s.hist, r, s.runs[r], s.db.jobs[r.0])
  {
  }

  lemma GetRowCharged(s: State, t: TaskId)
    requires Charged(s) && t in s.db.jobs && s.db.jobs[t].spec.jobType == Ingest
    ensures RowCharged(s.db.jobs[t])
  {
  }

  /** The run's row, spec and document, while the row exists. */
  lemma RunRow(s: State, r: RunId)
    requires Sound(s) && r in s.runs && r.0 in s.db.jobs
    ensures s.db.jobs[r.0].spec == s.runs[r].job.spec && s.runs[r].job.taskId == r.0
    ensures s.runs[r].job.spec.jobType == Ingest ==>
              s.runs[r].job.spec.documentId.Some? && s.runs[r].job.spec.documentId.value in s.db.documents
  {
    SoundIssued(s);
    RunNotFinished(s, r);
    RunSpec(s.db, r, s.runs[r]);
    hide Sound, RunSound;
  }

  lemma RunSpec(db: Db, r: RunId, run: Run)
    requires RunSound(db, r, run) && r.0 in db.jobs
    ensures db.jobs[r.0].spec == run.job.spec && run.job.taskId == r.0
    ensures run.job.spec.jobType == Ingest <==> run.job.spec.documentId.Some?
  {
  }

  /** Runs of one document do not overlap, so another run works for another task and document. */
  lemma Apart(s: State, r: RunId, q: RunId)
    requires Sound(s) && OneRunEach(s) && r in s.runs && q in s.runs && r != q
    requires q.0 in s.db.jobs && s.runs[q].job.spec.jobType == Ingest
    ensures r.0 != q.0 && s.runs[r].job.spec.documentId != s.runs[q].job.spec.documentId
  {
    RunRow(s, q);
    if r.0 == q.0 { RunRow(s, r); }
    hide Sound;
  }

  lemma SameWrite(h: History, h': History, r: RunId, run: Run, j: Job)
    requires RunCharged(h, r, run, j)
    requires LastWrite(h', run.job.spec) == LastWrite(h, run.job.spec)
    ensures RunCharged(h', r, run, j)
  {
  }

  lemma GoCharged(s: State, r: RunId, a: Answer)
    requires Sound(s) && Orderly(s) && Whole(s.db, s.hist) && Charged(s) && r in s.runs
    ensures Charged(StepRun(s, r, a))
  {
    hide Sound, Proceed, Whole, RunSound, Charged, RunCharged, RowCharged, RunHolds, LiveHolds, OneRunEach, Remember,
        StepRun;
    var run := s.runs[r];
    var s' := StepRun(s, r, a);
    var pc := Proceed(s.db, run, a).1;
    RunNotFinished(s, r);
    OtherRows(s.db, r, run, a);
    NextIssue(s, r, a);
    RunsOf(s, r, a);
    RememberWritten(s.hist, s.db, run, pc);
    if r.0 in s.db.jobs {
      RunRow(s, r);
      OwnSpec(s.db, run, a);
      if run.job.spec.jobType == Ingest {
        GetRunCharged(s, r);
        StepCharged(s.db, s.hist, r, run, a);
      }
    }
    forall q | q in s'.runs && q.0 in s'.db.jobs && s'.runs[q].job.spec.jobType == Ingest
      ensures RunCharged(s'.hist, q, s'.runs[q], s'.db.jobs[q.0])
    {
      if q != r {
        Apart(s, r, q);
        GetRunCharged(s, q);
        SameWrite(s.hist, s'.hist, q, s.runs[q], s.db.jobs[q.0]);
      }
    }
    forall t | t in s'.db.jobs && s'.db.jobs[t].spec.jobType == Ingest ensures RowCharged(s'.db.jobs[t]) {
      if t != r.0 { GetRowCharged(s, t); }
    }
    IsCharged(s');
  }

  lemma IsCharged(s: State)
    requires forall r | r in s.runs && r.0 in s.db.jobs && s.runs[r].job.spec.jobType == Ingest ::
               RunCharged(s.hist, r, s.runs[r], s.db.jobs[r.0])
    requires forall t | t in s.db.jobs && s.db.jobs[t].spec.jobType == Ingest :: RowCharged(s.db.jobs[t])
    ensures Charged(s)
  {
  }

  lemma OwnSpec(db: Db, run: Run, a: Answer)
    requires run.job.taskId in db.jobs
    ensures
      var t, db' := run.job.taskId, Proceed(db, run, a).0;
      t in db'.jobs && db'.jobs[t].spec == db.jobs[t].spec
  {
    ProceedJobs(db, run, a);
    hide Proceed;
  }

  lemma RunsOf(s: State, r: RunId, a: Answer)
    requires r in s.runs
    ensures
      var pc := Proceed(s.db, s.runs[r], a).1;
      StepRun(s, r, a).runs == if pc.Finished? then s.runs - {r} else s.runs[r := s.runs[r].(pc := pc)]
  {
    hide Proceed, Remember;
  }

  lemma LendCharged(s: State, t: TaskId, seconds: int)
    requires Charged(s) && Sound(s) && t in s.db.jobs && !Terminal(s.db.jobs[t].state)
    requires s.db.jobs[t].spec.documentId.Some? ==>
               forall r | r in s.runs :: s.runs[r].job.spec.documentId != s.db.jobs[t].spec.documentId
    ensures Charged(Lend(s, t, seconds))
  {
    hide Sound, Charged;
    var s' := Lend(s, t, seconds);
    forall r | r in s'.runs && r.0 in s'.db.jobs && s'.runs[r].job.spec.jobType == Ingest
      ensures RunCharged(s'.hist, r, s'.runs[r], s'.db.jobs[r.0])
    {
      if r == (t, s.db.jobs[t].attempts + 1) {
        GetRowCharged(s, t);
      } else {
        RunRow(s, r);
        GetRunCharged(s, r);
      }
    }
    forall u | u in s'.db.jobs && s'.db.jobs[u].spec.jobType == Ingest ensures RowCharged(s'.db.jobs[u]) {
      GetRowCharged(s, u);
    }
    IsCharged(s');
  }

  /** Events other than claims and steps keep every row, and keep or fail or drop every run. */
  lemma QuietCharged(s: State, e: Event)
    requires Sound(s) && Charged(s) && !e.Go? && !Claims(e)
    ensures Charged(Next(s, e))
  {
    hide Sound, Charged, RunCharged, Next, Claims;
    var s' := Next(s, e);
    SoundIssued(s);
    QuietCounters(s, e);
    QuietRows(s, e);
    QuietFrame(s, e);
    forall r | r in s'.runs && r.0 in s'.db.jobs && s'.runs[r].job.spec.jobType == Ingest
      ensures RunCharged(s'.hist, r, s'.runs[r], s'.db.jobs[r.0])
    {
      QuietRunChange(s, e, r);
      GetIssued(s, r);
      GetRunCharged(s, r);
      if s'.runs[r] != s.runs[r] { FailedCharged(s.hist, r, s.runs[r], s'.runs[r], s.db.jobs[r.0]); }
    }
    forall t | t in s'.db.jobs && s'.db.jobs[t].spec.jobType == Ingest ensures RowCharged(s'.db.jobs[t]) {
      if t in s.db.jobs { GetRowCharged(s, t); }
    }
    IsCharged(s');
  }

  lemma QuietRunChange(s: State, e: Event, r: RunId)
    requires !e.Go? && !Claims(e) && r in Next(s, e).runs
    ensures r in s.runs
    ensures var run' := Next(s, e).runs[r];
      run' == s.runs[r] || (run'.pc.AtFailing? && run'.job == s.runs[r].job)
  {
    hide Next;
    RunChange(s, e, r);
  }

  lemma FailedCharged(h: History, r: RunId, run: Run, run': Run, j: Job)
    requires RunCharged(h, r, run, j) && run'.pc.AtFailing? && run'.job == run.job
    ensures RunCharged(h, r, run', j)
  {
  }

  lemma NextCharged(s: State, e: Event)
    requires Sound(s) && Orderly(s) && Whole(s.db, s.hist) && Charged(s) && Exclusive(s, e)
    ensures Charged(Next(s, e))
  {
    hide Sound, Orderly, Whole, Charged, StepRun, Lend;
    if e.Go? {
      if e.r in s.runs { GoCharged(s, e.r, e.a); }
    } else if Claims(e) {
      if (e.Claim? && Oldest(s.db, e.t)) || (e.ClaimById? && e.t in s.db.jobs && !Terminal(s.db.jobs[e.t].state)) {
        LendCharged(s, e.t, e.seconds);
      }
    } else {
      QuietCharged(s, e);
    }
  }

  lemma {:induction false} ExecCharged(es: seq<Event>)
    requires Guarded(Exclusive, INIT, es)
    ensures Charged(Exec(INIT, es))
  {
    if es != [] {
      hide Next, Sound, Whole, Orderly, Exec, Guarded, Exclusive, Charged;
      var front := es[..|es| - 1];
      ExecSplit(INIT, es);
      GuardedFront(Exclusive, INIT, es);
      ExecSound(front);
      ExecWhole(front);
      ExecOrderly(front);
      ExecCharged(front);
      NextCharged(Exec(INIT, front), es[|es| - 1]);
    }
  }

  /** A finished ingest has recorded at least one vector per chunk, and exactly one when a single attempt did it. */
  lemma DoneMeansAllRecorded(es: seq<Event>, t: TaskId)
    requires Guarded(Exclusive, INIT, es)
    requires t in Exec(INIT, es).db.jobs
    requires var j := Exec(INIT, es).db.jobs[t]; j.spec.jobType == Ingest && j.state == Done
    ensures
      var s := Exec(INIT, es);
      var j := s.db.jobs[t];
      && j.embeddingCount == Sum(Ledger(s.hist, t)).count
      && j.embeddingCount >= j.chunkCount
      && (j.attempts == 1 ==> j.embeddingCount == j.chunkCount)
  {
    hide Exec, Guarded, Charged;
    ExecCharged(es);
    GetRowCharged(Exec(INIT, es), t);
    UsageIsConserved(es);
  }

  // ---- a fixed chunking -------------------------------------------------------------------

  /** Runs of a document do not overlap, and every extraction of `t` ends in `n` chunks. */
  ghost function Fixed(t: TaskId, n: nat): (State, Event) -> bool {
    (s, e) => Exclusive(s, e) && (e.Go? && e.r in s.runs && e.r.0 == t && s.runs[e.r].pc.AtExtract? ==> |e.a.rows| == n)
  }

  ghost predicate RunWithin(h: History, run: Run, j: Job, n: nat) {
    && Sized(run.pc, n)
    && (PastWrite(run.pc) ==> LastWrite(h, run.job.spec) == n)
    && (Counted(run.pc) ==> j.chunkCount == n)
    && j.embeddingCount + Ahead(run.pc, n) <= j.attempts * n
  }

  predicate RowWithin(j: Job, n: nat) {
    j.embeddingCount <= j.attempts * n && (j.state == Done ==> j.chunkCount == n)
  }

  ghost predicate Within(s: State, t: TaskId, n: nat) {
    t in s.db.jobs && s.db.jobs[t].spec.jobType == Ingest ==>
      && RowWithin(s.db.jobs[t], n)
      && forall r | r in s.runs && r.0 == t :: RunWithin(s.hist, s.runs[r], s.db.jobs[t], n)
  }

  lemma Spend(h: History, h': History, run: Run, pc: Pc, j: Job, j': Job, rows: nat, listed: nat, n: nat)
    requires RunWithin(h, run, j, n) && RowAfter(run, pc, j, j') && Leads(run.pc, pc, rows, listed)
    requires PositionSound(run.pc) && !IsRebuildPc(run.pc) && !run.pc.Finished?
    requires run.pc.AtSelect? ==> listed == LastWrite(h, run.job.spec)
    requires run.pc.AtExtract? ==> rows == n
    requires LastWrite(h', run.job.spec) == if Replaces(run, pc) then |run.pc.rows| else LastWrite(h, run.job.spec)
    ensures RowWithin(j', n)
    ensures !pc.Finished? ==> RunWithin(h', run.(pc := pc), j', n)
  {
    hide LastWrite;
    assert j'.attempts * n == j.attempts * n;
  }

  lemma StepWithin(db: Db, h: History, r: RunId, run: Run, a: Answer, n: nat)
    requires RunSound(db, r, run) && run.job.spec.jobType == Ingest && r.0 in db.jobs && InFlight(db.jobs[r.0].state)
    requires Whole(db, h) && RunHolds(db, h, run)
    requires run.job.spec.documentId.Some? && run.job.spec.documentId.value in db.documents
    requires RunWithin(h, run, db.jobs[r.0], n)
    requires run.pc.AtExtract? ==> |a.rows| == n
    ensures
      var (db', pc) := Proceed(db, run, a);
      && r.0 in db'.jobs
      && RowWithin(db'.jobs[r.0], n)
      && (!pc.Finished? ==> RunWithin(Remember(h, db, run, pc), run.(pc := pc), db'.jobs[r.0], n))
  {
    var (db', pc) := Proceed(db, run, a);
    var spec := run.job.spec;
    StepRowAfter(db, r, run, a);
    ProgramOf(db, r, run);
    StepLeads(db, run, a);
    RememberWritten(h, db, run, pc);
    if run.pc.AtSelect? { CompleteSize(db, h, spec.documentId.value, spec.docVersion); }
    hide Proceed, RunSound, Whole, Complete, RunWithin, RowAfter, Leads, RowWithin, Remember;
    var listed := |VersionChunks(db, spec.documentId, spec.docVersion)|;
    Spend(h, Remember(h, db, run, pc), run, pc, db.jobs[r.0], db'.jobs[r.0], |a.rows|, listed, n);
  }

  lemma GetWithin(s: State, r: RunId, n: nat)
    requires Within(s, r.0, n) && r in s.runs && r.0 in s.db.jobs && s.db.jobs[r.0].spec.jobType == Ingest
    ensures RunWithin(s.hist, s.runs[r], s.db.jobs[r.0], n)
  {
  }

  lemma InFlightRun(s: State, r: RunId)
    requires Charged(s) && r in s.runs && r.0 in s.db.jobs && s.runs[r].job.spec.jobType == Ingest
    ensures InFlight(s.db.jobs[r.0].state) && r.1 == s.db.jobs[r.0].attempts
  {
  }

  /** Another run's step: same row, same runs of `t`, same last write. */
  lemma SameWithin(s: State, s': State, t: TaskId, n: nat)
    requires Within(s, t, n)
    requires t in s'.db.jobs ==> t in s.db.jobs && s'.db.jobs[t] == s.db.jobs[t]
    requires forall q | q in s'.runs && q.0 == t && t in s'.db.jobs && s.db.jobs[t].spec.jobType == Ingest ::
               && q in s.runs
               && LastWrite(s'.hist, s.runs[q].job.spec) == LastWrite(s.hist, s.runs[q].job.spec)
               && (s'.runs[q] == s.runs[q] || (s'.runs[q].pc.AtFailing? && s'.runs[q].job == s.runs[q].job))
    ensures Within(s', t, n)
  {
    hide LastWrite;
    if t in s'.db.jobs && s'.db.jobs[t].spec.jobType == Ingest {
      forall r | r in s'.runs && r.0 == t ensures RunWithin(s'.hist, s'.runs[r], s'.db.jobs[t], n) {
        GetWithin(s, r, n);
      }
    }
  }

  lemma GoWithin(s: State, r: RunId, a: Answer, t: TaskId, n: nat)
    requires Sound(s) && Orderly(s) && Whole(s.db, s.hist) && Charged(s) && Within(s, t, n) && r in s.runs
    requires r.0 == t && s.runs[r].pc.AtExtract? ==> |a.rows| == n
    ensures Within(StepRun(s, r, a), t, n)
  {
    hide Sound, Proceed, Whole, RunSound, Charged, RunWithin, RowWithin, RunHolds, LiveHolds, OneRunEach, Remember;
    hide StepRun, Within;
    var run := s.runs[r];
    var s' := StepRun(s, r, a);
    RunNotFinished(s, r);
    OtherRows(s.db, r, run, a);
    NextIssue(s, r, a);
    RunsOf(s, r, a);
    RememberWritten(s.hist, s.db, run, Proceed(s.db, run, a).1);
    if r.0 == t && t in s.db.jobs && s.db.jobs[t].spec.jobType == Ingest {
      RunRow(s, r);
      OwnSpec(s.db, run, a);
      GetWithin(s, r, n);
      InFlightRun(s, r);
      StepWithin(s.db, s.hist, r, run, a, n);
      forall q | q in s'.runs && q.0 == t ensures q == r { if q != r { RunRow(s, q); Apart(s, r, q); } }
      OnlyRun(s', r, n);
    } else if t in s.db.jobs && s.db.jobs[t].spec.jobType == Ingest {
      forall q | q in s'.runs && q.0 == t
        ensures LastWrite(s'.hist, s.runs[q].job.spec) == LastWrite(s.hist, s.runs[q].job.spec)
      {
        RunRow(s, q);
        Apart(s, r, q);
      }
      SameWithin(s, s', t, n);
    } else {
      if t in s.db.jobs && r.0 == t { RunRow(s, r); OwnSpec(s.db, run, a); }
      NotIngest(s', t, n);
    }
  }

  lemma OnlyRun(s: State, r: RunId, n: nat)
    requires r.0 in s.db.jobs && RowWithin(s.db.jobs[r.0], n)
    requires forall q | q in s.runs && q.0 == r.0 :: q == r
    requires r in s.runs ==> RunWithin(s.hist, s.runs[r], s.db.jobs[r.0], n)
    ensures Within(s, r.0, n)
  {
  }

  lemma NotIngest(s: State, t: TaskId, n: nat)
    requires t in s.db.jobs ==> s.db.jobs[t].spec.jobType != Ingest
    ensures Within(s, t, n)
  {
  }

  lemma LendWithin(s: State, u: TaskId, seconds: int, t: TaskId, n: nat)
    requires Sound(s) && Charged(s) && Within(s, t, n) && u in s.db.jobs && !Terminal(s.db.jobs[u].state)
    requires s.db.jobs[u].spec.documentId.Some? ==>
               forall r | r in s.runs :: s.runs[r].job.spec.documentId != s.db.jobs[u].spec.documentId
    ensures Within(Lend(s, u, seconds), t, n)
  {
    hide Sound, Charged, Within;
    var s' := Lend(s, u, seconds);
    if t in s.db.jobs && s.db.jobs[t].spec.jobType == Ingest && u == t {
      var r := (t, s.db.jobs[t].attempts + 1);
      forall q | q in s'.runs && q.0 == t ensures q == r { if q != r { RunRow(s, q); } }
      GetRow(s, t, n);
      assert (s.db.jobs[t].attempts + 1) * n == s.db.jobs[t].attempts * n + n;
      OnlyRun(s', r, n);
    } else if t in s.db.jobs && s.db.jobs[t].spec.jobType == Ingest {
      SameWithin(s, s', t, n);
    } else {
      NotIngest(s', t, n);
    }
  }

  lemma GetRow(s: State, t: TaskId, n: nat)
    requires Within(s, t, n) && t in s.db.jobs && s.db.jobs[t].spec.jobType == Ingest
    ensures RowWithin(s.db.jobs[t], n)
  {
  }

  lemma QuietWithin(s: State, e: Event, t: TaskId, n: nat)
    requires Sound(s) && Within(s, t, n) && !e.Go? && !Claims(e)
    ensures Within(Next(s, e), t, n)
  {
    hide Sound, Next, Claims;
    var s' := Next(s, e);
    SoundIssued(s);
    QuietCounters(s, e);
    QuietRows(s, e);
    QuietFrame(s, e);
    hide Within;
    forall r | r in s'.runs && r.0 == t
      ensures r in s.runs && r.0 < s.db.next
      ensures s'.runs[r] == s.runs[r] || (s'.runs[r].pc.AtFailing? && s'.runs[r].job == s.runs[r].job)
    {
      QuietRunChange(s, e, r);
      GetIssued(s, r);
    }
    if t in s'.db.jobs && t !in s.db.jobs { NewWithin(s', t, n); } else { SameWithin(s, s', t, n); }
  }

  lemma NewWithin(s: State, t: TaskId, n: nat)
    requires t in s.db.jobs && s.db.jobs[t].embeddingCount == 0 && s.db.jobs[t].state != Done
    requires forall r | r in s.runs :: r.0 != t
    ensures Within(s, t, n)
  {
  }

  lemma NextWithin(s: State, e: Event, t: TaskId, n: nat)
    requires Sound(s) && Orderly(s) && Whole(s.db, s.hist) && Charged(s) && Within(s, t, n) && Fixed(t, n)(s, e)
    ensures Within(Next(s, e), t, n)
  {
    hide Sound, Orderly, Whole, Charged, StepRun, Lend, Within;
    if e.Go? {
      if e.r in s.runs { GoWithin(s, e.r, e.a, t, n); }
    } else if Claims(e) {
      if (e.Claim? && Oldest(s.db, e.t)) || (e.ClaimById? && e.t in s.db.jobs && !Terminal(s.db.jobs[e.t].state)) {
        LendWithin(s, e.t, e.seconds, t, n);
      }
    } else {
      QuietWithin(s, e, t, n);
    }
  }

  lemma FixedIsExclusive(t: TaskId, n: nat, s: State, es: seq<Event>)
    requires Guarded(Fixed(t, n), s, es)
    ensures Guarded(Exclusive, s, es)
  {
    hide Exec, Exclusive;
    forall i | 0 <= i < |es| ensures Exclusive(Exec(s, es[..i]), es[i]) {
      assert Fixed(t, n)(Exec(s, es[..i]), es[i]);
    }
  }

  lemma {:induction false} ExecWithin(es: seq<Event>, t: TaskId, n: nat)
    requires Guarded(Fixed(t, n), INIT, es)
    ensures Within(Exec(INIT, es), t, n)
  {
    if es != [] {
      hide Next, Sound, Whole, Orderly, Exec, Guarded, Fixed, Charged, Within;
      var front := es[..|es| - 1];
      ExecSplit(INIT, es);
      GuardedFront(Fixed(t, n), INIT, es);
      FixedIsExclusive(t, n, INIT, front);
      ExecSound(front);
      ExecWhole(front);
      ExecOrderly(front);
      ExecCharged(front);
      ExecWithin(front, t, n);
      NextWithin(Exec(INIT, front), es[|es| - 1], t, n);
    }
  }

  /** With a fixed chunking into `n` chunks, `a` attempts record at most `a * n` vectors,
      and a finished ingest at least `n`. */
  lemma VectorsPerAttempt(es: seq<Event>, t: TaskId, n: nat)
    requires Guarded(Fixed(t, n), INIT, es)
    requires t in Exec(INIT, es).db.jobs && Exec(INIT, es).db.jobs[t].spec.jobType == Ingest
    ensures
      var j := Exec(INIT, es).db.jobs[t];
      && j.embeddingCount <= j.attempts * n
      && (j.state == Done ==> j.chunkCount == n && n <= j.embeddingCount)
  {
    hide Exec, Guarded, Charged, Within;
    ExecWithin(es, t, n);
    FixedIsExclusive(t, n, INIT, es);
    GetRow(Exec(INIT, es), t, n);
    if Exec(INIT, es).db.jobs[t].state == Done { DoneMeansAllRecorded(es, t); }
  }
}
