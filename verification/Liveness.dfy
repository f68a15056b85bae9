/** Every job ends, when runs are punctual and workers keep going. */
module Liveness {
  import opened Schema
  import opened Tasks
  import opened Documents
  import opened Embeddings
  import opened Pipeline
  import opened Protocol
  import opened Integrity
  import opened Leases
  import opened Scheduling

  type Schedule = nat -> Event

  ghost function At(sched: Schedule, n: nat): State {
    if n == 0 then INIT else Next(At(sched, n - 1), sched(n - 1))
  }

  predicate Names(e: Event, r: RunId) {
    (e.Go? || e.Fail?) && e.r == r
  }

  ghost predicate Waiting(db: Db) {
    exists t :: t in db.jobs && Claimable(db, t)
  }

  ghost predicate AllPunctual(sched: Schedule) {
    forall n: nat :: Punctual(At(sched, n), sched(n))
  }

  /** Every run gets its next step. */
  ghost predicate RunsGoOn(sched: Schedule) {
    forall n: nat, r | r in At(sched, n).runs :: exists m: nat :: n <= m && Names(sched(m), r)
  }

  /** Work does not wait for ever without any claim. */
  ghost predicate WorkersPoll(sched: Schedule) {
    forall n: nat | Waiting(At(sched, n).db) ::
      exists m: nat :: n <= m && (Takes(At(sched, m), sched(m)) || !Waiting(At(sched, m).db))
  }

  ghost predicate Passes(sched: Schedule, c: int) {
    exists n: nat :: At(sched, n).db.now > c
  }

  ghost predicate ClockRuns(sched: Schedule) {
    forall c: int :: Passes(sched, c)
  }

  // ---- the measure of a run ---------------------------------------------------------------

  function Phase(pc: Pc): nat {
    match pc
    case AtLoad | AtEnsure => 12
    case AtExtracting | AtRebuilding => 11
    case AtExtract | AtMissing => 10
    case AtChunking(_) | AtCountMissing(_) => 9
    case AtWrite(_) => 8
    case AtFill(_, _, sweep) => if sweep then 4 else 8
    case AtRecordFill(_, _, _, _, _, sweep) => if sweep then 4 else 8
    case AtCount(_) | AtSweep => 7
    case AtEmbedding => 6
    case AtSelect => 5
    case AtBatch(_, _) | AtRecord(_, _, _, _, _) => 4
    case AtCommit | AtActivate => 3
    case AtSkip | AtDone => 2
    case AtFailing(_) => 1
    case Finished => 0
  }

  /** Calls left in the loop over the batches. */
  function LoopLeft(pc: Pc): int {
    match pc
    case AtBatch(items, pos) => 2 * (|items| - pos)
    case AtRecord(items, pos, _, _, _) => 2 * (|items| - pos) + 1
    case AtFill(items, pos, _) => 2 * (|items| - pos)
    case AtRecordFill(items, pos, _, _, _, _) => 2 * (|items| - pos) + 1
    case _ => 0
  }

  predicate Lower(pc': Pc, pc: Pc) {
    Phase(pc') < Phase(pc) || (Phase(pc') == Phase(pc) && 0 <= LoopLeft(pc') < LoopLeft(pc))
  }

  lemma IngestDescends(db: Db, run: Run, a: Answer)
    requires IsIngestPc(run.pc) && PositionSound(run.pc)
    ensures Lower(IngestStep(db, run, a).1, run.pc)
  {
    hide Lists, CanEmbed, CanInsert, Numbered, ByOrdinal, VersionChunks, InsertAll, ReplaceChunks, Flip, ItemsOf;
  }

  lemma RebuildDescends(db: Db, run: Run, a: Answer)
    requires IsRebuildPc(run.pc) && PositionSound(run.pc)
    ensures Lower(RebuildStep(db, run, a).1, run.pc)
  {
    hide Lists, CanEmbed, Missing, InsertAll, ItemsOf;
  }

  lemma Descends(db: Db, run: Run, a: Answer)
    requires PositionSound(run.pc) && !run.pc.Finished?
    ensures Lower(Proceed(db, run, a).1, run.pc)
  {
    if IsIngestPc(run.pc) { IngestDescends(db, run, a); }
    if IsRebuildPc(run.pc) { RebuildDescends(db, run, a); }
    hide IngestStep, RebuildStep;
  }

  // ---- one run ----------------------------------------------------------------------------

  lemma PunctualAt(sched: Schedule, n: nat)
    requires AllPunctual(sched)
    ensures Punctual(At(sched, n), sched(n))
  {
    hide Punctual;
  }

  lemma AtNext(sched: Schedule, n: nat)
    ensures At(sched, n + 1) == Next(At(sched, n), sched(n))
  {
    hide Next;
  }

  lemma {:induction false} Kept(sched: Schedule, n: nat)
    requires AllPunctual(sched)
    ensures Sound(At(sched, n)) && Timely(At(sched, n)) && Punctual(At(sched, n), sched(n))
  {
    hide Next, Sound, Timely, Punctual, AllPunctual, At;
    PunctualAt(sched, n);
    if n == 0 {
      FirstKept(sched);
    } else {
      Kept(sched, n - 1);
      AtNext(sched, n - 1);
      NextSound(At(sched, n - 1), sched(n - 1));
      NextTimely(At(sched, n - 1), sched(n - 1));
    }
  }

  lemma FirstKept(sched: Schedule)
    ensures Sound(At(sched, 0)) && Timely(At(sched, 0))
  {
    hide Sound, Timely, Guarded;
    ExecSound([]);
    assert Guarded(Punctual, INIT, []) by { NoEvents(); }
    ExecTimely([]);
  }

  lemma NoEvents()
    ensures Guarded(Punctual, INIT, [])
  {
  }

  /** A step of the run lowers it or ends it. */
  lemma StepLowers(s: State, e: Event, r: RunId)
    requires Sound(s) && r in s.runs && Names(e, r)
    requires e.Fail? ==> !s.runs[r].pc.AtFailing?
    ensures r in Next(s, e).runs ==> Lower(Next(s, e).runs[r].pc, s.runs[r].pc)
  {
    hide Sound, RunSound, Next, Proceed, StepRun, Lower;
    RunNotFinished(s, r);
    GetPosition(s.db, r, s.runs[r]);
    if r in Next(s, e).runs { RunChange(s, e, r); }
    if e.Go? {
      Descends(s.db, s.runs[r], e.a);
    } else if r in Next(s, e).runs {
      FailLowers(s, e, r);
    }
  }

  lemma FailLowers(s: State, e: Event, r: RunId)
    requires r in s.runs && e.Fail? && e.r == r && !s.runs[r].pc.AtFailing? && !s.runs[r].pc.Finished?
    ensures r in Next(s, e).runs && Lower(Next(s, e).runs[r].pc, s.runs[r].pc)
  {
  }

  lemma FailsEarly(s: State, e: Event, r: RunId)
    requires Punctual(s, e) && Names(e, r) && r in s.runs
    ensures e.Fail? ==> !s.runs[r].pc.AtFailing?
  {
  }

  lemma GetPosition(db: Db, r: RunId, run: Run)
    requires RunSound(db, r, run)
    ensures PositionSound(run.pc) && !run.pc.Finished?
  {
  }

  /** A run that is not stepped stays as it is. */
  lemma StaysPut(s: State, e: Event, r: RunId)
    requires Sound(s) && Timely(s) && Punctual(s, e) && r in s.runs && !Names(e, r)
    ensures r in Next(s, e).runs && Next(s, e).runs[r] == s.runs[r]
  {
    hide Sound, Timely;
    if e.Claim? || e.ClaimById? {
      if e.Claim? && Oldest(s.db, e.t) { PunctualClaims(s, e); }
      hide Oldest, Lease;
    } else {
      hide Proceed, Upsert, LookedUp, DeleteDocument, EnsureTable, InsertJob, Remember, UploadSpec;
    }
  }

  lemma NextStep(sched: Schedule, n: nat, m: nat, r: RunId) returns (k: nat)
    requires AllPunctual(sched) && n <= m && r in At(sched, n).runs && Names(sched(m), r)
    ensures n <= k <= m && Names(sched(k), r)
    ensures r in At(sched, k).runs && At(sched, k).runs[r] == At(sched, n).runs[r]
    decreases m - n
  {
    hide Next, Sound, Timely, Punctual, AllPunctual, At, Names;
    k := n;
    if !Names(sched(n), r) {
      Kept(sched, n);
      StaysPut(At(sched, n), sched(n), r);
      AtNext(sched, n);
      k := NextStep(sched, n + 1, m, r);
    }
  }

  lemma GoesOn(sched: Schedule, n: nat, r: RunId) returns (m: nat)
    requires RunsGoOn(sched) && r in At(sched, n).runs
    ensures n <= m && Names(sched(m), r)
  {
    hide At, Names;
    m :| n <= m && Names(sched(m), r);
  }

  lemma {:induction false} RunEnds(sched: Schedule, n: nat, r: RunId) returns (m: nat)
    requires AllPunctual(sched) && RunsGoOn(sched) && r in At(sched, n).runs
    ensures n <= m && r !in At(sched, m).runs
    decreases Phase(At(sched, n).runs[r].pc), LoopLeft(At(sched, n).runs[r].pc)
  {
    hide Next, Sound, Timely, Punctual, AllPunctual, RunsGoOn, Phase, LoopLeft, At, Names;
    var i := GoesOn(sched, n, r);
    var k := NextStep(sched, n, i, r);
    Kept(sched, k);
    FailsEarly(At(sched, k), sched(k), r);
    StepLowers(At(sched, k), sched(k), r);
    AtNext(sched, k);
    m := k + 1;
    if r in At(sched, k + 1).runs {
      m := RunEnds(sched, k + 1, r);
    }
  }

  // ---- one job ----------------------------------------------------------------------------

  /** The job is gone or has been leased again since. */
  ghost predicate Moved(sched: Schedule, n: nat, m: nat, t: TaskId)
    requires t in At(sched, n).db.jobs
  {
    t in At(sched, m).db.jobs ==> At(sched, m).db.jobs[t].attempts > At(sched, n).db.jobs[t].attempts
  }

  lemma {:induction false} Later(sched: Schedule, n: nat, m: nat, t: TaskId)
    requires AllPunctual(sched) && n <= m && t in At(sched, m).db.jobs && t < At(sched, n).db.next
    ensures t in At(sched, n).db.jobs && At(sched, n).db.next <= At(sched, m).db.next
    ensures At(sched, m).db.jobs[t].createdAt == At(sched, n).db.jobs[t].createdAt
    ensures At(sched, n).db.jobs[t].attempts <= At(sched, m).db.jobs[t].attempts
    ensures At(sched, n).db.now <= At(sched, m).db.now
    decreases m - n
  {
    hide Next, Sound, Timely, Punctual, AllPunctual, At;
    if n < m {
      Kept(sched, n);
      AtNext(sched, n);
      NextSound(At(sched, n), sched(n));
      Later(sched, n + 1, m, t);
    }
  }

  /** One event while the job waits: it stays pending, and once the clock has left its instant the
      budget of the jobs created no later does not grow, and shrinks at each claim. */
  lemma OneWait(s: State, e: Event, t: TaskId)
    requires Sound(s) && Timely(s) && Punctual(s, e) && t in s.db.jobs && s.db.jobs[t].state == Pending
    requires t in Next(s, e).db.jobs && Next(s, e).db.jobs[t].attempts == s.db.jobs[t].attempts
    ensures Next(s, e).db.jobs[t].state == Pending && Next(s, e).db.jobs[t].createdAt == s.db.jobs[t].createdAt
    ensures
      var c := s.db.jobs[t].createdAt;
      s.db.now > c ==>
        && s.db.now <= Next(s, e).db.now
        && |Budget(Next(s, e).db, c)| + (if Takes(s, e) then 1 else 0) <= |Budget(s.db, c)|
  {
    hide Next, Sound, Timely, Punctual, Budget, Issued, Takes;
    SoundIssued(s);
    GetJobIssued(s, t);
    NextSound(s, e);
    TimelyLeased(s);
    StaysPending(s, e, t);
    OneClaim(s, e, t, s.db.jobs[t].createdAt);
  }

  /** While the job waits unclaimed. */
  lemma {:induction false} Waits(sched: Schedule, n: nat, m: nat, t: TaskId)
    requires AllPunctual(sched) && n <= m && t in At(sched, n).db.jobs && At(sched, n).db.jobs[t].state == Pending
    requires !Moved(sched, n, m, t)
    ensures
      && t in At(sched, m).db.jobs
      && var j, j' := At(sched, n).db.jobs[t], At(sched, m).db.jobs[t];
      && j'.state == Pending && j'.attempts == j.attempts && j'.createdAt == j.createdAt
      && (At(sched, n).db.now > j.createdAt ==>
           && At(sched, m).db.now > j.createdAt
           && |Budget(At(sched, m).db, j.createdAt)| <= |Budget(At(sched, n).db, j.createdAt)|)
    decreases m - n
  {
    hide Next, Sound, Timely, Punctual, AllPunctual, At, Budget, Issued, Takes;
    if n < m {
      var s, e := At(sched, n), sched(n);
      Kept(sched, n);
      AtNext(sched, n);
      SoundIssued(s);
      GetJobIssued(s, t);
      Later(sched, n, m, t);
      NextSound(s, e);
      Later(sched, n + 1, m, t);
      OneWait(s, e, t);
      Waits(sched, n + 1, m, t);
    }
  }

  lemma GetJobIssued(s: State, t: TaskId)
    requires Issued(s) && t in s.db.jobs
    ensures t < s.db.next
  {
  }

  lemma Polls(sched: Schedule, n: nat, t: TaskId) returns (m: nat)
    requires WorkersPoll(sched) && t in At(sched, n).db.jobs && At(sched, n).db.jobs[t].state == Pending
    ensures n <= m && (Takes(At(sched, m), sched(m)) || !Waiting(At(sched, m).db))
  {
    hide At, Takes;
    assert Claimable(At(sched, n).db, t);
    assert Waiting(At(sched, n).db);
    hide Waiting;
    m :| n <= m && (Takes(At(sched, m), sched(m)) || !Waiting(At(sched, m).db));
  }

  lemma PendingWaits(db: Db, t: TaskId)
    requires t in db.jobs && db.jobs[t].state == Pending
    ensures Waiting(db)
  {
    assert Claimable(db, t);
  }

  /** A pending job is leased or removed: each claim spends an attempt of a job created no later. */
  lemma {:induction false} GetsClaimed(sched: Schedule, n: nat, t: TaskId) returns (m: nat)
    requires AllPunctual(sched) && WorkersPoll(sched)
    requires t in At(sched, n).db.jobs && At(sched, n).db.jobs[t].state == Pending
    requires At(sched, n).db.now > At(sched, n).db.jobs[t].createdAt
    ensures n <= m && Moved(sched, n, m, t)
    decreases |Budget(At(sched, n).db, At(sched, n).db.jobs[t].createdAt)|
  {
    hide Next, Sound, Timely, Punctual, AllPunctual, At, Budget, Issued, Takes, Waiting, WorkersPoll;
    m := Polls(sched, n, t);
    if !Moved(sched, n, m, t) {
      Waits(sched, n, m, t);
      PendingWaits(At(sched, m).db, t);
      if !Moved(sched, n, m + 1, t) {
        Waits(sched, n, m + 1, t);
        Kept(sched, m);
        AtNext(sched, m);
        OneWait(At(sched, m), sched(m), t);
        m := GetsClaimed(sched, m + 1, t);
      } else {
        m := m + 1;
      }
    }
  }

  lemma ClockPasses(sched: Schedule, c: int) returns (n: nat)
    requires ClockRuns(sched)
    ensures At(sched, n).db.now > c
  {
    hide At;
    assert Passes(sched, c);
    n :| At(sched, n).db.now > c;
  }

  lemma {:induction false} ClockGrows(sched: Schedule, n: nat, m: nat)
    requires AllPunctual(sched) && n <= m
    ensures At(sched, n).db.now <= At(sched, m).db.now && At(sched, n).db.next <= At(sched, m).db.next
    decreases m - n
  {
    hide Next, Sound, Timely, Punctual, AllPunctual, At;
    if n < m {
      Kept(sched, n);
      AtNext(sched, n);
      NextSound(At(sched, n), sched(n));
      ClockGrows(sched, n + 1, m);
    }
  }

  lemma PendingMoves(sched: Schedule, n: nat, t: TaskId) returns (m: nat)
    requires AllPunctual(sched) && WorkersPoll(sched) && ClockRuns(sched)
    requires t in At(sched, n).db.jobs && At(sched, n).db.jobs[t].state == Pending
    ensures n <= m && Moved(sched, n, m, t)
  {
    hide Next, Sound, Timely, Punctual, AllPunctual, At, Budget, Takes, WorkersPoll, ClockRuns;
    var k := ClockPasses(sched, At(sched, n).db.jobs[t].createdAt);
    if k < n { ClockGrows(sched, k, n); k := n; }
    m := k;
    if !Moved(sched, n, k, t) {
      Waits(sched, n, k, t);
      m := GetsClaimed(sched, k, t);
    }
  }

  predicate Ended(db: Db, t: TaskId) {
    t in db.jobs ==> Terminal(db.jobs[t].state)
  }

  predicate Busy(db: Db, t: TaskId)
    requires t in db.jobs
  {
    InFlight(db.jobs[t].state)
  }

  lemma RowAt(s: State, t: TaskId)
    requires Timely(s) && t in s.db.jobs
    ensures RowOnTime(s, t)
  {
  }

  /** Punctual runs, workers that poll, runs that go on and a clock that runs: every job ends or goes
      with its document. The measure is (attempts left, whether a run is under way). */
  lemma {:induction false} EveryJobEnds(sched: Schedule, n: nat, t: TaskId) returns (m: nat)
    requires AllPunctual(sched) && RunsGoOn(sched) && WorkersPoll(sched) && ClockRuns(sched)
    requires t in At(sched, n).db.jobs
    ensures n <= m && Ended(At(sched, m).db, t)
    decreases MAX_ATTEMPTS - At(sched, n).db.jobs[t].attempts, Busy(At(sched, n).db, t)
  {
    hide Next, Sound, Timely, Punctual, AllPunctual, At, Takes, WorkersPoll, ClockRuns, RunsGoOn, Issued;
    var s := At(sched, n);
    Kept(sched, n);
    RowAt(s, t);
    if Terminal(s.db.jobs[t].state) {
      return n;
    }
    if s.db.jobs[t].state == Pending {
      m := PendingMoves(sched, n, t);
    } else {
      m := RunEnds(sched, n, (t, s.db.jobs[t].attempts));
    }
    if !Ended(At(sched, m).db, t) {
      Kept(sched, m);
      RowAt(At(sched, m), t);
      SoundIssued(s);
      GetJobIssued(s, t);
      Later(sched, n, m, t);
      m := EveryJobEnds(sched, m, t);
    }
  }
}
