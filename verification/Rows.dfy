/** What a job row tells: its fault, its lease and its finish time go with its state. */
module Rows {
  import opened Schema
  import opened Tasks
  import opened Documents
  import opened Pipeline
  import opened Protocol
  import opened Integrity
  import opened Frames
  import opened Leases
  import opened Doubling

  /** The exceptions after which a job is tried again. */
  predicate Transient(e: Exc) {
    || e.Timeout? || e.ConnectionLost?
    || (e.Named? && e.name in ["RateLimitError", "APITimeoutError", "APIConnectionError", "InternalServerError",
                               "APIError", "EndpointConnectionError", "ConnectTimeoutError", "ReadTimeoutError",
                               "ConnectionClosedError"])
  }

  /** Ended rows have their finish time, failed ones and only those a fault; a pending row has no lease, and
      a transient fault exactly if it has been leased before. */
  predicate RowTells(j: Job, now: int) {
    && (j.state in {Done, Skipped} ==> j.fault.None?)
    && (j.state == Failed ==> j.fault.Some?)
    && (j.state in {Done, Skipped, Failed} ==> j.finishedAt.Some?)
    && (j.finishedAt.Some? ==> j.createdAt <= j.finishedAt.value <= now)
    && (j.state == Pending ==>
          && j.leaseUntil.None? && (j.fault.Some? <==> j.attempts > 0)
          && (j.fault.Some? ==> Transient(j.fault.value.exc)))
    && j.createdAt <= now
  }

  ghost predicate RowsTell(db: Db) {
    forall t | t in db.jobs :: RowTells(db.jobs[t], db.now)
  }

  lemma RetryableIs(e: Exc)
    ensures IsRetryable(e) <==> Transient(e)
  {
  }

  /** What the last step of a run writes to its row. */
  lemma StepTells(db: Db, r: RunId, run: Run, a: Answer)
    requires RunSound(db, r, run) && r.0 in db.jobs && RowTells(db.jobs[r.0], db.now)
    ensures var db' := Proceed(db, run, a).0;
      r.0 in db'.jobs && db'.now == db.now && RowTells(db'.jobs[r.0], db'.now)
  {
    KeyOf(db, r, run);
    NotAtEnd(db, r, run);
    ProceedJobs(db, run, a);
    ProceedFrame(db, run, a);
    EndFields(db, run, a);
    if run.pc.AtFailing? { RetryableIs(run.pc.fault.exc); }
    hide Proceed, RunSound, IsRetryable, Transient;
  }

  lemma NotAtEnd(db: Db, r: RunId, run: Run)
    requires RunSound(db, r, run)
    ensures !run.pc.Finished? && 1 <= r.1
    ensures r.0 in db.jobs ==> r.1 <= db.jobs[r.0].attempts
  {
  }

  /** The fault and the finish time change only at the end of a run. */
  lemma EndFields(db: Db, run: Run, a: Answer)
    requires run.job.taskId in db.jobs
    ensures
      var j := db.jobs[run.job.taskId];
      var db' := Proceed(db, run, a).0;
      && run.job.taskId in db'.jobs
      && var j' := db'.jobs[run.job.taskId];
        if run.pc.AtDone? || run.pc.AtSkip? then j'.fault == None && j'.finishedAt == Some(db.now)
        else if run.pc.AtFailing? then
          && j'.fault == Some(run.pc.fault)
          && j'.finishedAt == (if FailureOutcome(run.job, run.pc.fault.exc) == Failed then Some(db.now)
                               else j.finishedAt)
        else j'.fault == j.fault && j'.finishedAt == j.finishedAt
  {
    if IsIngestPc(run.pc) {
      IngestWriteFrame(db, run, a);
      hide Lists, ItemsOf, CanInsert, Numbered, ByOrdinal, VersionChunks, ReplaceChunks, Flip;
    } else {
      hide Lists, ItemsOf;
    }
  }

  lemma ClaimTells(s: State, e: Event, t: TaskId)
    requires Claims(e) && t in s.db.jobs && RowTells(s.db.jobs[t], s.db.now)
    ensures t in Next(s, e).db.jobs && RowTells(Next(s, e).db.jobs[t], Next(s, e).db.now)
  {
    TakenIs(s, e);
    hide Takes, Next, Transient;
    if Takes(s, e) { assert Next(s, e).db == Lease(s.db, e.t, e.seconds); }
  }

  lemma QuietTells(s: State, e: Event, t: TaskId)
    requires Issued(s) && !e.Go? && !Claims(e) && t in Next(s, e).db.jobs
    requires t in s.db.jobs ==> RowTells(s.db.jobs[t], s.db.now)
    ensures RowTells(Next(s, e).db.jobs[t], Next(s, e).db.now)
  {
    QuietRows(s, e);
    if t !in s.db.jobs { FreshFields(s, e, t); }
    hide Next, Transient;
  }

  /** A new row has no lease and no fault; a record of a skipped upload is finished. */
  lemma FreshFields(s: State, e: Event, t: TaskId)
    requires Issued(s) && !e.Go? && !Claims(e) && t in Next(s, e).db.jobs && t !in s.db.jobs
    ensures
      var j := Next(s, e).db.jobs[t];
      && j.leaseUntil == None && j.fault == None
      && j.finishedAt == (if j.state == Skipped then Some(s.db.now) else None)
  {
    if e.Enqueue? || e.Skip? || e.RequestRebuild? {
    } else {
      NoNewJobs(s, e, t);
    }
  }

  lemma NoNewJobs(s: State, e: Event, t: TaskId)
    requires !e.Go? && !Claims(e) && !e.Enqueue? && !e.Skip? && !e.RequestRebuild? && t !in s.db.jobs
    ensures t !in Next(s, e).db.jobs
  {
    hide LookedUp, UploadSpec, KeepChunks;
  }

  lemma TellsNext(s: State, e: Event)
    requires Sound(s) && RowsTell(s.db)
    ensures RowsTell(Next(s, e).db)
  {
    hide Sound, Next, RowTells, StepRun;
    SoundIssued(s);
    forall t | t in Next(s, e).db.jobs ensures RowTells(Next(s, e).db.jobs[t], Next(s, e).db.now) {
      if e.Go? && e.r in s.runs {
        GoTells(s, e.r, e.a, t);
      } else if e.Go? {
        IdleGo(s, e);
      } else if Claims(e) {
        ClaimedRows(s, e, t);
        ClaimTells(s, e, t);
      } else {
        QuietTells(s, e, t);
      }
    }
  }

  lemma ClaimedRows(s: State, e: Event, t: TaskId)
    requires Claims(e) && t in Next(s, e).db.jobs
    ensures t in s.db.jobs
  {
  }

  lemma GoTells(s: State, r: RunId, a: Answer, t: TaskId)
    requires Sound(s) && RowsTell(s.db) && r in s.runs && t in Next(s, Go(r, a)).db.jobs
    ensures RowTells(Next(s, Go(r, a)).db.jobs[t], Next(s, Go(r, a)).db.now)
  {
    hide Sound, Next, RowTells, Proceed, RunSound;
    GoIs(s, r, a);
    RunNotFinished(s, r);
    OtherRows(s.db, r, s.runs[r], a);
    if t == r.0 { StepTells(s.db, r, s.runs[r], a); }
  }

  lemma {:induction false} ExecTells(es: seq<Event>)
    ensures RowsTell(Exec(INIT, es).db)
  {
    if es != [] {
      hide Next, Sound, Exec, RowsTell;
      var front := es[..|es| - 1];
      ExecSplit(INIT, es);
      ExecSound(front);
      ExecTells(front);
      TellsNext(Exec(INIT, front), es[|es| - 1]);
    } else {
      NoRowsAtFirst();
    }
  }

  lemma NoRowsAtFirst()
    ensures RowsTell(Exec(INIT, []).db)
  {
  }

  /** Under every interleaving: done and skipped rows have no fault and failed ones have one, all three have a
      finish time, and a pending row waits without a lease, with a transient fault exactly if it was leased before. */
  lemma RowsAlwaysTell(es: seq<Event>, t: TaskId)
    requires t in Exec(INIT, es).db.jobs
    ensures
      var j := Exec(INIT, es).db.jobs[t];
      && (j.state in {Done, Skipped} ==> j.fault.None?) && (j.state == Failed ==> j.fault.Some?)
      && (j.state in {Done, Skipped, Failed} ==> j.finishedAt.Some?)
      && (j.finishedAt.Some? ==> j.createdAt <= j.finishedAt.value <= Exec(INIT, es).db.now)
      && (j.state == Pending ==>
            && j.leaseUntil.None? && (j.fault.Some? <==> j.attempts > 0)
            && (j.fault.Some? ==> Transient(j.fault.value.exc)))
  {
    hide Exec;
    ExecTells(es);
    assert RowTells(Exec(INIT, es).db.jobs[t], Exec(INIT, es).db.now);
  }
}
