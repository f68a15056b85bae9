/** What becomes of a job whose body raises: tried again or failed for good, under which step. */
module Retries {
  import opened Schema
  import opened Tasks
  import opened Pipeline
  import opened Protocol
  import opened Integrity
  import opened Leases
  import opened Leasing
  import opened Rows

  /** The part of the body a call belongs to, as the row reports it: the `try` around it, or the leased state. */
  predicate ReportedAs(step: string, pc: Pc, jobType: JobType) {
    match pc
    case AtExtract => step == "extract"
    case AtWrite(_) => step == "chunking"
    case AtSelect | AtBatch(_, _) | AtRecord(_, _, _, _, _) => step == "embedding"
    case AtCommit => step == "commit"
    case AtMissing | AtCountMissing(_) | AtFill(_, _, _) | AtRecordFill(_, _, _, _, _, _) | AtSweep => step == "rebuild"
    case _ => step == if jobType == Rebuild then "embedding" else "extracting"
  }

  // ---- the worker's copy -----------------------------------------------------------------------

  /** A run's copy shows the state its claim gave the row. */
  ghost predicate CopiesFit(s: State) {
    forall r | r in s.runs ::
      s.runs[r].job.state == if s.runs[r].job.spec.jobType == Rebuild then Embedding else Extracting
  }

  lemma CopiesNext(s: State, e: Event)
    requires CopiesFit(s)
    ensures CopiesFit(Next(s, e))
  {
    hide Next, Proceed;
    forall r | r in Next(s, e).runs
      ensures Next(s, e).runs[r].job.state ==
                if Next(s, e).runs[r].job.spec.jobType == Rebuild then Embedding else Extracting
    {
      RunChange(s, e, r);
    }
  }

  lemma {:induction false} ExecCopies(es: seq<Event>)
    ensures CopiesFit(Exec(INIT, es))
  {
    if es != [] {
      hide Next, Exec, CopiesFit;
      ExecSplit(INIT, es);
      ExecCopies(es[..|es| - 1]);
      CopiesNext(Exec(INIT, es[..|es| - 1]), es[|es| - 1]);
    }
  }

  // ---- the two steps --------------------------------------------------------------------------

  lemma RaiseIs(s: State, r: RunId, e: Exc)
    requires r in s.runs && !s.runs[r].pc.AtFailing?
    ensures
      var s' := Next(s, Fail(r, e));
      && s'.db == s.db && r in s'.runs && s'.runs.Keys == s.runs.Keys && s'.runs[r].job == s.runs[r].job
      && s'.runs[r].pc.AtFailing? && s'.runs[r].pc.fault.exc == e
  {
  }

  lemma RaiseReports(s: State, r: RunId, e: Exc)
    requires r in s.runs && !s.runs[r].pc.AtFailing? && CopiesFit(s)
    ensures
      var s' := Next(s, Fail(r, e));
      r in s'.runs && s'.runs[r].pc.AtFailing? && ReportedAs(s'.runs[r].pc.fault.step, s.runs[r].pc,
                                                           s.runs[r].job.spec.jobType)
  {
  }

  lemma FailedRow(db: Db, job: ClaimedJob, fault: Fault)
    requires job.taskId in db.jobs
    ensures
      var again := Transient(fault.exc) && job.attempts < 5;
      var j := db.jobs[job.taskId];
      MarkFailed(db, job, fault) == db.(jobs := db.jobs[job.taskId :=
        j.(fault := Some(fault), leaseUntil := None, state := if again then Pending else Failed,
           finishedAt := if again then j.finishedAt else Some(db.now))])
  {
    RetryableIs(fault.exc);
    hide IsRetryable, Transient;
  }

  lemma FailingStep(s: State, r: RunId, a: Answer)
    requires r in s.runs && s.runs[r].pc.AtFailing?
    ensures
      var s' := Next(s, Go(r, a));
      s'.db == MarkFailed(s.db, s.runs[r].job, s.runs[r].pc.fault) && s'.runs == s.runs - {r}
  {
    hide MarkFailed;
  }

  lemma RecordIs(s: State, r: RunId, a: Answer)
    requires Sound(s) && r in s.runs && s.runs[r].pc.AtFailing? && r.0 in s.db.jobs
    ensures
      var s' := Next(s, Go(r, a));
      var fault := s.runs[r].pc.fault;
      && Sound(s') && s'.runs == s.runs - {r} && r.0 in s'.db.jobs && s'.db.now == s.db.now
      && s'.db.jobs[r.0] == s.db.jobs[r.0].(fault := Some(fault), leaseUntil := None,
           state := if Transient(fault.exc) && r.1 < 5 then Pending else Failed,
           finishedAt := if Transient(fault.exc) && r.1 < 5 then s.db.jobs[r.0].finishedAt else Some(s.db.now))
  {
    hide Sound, RunSound, Evolves, Next, MarkFailed, Transient;
    RunNotFinished(s, r);
    KeyOf(s.db, r, s.runs[r]);
    NextSound(s, Go(r, a));
    FailingStep(s, r, a);
    FailedRow(s.db, s.runs[r].job, s.runs[r].pc.fault);
  }

  /** Under every interleaving, a run whose body raises and whose `mark_failed` goes through: after a timeout, a
      lost connection or one of the nine names, with an attempt left, the row is pending and claimable; after any
      other exception or on the last attempt it is failed, and without another run of the job no continuation
      ever claims it. The row names the exception and the part of the body that raised it. */
  lemma FailureIsRecorded(es: seq<Event>, r: RunId, e: Exc, a: Answer, more: seq<Event>)
    requires r in Exec(INIT, es).runs && !Exec(INIT, es).runs[r].pc.AtFailing? && r.0 in Exec(INIT, es).db.jobs
    ensures
      var s := Exec(INIT, es);
      var s' := Next(Next(s, Fail(r, e)), Go(r, a));
      var names := ["RateLimitError", "APITimeoutError", "APIConnectionError", "InternalServerError", "APIError",
                    "EndpointConnectionError", "ConnectTimeoutError", "ReadTimeoutError", "ConnectionClosedError"];
      var again := (e.Timeout? || e.ConnectionLost? || (e.Named? && e.name in names)) && r.1 < 5;
      && r.0 in s'.db.jobs && r !in s'.runs
      && var j := s'.db.jobs[r.0];
        && j.state == (if again then Pending else Failed)
        && (Claimable(s'.db, r.0) <==> again)
        && (!again && (forall q | q in s.runs && q.0 == r.0 :: q == r) ==> !Claimable(Exec(s', more).db, r.0))
        && j.fault.Some? && j.fault.value.exc == e
        && ReportedAs(j.fault.value.step, s.runs[r].pc, s.runs[r].job.spec.jobType)
        && j.leaseUntil.None? && j.attempts == s.db.jobs[r.0].attempts
        && j.finishedAt == (if again then s.db.jobs[r.0].finishedAt else Some(s.db.now))
  {
    var s := Exec(INIT, es);
    var s1 := Next(s, Fail(r, e));
    var s' := Next(s1, Go(r, a));
    hide Exec, Next, Sound, CopiesFit, Evolves, ReportedAs;
    ExecSound(es);
    ExecCopies(es);
    NextSound(s, Fail(r, e));
    RaiseIs(s, r, e);
    RaiseReports(s, r, e);
    RecordIs(s1, r, a);
    if !(Transient(e) && r.1 < 5) && forall q | q in s.runs && q.0 == r.0 :: q == r {
      hide Transient;
      EndedForGood(s', more, r.0);
    }
  }
}
