/** What a claim gives a job, for how long, and when it never gives anything again. */
module Leasing {
  import opened Schema
  import opened Tasks
  import opened Pipeline
  import opened Protocol
  import opened Integrity
  import opened Leases
  import opened Doubling
  import opened Stranding

  /** A job that a claim took is kept for exactly the seconds of its lease. */
  lemma LeaseLasts(s: State, e: Event, dt: nat)
    requires Claims(e) && Takes(s, e)
    ensures Claimable(Next(Next(s, e), Tick(dt)).db, e.t) <==> dt > e.seconds
  {
  }

  /** What the claim writes, and the run it starts: one more attempt, on a copy of the row, at the first step
      of the body its type calls for. */
  lemma TakenJob(s: State, e: Event)
    requires Claims(e) && Takes(s, e)
    ensures
      var s' := Next(s, e);
      var j := s.db.jobs[e.t];
      var state := if j.spec.jobType == Rebuild then Embedding else Extracting;
      var r := (e.t, j.attempts + 1);
      && s'.db.jobs.Keys == s.db.jobs.Keys && (forall u | u in s.db.jobs && u != e.t :: s'.db.jobs[u] == s.db.jobs[u])
      && s'.db.jobs[e.t].attempts == j.attempts + 1 && s'.db.jobs[e.t].state == state
      && s'.db.jobs[e.t].(attempts := j.attempts, state := j.state, leaseUntil := j.leaseUntil) == j
      && r in s'.runs && s'.runs[r].job == ClaimedJob(e.t, j.spec, j.attempts + 1, state)
      && s'.runs[r].pc == (if j.spec.jobType == Rebuild then AtEnsure else AtLoad)
  {
  }

  /** A job is claimable from the moment it is queued, and first when nothing older is. */
  lemma QueuedIsClaimable(s: State, u: nat)
    requires u in s.uploads && DocumentExists(s.db, s.uploads[u].documentId)
    ensures
      var s' := Next(s, Enqueue(u));
      && s.db.next in s'.db.jobs && s'.db.jobs[s.db.next].spec == s.uploads[u] && Claimable(s'.db, s.db.next)
      && ((forall t | t in s.db.jobs :: !Claimable(s.db, t)) ==> Takes(s', Event.Claim(s.db.next, 0)))
  {
  }

  /** A requested rebuild is a pending job of its own, for the requested model and scope, claimable at once. */
  lemma RebuildIsQueued(s: State, model: string, scope: string)
    requires Sound(s)
    ensures
      var s' := Next(s, RequestRebuild(model, scope));
      && s'.db.jobs.Keys == s.db.jobs.Keys + {s.db.next} && (forall t | t in s.db.jobs :: s'.db.jobs[t] == s.db.jobs[t])
      && var j := s'.db.jobs[s.db.next];
        && j.spec.jobType == Rebuild && j.spec.documentId == None && j.spec.modelId == model
        && j.spec.addressId == scope && j.state == Pending && j.attempts == 0 && j.createdAt == s.db.now
        && Claimable(s'.db, s.db.next)
  {
    SoundIssued(s);
    hide Sound;
  }

  /** The state the row of a run shows after the run's next step. */
  lemma StepsShow(s: State, r: RunId, a: Answer)
    requires Sound(s) && r in s.runs && r.0 in s.db.jobs
    ensures
      var s' := Next(s, Go(r, a));
      && r.0 in s'.db.jobs
      && var was, state := s.db.jobs[r.0].state, s'.db.jobs[r.0].state;
        match s.runs[r].pc
        case AtExtracting => state == Extracting
        case AtChunking(_) => state == Chunking
        case AtEmbedding => state == Embedding
        case AtRebuilding => state == Embedding
        case AtSkip => state == Skipped
        case AtDone => state == Done
        case AtFailing(_) => state in {Pending, Failed}
        case _ => state == was
  {
    RunNotFinished(s, r);
    KeyOf(s.db, r, s.runs[r]);
    hide Sound, RunSound, Next;
    GoStranded(s, r, a);
  }

  /** A run that dies, or whose `mark_failed` raises, is gone and leaves the database as it is: its row stays
      in flight, to be claimed again when its lease has passed. */
  lemma LostRunLeavesRow(s: State, e: Event, dt: nat)
    requires (e.Crash? || e.Fail?) && e.r in s.runs && (e.Fail? ==> s.runs[e.r].pc.AtFailing?)
    ensures
      var s' := Next(s, e);
      && s'.db == s.db && s'.runs == s.runs - {e.r} && s'.uploads == s.uploads && s'.hist == s.hist
      && (e.r.0 in s.db.jobs && InFlight(s.db.jobs[e.r.0].state) && s.db.jobs[e.r.0].leaseUntil.Some? ==>
            (Claimable(Next(s', Tick(dt)).db, e.r.0) <==> s.db.now + dt > s.db.jobs[e.r.0].leaseUntil.value))
  {
  }

  // ---- ended jobs ---------------------------------------------------------------------------

  /** The row of an ended job without a run, or no row any more. */
  ghost predicate Ended(s: State, t: TaskId, j: Job) {
    && t < s.db.next && (t in s.db.jobs ==> s.db.jobs[t] == j)
    && forall r | r in s.runs :: r.0 != t
  }

  lemma EndedNotTaken(s: State, e: Event, t: TaskId, j: Job)
    requires Claims(e) && e.t == t && Ended(s, t, j) && j.state in {Done, Skipped, Failed}
    ensures Next(s, e) == s
  {
  }

  lemma EndedNext(s: State, e: Event, t: TaskId, j: Job)
    requires Sound(s) && Ended(s, t, j) && j.state in {Done, Skipped, Failed}
    ensures Ended(Next(s, e), t, j)
  {
    var s' := Next(s, e);
    if Claims(e) && e.t == t {
      EndedNotTaken(s, e, t, j);
    } else {
      hide Next, Sound, Evolves;
      SoundIssued(s);
      NextSound(s, e);
      Kept(s, e, t);
      if t in s'.db.jobs { SameRow(s, e, t); }
      forall r | r in s'.runs ensures r.0 != t { RunChange(s, e, r); }
    }
  }

  /** Only a claim of a job, and the steps of its runs, change its row. */
  lemma SameRow(s: State, e: Event, t: TaskId)
    requires Sound(s) && t in s.db.jobs && t in Next(s, e).db.jobs
    requires !(Claims(e) && e.t == t) && !(e.Go? && e.r in s.runs && e.r.0 == t)
    ensures Next(s, e).db.jobs[t] == s.db.jobs[t]
  {
    hide Next, Sound, RunSound;
    SoundIssued(s);
    if e.Go? && e.r in s.runs {
      RunNotFinished(s, e.r);
      KeyOf(s.db, e.r, s.runs[e.r]);
      GoElsewhere(s, e.r, e.a, t);
    } else if e.Go? {
      IdleGo(s, e);
    } else if Claims(e) {
      OtherClaim(s, e, t);
    } else {
      QuietRows(s, e);
    }
  }

  lemma OtherClaim(s: State, e: Event, t: TaskId)
    requires Claims(e) && e.t != t && t in s.db.jobs
    ensures t in Next(s, e).db.jobs && Next(s, e).db.jobs[t] == s.db.jobs[t]
  {
  }

  /** A job that is done, skipped or failed and has no run left keeps its row as it is through every
      continuation, until its document goes; nothing claims it again. */
  lemma {:induction false} EndedForGood(s: State, es: seq<Event>, t: TaskId)
    requires Sound(s) && t in s.db.jobs && s.db.jobs[t].state in {Done, Skipped, Failed}
    requires forall r | r in s.runs :: r.0 != t
    ensures
      var s' := Exec(s, es);
      && (t in s'.db.jobs ==> s'.db.jobs[t] == s.db.jobs[t]) && !Claimable(s'.db, t)
      && forall r | r in s'.runs :: r.0 != t
  {
    hide Exec, Next, Sound;
    SoundIssued(s);
    EndedExec(s, es, t, s.db.jobs[t]);
  }

  lemma {:induction false} EndedExec(s: State, es: seq<Event>, t: TaskId, j: Job)
    requires Sound(s) && Ended(s, t, j) && j.state in {Done, Skipped, Failed}
    ensures Sound(Exec(s, es)) && Ended(Exec(s, es), t, j)
  {
    if es != [] {
      hide Exec, Next, Sound, Ended, Evolves;
      var front := es[..|es| - 1];
      ExecSplit(s, es);
      EndedExec(s, front, t, j);
      NextSound(Exec(s, front), es[|es| - 1]);
      EndedNext(Exec(s, front), es[|es| - 1], t, j);
    }
  }
}
