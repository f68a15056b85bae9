/** Leases, attempts and runs: what keeps an in-flight job reclaimable. */
module Leases {
  import opened Schema
  import opened Tasks
  import opened Documents
  import opened Pipeline
  import opened Protocol
  import opened Integrity
  import opened Frames

  /** A job is leased only when no run of it is left. `claim` sees to this only if runs end within their lease. */
  ghost predicate NoOverlap(s: State, e: Event) {
    e.Claim? || e.ClaimById? ==> forall r | r in s.runs :: r.0 != e.t
  }

  /** A run's job is in flight on the run's attempt; an in-flight job has a lease. */
  ghost predicate Leased(s: State) {
    && (forall r | r in s.runs && r.0 in s.db.jobs :: s.db.jobs[r.0].attempts == r.1 && InFlight(s.db.jobs[r.0].state))
    && (forall t | t in s.db.jobs && InFlight(s.db.jobs[t].state) :: s.db.jobs[t].leaseUntil.Some?)
  }

  /** Runs neither crash nor outlive their lease, and no delivery reaches a job that has a run. */
  ghost predicate Punctual(s: State, e: Event) {
    match e
    case Crash(r) => r !in s.runs
    case Fail(r, _) => r in s.runs ==> !s.runs[r].pc.AtFailing?
    case Claim(_, seconds) => seconds >= 0
    case ClaimById(t, seconds) => seconds >= 0 && forall r | r in s.runs :: r.0 != t
    case Tick(dt) =>
      forall r | r in s.runs && r.0 in s.db.jobs && s.db.jobs[r.0].leaseUntil.Some? ::
        s.db.now + dt <= s.db.jobs[r.0].leaseUntil.value
    case _ => true
  }

  predicate RunOnTime(db: Db, r: RunId) {
    r.0 in db.jobs && db.jobs[r.0].leaseUntil.Some? ==> db.now <= db.jobs[r.0].leaseUntil.value
  }

  /** An in-flight job has its run; a pending one has an attempt left. */
  predicate RowOnTime(s: State, t: TaskId)
    requires t in s.db.jobs
  {
    var j := s.db.jobs[t];
    && (InFlight(j.state) ==> (t, j.attempts) in s.runs)
    && j.attempts <= MAX_ATTEMPTS
    && (j.state == Pending ==> j.attempts < MAX_ATTEMPTS)
  }

  ghost predicate Timely(s: State) {
    && Leased(s)
    && (forall r | r in s.runs :: RunOnTime(s.db, r))
    && (forall t | t in s.db.jobs :: RowOnTime(s, t))
  }

  // ---- steps of runs ------------------------------------------------------------------

  /** The run's own row after its step: in flight while the run goes on, otherwise pending again
      with an attempt left, or ended. */
  lemma OwnRowAfter(db: Db, r: RunId, run: Run, a: Answer)
    requires RunSound(db, r, run) && r.0 in db.jobs && InFlight(db.jobs[r.0].state)
    ensures
      var (db', pc) := Proceed(db, run, a);
      && r.0 in db'.jobs
      && var j, j' := db.jobs[r.0], db'.jobs[r.0];
      && j'.attempts == j.attempts && j'.createdAt == j.createdAt
      && (if pc.Finished? then Terminal(j'.state) || (j'.state == Pending && r.1 < MAX_ATTEMPTS)
          else InFlight(j'.state) && j'.leaseUntil == j.leaseUntil)
  {
    KeyOf(db, r, run);
    FinishedWhen(db, run, a);
    ProceedJobs(db, run, a);
    hide Proceed, RunSound;
  }

  lemma KeyOf(db: Db, r: RunId, run: Run)
    requires RunSound(db, r, run)
    ensures run.job.taskId == r.0 && run.job.attempts == r.1
  {
  }

  lemma FinishedWhen(db: Db, run: Run, a: Answer)
    ensures Proceed(db, run, a).1.Finished? <==>
              run.pc.AtSkip? || run.pc.AtDone? || run.pc.AtFailing? || run.pc.Finished?
  {
    hide Lists, ItemsOf, CanInsert, Numbered, ByOrdinal, VersionChunks;
  }

  lemma RunNotFinished(s: State, r: RunId)
    requires Sound(s) && r in s.runs
    ensures RunSound(s.db, r, s.runs[r])
  {
  }

  lemma OtherRows(db: Db, r: RunId, run: Run, a: Answer)
    requires RunSound(db, r, run)
    ensures
      var db' := Proceed(db, run, a).0;
      && (forall t :: t in db'.jobs <==> t in db.jobs)
      && (forall t | t in db.jobs && t != r.0 :: db'.jobs[t] == db.jobs[t])
      && db'.now == db.now
  {
    KeyOf(db, r, run);
    ProceedJobs(db, run, a);
    ProceedFrame(db, run, a);
    hide Proceed, RunSound;
  }

  lemma GoLeased(s: State, r: RunId, a: Answer)
    requires Sound(s) && Leased(s) && r in s.runs
    ensures Leased(StepRun(s, r, a))
  {
    hide Sound, Proceed, RunSound, Remember;
    RunNotFinished(s, r);
    OtherRows(s.db, r, s.runs[r], a);
    if r.0 in s.db.jobs { OwnRowAfter(s.db, r, s.runs[r], a); }
    assert r == (r.0, r.1);
  }

  lemma NextLeased(s: State, e: Event)
    requires Sound(s) && Leased(s) && NoOverlap(s, e)
    ensures Leased(Next(s, e))
  {
    if e.Go? {
      hide Sound, Leased;
      if e.r in s.runs { GoLeased(s, e.r, e.a); }
    } else {
      hide Sound;
      SoundIssued(s);
      QuietLeased(s, e);
    }
  }

  lemma QuietLeased(s: State, e: Event)
    requires Issued(s) && Leased(s) && NoOverlap(s, e) && !e.Go?
    ensures Leased(Next(s, e))
  {
    if Claims(e) {
      hide Issued, Oldest;
    } else {
      QuietRows(s, e);
      QuietRunKeys(s, e);
      hide Next, NoOverlap, Claims;
    }
  }

  lemma {:induction false} ExecLeased(es: seq<Event>)
    requires Guarded(NoOverlap, INIT, es)
    ensures Leased(Exec(INIT, es))
  {
    if es != [] {
      hide Next, Sound, Exec, Guarded, NoOverlap, Leased;
      var front := es[..|es| - 1];
      ExecSplit(INIT, es);
      GuardedFront(NoOverlap, INIT, es);
      ExecSound(front);
      ExecLeased(front);
      NextLeased(Exec(INIT, front), es[|es| - 1]);
    }
  }

  /** An in-flight job can always be claimed again once its lease has passed, whatever crashed. */
  lemma InFlightReclaimable(es: seq<Event>, t: TaskId, dt: nat)
    requires Guarded(NoOverlap, INIT, es)
    requires t in Exec(INIT, es).db.jobs && InFlight(Exec(INIT, es).db.jobs[t].state)
    ensures
      var s := Exec(INIT, es);
      && s.db.jobs[t].leaseUntil.Some?
      && (s.db.now + dt > s.db.jobs[t].leaseUntil.value ==> Claimable(Next(s, Tick(dt)).db, t))
  {
    hide Exec, Guarded;
    ExecLeased(es);
  }

  // ---- punctual runs ------------------------------------------------------------------

  lemma PunctualClaims(s: State, e: Event)
    requires Timely(s) && Punctual(s, e)
    requires e.Claim? ==> Oldest(s.db, e.t)
    ensures NoOverlap(s, e)
    ensures e.Claim? ==> s.db.jobs[e.t].state == Pending
    ensures e.ClaimById? && e.t in s.db.jobs && !Terminal(s.db.jobs[e.t].state) ==> s.db.jobs[e.t].state == Pending
  {
  }

  lemma GoTimely(s: State, r: RunId, a: Answer)
    requires Sound(s) && Timely(s) && r in s.runs
    ensures Timely(StepRun(s, r, a))
  {
    hide Sound, Proceed, RunSound, Remember, Leased, RunOnTime, RowOnTime;
    GoLeased(s, r, a);
    RunNotFinished(s, r);
    OtherRows(s.db, r, s.runs[r], a);
    LeasedRun(s, r);
    if r.0 in s.db.jobs { OwnRowAfter(s.db, r, s.runs[r], a); }
    var s' := StepRun(s, r, a);
    forall q | q in s'.runs ensures RunOnTime(s'.db, q) {
      assert RunOnTime(s.db, q);
      LeasedRun(s, q);
      StepOnTime(s, s', r, q);
    }
    forall t | t in s'.db.jobs ensures RowOnTime(s', t) {
      assert RowOnTime(s, t);
      StepRow(s, s', r, t);
    }
  }

  lemma StepOnTime(s: State, s': State, r: RunId, q: RunId)
    requires RunOnTime(s.db, q) && s'.db.now == s.db.now && q in s'.runs
    requires q.0 in s'.db.jobs ==>
      && q.0 in s.db.jobs
      && (s'.db.jobs[q.0] == s.db.jobs[q.0] || (q.0 == r.0 && s'.db.jobs[q.0].leaseUntil == s.db.jobs[q.0].leaseUntil)
          || (q.0 == r.0 && !InFlight(s'.db.jobs[q.0].state)))
    requires q.0 in s'.db.jobs ==> InFlight(s'.db.jobs[q.0].state)
    ensures RunOnTime(s'.db, q)
  {
  }

  lemma StepRow(s: State, s': State, r: RunId, t: TaskId)
    requires t in s.db.jobs && t in s'.db.jobs && RowOnTime(s, t)
    requires s'.runs == s.runs - {r} || (r in s'.runs && s'.runs == s.runs[r := s'.runs[r]])
    requires if t != r.0 then s'.db.jobs[t] == s.db.jobs[t] else
      && s.db.jobs[t].attempts == r.1 == s'.db.jobs[t].attempts
      && (if r in s'.runs then InFlight(s'.db.jobs[t].state)
          else Terminal(s'.db.jobs[t].state) || (s'.db.jobs[t].state == Pending && r.1 < MAX_ATTEMPTS))
    ensures RowOnTime(s', t)
  {
    assert r == (r.0, r.1);
  }

  lemma LeasedRun(s: State, r: RunId)
    requires Leased(s) && r in s.runs
    ensures r.0 in s.db.jobs ==> InFlight(s.db.jobs[r.0].state) && s.db.jobs[r.0].attempts == r.1
  {
  }

  lemma LendTimely(s: State, t: TaskId, seconds: int)
    requires Sound(s) && Timely(s) && t in s.db.jobs && s.db.jobs[t].state == Pending && seconds >= 0
    requires forall r | r in s.runs :: r.0 != t
    ensures Timely(Lend(s, t, seconds))
  {
    hide Sound;
  }

  predicate Claims(e: Event) {
    e.Claim? || e.ClaimById?
  }

  /** A row as it is inserted. */
  predicate Fresh(j: Job, now: int) {
    && j.attempts == 0 && j.state in {Pending, Skipped} && j.createdAt == now
    && j.chunkCount == 0 && j.embeddingCount == 0 && j.tokens == 0 && j.cost == 0.0
  }

  /** Events other than claims and steps change no job row; they may add or remove one. */
  lemma QuietRows(s: State, e: Event)
    requires Issued(s) && !e.Go? && !Claims(e)
    ensures forall t | t in Next(s, e).db.jobs ::
      || (t in s.db.jobs && Next(s, e).db.jobs[t] == s.db.jobs[t])
      || (t == s.db.next && Fresh(Next(s, e).db.jobs[t], s.db.now))
    ensures s.db.next <= Next(s, e).db.next
    ensures Next(s, e).db.now == s.db.now + (if e.Tick? then e.dt else 0)
  {
    if e.Upload? {
      hide LookedUp, UploadSpec;
    } else if e.Delete? {
      hide KeepChunks;
      DeleteNow(s.db, e.d);
    } else {
      hide LookedUp, UploadSpec, DeleteDocument, Upsert, Oldest, Lease, Proceed, Remember;
    }
  }

  lemma DeleteNow(db: Db, d: DocId)
    ensures DeleteDocument(db, d).now == db.now && DeleteDocument(db, d).next == db.next
  {
  }

  lemma QuietRunKeys(s: State, e: Event)
    requires !e.Go? && !Claims(e)
    ensures forall r | r in Next(s, e).runs :: r in s.runs
    ensures forall r | r in s.runs :: r in Next(s, e).runs
              || (e.Crash? && e.r == r) || (e.Fail? && e.r == r && s.runs[r].pc.AtFailing?)
  {
    hide LookedUp, UploadSpec, DeleteDocument, Upsert;
  }

  lemma QuietTimely(s: State, e: Event)
    requires Issued(s) && Timely(s) && Punctual(s, e) && !e.Go? && !Claims(e)
    ensures Timely(Next(s, e))
  {
    hide Next, Leased;
    assert NoOverlap(s, e);
    QuietLeased(s, e);
    QuietRows(s, e);
    QuietRunKeys(s, e);
  }

  lemma NextTimely(s: State, e: Event)
    requires Sound(s) && Timely(s) && Punctual(s, e)
    ensures Timely(Next(s, e))
  {
    hide Sound, Timely, Punctual;
    if e.Go? {
      if e.r in s.runs { GoTimely(s, e.r, e.a); }
    } else if e.Claim? || e.ClaimById? {
      ClaimTimely(s, e);
    } else {
      SoundIssued(s);
      hide Next;
      QuietTimely(s, e);
    }
  }

  lemma ClaimTimely(s: State, e: Event)
    requires Sound(s) && Timely(s) && Punctual(s, e) && (e.Claim? || e.ClaimById?)
    ensures Timely(Next(s, e))
  {
    hide Sound, Timely;
    if (e.Claim? && Oldest(s.db, e.t)) || (e.ClaimById? && e.t in s.db.jobs && !Terminal(s.db.jobs[e.t].state)) {
      PunctualClaims(s, e);
      LendTimely(s, e.t, e.seconds);
    }
  }

  lemma {:induction false} ExecTimely(es: seq<Event>)
    requires Guarded(Punctual, INIT, es)
    ensures Timely(Exec(INIT, es))
  {
    if es != [] {
      hide Next, Sound, Exec, Guarded, Punctual, Timely;
      var front := es[..|es| - 1];
      ExecSplit(INIT, es);
      GuardedFront(Punctual, INIT, es);
      ExecSound(front);
      ExecTimely(front);
      NextTimely(Exec(INIT, front), es[|es| - 1]);
    }
  }

  /** Punctual runs: a job has at most one run at a time, is claimed at most MAX_ATTEMPTS times,
      and a leased claim always finds an attempt left. */
  lemma OneRunFewAttempts(es: seq<Event>)
    requires Guarded(Punctual, INIT, es)
    ensures
      var s := Exec(INIT, es);
      && (forall r, q | r in s.runs && q in s.runs && r.0 == q.0 && r.0 in s.db.jobs :: r == q)
      && (forall t | t in s.db.jobs :: s.db.jobs[t].attempts <= MAX_ATTEMPTS)
      && (forall t | Claimable(s.db, t) :: s.db.jobs[t].state == Pending && s.db.jobs[t].attempts < MAX_ATTEMPTS)
  {
    hide Exec, Guarded;
    ExecTimely(es);
    var s := Exec(INIT, es);
    forall r, q | r in s.runs && q in s.runs && r.0 == q.0 && r.0 in s.db.jobs ensures r == q {
      assert r == (r.0, r.1) && q == (q.0, q.1);
    }
  }
}
