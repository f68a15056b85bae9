/** How often a job can be leased, whatever crashes and whatever overlaps. */
module Budget {
  import opened Schema
  import opened Pipeline
  import opened Protocol
  import opened Integrity
  import opened Frames
  import opened Leases
  import opened Witnesses
  import opened LostRuns
  import opened Doubling

  /** The event takes `t` while a run of it is left. */
  predicate DoublesJob(s: State, e: Event, t: TaskId) {
    Claims(e) && e.t == t && Doubles(s, e)
  }

  function DoubleCount(s: State, es: seq<Event>, t: TaskId): nat {
    if es == [] then 0
    else DoubleCount(s, es[..|es| - 1], t) + if DoublesJob(Exec(s, es[..|es| - 1]), es[|es| - 1], t) then 1 else 0
  }

  lemma CountsSplit(s: State, es: seq<Event>, t: TaskId)
    requires es != []
    ensures
      var front, e := es[..|es| - 1], es[|es| - 1];
      && LostCount(s, es, t) == LostCount(s, front, t) + (if Loses(Exec(s, front), e, t) then 1 else 0)
      && DoubleCount(s, es, t) == DoubleCount(s, front, t) + (if DoublesJob(Exec(s, front), e, t) then 1 else 0)
  {
    hide Exec, Loses, DoublesJob;
  }

  lemma NoCounts(s: State, t: TaskId)
    ensures LostCount(s, [], t) == 0 && DoubleCount(s, [], t) == 0
  {
  }

  /** The leases of `t` keep to the budget; once it is used up, only late attempts run, and one of them
      while the job is open. */
  predicate InBudget(s: State, t: TaskId, budget: nat) {
    t in s.db.jobs ==>
      && s.db.jobs[t].attempts <= budget
      && (s.db.jobs[t].attempts == budget ==>
            && (forall r | r in s.runs && r.0 == t :: r.1 >= MAX_ATTEMPTS)
            && (!Terminal(s.db.jobs[t].state) ==> HasRun(s, t)))
  }

  // ---- one event --------------------------------------------------------------------------

  /** The last step of a late attempt ends the job. */
  lemma LateEnd(db: Db, r: RunId, run: Run, a: Answer)
    requires RunSound(db, r, run) && r.0 in db.jobs && r.1 >= MAX_ATTEMPTS
    ensures
      var (db', pc) := Proceed(db, run, a);
      r.0 in db'.jobs && (pc.Finished? ==> Terminal(db'.jobs[r.0].state))
  {
    KeyOf(db, r, run);
    NotFinished(db, r, run);
    FinishedWhen(db, run, a);
    ProceedJobs(db, run, a);
    hide Proceed, RunSound;
  }

  lemma NotFinished(db: Db, r: RunId, run: Run)
    requires RunSound(db, r, run)
    ensures !run.pc.Finished?
  {
  }

  lemma SameAttempts(db: Db, run: Run, a: Answer, t: TaskId)
    requires t in db.jobs
    ensures
      var db' := Proceed(db, run, a).0;
      && t in db'.jobs && db'.jobs[t].attempts == db.jobs[t].attempts
      && (t != run.job.taskId ==> db'.jobs[t] == db.jobs[t])
  {
    ProceedJobs(db, run, a);
    hide Proceed;
  }

  lemma GoInBudget(s: State, r: RunId, a: Answer, t: TaskId, budget: nat)
    requires Sound(s) && r in s.runs && InBudget(s, t, budget) && t in s.db.jobs
    ensures InBudget(StepRun(s, r, a), t, budget)
  {
    hide Sound, Proceed, RunSound, Remember;
    RunNotFinished(s, r);
    KeyOf(s.db, r, s.runs[r]);
    SameAttempts(s.db, s.runs[r], a, t);
    if s.db.jobs[t].attempts == budget {
      var s' := StepRun(s, r, a);
      if r.0 == t {
        LateEnd(s.db, r, s.runs[r], a);
        assert !Terminal(s'.db.jobs[t].state) ==> r in s'.runs;
      } else if q :| q in s.runs && q.0 == t {
        assert q in s'.runs;
      }
    }
  }

  lemma ClaimInBudget(s: State, e: Event, t: TaskId, budget: nat)
    requires Claims(e) && t in s.db.jobs && InBudget(s, t, budget) && budget >= MAX_ATTEMPTS
    ensures InBudget(Next(s, e), t, budget + if DoublesJob(s, e, t) then 1 else 0)
  {
    TakenIs(s, e);
    if Takes(s, e) && e.t == t {
      TakenOpen(s, e);
      var k := s.db.jobs[t].attempts + 1;
      var s' := Lend(s, t, e.seconds);
      hide Next, Takes;
      assert (t, k) in s'.runs && s'.runs == s.runs[(t, k) := s'.runs[(t, k)]];
    } else if Takes(s, e) {
      hide Next, Takes;
      OtherLent(s, e.t, e.seconds, t);
    }
  }

  lemma TakenOpen(s: State, e: Event)
    requires Claims(e) && Takes(s, e)
    ensures e.t in s.db.jobs && !Terminal(s.db.jobs[e.t].state)
  {
  }

  lemma OtherLent(s: State, u: TaskId, seconds: int, t: TaskId)
    requires u in s.db.jobs && t in s.db.jobs && u != t
    ensures
      var s' := Lend(s, u, seconds);
      && t in s'.db.jobs && s'.db.jobs[t] == s.db.jobs[t]
      && forall r: RunId | r.0 == t :: r in s'.runs <==> r in s.runs
  {
  }

  lemma QuietInBudget(s: State, e: Event, t: TaskId, budget: nat)
    requires Issued(s) && !e.Go? && !Claims(e) && InBudget(s, t, budget) && budget >= MAX_ATTEMPTS
    ensures InBudget(Next(s, e), t, budget + if Loses(s, e, t) then 1 else 0)
  {
    QuietRows(s, e);
    QuietRunKeys(s, e);
    hide Next;
  }

  lemma BudgetNext(s: State, e: Event, t: TaskId, budget: nat)
    requires Sound(s) && InBudget(s, t, budget) && budget >= MAX_ATTEMPTS
    ensures
      InBudget(Next(s, e), t,
               budget + (if Loses(s, e, t) then 1 else 0) + (if DoublesJob(s, e, t) then 1 else 0))
  {
    SoundIssued(s);
    hide Sound, InBudget, Doubles, StepRun;
    if e.Go? {
      if e.r in s.runs {
        if t in s.db.jobs { GoInBudget(s, e.r, e.a, t, budget); }
        GoRows(s, e.r, e.a, t, budget);
      } else {
        IdleGo(s, e);
      }
    } else if Claims(e) {
      if t in s.db.jobs { ClaimInBudget(s, e, t, budget); } else { NotThere(s, e, t, budget); }
    } else {
      QuietInBudget(s, e, t, budget);
    }
  }

  lemma GoRows(s: State, r: RunId, a: Answer, t: TaskId, budget: nat)
    requires Sound(s) && r in s.runs
    ensures Next(s, Go(r, a)) == StepRun(s, r, a)
    ensures t !in s.db.jobs ==> InBudget(StepRun(s, r, a), t, budget)
  {
    hide Sound, Proceed, RunSound;
    GoIs(s, r, a);
    RunNotFinished(s, r);
    OtherRows(s.db, r, s.runs[r], a);
  }

  lemma NotThere(s: State, e: Event, t: TaskId, budget: nat)
    requires Claims(e) && t !in s.db.jobs
    ensures InBudget(Next(s, e), t, budget + if DoublesJob(s, e, t) then 1 else 0)
  {
  }

  // ---- whole traces -----------------------------------------------------------------------

  lemma {:induction false} ExecInBudget(es: seq<Event>, t: TaskId)
    ensures InBudget(Exec(INIT, es), t, MAX_ATTEMPTS + LostCount(INIT, es, t) + DoubleCount(INIT, es, t))
  {
    hide Next, Sound, Exec, InBudget, Loses, DoublesJob, LostCount, DoubleCount;
    if es == [] {
      NothingSpent(t);
    } else {
      var front := es[..|es| - 1];
      ExecSplit(INIT, es);
      ExecSound(front);
      ExecInBudget(front, t);
      CountsSplit(INIT, es, t);
      BudgetNext(Exec(INIT, front), es[|es| - 1], t,
                 MAX_ATTEMPTS + LostCount(INIT, front, t) + DoubleCount(INIT, front, t));
    }
  }

  lemma NothingSpent(t: TaskId)
    ensures InBudget(Exec(INIT, []), t, MAX_ATTEMPTS + LostCount(INIT, [], t) + DoubleCount(INIT, [], t))
  {
  }

  /** Under every interleaving: a job is leased at most `max_attempts` times more than runs of it were lost
      or a claim took it while a run of it was left. */
  lemma ClaimsBound(es: seq<Event>, t: TaskId)
    requires t in Exec(INIT, es).db.jobs
    ensures Exec(INIT, es).db.jobs[t].attempts <= MAX_ATTEMPTS + LostCount(INIT, es, t) + DoubleCount(INIT, es, t)
  {
    hide Exec, LostCount, DoubleCount;
    ExecInBudget(es, t);
  }

  // ---- the bound is reached ---------------------------------------------------------------

  lemma {:induction false} DoubleConcat(s: State, es: seq<Event>, es': seq<Event>, t: TaskId)
    ensures DoubleCount(s, es + es', t) == DoubleCount(s, es, t) + DoubleCount(Exec(s, es), es', t)
  {
    hide Exec, DoublesJob;
    if es' == [] {
      assert es + es' == es;
    } else {
      var front, e := es'[..|es'| - 1], es'[|es'| - 1];
      DoubleConcat(s, es, front, t);
      ExecConcat(s, es, front);
      assert (es + es')[..|es + es'| - 1] == es + front && (es + es')[|es + es'| - 1] == e;
    }
  }

  /** A job in flight whose lease ends now, with a run of it. */
  predicate Late(j: Job, now: int, runs: map<RunId, Run>) {
    j.spec == Uploaded("h1", 1) && InFlight(j.state) && j.leaseUntil == Some(now) && (2, j.attempts) in runs
  }

  lemma LateRound(j: Job, now: int, runs: map<RunId, Run>)
    requires Late(j, now, runs)
    ensures
      var s := World(j, now, runs);
      var round := [Tick(1), Event.Claim(2, 0)];
      var j' := j.(state := Extracting, leaseUntil := Some(now + 1), attempts := j.attempts + 1);
      var runs' := runs[(2, j.attempts + 1) := Run(Copy(j.attempts + 1), AtLoad)];
      && Exec(s, round) == World(j', now + 1, runs') && Late(j', now + 1, runs')
      && DoubleCount(s, round, 2) == 1 && LostCount(s, round, 2) == 0
  {
    var s, e := World(j, now, runs), Event.Claim(2, 0);
    var round := [Tick(1), e];
    Claimed1(j, now + 1, runs);
    OneEvent(s, Tick(1));
    ExecLast(s, [Tick(1)], e);
    assert [Tick(1)] + [e] == round && round[..1] == [Tick(1)] && [Tick(1)][..0] == [];
    var r := (2, j.attempts);
    assert Next(s, Tick(1)) == World(j, now + 1, runs) && r in runs && r.0 == 2;
    assert Takes(World(j, now + 1, runs), e);
    hide Next, Exec, Takes, LostCount, DoubleCount;
    CountsSplit(s, round, 2);
    CountsSplit(s, [Tick(1)], 2);
    NoCounts(s, 2);
  }

  lemma {:induction false} LateRounds(j: Job, now: int, runs: map<RunId, Run>, n: nat) returns (es: seq<Event>)
    requires Late(j, now, runs)
    ensures
      var s := World(j, now, runs);
      && 2 in Exec(s, es).db.jobs && Exec(s, es).db.jobs[2].attempts == j.attempts + n
      && DoubleCount(s, es, 2) == n && LostCount(s, es, 2) == 0
    decreases n
  {
    if n == 0 {
      es := [];
    } else {
      var s, round := World(j, now, runs), [Tick(1), Event.Claim(2, 0)];
      var j' := j.(state := Extracting, leaseUntil := Some(now + 1), attempts := j.attempts + 1);
      LateRound(j, now, runs);
      hide Exec, Late, DoubleCount, LostCount;
      var more := LateRounds(j', now + 1, runs[(2, j.attempts + 1) := Run(Copy(j.attempts + 1), AtLoad)], n - 1);
      es := round + more;
      ExecConcat(s, round, more);
      DoubleConcat(s, round, more, 2);
      LostConcat(s, round, more, 2);
    }
  }

  /** Claims that double nothing where runs do not overlap. */
  lemma {:induction false} NoneDoubled(es: seq<Event>, t: TaskId)
    requires Guarded(NoOverlap, INIT, es)
    ensures DoubleCount(INIT, es, t) == 0
  {
    if es != [] {
      hide Exec, Guarded, Takes;
      GuardedFront(NoOverlap, INIT, es);
      NoneDoubled(es[..|es| - 1], t);
    }
  }

  /** For all numbers of lost runs and doubling claims the bound is reached. */
  lemma BudgetReached(lost: nat, doubled: nat) returns (es: seq<Event>)
    ensures 2 in Exec(INIT, es).db.jobs && Exec(INIT, es).db.jobs[2].attempts == MAX_ATTEMPTS + lost + doubled
    ensures LostCount(INIT, es, 2) == lost && DoubleCount(INIT, es, 2) == doubled
  {
    hide Exec, Guarded, LostCount, DoubleCount;
    var front := BoundReached(lost);
    var j := LastLease(lost);
    var runs := map[(2, j.attempts) := Run(Copy(j.attempts), AtLoad)];
    NoneDoubled(front, 2);
    LastIsLate(lost);
    var more := LateRounds(j, lost, runs, doubled);
    es := front + more;
    ExecConcat(INIT, front, more);
    DoubleConcat(INIT, front, more, 2);
    LostConcat(INIT, front, more, 2);
  }

  lemma LastIsLate(lost: nat)
    ensures
      var j := LastLease(lost);
      Late(j, lost, map[(2, j.attempts) := Run(Copy(j.attempts), AtLoad)])
  {
  }

  /** Some trace leases `t` at least `attempts` times with no more lost runs and doubling claims than these. */
  ghost predicate Spends(es: seq<Event>, t: TaskId, attempts: nat, lost: nat, doubled: nat) {
    && t in Exec(INIT, es).db.jobs && attempts <= Exec(INIT, es).db.jobs[t].attempts
    && LostCount(INIT, es, t) <= lost && DoubleCount(INIT, es, t) <= doubled
  }

  /** The exact bound on the leases of a job, under every interleaving. */
  lemma ClaimsIff(attempts: nat, lost: nat, doubled: nat)
    ensures (exists es, t :: Spends(es, t, attempts, lost, doubled)) <==> attempts <= MAX_ATTEMPTS + lost + doubled
  {
    hide Exec, LostCount, DoubleCount;
    if es, t :| Spends(es, t, attempts, lost, doubled) {
      ClaimsBound(es, t);
    }
    var es := BudgetReached(lost, doubled);
    assert attempts <= MAX_ATTEMPTS + lost + doubled ==> Spends(es, 2, attempts, lost, doubled);
  }
}
