/** How long a pending job can wait. */
module Scheduling {
  import opened Schema
  import opened Tasks
  import opened Documents
  import opened Pipeline
  import opened Protocol
  import opened Integrity
  import opened Frames
  import opened Leases
  import opened Sets

  /** Every attempt a set of jobs could ever use. */
  function Slots(jobs: set<TaskId>): set<(TaskId, nat)> {
    set t, k | t in jobs && k in Ids(0, MAX_ATTEMPTS) :: (t, k)
  }

  /** The attempts left to the jobs created up to `cutoff`. */
  function Budget(db: Db, cutoff: int): set<(TaskId, nat)> {
    set t, k | t in db.jobs && k in Ids(0, MAX_ATTEMPTS) && db.jobs[t].createdAt <= cutoff
        && db.jobs[t].attempts <= k :: (t, k)
  }

  predicate Takes(s: State, e: Event) {
    e.Claim? && Oldest(s.db, e.t)
  }

  predicate Inserts(e: Event) {
    e.Enqueue? || e.Skip? || e.RequestRebuild?
  }

  /** Claims made along a trace. */
  function ClaimCount(s: State, es: seq<Event>): nat {
    if es == [] then 0
    else ClaimCount(s, es[..|es| - 1]) + if Takes(Exec(s, es[..|es| - 1]), es[|es| - 1]) then 1 else 0
  }

  /** Rows inserted no later than the clock value `cutoff`. */
  function TieCount(s: State, es: seq<Event>, cutoff: int): nat {
    if es == [] then 0
    else TieCount(s, es[..|es| - 1], cutoff)
         + if Inserts(es[|es| - 1]) && Exec(s, es[..|es| - 1]).db.now <= cutoff then 1 else 0
  }

  lemma AttemptsSize(t: TaskId)
    ensures |Slots({t})| == MAX_ATTEMPTS
  {
    assert Slots({t}) == {(t, 0), (t, 1), (t, 2), (t, 3), (t, 4)};
  }

  lemma {:induction false} SlotsSize(jobs: set<TaskId>)
    ensures |Slots(jobs)| == MAX_ATTEMPTS * |jobs|
  {
    if jobs == {} {
      assert Slots(jobs) == {};
    } else {
      hide Slots;
      var t :| t in jobs;
      var rest := jobs - {t};
      SlotsSize(rest);
      AttemptsSize(t);
      SlotsSplit(rest, t);
      assert jobs == rest + {t} && |jobs| == |rest| + 1;
      assert MAX_ATTEMPTS * |jobs| == MAX_ATTEMPTS * |rest| + MAX_ATTEMPTS;
    }
  }

  lemma SlotsSplit(jobs: set<TaskId>, t: TaskId)
    requires t !in jobs
    ensures Slots(jobs + {t}) == Slots(jobs) + Slots({t}) && Slots(jobs) !! Slots({t})
  {
    hide Ids;
  }

  /** One event: the budget can grow only by a row inserted at or before the cutoff, and a claim of a
      job in it spends an attempt. */
  lemma BudgetStep(s: State, e: Event, cutoff: int)
    requires Sound(s) && Timely(s) && Punctual(s, e)
    ensures
      var b, b' := Budget(s.db, cutoff), Budget(Next(s, e).db, cutoff);
      && b' <= b + (if Inserts(e) && s.db.now <= cutoff then Slots({s.db.next}) else {})
      && (Takes(s, e) && s.db.jobs[e.t].createdAt <= cutoff ==>
            (e.t, s.db.jobs[e.t].attempts) in b && (e.t, s.db.jobs[e.t].attempts) !in b')
  {
    hide Sound, Timely, Punctual;
    SoundIssued(s);
    forall t | t in Next(s, e).db.jobs
      ensures
        || (t in s.db.jobs && Next(s, e).db.jobs[t].createdAt == s.db.jobs[t].createdAt
            && s.db.jobs[t].attempts <= Next(s, e).db.jobs[t].attempts)
        || (Inserts(e) && t == s.db.next && Next(s, e).db.jobs[t].createdAt == s.db.now)
    {
      hide Next;
      RowGrows(s, e, t);
    }
    if Takes(s, e) {
      PunctualClaims(s, e);
      assert RowOnTime(s, e.t) by { TimelyRow(s, e.t); }
    }
    hide Next;
    if Takes(s, e) { TakesRow(s, e); }
  }

  lemma TimelyRow(s: State, t: TaskId)
    requires Timely(s) && t in s.db.jobs
    ensures RowOnTime(s, t)
  {
  }

  lemma TakesRow(s: State, e: Event)
    requires Takes(s, e)
    ensures e.t in Next(s, e).db.jobs && Next(s, e).db.jobs[e.t].attempts == s.db.jobs[e.t].attempts + 1
  {
  }

  lemma RowGrows(s: State, e: Event, t: TaskId)
    requires Issued(s) && Sound(s) && t in Next(s, e).db.jobs
    ensures
      || (t in s.db.jobs && Next(s, e).db.jobs[t].createdAt == s.db.jobs[t].createdAt
          && s.db.jobs[t].attempts <= Next(s, e).db.jobs[t].attempts)
      || (Inserts(e) && t == s.db.next && Next(s, e).db.jobs[t].createdAt == s.db.now)
  {
    if t < s.db.next {
      hide Next, Sound;
      NextSound(s, e);
    } else {
      NewRow(s, e, t);
    }
  }

  lemma NewRow(s: State, e: Event, t: TaskId)
    requires Issued(s) && Sound(s) && t in Next(s, e).db.jobs && t !in s.db.jobs
    ensures Inserts(e) && t == s.db.next && Next(s, e).db.jobs[t].createdAt == s.db.now
  {
    hide Sound;
    if e.Go? {
      if e.r in s.runs {
        GoIs(s, e.r, e.a);
        RunNotFinished(s, e.r);
        hide Next, Proceed, RunSound;
        OtherRows(s.db, e.r, s.runs[e.r], e.a);
      }
    } else if e.Upload? {
      hide LookedUp, UploadSpec;
    } else if e.Delete? {
      hide KeepChunks;
    } else if Claims(e) {
      hide Oldest;
    }
  }

  /** A pending job whose attempts do not change stays pending. */
  lemma StaysPending(s: State, e: Event, t: TaskId)
    requires Sound(s) && Leased(s) && t in s.db.jobs && s.db.jobs[t].state == Pending
    requires t in Next(s, e).db.jobs && Next(s, e).db.jobs[t].attempts == s.db.jobs[t].attempts
    ensures Next(s, e).db.jobs[t].state == Pending
  {
    hide Next, Sound;
    SoundIssued(s);
    JobChange(s, e, t);
    if e.Go? && e.r in s.runs && s.runs[e.r].job.taskId == t {
      RunNotFinished(s, e.r);
      KeyOf(s.db, e.r, s.runs[e.r]);
      LeasedRun(s, e.r);
    }
  }

  /** The number of other jobs created no later than `t`. */
  function Older(db: Db, t: TaskId): set<TaskId>
    requires t in db.jobs
  {
    set u | u in db.jobs && u != t && db.jobs[u].createdAt <= db.jobs[t].createdAt
  }

  /** While `j` waits, claims come out of the budget of the jobs created no later. */
  lemma {:induction false} ClaimsFromBudget(s: State, es: seq<Event>, j: TaskId)
    requires Sound(s) && Timely(s) && Guarded(Punctual, s, es)
    requires j in s.db.jobs && s.db.jobs[j].state == Pending
    requires j in Exec(s, es).db.jobs && Exec(s, es).db.jobs[j].attempts == s.db.jobs[j].attempts
    ensures
      var cutoff := s.db.jobs[j].createdAt;
      var s' := Exec(s, es);
      && Sound(s') && Timely(s') && s'.db.jobs[j].state == Pending && s'.db.jobs[j].createdAt == cutoff
      && ClaimCount(s, es) + |Budget(s'.db, cutoff)| <= |Budget(s.db, cutoff)| + MAX_ATTEMPTS * TieCount(s, es, cutoff)
  {
    if es == [] {
      return;
    }
    hide Exec, Next, Sound, Timely, Guarded, Punctual, Budget;
    var front, e := es[..|es| - 1], es[|es| - 1];
    var mid := Exec(s, front);
    ExecSplit(s, es);
    GuardedFront(Punctual, s, es);
    WaitsThrough(s, front, e, j);
    ClaimsFromBudget(s, front, j);
    var cutoff := s.db.jobs[j].createdAt;
    OneClaim(mid, e, j, cutoff);
    NextSound(mid, e);
    NextTimely(mid, e);
    TimelyLeased(mid);
    StaysPending(mid, e, j);
    CountSplit(s, es, cutoff);
  }

  lemma TimelyLeased(s: State)
    requires Timely(s)
    ensures Leased(s)
  {
  }

  lemma CountSplit(s: State, es: seq<Event>, cutoff: int)
    requires es != []
    ensures
      var front, e := es[..|es| - 1], es[|es| - 1];
      var mid := Exec(s, front);
      && ClaimCount(s, es) == ClaimCount(s, front) + (if Takes(mid, e) then 1 else 0)
      && TieCount(s, es, cutoff) == TieCount(s, front, cutoff) + (if Inserts(e) && mid.db.now <= cutoff then 1 else 0)
  {
    hide Exec;
  }

  lemma WaitsThrough(s: State, front: seq<Event>, e: Event, j: TaskId)
    requires Sound(s) && j in s.db.jobs
    requires var s' := Next(Exec(s, front), e); j in s'.db.jobs && s'.db.jobs[j].attempts == s.db.jobs[j].attempts
    ensures
      var mid, s' := Exec(s, front), Next(Exec(s, front), e);
      && j in mid.db.jobs && mid.db.jobs[j].attempts == s.db.jobs[j].attempts
      && mid.db.jobs[j].createdAt == s.db.jobs[j].createdAt && s'.db.jobs[j].createdAt == s.db.jobs[j].createdAt
  {
    hide Exec, Next, Sound;
    ExecEvolves(s, front);
    NextSound(Exec(s, front), e);
    SoundIssued(s);
  }

  lemma OneClaim(s: State, e: Event, j: TaskId, cutoff: int)
    requires Sound(s) && Timely(s) && Punctual(s, e)
    requires j in s.db.jobs && s.db.jobs[j].state == Pending && s.db.jobs[j].createdAt == cutoff
    ensures
      (if Takes(s, e) then 1 else 0) + |Budget(Next(s, e).db, cutoff)|
        <= |Budget(s.db, cutoff)| + (if Inserts(e) && s.db.now <= cutoff then MAX_ATTEMPTS else 0)
  {
    hide Sound, Timely, Punctual, Next, Budget, Slots;
    BudgetStep(s, e, cutoff);
    var b, b' := Budget(s.db, cutoff), Budget(Next(s, e).db, cutoff);
    if Takes(s, e) {
      assert s.db.jobs[e.t].createdAt <= cutoff;
      assert b' <= b;
      SubsetSize(b', b);
    } else {
      var added := if Inserts(e) && s.db.now <= cutoff then Slots({s.db.next}) else {};
      AttemptsSize(s.db.next);
      SubsetSize(b', b + added);
      assert |b + added| <= |b| + |added|;
    }
  }

  /** What the budget holds besides the waiting job's own attempts is owed to the older jobs. */
  lemma BudgetAtMost(db: Db, j: TaskId)
    requires j in db.jobs
    ensures var cutoff := db.jobs[j].createdAt;
      && Own(db, j) <= Budget(db, cutoff)
      && |Budget(db, cutoff)| <= |Own(db, j)| + MAX_ATTEMPTS * |Older(db, j)|
  {
    var b := Budget(db, db.jobs[j].createdAt);
    SlotsSize(Older(db, j));
    SubsetSize(b, Own(db, j) + Slots(Older(db, j)));
  }

  function Own(db: Db, j: TaskId): set<(TaskId, nat)>
    requires j in db.jobs
  {
    set k | k in Ids(0, MAX_ATTEMPTS) && db.jobs[j].attempts <= k :: (j, k)
  }

  /** Punctual runs: while a pending job waits, at most MAX_ATTEMPTS claims per older job are made,
      a row inserted in the job's own clock instant counting as older. */
  lemma SchedulingBound(before: seq<Event>, es: seq<Event>, j: TaskId)
    requires Guarded(Punctual, INIT, before) && Guarded(Punctual, Exec(INIT, before), es)
    requires j in Exec(INIT, before).db.jobs && Exec(INIT, before).db.jobs[j].state == Pending
    requires
      var s := Exec(INIT, before);
      j in Exec(s, es).db.jobs && Exec(s, es).db.jobs[j].attempts == s.db.jobs[j].attempts
    ensures
      var s := Exec(INIT, before);
      && Exec(s, es).db.jobs[j].state == Pending
      && ClaimCount(s, es) <= MAX_ATTEMPTS * (|Older(s.db, j)| + TieCount(s, es, s.db.jobs[j].createdAt))
      && (s.db.now > s.db.jobs[j].createdAt ==> ClaimCount(s, es) <= MAX_ATTEMPTS * |Older(s.db, j)|)
  {
    hide Exec, Guarded, Punctual, Sound, Timely, ClaimCount, TieCount, Older, Budget;
    var s := Exec(INIT, before);
    ExecSound(before);
    ExecTimely(before);
    ClaimsFromBudget(s, es, j);
    BudgetAtMost(s.db, j);
    BudgetAtMost(Exec(s, es).db, j);
    OwnSame(s.db, Exec(s, es).db, j);
    if s.db.now > s.db.jobs[j].createdAt { NoTies(s, es, s.db.jobs[j].createdAt); }
    SubsetSize(Own(s.db, j), Budget(Exec(s, es).db, s.db.jobs[j].createdAt));
  }

  lemma OwnSame(db: Db, db': Db, j: TaskId)
    requires j in db.jobs && j in db'.jobs && db.jobs[j].attempts == db'.jobs[j].attempts
    ensures Own(db, j) == Own(db', j)
  {
  }

  lemma {:induction false} NoTies(s: State, es: seq<Event>, cutoff: int)
    requires Sound(s) && s.db.now > cutoff
    ensures TieCount(s, es, cutoff) == 0
  {
    if es != [] {
      hide Exec, Sound;
      ExecEvolves(s, es[..|es| - 1]);
      NoTies(s, es[..|es| - 1], cutoff);
    }
  }
}
