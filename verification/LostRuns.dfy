/** How often a job can be leased when runs are lost: `max_attempts` plus the runs lost, and no less. */
module LostRuns {
  import opened Schema
  import opened Tasks
  import opened Pipeline
  import opened Protocol
  import opened Integrity
  import opened Leases
  import opened Witnesses

  /** A run of `t` ends without `mark_failed` or `mark_done`: it dies, or `mark_failed` itself raises. */
  predicate Loses(s: State, e: Event, t: TaskId) {
    (e.Crash? || e.Fail?) && e.r in s.runs && e.r.0 == t && (e.Fail? ==> s.runs[e.r].pc.AtFailing?)
  }

  function LostCount(s: State, es: seq<Event>, t: TaskId): nat {
    if es == [] then 0
    else LostCount(s, es[..|es| - 1], t) + if Loses(Exec(s, es[..|es| - 1]), es[|es| - 1], t) then 1 else 0
  }

  /** The attempts of a row against the runs lost so far. */
  predicate RowSpent(s: State, t: TaskId, lost: nat)
    requires t in s.db.jobs
  {
    var j := s.db.jobs[t];
    && j.attempts <= MAX_ATTEMPTS + lost
    && (j.state == Pending ==> j.attempts < MAX_ATTEMPTS)
    && (InFlight(j.state) && (t, j.attempts) !in s.runs ==> j.attempts < MAX_ATTEMPTS + lost)
  }

  lemma GoSpent(s: State, r: RunId, a: Answer, t: TaskId, lost: nat)
    requires Sound(s) && Leased(s) && r in s.runs && t in s.db.jobs && RowSpent(s, t, lost)
    ensures t in StepRun(s, r, a).db.jobs && RowSpent(StepRun(s, r, a), t, lost)
  {
    hide Sound, Proceed, RunSound, Remember, Leased;
    RunNotFinished(s, r);
    OtherRows(s.db, r, s.runs[r], a);
    LeasedRun(s, r);
    if r.0 == t { OwnRowAfter(s.db, r, s.runs[r], a); }
    assert r == (r.0, r.1);
  }

  lemma ClaimSpent(s: State, e: Event, t: TaskId, lost: nat)
    requires Leased(s) && Claims(e) && NoOverlap(s, e) && t in s.db.jobs && RowSpent(s, t, lost)
    ensures t in Next(s, e).db.jobs && RowSpent(Next(s, e), t, lost)
  {
    hide Leased;
  }

  lemma QuietSpent(s: State, e: Event, t: TaskId, lost: nat)
    requires Issued(s) && Leased(s) && !e.Go? && !Claims(e) && t in Next(s, e).db.jobs
    requires t in s.db.jobs ==> RowSpent(s, t, lost)
    ensures RowSpent(Next(s, e), t, lost + if Loses(s, e, t) then 1 else 0)
  {
    QuietRows(s, e);
    QuietRunKeys(s, e);
    hide Next, Leased;
  }

  lemma SpentNext(s: State, e: Event, t: TaskId, lost: nat)
    requires Sound(s) && Leased(s) && NoOverlap(s, e) && t in Next(s, e).db.jobs
    requires t in s.db.jobs ==> RowSpent(s, t, lost)
    ensures RowSpent(Next(s, e), t, lost + if Loses(s, e, t) then 1 else 0)
  {
    hide Sound, Leased, NoOverlap, RowSpent, StepRun, Proceed;
    SoundIssued(s);
    if e.Go? {
      if e.r in s.runs {
        RunNotFinished(s, e.r);
        OtherRows(s.db, e.r, s.runs[e.r], e.a);
        GoIs(s, e.r, e.a);
        GoSpent(s, e.r, e.a, t, lost);
      }
    } else if Claims(e) {
      ClaimedRow(s, e, t);
      ClaimSpent(s, e, t, lost);
    } else {
      QuietSpent(s, e, t, lost);
    }
  }

  lemma ClaimedRow(s: State, e: Event, t: TaskId)
    requires Claims(e) && t in Next(s, e).db.jobs
    ensures t in s.db.jobs
  {
  }

  lemma {:induction false} ExecSpent(es: seq<Event>, t: TaskId)
    requires Guarded(NoOverlap, INIT, es)
    ensures t in Exec(INIT, es).db.jobs ==> RowSpent(Exec(INIT, es), t, LostCount(INIT, es, t))
  {
    if es != [] {
      hide Next, Sound, Exec, Guarded, NoOverlap, Leased, RowSpent, Loses;
      var front := es[..|es| - 1];
      ExecSplit(INIT, es);
      GuardedFront(NoOverlap, INIT, es);
      ExecSound(front);
      ExecLeased(front);
      ExecSpent(front, t);
      if t in Exec(INIT, es).db.jobs {
        SpentNext(Exec(INIT, front), es[|es| - 1], t, LostCount(INIT, front, t));
      }
    }
  }

  /** Runs of a job do not overlap: it is leased at most `max_attempts` times more than runs of it were lost,
      and is put back to pending only with an attempt left. */
  lemma AttemptsBound(es: seq<Event>, t: TaskId)
    requires Guarded(NoOverlap, INIT, es) && t in Exec(INIT, es).db.jobs
    ensures
      var j := Exec(INIT, es).db.jobs[t];
      && j.attempts <= MAX_ATTEMPTS + LostCount(INIT, es, t)
      && (j.state == Pending ==> j.attempts < MAX_ATTEMPTS)
  {
    hide Exec, Guarded, LostCount;
    ExecSpent(es, t);
  }

  // ---- the bound is reached -------------------------------------------------------------------

  lemma {:induction false} GuardedConcat(guard: (State, Event) -> bool, s: State, es: seq<Event>, es': seq<Event>)
    requires Guarded(guard, s, es) && Guarded(guard, Exec(s, es), es')
    ensures Guarded(guard, s, es + es')
  {
    hide Exec;
    var all := es + es';
    forall i | 0 <= i < |all| ensures guard(Exec(s, all[..i]), all[i]) {
      if i < |es| {
        assert all[..i] == es[..i];
      } else {
        assert all[..i] == es + es'[..i - |es|];
        ExecConcat(s, es, es'[..i - |es|]);
      }
    }
  }

  lemma {:induction false} LostConcat(s: State, es: seq<Event>, es': seq<Event>, t: TaskId)
    ensures LostCount(s, es + es', t) == LostCount(s, es, t) + LostCount(Exec(s, es), es', t)
  {
    hide Exec, Loses;
    if es' == [] {
      assert es + es' == es;
    } else {
      var front, e := es'[..|es'| - 1], es'[|es'| - 1];
      LostConcat(s, es, front, t);
      ExecConcat(s, es, front);
      assert (es + es')[..|es + es'| - 1] == es + front && (es + es')[|es + es'| - 1] == e;
    }
  }

  /** A stretch of a trace: the guard it respects, what it loses, where it leads. */
  ghost predicate Leads(s: State, es: seq<Event>, lost: nat, s': State) {
    Guarded(NoOverlap, s, es) && LostCount(s, es, 2) == lost && Exec(s, es) == s'
  }

  lemma LeadsConcat(s: State, es: seq<Event>, lost: nat, s': State, es': seq<Event>, lost': nat, s'': State)
    requires Leads(s, es, lost, s') && Leads(s', es', lost', s'')
    ensures Leads(s, es + es', lost + lost', s'')
  {
    hide Exec, Guarded, LostCount;
    GuardedConcat(NoOverlap, s, es, es');
    LostConcat(s, es, es', 2);
    ExecConcat(s, es, es');
  }

  /** One event leads on. */
  lemma LeadsOne(s: State, es: seq<Event>, lost: nat, s': State, e: Event)
    requires Leads(s, es, lost, s') && NoOverlap(s', e)
    ensures Leads(s, es + [e], lost + (if Loses(s', e, 2) then 1 else 0), Next(s', e))
  {
    hide Next, Loses, NoOverlap, Guarded, Exec;
    ExecLast(s, es, e);
    assert (es + [e])[..|es|] == es && (es + [e])[|es|] == e;
    OneGuarded(s, es, e);
  }

  lemma OneGuarded(s: State, es: seq<Event>, e: Event)
    requires Guarded(NoOverlap, s, es) && NoOverlap(Exec(s, es), e)
    ensures Guarded(NoOverlap, s, es + [e])
  {
    hide Exec, NoOverlap;
    var all := es + [e];
    forall i | 0 <= i < |all| ensures NoOverlap(Exec(s, all[..i]), all[i]) {
      if i < |es| { assert all[..i] == es[..i]; } else { assert all[..i] == es; }
    }
  }

  lemma LeadsNowhere(s: State)
    ensures Leads(s, [], 0, s)
  {
  }

  lemma QueuedLeads()
    ensures Leads(INIT, [FIRST, Enqueue(1)], 0, World(FirstJob(Pending, 0, None), 0, map[]))
  {
    LeadsNowhere(INIT);
    FirstUpload();
    Enqueued();
    OneEvent(INIT, FIRST);
    hide Exec, Leads, Next;
    LeadsOne(INIT, [], 0, INIT, FIRST);
    assert [] + [FIRST] == [FIRST] && [FIRST] + [Enqueue(1)] == [FIRST, Enqueue(1)];
    LeadsOne(INIT, [FIRST], 0, Next(INIT, FIRST), Enqueue(1));
    ExecLast(INIT, [FIRST], Enqueue(1));
  }

  // ---- transient failures, then crashes, then one more lease ------------------------------------

  function Retried(n: nat): Job {
    if n == 0 then FirstJob(Pending, 0, None)
    else FirstJob(Pending, n, None).(fault := Some(Fault("extracting", Timeout)))
  }

  lemma LeaseLeads(j: Job, now: int)
    requires j.spec == Uploaded("h1", 1) && Claimable(World(j, now, map[]).db, 2)
    ensures
      Leads(World(j, now, map[]), [Event.Claim(2, 0)], 0,
            World(j.(state := Extracting, leaseUntil := Some(now), attempts := j.attempts + 1), now,
                  map[(2, j.attempts + 1) := Run(Copy(j.attempts + 1), AtLoad)]))
  {
    var s := World(j, now, map[]);
    Claimed1(j, now, map[]);
    LeadsNowhere(s);
    assert NoOverlap(s, Event.Claim(2, 0));
    hide Next, Leads;
    LeadsOne(s, [], 0, s, Event.Claim(2, 0));
    assert [] + [Event.Claim(2, 0)] == [Event.Claim(2, 0)];
  }

  /** The lease of attempt `n + 1`, with its run as leased and as its first call has raised. */
  function Leased1(n: nat, failing: bool): State {
    World(Retried(n).(state := Extracting, leaseUntil := Some(0), attempts := n + 1), 0,
          map[(2, n + 1) := Run(Copy(n + 1), if failing then AtFailing(Fault("extracting", Timeout)) else AtLoad)])
  }

  lemma LeasesAgain(n: nat)
    ensures Leads(World(Retried(n), 0, map[]), [Event.Claim(2, 0)], 0, Leased1(n, false))
  {
    assert Retried(n).spec == Uploaded("h1", 1) && Retried(n).attempts == n;
    hide Leads;
    LeaseLeads(Retried(n), 0);
  }

  lemma Raises(n: nat)
    ensures Next(Leased1(n, false), Fail((2, n + 1), Timeout)) == Leased1(n, true)
    ensures !Loses(Leased1(n, false), Fail((2, n + 1), Timeout), 2)
  {
  }

  lemma Records(n: nat)
    requires n + 1 < MAX_ATTEMPTS
    ensures Next(Leased1(n, true), Go((2, n + 1), ANY)) == World(Retried(n + 1), 0, map[])
  {
  }

  /** One event, and two more that are not claims. */
  lemma LeadsThree(s: State, e1: Event, s1: State, e2: Event, s2: State, e3: Event, lost: nat)
    requires Leads(s, [e1], 0, s1) && !Claims(e2) && Next(s1, e2) == s2
    requires !Claims(e3) && !e3.Crash? && !e3.Fail? && lost == if Loses(s1, e2, 2) then 1 else 0
    ensures Leads(s, [e1, e2, e3], lost, Next(s2, e3))
  {
    assert !Loses(s2, e3, 2);
    hide Next, Leads, Loses;
    LeadsOne(s, [e1], 0, s1, e2);
    LeadsOne(s, [e1] + [e2], lost, s2, e3);
    assert [e1] + [e2] + [e3] == [e1, e2, e3];
  }

  lemma RetryLeads(n: nat)
    requires n + 1 < MAX_ATTEMPTS
    ensures Leads(World(Retried(n), 0, map[]), [Event.Claim(2, 0), Fail((2, n + 1), Timeout), Go((2, n + 1), ANY)], 0,
                  World(Retried(n + 1), 0, map[]))
  {
    LeasesAgain(n);
    Raises(n);
    Records(n);
    hide Next, Leads, Loses, Leased1;
    LeadsThree(World(Retried(n), 0, map[]), Event.Claim(2, 0), Leased1(n, false), Fail((2, n + 1), Timeout),
               Leased1(n, true), Go((2, n + 1), ANY), 0);
  }

  lemma {:induction false} RetriesLead(n: nat) returns (es: seq<Event>)
    requires n < MAX_ATTEMPTS
    ensures Leads(World(Retried(0), 0, map[]), es, 0, World(Retried(n), 0, map[]))
  {
    hide Leads, Exec, Next, Guarded, LostCount;
    if n == 0 {
      es := [];
      LeadsNowhere(World(Retried(0), 0, map[]));
    } else {
      var front := RetriesLead(n - 1);
      RetryLeads(n - 1);
      var more := [Event.Claim(2, 0), Fail((2, n), Timeout), Go((2, n), ANY)];
      LeadsConcat(World(Retried(0), 0, map[]), front, 0, World(Retried(n - 1), 0, map[]), more, 0,
          World(Retried(n), 0, map[]));
      es := front + more;
    }
  }

  lemma DiesLater(j: Job, now: int, k: nat)
    ensures Next(World(j, now, map[(2, k) := Run(Copy(k), AtLoad)]), Crash((2, k))) == World(j, now, map[])
    ensures Next(World(j, now, map[]), Tick(1)) == World(j, now + 1, map[])
  {
  }

  lemma CrashLeads(j: Job, now: int)
    requires j.spec == Uploaded("h1", 1) && Claimable(World(j, now, map[]).db, 2)
    ensures
      Leads(World(j, now, map[]), [Event.Claim(2, 0), Crash((2, j.attempts + 1)), Tick(1)], 1,
            World(Crashed(j, now, 1), now + 1, map[]))
  {
    var leased := j.(state := Extracting, leaseUntil := Some(now), attempts := j.attempts + 1);
    var k := j.attempts + 1;
    LeaseLeads(j, now);
    hide Next, Leads;
    DiesLater(leased, now, k);
    LeadsThree(World(j, now, map[]), Event.Claim(2, 0), World(leased, now, map[(2, k) := Run(Copy(k), AtLoad)]),
               Crash((2, k)), World(leased, now, map[]), Tick(1), 1);
  }

  lemma {:induction false} CrashesLead(j: Job, now: int, n: nat) returns (es: seq<Event>)
    requires j.spec == Uploaded("h1", 1) && Claimable(World(j, now, map[]).db, 2)
    ensures Leads(World(j, now, map[]), es, n, World(Crashed(j, now, n), now + n, map[]))
    ensures Claimable(World(Crashed(j, now, n), now + n, map[]).db, 2)
  {
    hide Leads, Exec, Next, Guarded, LostCount;
    if n == 0 {
      es := [];
      LeadsNowhere(World(j, now, map[]));
    } else {
      var front := CrashesLead(j, now, n - 1);
      var last := Crashed(j, now, n - 1);
      CrashLeads(last, now + n - 1);
      var more := [Event.Claim(2, 0), Crash((2, last.attempts + 1)), Tick(1)];
      LeadsConcat(World(j, now, map[]), front, n - 1, World(last, now + n - 1, map[]), more, 1,
                  World(Crashed(j, now, n), now + n, map[]));
      es := front + more;
    }
  }

  /** The last lease of a job that has used up its attempts. */
  function LastLease(lost: nat): Job {
    var j := Crashed(Retried(4), 0, lost);
    j.(state := Extracting, leaseUntil := Some(lost), attempts := j.attempts + 1)
  }

  /** For every number of lost runs the bound is reached: four transient failures, the crashes, one more lease. */
  lemma BoundReached(lost: nat) returns (es: seq<Event>)
    ensures Guarded(NoOverlap, INIT, es) && 2 in Exec(INIT, es).db.jobs
    ensures LostCount(INIT, es, 2) == lost && Exec(INIT, es).db.jobs[2].attempts == MAX_ATTEMPTS + lost
    ensures
      var j := LastLease(lost);
      && j.attempts == MAX_ATTEMPTS + lost
      && Exec(INIT, es) == World(j, lost, map[(2, j.attempts) := Run(Copy(j.attempts), AtLoad)])
  {
    hide Leads;
    QueuedLeads();
    var s0, s1 := World(Retried(0), 0, map[]), World(Retried(4), 0, map[]);
    var es1 := RetriesLead(4);
    LeadsConcat(INIT, [FIRST, Enqueue(1)], 0, s0, es1, 0, s1);
    var es2 := CrashesLead(Retried(4), 0, lost);
    var last := Crashed(Retried(4), 0, lost);
    LeadsConcat(INIT, [FIRST, Enqueue(1)] + es1, 0, s1, es2, lost, World(last, lost, map[]));
    LeaseLeads(last, lost);
    var end := World(last.(state := Extracting, leaseUntil := Some(lost), attempts := last.attempts + 1), lost,
                     map[(2, last.attempts + 1) := Run(Copy(last.attempts + 1), AtLoad)]);
    LeadsConcat(INIT, [FIRST, Enqueue(1)] + es1 + es2, lost, World(last, lost, map[]), [Event.Claim(2, 0)], 0, end);
    es := [FIRST, Enqueue(1)] + es1 + es2 + [Event.Claim(2, 0)];
    LeadsMeans(es, lost, end);
  }

  lemma LeadsMeans(es: seq<Event>, lost: nat, end: State)
    requires Leads(INIT, es, lost, end)
    ensures Guarded(NoOverlap, INIT, es) && LostCount(INIT, es, 2) == lost && Exec(INIT, es) == end
  {
  }

  /** Some trace leases `t` at least `attempts` times and loses no more than `lost` runs of it. */
  ghost predicate Reaches(es: seq<Event>, t: TaskId, attempts: nat, lost: nat) {
    && Guarded(NoOverlap, INIT, es) && t in Exec(INIT, es).db.jobs
    && attempts <= Exec(INIT, es).db.jobs[t].attempts && LostCount(INIT, es, t) <= lost
  }

  /** The exact bound on the leases of a job whose runs do not overlap. */
  lemma AttemptsIff(attempts: nat, lost: nat)
    ensures (exists es, t :: Reaches(es, t, attempts, lost)) <==> attempts <= MAX_ATTEMPTS + lost
  {
    hide Exec, Guarded, LostCount;
    if es, t :| Reaches(es, t, attempts, lost) {
      AttemptsBound(es, t);
    }
    var es := BoundReached(lost);
    assert attempts <= MAX_ATTEMPTS + lost ==> Reaches(es, 2, attempts, lost);
  }
}
