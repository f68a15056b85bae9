/** Exactly when two workers process one job, and how often a job can be leased then. */
module Doubling {
  import opened Schema
  import opened Tasks
  import opened Pipeline
  import opened Protocol
  import opened Integrity
  import opened Leases
  import opened Witnesses

  predicate HasRun(s: State, t: TaskId) {
    exists r | r in s.runs :: r.0 == t
  }

  /** The claim takes its job: the oldest claimable one, or by its id one that has not ended. */
  predicate Takes(s: State, e: Event) {
    || (e.Claim? && Oldest(s.db, e.t))
    || (e.ClaimById? && e.t in s.db.jobs && !Terminal(s.db.jobs[e.t].state))
  }

  /** It takes the job while a run of it is left. */
  predicate Doubles(s: State, e: Event) {
    Takes(s, e) && HasRun(s, e.t)
  }

  ghost predicate OneRunPerJob(s: State) {
    forall r, q | r in s.runs && q in s.runs && r.0 == q.0 :: r == q
  }

  // ---- one event --------------------------------------------------------------------------

  lemma TakenIs(s: State, e: Event)
    requires Claims(e)
    ensures Takes(s, e) ==> e.t in s.db.jobs && Next(s, e) == Lend(s, e.t, e.seconds)
    ensures !Takes(s, e) ==> Next(s, e) == s
  {
  }

  lemma LendDoubles(s: State, t: TaskId, seconds: int)
    requires Leased(s) && OneRunPerJob(s) && t in s.db.jobs
    ensures OneRunPerJob(Lend(s, t, seconds)) <==> !HasRun(s, t)
  {
    var k := s.db.jobs[t].attempts + 1;
    var s' := Lend(s, t, seconds);
    assert s'.runs == s.runs[(t, k) := s'.runs[(t, k)]];
    if HasRun(s, t) {
      var r :| r in s.runs && r.0 == t;
      assert r.1 == k - 1 && r in s'.runs && (t, k) in s'.runs;
    }
    hide Leased;
  }

  /** A polling claim finds a run left only where the lease of the row has passed. */
  lemma DoublesLate(s: State, e: Event)
    requires Leased(s) && Doubles(s, e) && e.Claim?
    ensures var lease := s.db.jobs[e.t].leaseUntil; lease.Some? && lease.value < s.db.now
  {
    var r :| r in s.runs && r.0 == e.t;
    LeasedRun(s, r);
  }

  lemma OtherRunKeys(s: State, e: Event)
    requires !Claims(e)
    ensures forall r | r in Next(s, e).runs :: r in s.runs
  {
    if e.Go? {
      hide Proceed, Remember;
    } else {
      QuietRunKeys(s, e);
      hide Next;
    }
  }

  /** The law of one step: where jobs have one run each and rows agree with their runs, a job gets a second run
      exactly if a claim takes it while a run of it is left. */
  lemma DoubleStep(s: State, e: Event)
    requires Sound(s) && Leased(s) && OneRunPerJob(s)
    ensures OneRunPerJob(Next(s, e)) <==> !Doubles(s, e)
    ensures !Doubles(s, e) ==> Leased(Next(s, e))
    ensures Doubles(s, e) && e.Claim? ==>
              var lease := s.db.jobs[e.t].leaseUntil; lease.Some? && lease.value < s.db.now
  {
    hide Next, Sound, Leased, Takes;
    if Claims(e) {
      TakenIs(s, e);
      if Takes(s, e) { LendDoubles(s, e.t, e.seconds); }
      if Doubles(s, e) && e.Claim? { DoublesLate(s, e); }
    } else {
      NotTaken(s, e);
      OtherRunKeys(s, e);
    }
    if !Doubles(s, e) && (Claims(e) ==> Takes(s, e)) { NextLeased(s, e); }
  }

  lemma NotTaken(s: State, e: Event)
    requires !Claims(e)
    ensures !Takes(s, e)
  {
  }

  // ---- whole traces -----------------------------------------------------------------------

  ghost predicate NoDoubling(s: State, e: Event) {
    !Doubles(s, e)
  }

  ghost function OneRunEverywhere(): State -> bool {
    (s: State) => OneRunPerJob(s)
  }

  ghost function LeasedOnce(): State -> bool {
    (s: State) => Leased(s) && OneRunPerJob(s)
  }

  lemma LeasedOnceLaw()
    ensures LeasedOnce()(INIT) && StepLaw(LeasedOnce(), NoDoubling)
  {
    var good := LeasedOnce();
    assert good(INIT);
    hide Next, Exec, Sound, Leased, OneRunPerJob, Doubles;
    forall es, e | good(Exec(INIT, es))
      ensures good(Next(Exec(INIT, es), e)) <==> NoDoubling(Exec(INIT, es), e)
    {
      ExecSound(es);
      DoubleStep(Exec(INIT, es), e);
    }
  }

  /** As long as no job ever had two runs, the rows agree with their runs. */
  lemma {:induction false} OneRunIsLeased(es: seq<Event>)
    requires Always(OneRunEverywhere(), es)
    ensures Always(LeasedOnce(), es)
  {
    hide Next, Exec, Sound, Leased, OneRunPerJob, Doubles, Always;
    LeasedOnceLaw();
    if es == [] {
      AlwaysIff(LeasedOnce(), NoDoubling, es);
      assert Guarded(NoDoubling, INIT, es);
    } else {
      var front, e := es[..|es| - 1], es[|es| - 1];
      hide Guarded;
      AlwaysSplit(OneRunEverywhere(), es);
      OneRunIsLeased(front);
      AlwaysLast(LeasedOnce(), front);
      ExecSplit(INIT, es);
      ExecSound(front);
      DoubleStep(Exec(INIT, front), e);
      AlwaysSplit(LeasedOnce(), es);
    }
  }

  /** The exact condition: at no point of a trace does a job have two runs if and only if no claim takes a job
      while a run of it is left. */
  lemma NeverTwoRunsIff(es: seq<Event>)
    ensures Always(OneRunEverywhere(), es) <==> Guarded(NoDoubling, INIT, es)
    ensures Guarded(NoDoubling, INIT, es) ==> Leased(Exec(INIT, es))
  {
    hide Next, Exec, Guarded, Leased, OneRunPerJob;
    LeasedOnceLaw();
    AlwaysIff(LeasedOnce(), NoDoubling, es);
    if Always(OneRunEverywhere(), es) { OneRunIsLeased(es); }
    if Always(LeasedOnce(), es) { AlwaysLast(LeasedOnce(), es); }
  }

  /** Reached from the empty database: the lease passes, the first run goes on, and a second one starts. */
  lemma TwoRunsOfOneJob()
    ensures
      var s := Exec(INIT, [FIRST, Enqueue(1)] + [Event.Claim(2, 0), Tick(1)] + [Event.Claim(2, 0)]);
      (2, 1) in s.runs && (2, 2) in s.runs
  {
    var e1, e2, e3 := [FIRST, Enqueue(1)], [Event.Claim(2, 0), Tick(1)], [Event.Claim(2, 0)];
    var late := World(FirstJob(Extracting, 1, Some(0)), 1, map[(2, 1) := Run(Copy(1), AtLoad)]);
    Enqueued();
    FirstRunLate();
    Claimed1(FirstJob(Extracting, 1, Some(0)), 1, map[(2, 1) := Run(Copy(1), AtLoad)]);
    hide Exec, Next;
    ExecConcat(INIT, e1 + e2, e3);
    ExecConcat(INIT, e1, e2);
    OneEvent(late, Event.Claim(2, 0));
  }
}
