/** When a job is left in flight without a lease, and what can still become of it. */
module Stranding {
  import opened Schema
  import opened Tasks
  import opened Pipeline
  import opened Protocol
  import opened Integrity
  import opened Frames
  import opened Leases

  /** In flight, yet no passing of time makes the polling claim see it. */
  predicate Stranded(db: Db, t: TaskId) {
    t in db.jobs && InFlight(db.jobs[t].state) && db.jobs[t].leaseUntil.None?
  }

  /** The program points of `set_state`. */
  predicate SetsState(pc: Pc) {
    pc.AtExtracting? || pc.AtChunking? || pc.AtEmbedding? || pc.AtRebuilding?
  }

  /** The program points that take the row out of flight. */
  predicate Settles(pc: Pc) {
    pc.AtSkip? || pc.AtDone? || pc.AtFailing?
  }

  /** A run of `t` sets its state although the row has no lease. */
  predicate Strands(s: State, e: Event, t: TaskId) {
    && e.Go? && e.r in s.runs && e.r.0 == t && SetsState(s.runs[e.r].pc)
    && t in s.db.jobs && s.db.jobs[t].leaseUntil.None?
  }

  /** A delivery by id leases the job again, or a run of it settles its row. */
  predicate Rescues(s: State, e: Event, t: TaskId) {
    || (e.ClaimById? && e.t == t)
    || (e.Go? && e.r in s.runs && e.r.0 == t && Settles(s.runs[e.r].pc))
  }

  /** Time makes an in-flight job claimable exactly if it has a lease. */
  lemma ReclaimableIffLeased(s: State, t: TaskId)
    requires t in s.db.jobs && InFlight(s.db.jobs[t].state)
    ensures (exists dt: nat :: Claimable(Next(s, Tick(dt)).db, t)) <==> s.db.jobs[t].leaseUntil.Some?
  {
    if s.db.jobs[t].leaseUntil.Some? {
      var wait := s.db.jobs[t].leaseUntil.value - s.db.now;
      var dt: nat := if wait < 0 then 0 else wait + 1;
      var later: nat := dt + 1;
      assert Claimable(Next(s, Tick(later)).db, t);
    }
  }

  /** What one event does to whether `t` is stranded, both ways. */
  lemma StrandedStep(s: State, e: Event, t: TaskId)
    requires Sound(s) && t in s.db.jobs && t in Next(s, e).db.jobs
    ensures !Stranded(s.db, t) ==> (Stranded(Next(s, e).db, t) <==> Strands(s, e, t))
    ensures Stranded(s.db, t) ==> (Stranded(Next(s, e).db, t) <==> !Rescues(s, e, t))
  {
    hide Next, Sound, RunSound;
    SoundIssued(s);
    JobChange(s, e, t);
    if e.Go? && e.r in s.runs {
      RunNotFinished(s, e.r);
      KeyOf(s.db, e.r, s.runs[e.r]);
      if e.r.0 == t { GoStranded(s, e.r, e.a); } else { GoElsewhere(s, e.r, e.a, t); }
    } else if Claims(e) {
      ClaimStranded(s, e, t);
    }
  }

  lemma GoStranded(s: State, r: RunId, a: Answer)
    requires r in s.runs && s.runs[r].job.taskId == r.0 && r.0 in s.db.jobs
    ensures r.0 in Next(s, Go(r, a)).db.jobs
    ensures
      var j, j' := s.db.jobs[r.0], Next(s, Go(r, a)).db.jobs[r.0];
      && j'.state == StateAfter(s.runs[r], j.state)
      && j'.leaseUntil == (if s.runs[r].pc.AtFailing? then None else j.leaseUntil)
  {
    ProceedJobs(s.db, s.runs[r], a);
    GoIs(s, r, a);
    hide Next, Proceed;
  }

  lemma GoElsewhere(s: State, r: RunId, a: Answer, t: TaskId)
    requires r in s.runs && s.runs[r].job.taskId != t && t in s.db.jobs
    ensures t in Next(s, Go(r, a)).db.jobs && Next(s, Go(r, a)).db.jobs[t] == s.db.jobs[t]
  {
    ProceedJobs(s.db, s.runs[r], a);
    GoIs(s, r, a);
    hide Next, Proceed;
  }

  lemma ClaimStranded(s: State, e: Event, t: TaskId)
    requires Claims(e) && t in s.db.jobs
    ensures t in Next(s, e).db.jobs
    ensures Stranded(Next(s, e).db, t) <==> Stranded(s.db, t) && !(e.ClaimById? && e.t == t)
  {
  }

  // ---- whole traces -----------------------------------------------------------------------

  /** No event of the trace strands a job. */
  ghost predicate NoStranding(s: State, e: Event) {
    forall t :: !Strands(s, e, t)
  }

  ghost predicate NoneStranded(db: Db) {
    forall t :: !Stranded(db, t)
  }

  lemma NoneStrandedNext(s: State, e: Event)
    requires Sound(s) && NoneStranded(s.db)
    ensures NoneStranded(Next(s, e).db) <==> NoStranding(s, e)
  {
    var s' := Next(s, e);
    hide Next, Sound, Stranded, Strands, Rescues;
    forall t ensures Stranded(s'.db, t) <==> Strands(s, e, t) {
      if t in s'.db.jobs && t in s.db.jobs {
        StrandedStep(s, e, t);
      } else {
        AbsentStranded(s, e, t);
      }
    }
  }

  /** A row that is not there on both sides is not stranded on either. */
  lemma AbsentStranded(s: State, e: Event, t: TaskId)
    requires Sound(s) && !(t in s.db.jobs && t in Next(s, e).db.jobs)
    ensures !Stranded(Next(s, e).db, t) && !Strands(s, e, t)
  {
    hide Sound, Next;
    SoundIssued(s);
    if e.Go? && e.r in s.runs {
      RunNotFinished(s, e.r);
      OtherRows(s.db, e.r, s.runs[e.r], e.a);
      GoIs(s, e.r, e.a);
      hide Proceed, RunSound;
    } else if e.Go? {
      IdleGo(s, e);
    } else if Claims(e) {
      ClaimKeys(s, e, t);
    } else {
      QuietRows(s, e);
    }
  }

  lemma ClaimKeys(s: State, e: Event, t: TaskId)
    requires Claims(e)
    ensures t in Next(s, e).db.jobs <==> t in s.db.jobs
  {
  }

  /** Every in-flight job has a lease. */
  ghost function AllReclaimable(): State -> bool {
    (s: State) => NoneStranded(s.db)
  }

  /** The exact condition: at no point of a trace is a job in flight without a lease if and only if no run
      sets the state of a row whose lease has been cleared. */
  lemma NeverStrandedIff(es: seq<Event>)
    ensures Always(AllReclaimable(), es) <==> Guarded(NoStranding, INIT, es)
  {
    hide Next, Exec, Sound, NoStranding, Guarded;
    var good := AllReclaimable();
    assert good(INIT);
    hide NoneStranded;
    forall es, e | good(Exec(INIT, es))
      ensures good(Next(Exec(INIT, es), e)) <==> NoStranding(Exec(INIT, es), e)
    {
      ExecSound(es);
      NoneStrandedNext(Exec(INIT, es), e);
    }
    assert StepLaw(good, NoStranding);
    AlwaysIff(good, NoStranding, es);
  }

  // ---- from then on -------------------------------------------------------------------------

  /** Stranded, or gone; and no run of it. */
  ghost predicate OutOfReach(s: State, t: TaskId) {
    && (t in s.db.jobs ==> Stranded(s.db, t))
    && t < s.db.next && forall r | r in s.runs :: r.0 != t
  }

  lemma OutOfReachNext(s: State, e: Event, t: TaskId)
    requires Sound(s) && OutOfReach(s, t) && !(e.ClaimById? && e.t == t)
    ensures OutOfReach(Next(s, e), t)
  {
    var s' := Next(s, e);
    hide Next, Sound, Evolves, Stranded;
    NextSound(s, e);
    Kept(s, e, t);
    if t in s'.db.jobs {
      StrandedStep(s, e, t);
    }
    forall r | r in s'.runs ensures r.0 != t {
      RunChange(s, e, r);
      if Claims(e) && e.t == t { NotClaimed(s, e, t); }
    }
  }

  lemma Kept(s: State, e: Event, t: TaskId)
    requires Evolves(s.db, Next(s, e).db) && t < s.db.next
    ensures t < Next(s, e).db.next && (t in Next(s, e).db.jobs ==> t in s.db.jobs)
  {
    hide Next;
  }

  /** The polling claim does not take a stranded job. */
  lemma NotClaimed(s: State, e: Event, t: TaskId)
    requires e.Claim? && e.t == t && (t in s.db.jobs ==> Stranded(s.db, t))
    ensures Next(s, e) == s
  {
  }

  /** A stranded job without a run stays stranded, or goes with its document, through every
      continuation in which it is not delivered by its id: no worker that polls ever takes it. */
  lemma {:induction false} StrandedForEver(s: State, es: seq<Event>, t: TaskId)
    requires Sound(s) && Stranded(s.db, t) && forall r | r in s.runs :: r.0 != t
    requires forall i | 0 <= i < |es| :: !(es[i].ClaimById? && es[i].t == t)
    ensures
      var s' := Exec(s, es);
      && (t in s'.db.jobs ==> Stranded(s'.db, t))
      && !Claimable(s'.db, t)
      && forall r | r in s'.runs :: r.0 != t
  {
    hide Exec, Next, Sound;
    SoundIssued(s);
    OutOfReachExec(s, es, t);
  }

  lemma {:induction false} OutOfReachExec(s: State, es: seq<Event>, t: TaskId)
    requires Sound(s) && OutOfReach(s, t)
    requires forall i | 0 <= i < |es| :: !(es[i].ClaimById? && es[i].t == t)
    ensures Sound(Exec(s, es)) && OutOfReach(Exec(s, es), t)
  {
    if es != [] {
      hide Exec, Next, Sound, OutOfReach, Evolves;
      var front := es[..|es| - 1];
      ExecSplit(s, es);
      OutOfReachExec(s, front, t);
      NextSound(Exec(s, front), es[|es| - 1]);
      OutOfReachNext(Exec(s, front), es[|es| - 1], t);
    }
  }
}
