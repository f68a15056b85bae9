/** The usage counters of a job: what they add up to over all its attempts. */
module Accounting {
  import opened Schema
  import opened Tasks
  import opened Documents
  import opened Embeddings
  import opened Pipeline
  import opened Protocol
  import opened Integrity
  import opened Frames
  import opened Atomicity
  import opened Leases

  function Sum(us: seq<Usage>): Usage {
    if us == [] then Usage(0, 0, 0.0)
    else
      var front, last := Sum(us[..|us| - 1]), us[|us| - 1];
      Usage(front.count + last.count, front.tokens + last.tokens, front.cost + last.cost)
  }

  lemma SumAppend(us: seq<Usage>, u: Usage)
    ensures Sum(us + [u]) == Usage(Sum(us).count + u.count, Sum(us).tokens + u.tokens, Sum(us).cost + u.cost)
  {
    assert (us + [u])[..|us|] == us;
  }

  ghost predicate Accounted(s: State) {
    && (forall t | t in s.hist.ledger :: t < s.db.next)
    && (forall t | t in s.db.jobs :: RowAccounted(s.hist, t, s.db.jobs[t]))
  }

  ghost predicate RowAccounted(h: History, t: TaskId, j: Job) {
    var sum := Sum(Ledger(h, t));
    j.embeddingCount == sum.count && j.tokens == sum.tokens && j.cost == sum.cost
  }

  predicate Records(pc: Pc) {
    pc.AtRecord? || pc.AtRecordFill?
  }

  function Recorded(pc: Pc): Usage
    requires Records(pc)
  {
    Usage(pc.done, pc.tokens, pc.cost)
  }

  /** The counters of the run's own row after a step. */
  ghost predicate Counts(db: Db, run: Run, db': Db) {
    var t := run.job.taskId;
    t in db.jobs ==>
    && t in db'.jobs
    && var j, j' := db.jobs[t], db'.jobs[t];
    && j'.chunkCount == (match run.pc case AtCount(n) => n case AtCountMissing(items) => |items| case _ => j.chunkCount)
    && (if Records(run.pc)
        then var u := Recorded(run.pc);
             j'.embeddingCount == j.embeddingCount + u.count && j'.tokens == j.tokens + u.tokens
                 && j'.cost == j.cost + u.cost
        else j'.embeddingCount == j.embeddingCount && j'.tokens == j.tokens && j'.cost == j.cost)
  }

  lemma IngestCounts(db: Db, run: Run, a: Answer)
    requires IsIngestPc(run.pc)
    ensures Counts(db, run, IngestStep(db, run, a).0)
  {
    IngestWriteFrame(db, run, a);
    hide Lists, ItemsOf, CanEmbed, CanInsert, Numbered, ByOrdinal, VersionChunks, InsertAll, ReplaceChunks, Flip;
  }

  lemma RebuildCounts(db: Db, run: Run, a: Answer)
    requires IsRebuildPc(run.pc)
    ensures Counts(db, run, RebuildStep(db, run, a).0)
  {
    hide Lists, ItemsOf, CanEmbed, Missing, InsertAll;
  }

  lemma StepCounters(db: Db, run: Run, a: Answer)
    ensures Counts(db, run, Proceed(db, run, a).0)
  {
    if IsIngestPc(run.pc) { IngestCounts(db, run, a); }
    if IsRebuildPc(run.pc) { RebuildCounts(db, run, a); }
    hide IngestStep, RebuildStep;
  }

  lemma RememberLedger(h: History, db: Db, run: Run, next: Pc)
    ensures
      Remember(h, db, run, next).ledger ==
        if Records(run.pc) then h.ledger[run.job.taskId := Ledger(h, run.job.taskId) + [Recorded(run.pc)]] else h.ledger
  {
  }

  lemma GoAccounted(s: State, r: RunId, a: Answer)
    requires Sound(s) && Accounted(s) && r in s.runs
    ensures Accounted(StepRun(s, r, a))
  {
    hide Sound, Proceed, RunSound, Remember, Sum, Counts, RowAccounted, StepRun, Issued;
    var run := s.runs[r];
    var s' := StepRun(s, r, a);
    RunNotFinished(s, r);
    KeyOf(s.db, r, run);
    OtherRows(s.db, r, run, a);
    SoundIssued(s);
    GetIssued(s, r);
    StepCounters(s.db, run, a);
    RememberLedger(s.hist, s.db, run, Proceed(s.db, run, a).1);
    NextIssue(s, r, a);
    forall t | t in s'.db.jobs ensures RowAccounted(s'.hist, t, s'.db.jobs[t]) {
      if t == r.0 {
        OwnAccounted(s.db, s.hist, s'.db, s'.hist, run);
      } else {
        OtherAccounted(s.hist, s'.hist, run, t, s.db.jobs[t]);
      }
    }
  }

  lemma GetIssued(s: State, r: RunId)
    requires Issued(s) && r in s.runs
    ensures r.0 < s.db.next
  {
  }

  lemma OwnAccounted(db: Db, h: History, db': Db, h': History, run: Run)
    requires var t := run.job.taskId; t in db.jobs && t in db'.jobs && RowAccounted(h, t, db.jobs[t])
    requires Counts(db, run, db')
    requires h'.ledger ==
      if Records(run.pc) then h.ledger[run.job.taskId := Ledger(h, run.job.taskId) + [Recorded(run.pc)]] else h.ledger
    ensures RowAccounted(h', run.job.taskId, db'.jobs[run.job.taskId])
  {
    hide Sum;
    if Records(run.pc) { SumAppend(Ledger(h, run.job.taskId), Recorded(run.pc)); }
  }

  lemma OtherAccounted(h: History, h': History, run: Run, t: TaskId, j: Job)
    requires t != run.job.taskId && RowAccounted(h, t, j)
    requires h'.ledger ==
      if Records(run.pc) then h.ledger[run.job.taskId := Ledger(h, run.job.taskId) + [Recorded(run.pc)]] else h.ledger
    ensures RowAccounted(h', t, j)
  {
    hide Sum;
  }

  lemma NextIssue(s: State, r: RunId, a: Answer)
    requires Sound(s) && r in s.runs
    ensures s.db.next <= StepRun(s, r, a).db.next && StepRun(s, r, a).db == Proceed(s.db, s.runs[r], a).0
    ensures StepRun(s, r, a).hist == Remember(s.hist, s.db, s.runs[r], Proceed(s.db, s.runs[r], a).1)
  {
    GoSound(s, r, a);
    hide Proceed, Sound, Remember;
  }

  /** Rows are inserted with zero counters, and a lease leaves counters alone. */
  lemma QuietCounters(s: State, e: Event)
    requires Issued(s) && !e.Go?
    ensures s.db.next <= Next(s, e).db.next
    ensures forall t | t in Next(s, e).db.jobs ::
      var j' := Next(s, e).db.jobs[t];
      if t in s.db.jobs
      then j'.embeddingCount == s.db.jobs[t].embeddingCount && j'.tokens == s.db.jobs[t].tokens
           && j'.cost == s.db.jobs[t].cost && j'.chunkCount == s.db.jobs[t].chunkCount
      else t >= s.db.next && j'.attempts == 0 && j'.chunkCount == 0 && j'.embeddingCount == 0
           && j'.tokens == 0 && j'.cost == 0.0
           && j'.state in {Pending, Skipped}
  {
    if Claims(e) {
      ClaimCounters(s, e);
    } else {
      QuietRows(s, e);
    }
    hide Next;
  }

  lemma ClaimCounters(s: State, e: Event)
    requires Claims(e)
    ensures Next(s, e).db.next == s.db.next && forall t :: t in Next(s, e).db.jobs <==> t in s.db.jobs
    ensures forall t | t in s.db.jobs ::
      var j, j' := s.db.jobs[t], Next(s, e).db.jobs[t];
      j'.embeddingCount == j.embeddingCount && j'.tokens == j.tokens && j'.cost == j.cost
          && j'.chunkCount == j.chunkCount
  {
    if e.Claim? && Oldest(s.db, e.t) { assert e.t in s.db.jobs; }
    hide Oldest;
  }

  lemma NextAccounted(s: State, e: Event)
    requires Sound(s) && Accounted(s)
    ensures Accounted(Next(s, e))
  {
    if e.Go? {
      hide Sound, Accounted, StepRun;
      if e.r in s.runs { GoAccounted(s, e.r, e.a); }
    } else {
      hide Sound, Next, Sum;
      SoundIssued(s);
      QuietFrame(s, e);
      QuietCounters(s, e);
      assert Sum([]) == Usage(0, 0, 0.0) by { EmptySum(); }
    }
  }

  lemma EmptySum()
    ensures Sum([]) == Usage(0, 0, 0.0)
  {
  }

  /** Under every interleaving, a job's counters are the sums over the batches its attempts recorded. */
  lemma {:induction false} UsageIsConserved(es: seq<Event>)
    ensures Accounted(Exec(INIT, es))
  {
    if es != [] {
      hide Next, Sound, Accounted, Exec;
      var front := es[..|es| - 1];
      ExecSplit(INIT, es);
      ExecSound(front);
      UsageIsConserved(front);
      NextAccounted(Exec(INIT, front), es[|es| - 1]);
    }
  }
}
