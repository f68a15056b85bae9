/** Exactly when live versions count commits, and when chunks stay at the live version and the next. */
module Numbering {
  import opened Schema
  import opened Pipeline
  import opened Protocol
  import opened Integrity
  import opened Status
  import opened Atomicity
  import opened Readers
  import opened Serial
  import opened Versions
  import opened Snapshots
  import opened VersionRows
  import opened Exposure

  // ---- the live version -------------------------------------------------------------------

  /** The version whose commit keeps the count: the next one, or for a job that has committed the live one. */
  function Due(s: State, d: DocId, t: TaskId): int
    requires d in s.db.documents
  {
    Live(s.db, d) + if t in Committed(s.hist, Some(d)) then 0 else 1
  }

  /** The event commits another version of an existing document. */
  predicate Miscounts(s: State, e: Event, d: DocId) {
    && e.Go? && e.r in s.runs && s.runs[e.r].pc.AtCommit? && d in s.db.documents
    && var job := s.runs[e.r].job;
      job.spec.documentId == Some(d) && job.spec.docVersion != Due(s, d, job.taskId)
  }

  lemma CommitCounts(s: State, r: RunId, a: Answer, d: DocId)
    requires r in s.runs && s.runs[r].pc.AtCommit? && d in s.db.documents && Counted(s, d)
    requires s.runs[r].job.spec.documentId == Some(d)
    ensures d in Next(s, Go(r, a)).db.documents
    ensures Counted(Next(s, Go(r, a)), d) <==> !Miscounts(s, Go(r, a), d)
  {
    var run := s.runs[r];
    GoIs(s, r, a);
    LiveVersionAfter(s.db, run, a, d);
    RememberCommitted(s.hist, s.db, run, Proceed(s.db, run, a).1);
    hide Next, Proceed, Remember;
    var before := Committed(s.hist, Some(d));
    if run.job.taskId in before { assert before + {run.job.taskId} == before; }
  }

  /** A step that commits nothing of `d` leaves its count. */
  lemma OtherStepCounts(s: State, r: RunId, a: Answer, d: DocId)
    requires r in s.runs && d in s.db.documents
    requires !(s.runs[r].pc.AtCommit? && s.runs[r].job.spec.documentId == Some(d))
    ensures d in Next(s, Go(r, a)).db.documents
    ensures Counted(Next(s, Go(r, a)), d) <==> Counted(s, d)
  {
    var run := s.runs[r];
    GoIs(s, r, a);
    LiveVersionAfter(s.db, run, a, d);
    RememberCommitted(s.hist, s.db, run, Proceed(s.db, run, a).1);
    hide Next, Proceed, Remember;
  }

  lemma QuietCounts(s: State, e: Event, d: DocId)
    requires Sound(s) && Honest(s) && !e.Go? && d in Next(s, e).db.documents
    requires d in s.db.documents ==> Counted(s, d)
    ensures Counted(Next(s, e), d)
  {
    hide Next, Sound, Honest;
    SoundIssued(s);
    QuietFrame(s, e);
    QuietLive(s, e, d);
    if d !in s.db.documents { NewUncommitted(s, e, d); }
  }

  lemma NewUncommitted(s: State, e: Event, d: DocId)
    requires Issued(s) && Honest(s) && !e.Go? && d !in s.db.documents && d in Next(s, e).db.documents
    ensures Committed(s.hist, Some(d)) == {}
  {
    assert CommitsKnown(s.db, s.hist);
    hide Honest;
    if e.Delete? {
      QuietFrame(s, e);
      hide Next;
    } else {
      LiveKept(s, e);
      hide Next;
      assert d == s.db.next;
    }
  }

  ghost predicate NoMiscount(s: State, e: Event) {
    forall d :: !Miscounts(s, e, d)
  }

  ghost predicate CountedAll(s: State) {
    forall d | d in s.db.documents :: Counted(s, d)
  }

  /** The law of one step: where every live version is the number of jobs that have committed, it stays so exactly
      if the event commits no version but the due one. */
  lemma CountStep(s: State, e: Event)
    requires Sound(s) && Honest(s) && CountedAll(s)
    ensures CountedAll(Next(s, e)) <==> NoMiscount(s, e)
  {
    var s' := Next(s, e);
    hide Next, Sound, Honest, Counted, Miscounts;
    forall d ensures d in s'.db.documents && !Counted(s', d) <==> Miscounts(s, e, d) {
      CountOf(s, e, d);
    }
  }

  lemma CountOf(s: State, e: Event, d: DocId)
    requires Sound(s) && Honest(s) && (d in s.db.documents ==> Counted(s, d))
    ensures d in Next(s, e).db.documents && !Counted(Next(s, e), d) <==> Miscounts(s, e, d)
  {
    hide Next, Sound, Honest, Counted, Due;
    if e.Go? {
      if e.r !in s.runs {
        IdleGo(s, e);
      } else if d !in s.db.documents {
        DocumentsSame(s, e);
      } else if s.runs[e.r].pc.AtCommit? && s.runs[e.r].job.spec.documentId == Some(d) {
        CommitCounts(s, e.r, e.a, d);
      } else {
        OtherStepCounts(s, e.r, e.a, d);
      }
    } else if d in Next(s, e).db.documents {
      QuietCounts(s, e, d);
    }
  }

  ghost function VersionsCount(): State -> bool {
    (s: State) => CountedAll(s)
  }

  /** The exact condition: along a trace every live version is the number of jobs that have committed if and only
      if every commit is of the due version. */
  lemma AlwaysCountedIff(es: seq<Event>)
    ensures Always(VersionsCount(), es) <==> Guarded(NoMiscount, INIT, es)
  {
    var good := VersionsCount();
    assert good(INIT);
    hide Next, Exec, Sound, Honest, Guarded, Always, CountedAll, NoMiscount;
    forall es, e | good(Exec(INIT, es)) ensures good(Next(Exec(INIT, es), e)) <==> NoMiscount(Exec(INIT, es), e) {
      ExecSound(es);
      ExecHonest(es);
      CountStep(Exec(INIT, es), e);
    }
    assert StepLaw(good, NoMiscount);
    AlwaysIff(good, NoMiscount, es);
  }

  // ---- where the chunks are ---------------------------------------------------------------

  /** The event writes non-empty rows of an existing document at neither the live version nor the next. */
  predicate Strays(s: State, e: Event, d: DocId) {
    && e.Go? && e.r in s.runs && s.runs[e.r].pc.AtWrite? && d in s.db.documents
    && var spec := s.runs[e.r].job.spec;
      && spec.documentId == Some(d) && s.runs[e.r].pc.rows != []
      && spec.docVersion != Live(s.db, d) && spec.docVersion != Live(s.db, d) + 1
  }

  lemma StrayRow(s: State, r: RunId, a: Answer, d: DocId)
    requires Sound(s) && Whole(s.db, s.hist) && Strays(s, Go(r, a), d)
    ensures d in Next(s, Go(r, a)).db.documents && !Adjacent(Next(s, Go(r, a)).db, d)
  {
    var v := s.runs[r].job.spec.docVersion;
    WriteGoesThrough(s, r, a, d);
    WriteRows(s, Go(r, a), d, v);
    GoIs(s, r, a);
    LiveVersionAfter(s.db, s.runs[r], a, d);
    hide Next, Proceed, Sound, RunSound, Whole, Remember, Exactly;
    Exposure.FirstRow(Next(s, Go(r, a)).db, d, v, WrittenBy(s, Go(r, a)));
  }

  lemma StaysAdjacent(s: State, r: RunId, a: Answer, d: DocId)
    requires Sound(s) && Whole(s.db, s.hist) && r in s.runs && d in s.db.documents && Adjacent(s.db, d)
    requires !Strays(s, Go(r, a), d)
    ensures d in Next(s, Go(r, a)).db.documents && Adjacent(Next(s, Go(r, a)).db, d)
  {
    var run := s.runs[r];
    var db' := Next(s, Go(r, a)).db;
    GoIs(s, r, a);
    SoundDb(s);
    IssuedKeys(s.db);
    LiveVersionAfter(s.db, run, a, d);
    hide Sound, Next, Proceed, KeysIssued, RunSound, DbSound, Remember, Whole;
    if run.pc.AtWrite? && run.pc.rows == [] && run.job.spec.documentId == Some(d) { EmptyRows(s, r, a, d); }
    forall v, c | IsRow(db', d, v, c) ensures v == Live(db', d) || v == Live(db', d) + 1 {
      RowsAfterWrite(s.db, r, run, a, d, v, c);
    }
  }

  lemma EmptyRows(s: State, r: RunId, a: Answer, d: DocId)
    requires Sound(s) && Whole(s.db, s.hist) && r in s.runs && d in s.db.documents
    requires s.runs[r].pc.AtWrite? && s.runs[r].pc.rows == [] && s.runs[r].job.spec.documentId == Some(d)
    ensures forall c :: !IsRow(Next(s, Go(r, a)).db, d, s.runs[r].job.spec.docVersion, c)
  {
    var v := s.runs[r].job.spec.docVersion;
    WriteGoesThrough(s, r, a, d);
    WriteRows(s, Go(r, a), d, v);
    hide Next, Proceed, Sound, Whole, Exactly;
    NoneOfIt(Next(s, Go(r, a)).db, d, v, WrittenBy(s, Go(r, a)));
  }

  lemma QuietAdjacent(s: State, e: Event, d: DocId)
    requires Sound(s) && !e.Go? && d in Next(s, e).db.documents && (d in s.db.documents ==> Adjacent(s.db, d))
    ensures Adjacent(Next(s, e).db, d)
  {
    hide Next, Sound;
    SoundIssued(s);
    QuietVersions(s, e, d);
    QuietLive(s, e, d);
  }

  lemma AdjacentOf(s: State, e: Event, d: DocId)
    requires Sound(s) && Whole(s.db, s.hist) && (d in s.db.documents ==> Adjacent(s.db, d))
    ensures d in Next(s, e).db.documents && !Adjacent(Next(s, e).db, d) <==> Strays(s, e, d)
  {
    hide Next, Sound, Whole, Adjacent;
    if e.Go? {
      if e.r !in s.runs {
        IdleGo(s, e);
      } else if d !in s.db.documents {
        DocumentsSame(s, e);
      } else if Strays(s, e, d) {
        StrayRow(s, e.r, e.a, d);
      } else {
        StaysAdjacent(s, e.r, e.a, d);
      }
    } else if d in Next(s, e).db.documents {
      QuietAdjacent(s, e, d);
    }
  }

  ghost predicate NoStray(s: State, e: Event) {
    forall d :: !Strays(s, e, d)
  }

  ghost predicate AdjacentAll(db: Db) {
    forall d | d in db.documents :: Adjacent(db, d)
  }

  /** The law of one step: where chunks are at the live version and the next only, they stay there exactly if
      the event writes no non-empty rows anywhere else. */
  lemma AdjacentStep(s: State, e: Event)
    requires Sound(s) && Whole(s.db, s.hist) && AdjacentAll(s.db)
    ensures AdjacentAll(Next(s, e).db) <==> NoStray(s, e)
  {
    var s' := Next(s, e);
    hide Next, Sound, Whole, Adjacent, Strays;
    forall d ensures d in s'.db.documents && !Adjacent(s'.db, d) <==> Strays(s, e, d) {
      AdjacentOf(s, e, d);
    }
  }

  ghost function ChunksAdjacent(): State -> bool {
    (s: State) => AdjacentAll(s.db)
  }

  /** The exact condition: along a trace chunks are at the live version and the next only if and only if every
      non-empty write is at one of the two. */
  lemma AlwaysAdjacentIff(es: seq<Event>)
    ensures Always(ChunksAdjacent(), es) <==> Guarded(NoStray, INIT, es)
  {
    var good := ChunksAdjacent();
    assert good(INIT);
    hide Next, Exec, Sound, Whole, Guarded, Always, AdjacentAll, NoStray;
    forall es, e | good(Exec(INIT, es)) ensures good(Next(Exec(INIT, es), e)) <==> NoStray(Exec(INIT, es), e) {
      ExecSound(es);
      ExecWhole(es);
      AdjacentStep(Exec(INIT, es), e);
    }
    assert StepLaw(good, NoStray);
    AlwaysIff(good, NoStray, es);
  }
}
