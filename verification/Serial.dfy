/** Version numbers when the content of a document changes only between its jobs. */
module Serial {
  import opened Schema
  import opened Documents
  import opened Embeddings
  import opened Pipeline
  import opened Protocol
  import opened Integrity
  import opened Frames
  import opened Status
  import opened Readers

  predicate OpenJob(db: Db, t: TaskId, d: DocId) {
    t in db.jobs && db.jobs[t].spec.documentId == Some(d) && !Terminal(db.jobs[t].state)
  }

  /** New content of an existing document waits for its jobs and uploads; and once a version is
      committed, `mark_done` follows. The code does not see to either. */
  ghost predicate Serially(s: State, e: Event) {
    && Exclusive(s, e)
    && (e.Upload? && e.found.Some? ==>
          && (forall t :: !OpenJob(s.db, t, e.found.value))
          && (forall u | u in s.uploads :: s.uploads[u].documentId != e.found))
    && ((e.Crash? || e.Fail?) && e.r in s.runs && s.runs[e.r].job.spec.documentId.Some? ==> !s.runs[e.r].pc.AtDone?)
  }

  function Live(db: Db, d: DocId): int
    requires d in db.documents
  {
    db.documents[d].liveVersion
  }

  /** An open job is to write the next version, or has committed and its run is about to say so. */
  ghost predicate JobSerial(s: State, t: TaskId, d: DocId) {
    OpenJob(s.db, t, d) && d in s.db.documents ==>
      if t in Committed(s.hist, Some(d))
      then (t, s.db.jobs[t].attempts) in s.runs && s.runs[(t, s.db.jobs[t].attempts)].pc.AtDone?
      else s.db.jobs[t].spec.docVersion == Live(s.db, d) + 1
  }

  ghost predicate RunSerial(s: State, r: RunId)
    requires r in s.runs
  {
    var d := s.runs[r].job.spec.documentId;
    d.Some? && d.value in s.db.documents ==>
      && OpenJob(s.db, r.0, d.value) && s.db.jobs[r.0].attempts == r.1
      && (r.0 in Committed(s.hist, d) <==> s.runs[r].pc.AtDone?)
  }

  ghost predicate UploadSerial(s: State, u: nat)
    requires u in s.uploads
  {
    var d := s.uploads[u].documentId;
    d.Some? && d.value in s.db.documents ==>
      && s.uploads[u].docVersion == Live(s.db, d.value) + 1
      && (forall t :: !OpenJob(s.db, t, d.value))
      && (forall u' | u' in s.uploads && s.uploads[u'].documentId == d :: u' == u)
  }

  ghost predicate OneOpenJob(db: Db) {
    forall t, t', d | OpenJob(db, t, d) && OpenJob(db, t', d) :: t == t'
  }

  /** The live version counts the jobs that have committed. */
  ghost predicate Counted(s: State, d: DocId)
    requires d in s.db.documents
  {
    Live(s.db, d) == |Committed(s.hist, Some(d))|
  }

  ghost predicate SerialInv(s: State) {
    && (forall t, d :: JobSerial(s, t, d))
    && (forall r | r in s.runs :: RunSerial(s, r))
    && (forall u | u in s.uploads :: UploadSerial(s, u))
    && OneOpenJob(s.db)
    && (forall d | d in s.db.documents :: Counted(s, d))
  }

  // ---- a step of a run ----------------------------------------------------------------

  ghost predicate RunFacts(s: State, r: RunId, s': State)
    requires r in s.runs
  {
    var run := s.runs[r];
    && s'.uploads == s.uploads
    && (forall q | q != r :: q in s'.runs <==> q in s.runs)
    && (forall q | q != r && q in s.runs :: s'.runs[q] == s.runs[q])
    && (r in s'.runs ==>
         s'.runs[r].job == run.job && (s'.runs[r].pc.AtDone? ==> run.pc.AtCommit? || run.job.spec.documentId.None?))
    && (run.pc.AtCommit? ==> r in s'.runs && s'.runs[r].pc.AtDone?)
    && (run.pc.AtDone? || run.pc.AtFailing? || run.pc.AtSkip? ==> r !in s'.runs)
  }

  ghost predicate DocumentFacts(s: State, r: RunId, s': State)
    requires r in s.runs
  {
    var run := s.runs[r];
    var own := run.job.spec.documentId;
    && s'.db.documents.Keys == s.db.documents.Keys
    && (forall d | d in s.db.documents ::
          Live(s'.db, d) == if run.pc.AtCommit? && own == Some(d) then run.job.spec.docVersion else Live(s.db, d))
    && (forall d: DocId :: Committed(s'.hist, Some(d)) ==
          (if run.pc.AtCommit? && own == Some(d) then Committed(s.hist, Some(d)) + {r.0}
              else Committed(s.hist, Some(d))))
  }

  ghost predicate JobFacts(s: State, r: RunId, s': State)
    requires r in s.runs
  {
    && (forall t :: t in s'.db.jobs <==> t in s.db.jobs)
    && (forall t | t in s.db.jobs ::
          && s'.db.jobs[t].spec == s.db.jobs[t].spec && s'.db.jobs[t].attempts == s.db.jobs[t].attempts
          && s'.db.jobs[t].state == if t == r.0 then StateAfter(s.runs[r], s.db.jobs[t].state) else s.db.jobs[t].state)
  }

  /** What one step does to runs, documents, commits and jobs. */
  ghost predicate StepFacts(s: State, r: RunId, s': State)
    requires r in s.runs
  {
    RunFacts(s, r, s') && DocumentFacts(s, r, s') && JobFacts(s, r, s')
  }

  lemma StepHasFacts(s: State, r: RunId, a: Answer)
    requires Sound(s) && r in s.runs
    ensures StepFacts(s, r, StepRun(s, r, a))
  {
    hide Sound, StepRun, RunFacts, DocumentFacts, JobFacts;
    OwnKey(s, r);
    RunsAfter(s, r, a);
    CommitsAfter(s, r, a);
    JobsAfter(s, r, a);
  }

  lemma RunsAfter(s: State, r: RunId, a: Answer)
    requires Sound(s) && r in s.runs
    ensures RunFacts(s, r, StepRun(s, r, a))
  {
    hide Sound, RunSound, DbSound, Proceed, Remember;
    SoundDb(s);
    DoneAfter(s.db, r, s.runs[r], a);
  }

  lemma JobsAfter(s: State, r: RunId, a: Answer)
    requires r in s.runs && s.runs[r].job.taskId == r.0
    ensures JobFacts(s, r, StepRun(s, r, a))
  {
    hide Proceed, Remember;
    ProceedJobs(s.db, s.runs[r], a);
  }

  lemma CommitsAfter(s: State, r: RunId, a: Answer)
    requires r in s.runs && s.runs[r].job.taskId == r.0
    ensures DocumentFacts(s, r, StepRun(s, r, a))
  {
    var run := s.runs[r];
    hide Proceed, Remember, Framed;
    RememberCommitted(s.hist, s.db, run, Proceed(s.db, run, a).1);
    forall d | d in s.db.documents { LiveVersionAfter(s.db, run, a, d); }
    ProceedFrame(s.db, run, a);
  }

  lemma DoneAfter(db: Db, r: RunId, run: Run, a: Answer)
    requires RunSound(db, r, run)
    ensures
      var pc := Proceed(db, run, a).1;
      && (pc.AtDone? ==> run.pc.AtCommit? || run.job.spec.documentId.None?)
      && (run.pc.AtCommit? ==> pc.AtDone?)
      && (run.pc.AtDone? || run.pc.AtFailing? || run.pc.AtSkip? ==> pc.Finished?)
  {
    assert IsRebuildPc(run.pc) ==> run.job.spec.documentId.None?;
    hide RunSound, Lists, ItemsOf, CanEmbed, CanInsert, Numbered, ByOrdinal, VersionChunks, Missing;
  }

  lemma GetJob(s: State, t: TaskId, d: DocId)
    requires SerialInv(s)
    ensures JobSerial(s, t, d)
  {
  }

  lemma GetRun(s: State, r: RunId)
    requires SerialInv(s) && r in s.runs
    ensures RunSerial(s, r)
  {
  }

  lemma GetUpload(s: State, u: nat)
    requires SerialInv(s) && u in s.uploads
    ensures UploadSerial(s, u)
  {
  }

  lemma GetCount(s: State, d: DocId)
    requires SerialInv(s)
    ensures d in s.db.documents ==> Counted(s, d)
    ensures OneOpenJob(s.db)
  {
  }

  lemma OwnKey(s: State, r: RunId)
    requires Sound(s) && r in s.runs
    ensures r.0 in s.db.jobs ==> s.db.jobs[r.0].spec == s.runs[r].job.spec
    ensures s.runs[r].job.taskId == r.0
  {
    SoundDb(s);
    OwnRow(s.db, r, s.runs[r]);
    hide Sound, DbSound, RunSound;
  }

  /** A run's job is its document's only open one, uncommitted until the run is done, and is
      to write the next version. */
  ghost predicate OwnsDocument(s: State, r: RunId, d: DocId)
    requires r in s.runs && d in s.db.documents
  {
    && OpenJob(s.db, r.0, d) && s.db.jobs[r.0].attempts == r.1 && s.db.jobs[r.0].spec == s.runs[r].job.spec
    && (r.0 in Committed(s.hist, Some(d)) <==> s.runs[r].pc.AtDone?)
    && (!s.runs[r].pc.AtDone? ==> s.runs[r].job.spec.docVersion == Live(s.db, d) + 1)
    && (forall t :: OpenJob(s.db, t, d) ==> t == r.0)
    && (forall u | u in s.uploads :: s.uploads[u].documentId != Some(d))
    && s.runs[r].job.taskId == r.0
  }

  lemma OwnJob(s: State, r: RunId, d: DocId)
    requires Sound(s) && SerialInv(s) && r in s.runs
    requires s.runs[r].job.spec.documentId == Some(d) && d in s.db.documents
    ensures OwnsDocument(s, r, d)
  {
    hide Sound, SerialInv;
    OwnKey(s, r);
    GetRun(s, r);
    GetJob(s, r.0, d);
    GetCount(s, d);
    forall u | u in s.uploads ensures s.uploads[u].documentId != Some(d) {
      GetUpload(s, u);
    }
  }

  /** Neither the run's document nor its job. */
  predicate Foreign(s: State, r: RunId, d: DocId)
    requires r in s.runs
  {
    s.runs[r].job.spec.documentId != Some(d) && (r.0 in s.db.jobs ==> s.db.jobs[r.0].spec.documentId != Some(d))
  }

  lemma OwnOrForeign(s: State, r: RunId, d: DocId)
    requires Sound(s) && SerialInv(s) && r in s.runs && d in s.db.documents
    ensures (s.runs[r].job.spec.documentId == Some(d) && OwnsDocument(s, r, d)) || Foreign(s, r, d)
  {
    hide Sound, SerialInv, OwnsDocument;
    OwnKey(s, r);
    if s.runs[r].job.spec.documentId == Some(d) { OwnJob(s, r, d); }
  }

  lemma SkipNotOwned(s: State, r: RunId, d: DocId)
    requires Sound(s) && Honest(s) && r in s.runs && s.runs[r].job.spec.documentId == Some(d) && d in s.db.documents
    ensures !s.runs[r].pc.AtSkip?
  {
    hide Sound, Honest;
    SkipOnlyGone(s, r);
  }

  lemma StepJobSerial(s: State, r: RunId, s': State, t: TaskId, d: DocId)
    requires r in s.runs && StepFacts(s, r, s') && JobSerial(s, t, d) && d in s.db.documents
    requires (s.runs[r].job.spec.documentId == Some(d) && OwnsDocument(s, r, d) && !s.runs[r].pc.AtSkip?)
        || Foreign(s, r, d)
    ensures JobSerial(s', t, d)
  {
    assert r == (r.0, r.1);
    if OpenJob(s'.db, t, d) {
      assert OpenJob(s.db, t, d);
    }
  }

  lemma StepRunSerial(s: State, r: RunId, s': State, q: RunId, d: DocId)
    requires r in s.runs && StepFacts(s, r, s') && q in s.runs && q in s'.runs && RunSerial(s, q) && d in s.db.documents
    requires s.runs[q].job.spec.documentId == Some(d)
    requires (s.runs[r].job.spec.documentId == Some(d) && OwnsDocument(s, r, d)) || Foreign(s, r, d)
    ensures RunSerial(s', q)
  {
  }

  lemma StepUploadSerial(s: State, r: RunId, s': State, u: nat, d: DocId)
    requires r in s.runs && StepFacts(s, r, s') && u in s.uploads && UploadSerial(s, u) && d in s.db.documents
    requires s.uploads[u].documentId == Some(d)
    requires (s.runs[r].job.spec.documentId == Some(d) && OwnsDocument(s, r, d)) || Foreign(s, r, d)
    ensures UploadSerial(s', u)
  {
    forall t ensures !OpenJob(s'.db, t, d) { assert !OpenJob(s.db, t, d); }
  }

  lemma StepCounted(s: State, r: RunId, s': State, d: DocId)
    requires r in s.runs && StepFacts(s, r, s') && d in s.db.documents && Counted(s, d)
    requires (s.runs[r].job.spec.documentId == Some(d) && OwnsDocument(s, r, d)) || Foreign(s, r, d)
    ensures d in s'.db.documents && Counted(s', d)
  {
  }

  lemma StepOneOpen(s: State, r: RunId, s': State, t: TaskId, d: DocId)
    requires r in s.runs && StepFacts(s, r, s') && OpenJob(s'.db, t, d) && d in s.db.documents
    requires (s.runs[r].job.spec.documentId == Some(d) && OwnsDocument(s, r, d)) || Foreign(s, r, d)
    ensures OpenJob(s.db, t, d)
  {
  }

  lemma StepSerial(s: State, r: RunId, a: Answer)
    requires Sound(s) && Honest(s) && SerialInv(s) && r in s.runs
    ensures SerialInv(StepRun(s, r, a))
  {
    var s' := StepRun(s, r, a);
    hide Sound, Honest, SerialInv, JobSerial, RunSerial, UploadSerial, Counted, OwnsDocument, Foreign, StepRun;
    StepHasFacts(s, r, a);
    forall t, d ensures JobSerial(s', t, d) {
      if d in s.db.documents {
        OwnOrForeign(s, r, d);
        if s.runs[r].job.spec.documentId == Some(d) { SkipNotOwned(s, r, d); }
        GetJob(s, t, d);
        StepJobSerial(s, r, s', t, d);
      } else {
        AbsentSerial(s, r, s', t, d);
      }
    }
    forall q | q in s'.runs ensures RunSerial(s', q) {
      SameRunDocument(s, r, s', q);
      var d := s'.runs[q].job.spec.documentId;
      if d.Some? && d.value in s.db.documents {
        OwnOrForeign(s, r, d.value);
        GetRun(s, q);
        StepRunSerial(s, r, s', q, d.value);
      } else {
        AbsentRun(s, r, s', q);
      }
    }
    StepRest(s, r, s');
    hide StepFacts;
    Assemble(s');
  }

  lemma Assemble(s: State)
    requires forall t, d :: JobSerial(s, t, d)
    requires forall r | r in s.runs :: RunSerial(s, r)
    requires forall u | u in s.uploads :: UploadSerial(s, u)
    requires OneOpenJob(s.db)
    requires forall d | d in s.db.documents :: Counted(s, d)
    ensures SerialInv(s)
  {
    hide JobSerial, RunSerial, UploadSerial, OneOpenJob, Counted;
  }

  lemma AbsentSerial(s: State, r: RunId, s': State, t: TaskId, d: DocId)
    requires r in s.runs && StepFacts(s, r, s') && d !in s.db.documents
    ensures JobSerial(s', t, d)
  {
  }

  lemma SameRunDocument(s: State, r: RunId, s': State, q: RunId)
    requires r in s.runs && StepFacts(s, r, s') && q in s'.runs
    ensures q in s.runs && s.runs[q].job == s'.runs[q].job
  {
  }

  lemma AbsentRun(s: State, r: RunId, s': State, q: RunId)
    requires r in s.runs && StepFacts(s, r, s') && q in s'.runs
    requires s'.runs[q].job.spec.documentId.None? || s'.runs[q].job.spec.documentId.value !in s.db.documents
    ensures RunSerial(s', q)
  {
  }

  lemma StepRest(s: State, r: RunId, s': State)
    requires Sound(s) && SerialInv(s) && r in s.runs && StepFacts(s, r, s')
    ensures forall u | u in s'.uploads :: UploadSerial(s', u)
    ensures forall d | d in s'.db.documents :: Counted(s', d)
    ensures OneOpenJob(s'.db)
  {
    hide Sound, SerialInv, UploadSerial, Counted, OwnsDocument, Foreign;
    forall u | u in s'.uploads ensures UploadSerial(s', u) {
      GetUpload(s, u);
      var d := s.uploads[u].documentId;
      if d.Some? && d.value in s.db.documents {
        OwnOrForeign(s, r, d.value);
        StepUploadSerial(s, r, s', u, d.value);
      } else {
        AbsentUpload(s, r, s', u);
      }
    }
    forall d | d in s'.db.documents ensures Counted(s', d) {
      OwnOrForeign(s, r, d);
      GetCount(s, d);
      StepCounted(s, r, s', d);
    }
    forall t, t', d | OpenJob(s'.db, t, d) && OpenJob(s'.db, t', d) ensures t == t' {
      SoundIssued(s);
      OwnOrForeign(s, r, d);
      GetCount(s, d);
      StepOneOpen(s, r, s', t, d);
      StepOneOpen(s, r, s', t', d);
    }
  }

  lemma AbsentUpload(s: State, r: RunId, s': State, u: nat)
    requires r in s.runs && StepFacts(s, r, s') && u in s.uploads
    requires s.uploads[u].documentId.None? || s.uploads[u].documentId.value !in s.db.documents
    ensures UploadSerial(s', u)
  {
  }
}
