/** The serial discipline over whole traces. */
module SerialRuns {
  import opened Schema
  import opened Tasks
  import opened Documents
  import opened Protocol
  import opened Integrity
  import opened Status
  import opened Serial

  /** Events that touch neither documents, jobs nor commits, and no run that has committed. */
  lemma GentleSerial(s: State, s': State)
    requires SerialInv(s)
    requires s'.db.documents == s.db.documents && s'.db.jobs == s.db.jobs && s'.hist == s.hist
    requires forall u | u in s'.uploads :: u in s.uploads && s'.uploads[u] == s.uploads[u]
    requires forall q | q in s'.runs :: q in s.runs && s'.runs[q].job == s.runs[q].job
               && (s'.runs[q].job.spec.documentId.Some? ==> (s'.runs[q].pc.AtDone? <==> s.runs[q].pc.AtDone?))
    requires forall q | q in s.runs && s.runs[q].pc.AtDone? && s.runs[q].job.spec.documentId.Some? :: q in s'.runs
    requires Sound(s)
    ensures SerialInv(s')
  {
    hide Sound, SerialInv;
    assert forall t, d :: OpenJob(s'.db, t, d) <==> OpenJob(s.db, t, d);
    forall t, d ensures JobSerial(s', t, d) {
      GetJob(s, t, d);
      if OpenJob(s.db, t, d) && (t, s.db.jobs[t].attempts) in s.runs {
        OwnKey(s, (t, s.db.jobs[t].attempts));
      }
    }
    forall r | r in s'.runs ensures RunSerial(s', r) { GetRun(s, r); }
    forall u | u in s'.uploads ensures UploadSerial(s', u) { GetUpload(s, u); }
    forall d | d in s'.db.documents ensures Counted(s', d) { GetCount(s, d); }
    assert OneOpenJob(s'.db) by { GetCount(s, 0); }
    hide JobSerial, RunSerial, UploadSerial, Counted;
    Assemble(s');
  }

  /** A job row that is not open for any document: a skipped upload or a rebuild. */
  lemma ClosedRowSerial(s: State, spec: Spec, state: JobState)
    requires Sound(s) && SerialInv(s) && DocumentExists(s.db, spec.documentId)
    requires Terminal(state) || spec.documentId.None?
    ensures SerialInv(s.(db := InsertJob(s.db, spec, state)))
  {
    var s' := s.(db := InsertJob(s.db, spec, state));
    hide Sound, SerialInv;
    SoundIssued(s);
    assert forall t, d :: OpenJob(s'.db, t, d) <==> OpenJob(s.db, t, d);
    forall t, d ensures JobSerial(s', t, d) { GetJob(s, t, d); }
    forall r | r in s'.runs ensures RunSerial(s', r) { GetRun(s, r); }
    forall u | u in s'.uploads ensures UploadSerial(s', u) { GetUpload(s, u); }
    forall d | d in s'.db.documents ensures Counted(s', d) { GetCount(s, d); }
    assert OneOpenJob(s'.db) by { GetCount(s, 0); }
    hide JobSerial, RunSerial, UploadSerial, Counted;
    Assemble(s');
  }

  lemma EnqueueSerial(s: State, u: nat)
    requires Sound(s) && Honest(s) && SerialInv(s) && u in s.uploads && DocumentExists(s.db, s.uploads[u].documentId)
    ensures SerialInv(s.(db := InsertJob(s.db, s.uploads[u], Pending), uploads := s.uploads - {u}))
  {
    var spec := s.uploads[u];
    var s' := s.(db := InsertJob(s.db, spec, Pending), uploads := s.uploads - {u});
    hide Sound, SerialInv, Honest;
    UploadHasDocument(s, u);
    var own := spec.documentId.value;
    SoundIssued(s);
    GetUpload(s, u);
    assert forall t, d :: OpenJob(s'.db, t, d) <==> OpenJob(s.db, t, d) || (t == s.db.next && d == own);
    NotCommittedYet(s, own);
    forall t, d ensures JobSerial(s', t, d) { GetJob(s, t, d); }
    forall r | r in s'.runs ensures RunSerial(s', r) { GetRun(s, r); }
    forall q | q in s'.uploads ensures UploadSerial(s', q) { GetUpload(s, q); }
    forall d | d in s'.db.documents ensures Counted(s', d) { GetCount(s, d); }
    assert OneOpenJob(s'.db) by { GetCount(s, 0); }
    hide JobSerial, RunSerial, UploadSerial, Counted;
    Assemble(s');
  }

  lemma UploadHasDocument(s: State, u: nat)
    requires Sound(s) && u in s.uploads && DocumentExists(s.db, s.uploads[u].documentId)
    ensures s.uploads[u].documentId.Some? && s.uploads[u].documentId.value in s.db.documents
  {
    assert UploadSound(s.db, u, s.uploads[u]);
  }

  /** Only existing tasks have committed. */
  lemma NotCommittedYet(s: State, d: DocId)
    requires Sound(s) && Honest(s) && d in s.db.documents
    ensures s.db.next !in Committed(s.hist, Some(d))
  {
    SoundIssued(s);
    assert CommitsKnown(s.db, s.hist);
    hide Sound, Honest;
    assert s.db.next in Committed(s.hist, Some(d)) ==> CommitRow(s.db, d, s.db.next);
  }

  lemma DeleteSerial(s: State, d: DocId)
    requires Sound(s) && SerialInv(s)
    ensures SerialInv(Next(s, Delete(d)))
  {
    var s' := Next(s, Delete(d));
    assert s'.db.documents == s.db.documents - {d};
    assert forall t :: t in s'.db.jobs <==> t in s.db.jobs && s.db.jobs[t].spec.documentId != Some(d);
    assert forall t | t in s'.db.jobs :: s'.db.jobs[t] == s.db.jobs[t];
    assert s'.runs == s.runs && s'.uploads == s.uploads && s'.hist == s.hist;
    hide Sound, SerialInv, Next;
    assert forall t, d' :: OpenJob(s'.db, t, d') <==> OpenJob(s.db, t, d') && d' != d;
    forall t, d ensures JobSerial(s', t, d) { GetJob(s, t, d); }
    forall r | r in s'.runs ensures RunSerial(s', r) { GetRun(s, r); }
    forall u | u in s'.uploads ensures UploadSerial(s', u) { GetUpload(s, u); }
    forall d | d in s'.db.documents ensures Counted(s', d) { GetCount(s, d); }
    assert OneOpenJob(s'.db) by { GetCount(s, 0); }
    hide JobSerial, RunSerial, UploadSerial, Counted;
    Assemble(s');
  }

  lemma LendSerial(s: State, t: TaskId, seconds: int)
    requires Sound(s) && SerialInv(s) && t in s.db.jobs && !Terminal(s.db.jobs[t].state)
    requires s.db.jobs[t].spec.documentId.Some? ==>
               forall r | r in s.runs :: s.runs[r].job.spec.documentId != s.db.jobs[t].spec.documentId
    ensures SerialInv(Lend(s, t, seconds))
  {
    var s' := Lend(s, t, seconds);
    hide Sound, SerialInv;
    assert forall t', d :: OpenJob(s'.db, t', d) <==> OpenJob(s.db, t', d);
    NotYetCommitted(s, t);
    forall t', d ensures JobSerial(s', t', d) { GetJob(s, t', d); }
    forall r | r in s'.runs ensures RunSerial(s', r) {
      if r in s.runs {
        GetRun(s, r);
        OwnKey(s, r);
      }
    }
    forall u | u in s'.uploads ensures UploadSerial(s', u) { GetUpload(s, u); }
    forall d | d in s'.db.documents ensures Counted(s', d) { GetCount(s, d); }
    assert OneOpenJob(s'.db) by { GetCount(s, 0); }
    hide JobSerial, RunSerial, UploadSerial, Counted, Lend;
    Assemble(s');
  }

  /** An open job without a run has not committed. */
  lemma NotYetCommitted(s: State, t: TaskId)
    requires Sound(s) && SerialInv(s) && t in s.db.jobs && !Terminal(s.db.jobs[t].state)
    requires s.db.jobs[t].spec.documentId.Some? ==>
               forall r | r in s.runs :: s.runs[r].job.spec.documentId != s.db.jobs[t].spec.documentId
    ensures s.db.jobs[t].spec.documentId.Some? ==> t !in Committed(s.hist, s.db.jobs[t].spec.documentId)
  {
    hide Sound, SerialInv;
    var key := (t, s.db.jobs[t].attempts);
    if s.db.jobs[t].spec.documentId.Some? {
      SoundIssued(s);
      GetJob(s, t, s.db.jobs[t].spec.documentId.value);
      if key in s.runs { OwnKey(s, key); }
    }
  }

  lemma UploadEventSerial(s: State, e: Event)
    requires Sound(s) && Honest(s) && SerialInv(s) && Serially(s, e) && e.Upload?
    requires LookedUp(s.db, e.addressId, e.uploadId, e.found)
    ensures SerialInv(Next(s, e))
  {
    var s' := Next(s, e);
    var own := UpsertedId(s.db, e.found);
    hide Sound, SerialInv, Honest, Next, Serially, LookedUp, Live, Committed, OpenJob;
    UploadFacts(s, e);
    FreshDocument(s, e);
    SameOpenJobs(s.db, s'.db);
    forall t, d ensures JobSerial(s', t, d) { GetJob(s, t, d); }
    UploadsSerial(s, s', own);
    hide JobSerial, UploadSerial;
    forall r | r in s'.runs ensures RunSerial(s', r) { GetRun(s, r); SameRunSerial(s, s', r, own); }
    forall d | d in s'.db.documents ensures Counted(s', d) { UploadCounted(s, s', d, own); }
    assert OneOpenJob(s'.db) by { GetCount(s, 0); }
    hide RunSerial, Counted;
    Assemble(s');
  }

  lemma SameRunSerial(s: State, s': State, r: RunId, own: DocId)
    requires r in s.runs && RunSerial(s, r)
    requires s'.runs == s.runs && s'.db.jobs == s.db.jobs && s'.hist == s.hist
    requires s'.db.documents.Keys == s.db.documents.Keys + {own}
    requires own !in s.db.documents ==> s.runs[r].job.spec.documentId != Some(own)
    ensures RunSerial(s', r)
  {
  }

  lemma UploadCounted(s: State, s': State, d: DocId, own: DocId)
    requires SerialInv(s) && d in s'.db.documents && s'.hist == s.hist
    requires s'.db.documents.Keys == s.db.documents.Keys + {own}
    requires forall q | q in s.db.documents :: q in s'.db.documents && Live(s'.db, q) == Live(s.db, q)
    requires own !in s.db.documents ==> Live(s'.db, own) == 0 && Committed(s.hist, Some(own)) == {}
    ensures Counted(s', d)
  {
    GetCount(s, d);
    hide SerialInv, Live, Committed;
  }

  lemma SameOpenJobs(a: Db, b: Db)
    requires a.jobs == b.jobs
    ensures forall t, d :: OpenJob(a, t, d) <==> OpenJob(b, t, d)
  {
  }

  lemma UploadsSerial(s: State, s': State, own: DocId)
    requires SerialInv(s) && s'.db.jobs == s.db.jobs && own in s'.db.documents
    requires forall d | d in s'.db.documents && d != own :: d in s.db.documents
    requires forall d | d in s.db.documents :: d in s'.db.documents && Live(s'.db, d) == Live(s.db, d)
    requires forall t :: !OpenJob(s.db, t, own)
    requires forall u | u in s.uploads :: s.uploads[u].documentId != Some(own)
    requires forall u | u in s.uploads :: u in s'.uploads && s'.uploads[u] == s.uploads[u]
    requires exists u :: u in s'.uploads && s'.uploads.Keys == s.uploads.Keys + {u}
              && s'.uploads[u].documentId == Some(own) && s'.uploads[u].docVersion == Live(s'.db, own) + 1
    ensures forall u | u in s'.uploads :: UploadSerial(s', u)
  {
    hide SerialInv;
    assert forall t, d :: OpenJob(s'.db, t, d) <==> OpenJob(s.db, t, d);
    forall u | u in s'.uploads ensures UploadSerial(s', u) {
      if u in s.uploads { GetUpload(s, u); }
    }
  }

  lemma UploadFacts(s: State, e: Event)
    requires Sound(s) && e.Upload? && LookedUp(s.db, e.addressId, e.uploadId, e.found)
    ensures
      var s' := Next(s, e);
      var own := UpsertedId(s.db, e.found);
      && s'.db.jobs == s.db.jobs && s'.runs == s.runs && s'.hist == s.hist
      && s'.db.documents.Keys == s.db.documents.Keys + {own}
      && (forall d | d in s.db.documents :: Live(s'.db, d) == Live(s.db, d))
      && (own !in s.db.documents ==> Live(s'.db, own) == 0)
      && (exists u :: u !in s.uploads && u in s'.uploads && s'.uploads.Keys == s.uploads.Keys + {u}
            && s'.uploads[u].documentId == Some(own) && s'.uploads[u].docVersion == Live(s'.db, own) + 1)
      && (forall q | q in s.uploads :: q in s'.uploads && s'.uploads[q] == s.uploads[q])
  {
    var u := Upsert(s.db, e.found, e.addressId, e.uploadId, e.hash).next;
    if u in s.uploads { UploadFresh(s, u); }
    SoundIssued(s);
    hide Sound;
    assert u !in s.uploads && Next(s, e).uploads.Keys == s.uploads.Keys + {u};
  }

  /** The uploaded document has no open job, no other upload, and if new no run and no commit. */
  lemma FreshDocument(s: State, e: Event)
    requires Sound(s) && Honest(s) && Serially(s, e) && e.Upload? && LookedUp(s.db, e.addressId, e.uploadId, e.found)
    ensures
      var own := UpsertedId(s.db, e.found);
      && (forall t :: !OpenJob(s.db, t, own))
      && (forall u | u in s.uploads :: s.uploads[u].documentId != Some(own))
      && (own !in s.db.documents ==>
           Committed(s.hist, Some(own)) == {} && forall r | r in s.runs :: s.runs[r].job.spec.documentId != Some(own))
  {
    if e.found.None? {
      SoundIssued(s);
      assert CommitsKnown(s.db, s.hist);
      forall u | u in s.uploads ensures s.uploads[u].documentId != Some(s.db.next) {
        assert UploadSound(s.db, u, s.uploads[u]);
      }
    }
    hide Sound, Honest;
  }

  lemma NextSerial(s: State, e: Event)
    requires Sound(s) && Honest(s) && SerialInv(s) && Serially(s, e)
    ensures SerialInv(Next(s, e))
  {
    hide Sound, Honest, SerialInv;
    match e
    case Go(r, a) => if r in s.runs { StepSerial(s, r, a); }
    case Upload(_, _, _, _, _) =>
      if LookedUp(s.db, e.addressId, e.uploadId, e.found) { UploadEventSerial(s, e); }
    case Enqueue(u) =>
      if u in s.uploads {
        if DocumentExists(s.db, s.uploads[u].documentId) { EnqueueSerial(s, u); } else { GentleSerial(s, Next(s, e)); }
      }
    case Skip(d, hash, v, m) =>
      if d in s.db.documents {
        var doc := s.db.documents[d];
        ClosedRowSerial(s, Spec(Some(d), doc.addressId, doc.uploadId, hash, m, v, Ingest), Skipped);
      }
    case RequestRebuild(m, scope) => ClosedRowSerial(s, RebuildSpec(m, scope), Pending);
    case Delete(d) => DeleteSerial(s, d);
    case Claim(t, seconds) =>
      if Oldest(s.db, t) { LendSerial(s, t, seconds); }
    case ClaimById(t, seconds) =>
      if t in s.db.jobs && !Terminal(s.db.jobs[t].state) { LendSerial(s, t, seconds); }
    case _ => GentleSerial(s, Next(s, e));
  }

  lemma {:induction false} ExecSerial(es: seq<Event>)
    requires Guarded(Serially, INIT, es)
    ensures SerialInv(Exec(INIT, es))
  {
    if es == [] {
      hide Next;
    } else {
      hide Next, Sound, Honest, SerialInv, Exec, Guarded, Serially;
      var front := es[..|es| - 1];
      ExecSplit(INIT, es);
      GuardedFront(Serially, INIT, es);
      ExecSound(front);
      ExecHonest(front);
      ExecSerial(front);
      NextSerial(Exec(INIT, front), es[|es| - 1]);
    }
  }
}
