/** Reader atomicity when the runs of one document do not overlap. */
module Readers {
  import opened Schema
  import opened Tasks
  import opened Documents
  import opened Embeddings
  import opened Pipeline
  import opened Protocol
  import opened Integrity
  import opened Frames
  import opened Atomicity

  /** A document's job is leased only when no run of the document is left. The code does not see to this. */
  ghost predicate Exclusive(s: State, e: Event) {
    (e.Claim? || e.ClaimById?) && e.t in s.db.jobs && s.db.jobs[e.t].spec.documentId.Some? ==>
      forall r | r in s.runs :: s.runs[r].job.spec.documentId != s.db.jobs[e.t].spec.documentId
  }

  predicate PastWrite(pc: Pc) {
    pc.AtCount? || pc.AtEmbedding? || pc.AtSelect? || pc.AtBatch? || pc.AtRecord? || pc.AtCommit?
  }

  ghost predicate OneRunEach(s: State) {
    forall r, q | r in s.runs && q in s.runs && s.runs[r].job.spec.documentId.Some?
      && s.runs[r].job.spec.documentId == s.runs[q].job.spec.documentId :: r == q
  }

  /** A run that has written its version still has it whole. */
  ghost predicate RunHolds(db: Db, h: History, run: Run) {
    var d := run.job.spec.documentId;
    PastWrite(run.pc) && d.Some? && d.value in db.documents ==> Complete(db, h, d.value, run.job.spec.docVersion)
  }

  ghost predicate LiveHolds(db: Db, h: History, d: DocId)
    requires d in db.documents
  {
    db.documents[d].liveVersion >= 1 ==> Complete(db, h, d, db.documents[d].liveVersion)
  }

  ghost predicate Orderly(s: State) {
    && OneRunEach(s)
    && (forall r | r in s.runs :: RunHolds(s.db, s.hist, s.runs[r]))
    && (forall d | d in s.db.documents :: LiveHolds(s.db, s.hist, d))
  }

  lemma OwnRunHolds(db: Db, h: History, r: RunId, run: Run, a: Answer)
    requires KeysIssued(db) && RunSound(db, r, run) && Whole(db, h) && RunHolds(db, h, run)
    ensures var (db', pc) := Proceed(db, run, a); RunHolds(db', Remember(h, db, run, pc), run.(pc := pc))
  {
    var (db', pc) := Proceed(db, run, a);
    ProceedFrame(db, run, a);
    PastWriteBefore(db, run, a);
    hide Proceed, RunSound, Whole, Complete, KeysIssued;
    if PastWrite(pc) {
      if Replaces(run, pc) {
        WrittenComplete(db, h, r, run, a);
      } else if run.job.spec.documentId.Some? && run.job.spec.documentId.value in db.documents {
        StepComplete(db, h, r, run, a, run.job.spec.documentId.value, run.job.spec.docVersion);
      }
    }
  }

  lemma PastWriteBefore(db: Db, run: Run, a: Answer)
    ensures var pc := Proceed(db, run, a).1; PastWrite(pc) ==> PastWrite(run.pc) || Replaces(run, pc)
    ensures PastWrite(run.pc) ==> !run.pc.AtWrite?
    ensures run.pc.AtCommit? ==> !PastWrite(Proceed(db, run, a).1)
  {
    hide Lists, ItemsOf, CanEmbed, CanInsert, Numbered, ByOrdinal, VersionChunks;
  }

  lemma OtherRunHolds(s: State, r: RunId, a: Answer, q: RunId)
    requires Sound(s) && Orderly(s) && Whole(s.db, s.hist) && r in s.runs && q in s.runs && q != r
    ensures
      var (db', pc) := Proceed(s.db, s.runs[r], a);
      RunHolds(db', Remember(s.hist, s.db, s.runs[r], pc), s.runs[q])
  {
    var run := s.runs[q];
    var d := run.job.spec.documentId;
    assert RunHolds(s.db, s.hist, run);
    ProceedFrame(s.db, s.runs[r], a);
    SoundDb(s);
    hide Proceed, Whole, Complete, RunSound, Sound;
    if PastWrite(run.pc) && d.Some? && d.value in s.db.documents {
      StepComplete(s.db, s.hist, r, s.runs[r], a, d.value, run.job.spec.docVersion);
    }
  }

  lemma LiveStays(s: State, r: RunId, a: Answer, d: DocId)
    requires Sound(s) && Orderly(s) && Whole(s.db, s.hist) && r in s.runs && d in s.db.documents
    ensures
      var (db', pc) := Proceed(s.db, s.runs[r], a);
      d in db'.documents && LiveHolds(db', Remember(s.hist, s.db, s.runs[r], pc), d)
  {
    var run := s.runs[r];
    var db' := Proceed(s.db, run, a).0;
    assert RunHolds(s.db, s.hist, run) && LiveHolds(s.db, s.hist, d);
    ProceedFrame(s.db, run, a);
    LiveVersionAfter(s.db, run, a, d);
    SoundDb(s);
    hide Proceed, Whole, Complete, RunSound, Sound;
    if db'.documents[d].liveVersion >= 1 {
      StepComplete(s.db, s.hist, r, run, a, d, db'.documents[d].liveVersion);
    }
  }

  lemma LiveVersionAfter(db: Db, run: Run, a: Answer, d: DocId)
    requires d in db.documents
    ensures
      var db' := Proceed(db, run, a).0;
      && d in db'.documents
      && db'.documents[d].liveVersion ==
           if run.pc.AtCommit? && run.job.spec.documentId == Some(d) then run.job.spec.docVersion
           else db.documents[d].liveVersion
  {
    ProceedFrame(db, run, a);
    if !run.pc.AtCommit? {
      hide Proceed;
    }
  }

  lemma GoOrderly(s: State, r: RunId, a: Answer)
    requires Sound(s) && Orderly(s) && Whole(s.db, s.hist) && r in s.runs
    ensures Orderly(StepRun(s, r, a))
  {
    var s' := StepRun(s, r, a);
    var run := s.runs[r];
    assert OneRunEach(s');
    hide Proceed, Whole, RunSound, Sound, RunHolds, LiveHolds, KeysIssued, OneRunEach, Remember;
    forall q | q in s'.runs ensures RunHolds(s'.db, s'.hist, s'.runs[q]) {
      if q == r {
        SoundDb(s);
        OwnRunHolds(s.db, s.hist, r, run, a);
      } else {
        OtherRunHolds(s, r, a, q);
      }
    }
    ProceedFrame(s.db, run, a);
    forall d | d in s'.db.documents ensures LiveHolds(s'.db, s'.hist, d) {
      LiveStays(s, r, a, d);
    }
  }

  /** Rows of the other documents survive a delete. */
  lemma DeleteOrderly(s: State, d: DocId)
    requires Orderly(s)
    ensures Orderly(Next(s, Delete(d)))
  {
    var s' := Next(s, Delete(d));
    assert forall d', v, c | d' != d && IsRow(s.db, d', v, c) :: IsRow(s'.db, d', v, c);
    assert s'.db.documents == s.db.documents - {d};
    hide Next, DeleteDocument;
    forall r | r in s'.runs ensures RunHolds(s'.db, s'.hist, s'.runs[r]) {
      var run := s'.runs[r];
      assert RunHolds(s.db, s.hist, run);
      if PastWrite(run.pc) && run.job.spec.documentId.Some? && run.job.spec.documentId.value in s'.db.documents {
        CompleteTransfers(s.db, s'.db, s.hist, run.job.spec.documentId.value, run.job.spec.docVersion);
      }
    }
    forall d' | d' in s'.db.documents ensures LiveHolds(s'.db, s'.hist, d') {
      assert LiveHolds(s.db, s.hist, d');
      if s.db.documents[d'].liveVersion >= 1 {
        CompleteTransfers(s.db, s'.db, s.hist, d', s.db.documents[d'].liveVersion);
      }
    }
  }

  /** Events that leave chunks and history alone. */
  lemma QuietOrderly(s: State, e: Event)
    requires Sound(s) && Orderly(s) && Exclusive(s, e) && !e.Go? && !e.Delete?
    ensures Orderly(Next(s, e))
  {
    var s' := Next(s, e);
    QuietFrame(s, e);
    SoundIssued(s);
    LiveKept(s, e);
    QuietOneRunEach(s, e);
    hide Next, Sound, OneRunEach, Exclusive;
    forall r | r in s'.runs ensures RunHolds(s'.db, s'.hist, s'.runs[r]) {
      var run := s'.runs[r];
      if PastWrite(run.pc) { QuietRun(s, e, r); }
      if PastWrite(run.pc) && run.job.spec.documentId.Some? && run.job.spec.documentId.value in s'.db.documents {
        assert RunHolds(s.db, s.hist, s.runs[r]);
        CompleteTransfers(s.db, s'.db, s.hist, run.job.spec.documentId.value, run.job.spec.docVersion);
      }
    }
    forall d | d in s'.db.documents ensures LiveHolds(s'.db, s'.hist, d) {
      if s'.db.documents[d].liveVersion >= 1 {
        assert LiveHolds(s.db, s.hist, d);
        CompleteTransfers(s.db, s'.db, s.hist, d, s.db.documents[d].liveVersion);
      }
    }
  }

  lemma LiveKept(s: State, e: Event)
    requires Issued(s) && !e.Go? && !e.Delete?
    ensures forall d | d in Next(s, e).db.documents ::
      if d in s.db.documents then Next(s, e).db.documents[d].liveVersion == s.db.documents[d].liveVersion
      else e.Upload? && d == s.db.next && Next(s, e).db.documents[d].liveVersion == 0
  {
    QuietFrame(s, e);
    if e.Upload? && LookedUp(s.db, e.addressId, e.uploadId, e.found) {
      var db := Upsert(s.db, e.found, e.addressId, e.uploadId, e.hash);
      assert Next(s, e).db.documents == db.documents;
    }
    hide Proceed, DeleteDocument, UploadSpec, Oldest;
  }

  /** A run past its write that did not step is as it was. */
  lemma QuietRun(s: State, e: Event, r: RunId)
    requires !e.Go? && r in Next(s, e).runs && PastWrite(Next(s, e).runs[r].pc)
    ensures r in s.runs && s.runs[r] == Next(s, e).runs[r]
  {
    RunChange(s, e, r);
    hide Next;
  }

  lemma LendOneRunEach(s: State, t: TaskId, seconds: int)
    requires OneRunEach(s) && t in s.db.jobs
    requires s.db.jobs[t].spec.documentId.Some? ==>
               forall r | r in s.runs :: s.runs[r].job.spec.documentId != s.db.jobs[t].spec.documentId
    ensures OneRunEach(Lend(s, t, seconds))
  {
    hide Lease;
  }

  lemma QuietOneRunEach(s: State, e: Event)
    requires OneRunEach(s) && Exclusive(s, e) && !e.Go?
    ensures OneRunEach(Next(s, e))
  {
    if (e.Claim? && Oldest(s.db, e.t)) || (e.ClaimById? && e.t in s.db.jobs) {
      LendOneRunEach(s, e.t, e.seconds);
      hide Lend, OneRunEach;
    } else {
      hide Proceed, DeleteDocument, LookedUp, UploadSpec, Upsert, Oldest;
    }
  }

  lemma NextOrderly(s: State, e: Event)
    requires Sound(s) && Orderly(s) && Whole(s.db, s.hist) && Exclusive(s, e)
    ensures Orderly(Next(s, e))
  {
    hide Sound, Orderly, Whole, Exclusive;
    if e.Go? {
      if e.r in s.runs { GoOrderly(s, e.r, e.a); }
    } else if e.Delete? {
      DeleteOrderly(s, e.d);
    } else {
      QuietOrderly(s, e);
    }
  }

  lemma {:induction false} ExecOrderly(es: seq<Event>)
    requires Guarded(Exclusive, INIT, es)
    ensures Orderly(Exec(INIT, es))
  {
    if es != [] {
      hide Next, Sound, Whole, Orderly, Exec, Guarded;
      var front := es[..|es| - 1];
      ExecSplit(INIT, es);
      GuardedFront(Exclusive, INIT, es);
      ExecSound(front);
      ExecWhole(front);
      ExecOrderly(front);
      NextOrderly(Exec(INIT, front), es[|es| - 1]);
    }
  }

  /** Event `i` is a write step of (d, v), and `w` is what it wrote. */
  predicate IsWrite(es: seq<Event>, i: nat, d: DocId, v: int, w: Written) {
    && i < |es| && es[i].Go?
    && var s := Exec(INIT, es[..i]);
      && es[i].r in s.runs
      && var run := s.runs[es[i].r];
        && run.pc.AtWrite? && run.job.spec.documentId == Some(d) && run.job.spec.docVersion == v
        && w == Written(s.db.next, run.pc.rows)
  }

  /** What the history holds as written was written by a step of the trace. */
  lemma {:induction false} WrittenByStep(es: seq<Event>, d: DocId, v: int) returns (i: nat)
    requires (Some(d), v) in Exec(INIT, es).hist.written
    ensures IsWrite(es, i, d, v, Exec(INIT, es).hist.written[(Some(d), v)])
  {
    hide Exec, Next, IsWrite;
    EmptyHistory();
    var front, e := es[..|es| - 1], es[|es| - 1];
    var s := Exec(INIT, front);
    ExecSplit(INIT, es);
    HistoryChange(s, e, d, v);
    if (Some(d), v) in s.hist.written && Exec(INIT, es).hist.written[(Some(d), v)] == s.hist.written[(Some(d), v)] {
      i := WrittenByStep(front, d, v);
      IsWriteExtends(es, i, d, v, s.hist.written[(Some(d), v)]);
    } else {
      i := |front|;
      LastIsWrite(es, d, v);
    }
  }

  lemma EmptyHistory()
    ensures Exec(INIT, []) == INIT
  {
  }

  lemma HistoryChange(s: State, e: Event, d: DocId, v: int)
    requires (Some(d), v) in Next(s, e).hist.written
    ensures
      || ((Some(d), v) in s.hist.written && Next(s, e).hist.written[(Some(d), v)] == s.hist.written[(Some(d), v)])
      || (&& e.Go? && e.r in s.runs && s.runs[e.r].pc.AtWrite?
          && s.runs[e.r].job.spec.documentId == Some(d) && s.runs[e.r].job.spec.docVersion == v
          && Next(s, e).hist.written[(Some(d), v)] == Written(s.db.next, s.runs[e.r].pc.rows))
  {
    if e.Go? && e.r in s.runs {
      RememberWritten(s.hist, s.db, s.runs[e.r], Proceed(s.db, s.runs[e.r], e.a).1);
      hide Proceed, Remember;
    } else if !e.Go? {
      QuietFrame(s, e);
      hide Next;
    }
  }

  lemma IsWriteExtends(es: seq<Event>, i: nat, d: DocId, v: int, w: Written)
    requires es != [] && IsWrite(es[..|es| - 1], i, d, v, w)
    ensures IsWrite(es, i, d, v, w)
  {
    hide Exec;
    assert es[..|es| - 1][..i] == es[..i];
  }

  lemma LastIsWrite(es: seq<Event>, d: DocId, v: int)
    requires es != []
    requires
      var s, e := Exec(INIT, es[..|es| - 1]), es[|es| - 1];
      && e.Go? && e.r in s.runs && s.runs[e.r].pc.AtWrite?
      && s.runs[e.r].job.spec.documentId == Some(d) && s.runs[e.r].job.spec.docVersion == v
      && (Some(d), v) in Exec(INIT, es).hist.written
      && Exec(INIT, es).hist.written[(Some(d), v)] == Written(s.db.next, s.runs[e.r].pc.rows)
    ensures IsWrite(es, |es| - 1, d, v, Exec(INIT, es).hist.written[(Some(d), v)])
  {
    hide Exec;
  }

  /** A reader of a document sees nothing before its first commit, and after that all the rows
      of one chunking step of the live version and no other row. */
  lemma ReaderAtomicity(es: seq<Event>, d: DocId) returns (i: nat, w: Written)
    requires Guarded(Exclusive, INIT, es) && d in Exec(INIT, es).db.documents
    ensures
      var db := Exec(INIT, es).db;
      var v := db.documents[d].liveVersion;
      if v == 0 then Visible(db, d) == {} else IsWrite(es, i, d, v, w) && Exactly(db, d, v, w)
  {
    hide Exec, Guarded, Orderly, Whole, IsWrite, Exactly, Sound, Complete;
    var s := Exec(INIT, es);
    ExecSound(es);
    ExecWhole(es);
    ExecOrderly(es);
    i, w := 0, Written(0, []);
    if s.db.documents[d].liveVersion == 0 {
      NothingAtZero(s, d);
    } else {
      LiveComplete(s, d);
      i := WrittenByStep(es, d, s.db.documents[d].liveVersion);
      w := s.hist.written[(Some(d), s.db.documents[d].liveVersion)];
      CompleteIsExact(s.db, s.hist, d, s.db.documents[d].liveVersion);
    }
  }

  lemma NothingAtZero(s: State, d: DocId)
    requires Sound(s) && d in s.db.documents && s.db.documents[d].liveVersion == 0
    ensures Visible(s.db, d) == {}
  {
    SoundDb(s);
    assert ChunksSound(s.db);
    hide Sound, DbSound;
  }

  lemma LiveComplete(s: State, d: DocId)
    requires Sound(s) && Orderly(s) && d in s.db.documents && s.db.documents[d].liveVersion != 0
    ensures (Some(d), s.db.documents[d].liveVersion) in s.hist.written
    ensures Complete(s.db, s.hist, d, s.db.documents[d].liveVersion)
  {
    SoundDb(s);
    assert s.db.documents[d].liveVersion >= 0;
    assert LiveHolds(s.db, s.hist, d);
    hide Sound, DbSound;
  }
}
