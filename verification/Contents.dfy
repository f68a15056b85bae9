/** Whether what is live is what was last uploaded. */
module Contents {
  import opened Schema
  import opened Tasks
  import opened Documents
  import opened Pipeline
  import opened Protocol
  import opened Integrity
  import opened Status
  import opened Atomicity
  import opened Leases
  import opened Constraints
  import opened Serial
  import opened SerialRuns

  /** The last commit of `d` was of the content its row names. */
  predicate Indexed(s: State, d: DocId)
    requires d in s.db.documents
  {
    Some(d) in s.hist.content && s.hist.content[Some(d)] == s.db.documents[d].contentHash
  }

  predicate HasUpload(s: State, d: DocId) {
    exists u | u in s.uploads :: s.uploads[u].documentId == Some(d)
  }

  /** The upload of the content is between its two transactions. */
  ghost predicate Coming(s: State, d: DocId, strict: bool)
    requires d in s.db.documents
  {
    && (exists u | u in s.uploads :: s.uploads[u].documentId == Some(d)
                                     && s.uploads[u].contentHash == s.db.documents[d].contentHash)
    && (strict ==> !Indexed(s, d))
  }

  /** The job queued last for `d`; records of skipped uploads do not count. */
  ghost predicate LastJob(s: State, d: DocId, t: TaskId) {
    WorkRow(s.db, d, t) && forall t': TaskId :: WorkRow(s.db, d, t') ==> t' <= t
  }

  /** Job `t` carries the content: committed exactly if the content is indexed (where `strict` leaves no
      other commit of the same content), and the only job of `d` that can still be open. */
  ghost predicate Current(s: State, d: DocId, t: TaskId, strict: bool)
    requires d in s.db.documents
  {
    && LastJob(s, d, t)
    && s.db.jobs[t].spec.contentHash == s.db.documents[d].contentHash
    && (t in Committed(s.hist, Some(d)) ==> Indexed(s, d))
    && (strict && t !in Committed(s.hist, Some(d)) ==> !Indexed(s, d))
    && (s.db.jobs[t].state == Done ==> t in Committed(s.hist, Some(d)))
    && (forall t' :: OpenJob(s.db, t', d) ==> t' == t)
    && !HasUpload(s, d)
  }

  /** The upload of the content was given up. */
  ghost predicate GivenUp(s: State, d: DocId, strict: bool)
    requires d in s.db.documents
  {
    !HasUpload(s, d) && (forall t :: !OpenJob(s.db, t, d)) && (strict ==> !Indexed(s, d))
  }

  ghost predicate Tracked(s: State, d: DocId, dropped: bool, strict: bool)
    requires d in s.db.documents
  {
    if dropped then GivenUp(s, d, strict) else Coming(s, d, strict) || exists t :: Current(s, d, t, strict)
  }

  /** The event gives `d` its content. */
  predicate Uploads(s: State, e: Event, d: DocId) {
    e.Upload? && LookedUp(s.db, e.addressId, e.uploadId, e.found) && UpsertedId(s.db, e.found) == d
  }

  /** The event gives up an upload of `d`. */
  predicate GivesUp(s: State, e: Event, d: DocId) {
    e.Abandon? && e.u in s.uploads && s.uploads[e.u].documentId == Some(d)
  }

  /** The last upload of `d` was given up. */
  ghost function Dropped(es: seq<Event>, d: DocId): bool {
    if es == [] then false
    else
      var s, e := Exec(INIT, es[..|es| - 1]), es[|es| - 1];
      if Uploads(s, e, d) then false else GivesUp(s, e, d) || Dropped(es[..|es| - 1], d)
  }

  /** `Serially`; and where `strict`, no upload brings back the content that is live. */
  ghost function Changing(strict: bool): (State, Event) -> bool {
    (s: State, e: Event) =>
      && Serially(s, e)
      && (strict && e.Upload? && e.found.Some? && e.found in s.hist.content ==> s.hist.content[e.found] != e.hash)
  }

  // ---- the events -------------------------------------------------------------------------

  /** Nothing that matters to the content of `d` has changed. */
  lemma SameTracked(s: State, s': State, d: DocId, dropped: bool, strict: bool)
    requires d in s.db.documents && d in s'.db.documents && Tracked(s, d, dropped, strict)
    requires s'.db.documents[d].contentHash == s.db.documents[d].contentHash
    requires Some(d) in s'.hist.content <==> Some(d) in s.hist.content
    requires Some(d) in s.hist.content ==> s'.hist.content[Some(d)] == s.hist.content[Some(d)]
    requires Committed(s'.hist, Some(d)) == Committed(s.hist, Some(d))
    requires forall u | u in s.uploads && s.uploads[u].documentId == Some(d) ::
            && u in s'.uploads
            && s'.uploads[u] == s.uploads[u]
    requires forall u | u in s'.uploads && s'.uploads[u].documentId == Some(d) ::
            && u in s.uploads
            && s'.uploads[u] == s.uploads[u]
    requires forall t | t in s.db.jobs && s.db.jobs[t].spec.documentId == Some(d) ::
      && t in s'.db.jobs && s'.db.jobs[t].spec == s.db.jobs[t].spec
      && (s'.db.jobs[t].state == s.db.jobs[t].state || !Terminal(s'.db.jobs[t].state))
    requires forall t :: OpenJob(s'.db, t, d) ==> OpenJob(s.db, t, d)
    requires forall t :: WorkRow(s'.db, d, t) <==> WorkRow(s.db, d, t)
    ensures Tracked(s', d, dropped, strict)
  {
    assert forall t :: LastJob(s', d, t) <==> LastJob(s, d, t);
    assert forall t :: WorkRow(s.db, d, t) ==> t in s.db.jobs && s.db.jobs[t].spec.documentId == Some(d);
    hide OpenJob, Committed, LastJob, WorkRow;
    assert HasUpload(s', d) <==> HasUpload(s, d);
    if !dropped && !Coming(s, d, strict) {
      var t :| Current(s, d, t, strict);
      assert Current(s', d, t, strict);
    }
  }

  /** What the history knows of a document's content came with a commit. */
  ghost predicate ContentKnown(h: History) {
    forall d: DocId | Some(d) in h.content :: Committed(h, Some(d)) != {}
  }

  lemma RememberContent(h: History, db: Db, run: Run, next: Pc)
    ensures
      Remember(h, db, run, next).content ==
        if run.pc.AtCommit? then h.content[run.job.spec.documentId := run.job.spec.contentHash] else h.content
  {
  }

  lemma UploadTracked(s: State, e: Event, d: DocId, strict: bool)
    requires Sound(s) && Honest(s) && Changing(strict)(s, e) && ContentKnown(s.hist) && Uploads(s, e, d)
    ensures d in Next(s, e).db.documents && Tracked(Next(s, e), d, false, strict)
  {
    var k := Upsert(s.db, e.found, e.addressId, e.uploadId, e.hash).next;
    var s' := Next(s, e);
    QuietFrame(s, e);
    FreshDocument(s, e);
    assert k in s'.uploads && s'.uploads[k] == UploadSpec(s.db, e) && s'.db.documents[d].contentHash == e.hash;
    assert e.found.Some? ==> e.found == Some(d) && d in s.db.documents;
    hide Sound, Honest, Next, Upsert, LookedUp, Serially;
    assert Coming(s', d, strict);
  }

  /** The job an enqueue inserts for `d` carries its content. */
  lemma EnqueueTracked(s: State, u: nat, d: DocId, dropped: bool, strict: bool)
    requires Sound(s) && Honest(s) && SerialInv(s) && u in s.uploads && s.uploads[u].documentId == Some(d)
    requires d in s.db.documents && Tracked(s, d, dropped, strict)
    ensures d in Next(s, Enqueue(u)).db.documents && Tracked(Next(s, Enqueue(u)), d, dropped, strict)
  {
    hide Sound, Honest, SerialInv;
    assert HasUpload(s, d);
    GetUpload(s, u);
    NotCommittedYet(s, d);
    SoundIssued(s);
    EnqueuedIs(s, u, d);
    hide Next;
    var k :| k in s.uploads && s.uploads[k].documentId == Some(d)
        && s.uploads[k].contentHash == s.db.documents[d].contentHash;
    assert k == u;
    InsertedIsCurrent(s, u, d, strict);
  }

  lemma EnqueuedIs(s: State, u: nat, d: DocId)
    requires u in s.uploads && s.uploads[u].documentId == Some(d) && d in s.db.documents
    ensures
      Next(s, Enqueue(u)) == s.(db := InsertJob(s.db, s.uploads[u], Pending), uploads := s.uploads - {u})
  {
  }

  lemma InsertedIsCurrent(s: State, u: nat, d: DocId, strict: bool)
    requires Issued(s) && u in s.uploads && s.uploads[u].documentId == Some(d) && d in s.db.documents
    requires s.uploads[u].contentHash == s.db.documents[d].contentHash
    requires forall t :: !OpenJob(s.db, t, d)
    requires forall k | k in s.uploads && s.uploads[k].documentId == Some(d) :: k == u
    requires s.db.next !in Committed(s.hist, Some(d)) && (strict ==> !Indexed(s, d))
    ensures
      var s' := s.(db := InsertJob(s.db, s.uploads[u], Pending), uploads := s.uploads - {u});
      Current(s', d, s.db.next, strict)
  {
    var s' := s.(db := InsertJob(s.db, s.uploads[u], Pending), uploads := s.uploads - {u});
    forall t | OpenJob(s'.db, t, d) ensures t == s.db.next {
      assert OpenJob(s'.db, t, d) && t != s.db.next ==> OpenJob(s.db, t, d);
    }
    assert LastJob(s', d, s.db.next);
  }

  lemma AbandonTracked(s: State, u: nat, d: DocId, dropped: bool, strict: bool)
    requires SerialInv(s) && u in s.uploads && s.uploads[u].documentId == Some(d)
    requires d in s.db.documents && Tracked(s, d, dropped, strict)
    ensures d in Next(s, Abandon(u)).db.documents && Tracked(Next(s, Abandon(u)), d, true, strict)
  {
    var s' := Next(s, Abandon(u));
    assert HasUpload(s, d);
    GetUpload(s, u);
    assert s' == s.(uploads := s.uploads - {u});
    hide SerialInv, Next;
  }

  /** A step of another document's run. */
  lemma ForeignTracked(s: State, r: RunId, a: Answer, d: DocId, dropped: bool, strict: bool)
    requires Sound(s) && r in s.runs && d in s.db.documents && Foreign(s, r, d) && Tracked(s, d, dropped, strict)
    ensures
      var s' := Next(s, Go(r, a));
      d in s'.db.documents && Tracked(s', d, dropped, strict)
  {
    var s' := Next(s, Go(r, a));
    var run := s.runs[r];
    GoIs(s, r, a);
    StepHasFacts(s, r, a);
    StepNames(s.db, run, a, d);
    RememberContent(s.hist, s.db, run, Proceed(s.db, run, a).1);
    hide Sound, Next, StepRun, Proceed, Remember, Tracked, Committed;
    assert Committed(s'.hist, Some(d)) == Committed(s.hist, Some(d));
    SameTracked(s, s', d, dropped, strict);
  }

  /** A step of the document's own run keeps its job the current one. */
  lemma OwnTracked(s: State, r: RunId, a: Answer, d: DocId, dropped: bool, strict: bool)
    requires Sound(s) && Honest(s) && r in s.runs && d in s.db.documents && Tracked(s, d, dropped, strict)
    requires s.runs[r].job.spec.documentId == Some(d) && OwnsDocument(s, r, d)
    ensures
      var s' := Next(s, Go(r, a));
      d in s'.db.documents && Tracked(s', d, dropped, strict)
  {
    hide Sound, Honest, Next, StepRun, Proceed, Remember, OwnsDocument, StepFacts;
    var s' := Next(s, Go(r, a));
    var run := s.runs[r];
    GoIs(s, r, a);
    StepHasFacts(s, r, a);
    StepNames(s.db, run, a, d);
    SkipNotOwned(s, r, d);
    RememberContent(s.hist, s.db, run, Proceed(s.db, run, a).1);
    OwnIsCurrent(s, r, d, dropped, strict);
    hide Tracked, Current;
    StepCurrent(s, r, s', d, strict);
    IsTracked(s', r.0, d, strict);
  }

  lemma OwnIsCurrent(s: State, r: RunId, d: DocId, dropped: bool, strict: bool)
    requires r in s.runs && d in s.db.documents && OwnsDocument(s, r, d) && Tracked(s, d, dropped, strict)
    ensures !dropped && Current(s, d, r.0, strict)
  {
    hide Committed;
    assert OpenJob(s.db, r.0, d) && !HasUpload(s, d);
    var t :| !dropped && Current(s, d, t, strict);
    assert t == r.0;
  }

  lemma StepCurrent(s: State, r: RunId, s': State, d: DocId, strict: bool)
    requires r in s.runs && d in s.db.documents && d in s'.db.documents && OwnsDocument(s, r, d)
    requires s.runs[r].job.spec.documentId == Some(d) && !s.runs[r].pc.AtSkip?
    requires Current(s, d, r.0, strict) && StepFacts(s, r, s')
    requires s'.db.documents[d].contentHash == s.db.documents[d].contentHash
    requires s'.hist.content ==
      if s.runs[r].pc.AtCommit? then s.hist.content[Some(d) := s.runs[r].job.spec.contentHash] else s.hist.content
    ensures Current(s', d, r.0, strict)
  {
    hide Committed;
    forall t | OpenJob(s'.db, t, d) ensures t == r.0 {
      assert OpenJob(s'.db, t, d) && t != r.0 ==> OpenJob(s.db, t, d);
    }
    forall t: TaskId | WorkRow(s'.db, d, t) ensures t <= r.0 {
      assert t != r.0 ==> WorkRow(s.db, d, t);
    }
  }

  lemma IsTracked(s: State, t: TaskId, d: DocId, strict: bool)
    requires d in s.db.documents && Current(s, d, t, strict)
    ensures Tracked(s, d, false, strict)
  {
  }

  lemma GoTracked(s: State, r: RunId, a: Answer, d: DocId, dropped: bool, strict: bool)
    requires Sound(s) && Honest(s) && SerialInv(s) && r in s.runs && d in s.db.documents
    requires Tracked(s, d, dropped, strict)
    ensures
      var s' := Next(s, Go(r, a));
      d in s'.db.documents && Tracked(s', d, dropped, strict)
  {
    hide Sound, Honest, SerialInv, Next, Tracked, OwnsDocument, Foreign;
    OwnOrForeign(s, r, d);
    if Foreign(s, r, d) {
      ForeignTracked(s, r, a, d, dropped, strict);
    } else {
      OwnTracked(s, r, a, d, dropped, strict);
    }
  }

  /** Events that neither upload, enqueue nor give up content of `d`, nor step a run. */
  lemma QuietTracked(s: State, e: Event, d: DocId, dropped: bool, strict: bool)
    requires Sound(s) && !e.Go? && !Uploads(s, e, d) && !GivesUp(s, e, d)
    requires e.Enqueue? && e.u in s.uploads ==> s.uploads[e.u].documentId != Some(d)
    requires d in s.db.documents && d in Next(s, e).db.documents && Tracked(s, d, dropped, strict)
    ensures Tracked(Next(s, e), d, dropped, strict)
  {
    var s' := Next(s, e);
    SoundIssued(s);
    QuietFrame(s, e);
    SameUploads(s, e, d);
    SameContent(s, e, d);
    if Claims(e) {
      ClaimRows(s, e, d);
    } else {
      QuietRows(s, e);
      NewRowsClosed(s, e, d);
      RowsStay(s, e, d);
    }
    hide Sound, Next, Tracked;
    SameTracked(s, s', d, dropped, strict);
  }

  lemma SameUploads(s: State, e: Event, d: DocId)
    requires Sound(s) && !e.Go? && !Uploads(s, e, d) && !GivesUp(s, e, d)
    requires e.Enqueue? && e.u in s.uploads ==> s.uploads[e.u].documentId != Some(d)
    ensures
      var s' := Next(s, e);
      && (forall u | u in s.uploads && s.uploads[u].documentId == Some(d) ::
              && u in s'.uploads
              && s'.uploads[u] == s.uploads[u])
      && (forall u | u in s'.uploads && s'.uploads[u].documentId == Some(d) ::
              && u in s.uploads
              && s'.uploads[u] == s.uploads[u])
  {
    hide Sound, LookedUp, UploadSpec, Upsert, DeleteDocument, Oldest;
    if e.Upload? && LookedUp(s.db, e.addressId, e.uploadId, e.found) {
      var k := Upsert(s.db, e.found, e.addressId, e.uploadId, e.hash).next;
      NewUpload(s, e);
      hide Next;
      if k in s.uploads { UploadFresh(s, k); }
      SoundIssued(s);
    }
  }

  lemma NewUpload(s: State, e: Event)
    requires e.Upload? && LookedUp(s.db, e.addressId, e.uploadId, e.found)
    ensures
      var k := Upsert(s.db, e.found, e.addressId, e.uploadId, e.hash).next;
      && Next(s, e).uploads == s.uploads[k := UploadSpec(s.db, e)] && k >= s.db.next
      && UploadSpec(s.db, e).documentId == Some(UpsertedId(s.db, e.found))
  {
    hide LookedUp;
  }

  lemma SameContent(s: State, e: Event, d: DocId)
    requires !e.Go? && !Uploads(s, e, d) && d in s.db.documents && d in Next(s, e).db.documents
    ensures Next(s, e).db.documents[d].contentHash == s.db.documents[d].contentHash
  {
    if e.Delete? {
      QuietFrame(s, e);
      hide Next;
    } else if !e.Upload? {
      QuietFrame(s, e);
      hide Next;
    } else {
      hide LookedUp, UploadSpec;
    }
  }

  lemma ClaimRows(s: State, e: Event, d: DocId)
    requires Claims(e)
    ensures
      var s' := Next(s, e);
      && (forall t | t in s.db.jobs :: t in s'.db.jobs && s'.db.jobs[t].spec == s.db.jobs[t].spec
            && (s'.db.jobs[t].state == s.db.jobs[t].state || !Terminal(s'.db.jobs[t].state)))
      && (forall t :: OpenJob(s'.db, t, d) ==> OpenJob(s.db, t, d))
      && (forall t :: WorkRow(s'.db, d, t) <==> WorkRow(s.db, d, t))
  {
  }

  /** Only an enqueue for `d` opens a job of `d`. */
  lemma NewRowsClosed(s: State, e: Event, d: DocId)
    requires Issued(s) && !e.Go? && !Claims(e)
    requires e.Enqueue? && e.u in s.uploads ==> s.uploads[e.u].documentId != Some(d)
    ensures forall t :: OpenJob(Next(s, e).db, t, d) ==> OpenJob(s.db, t, d)
    ensures forall t :: WorkRow(Next(s, e).db, d, t) ==> WorkRow(s.db, d, t)
  {
    if e.Enqueue? || e.Skip? || e.RequestRebuild? {
      hide DeleteDocument, Oldest, LookedUp, Upsert;
    } else {
      QuietRows(s, e);
      NoNewRow(s, e);
      hide Next;
    }
  }

  lemma NoNewRow(s: State, e: Event)
    requires !e.Go? && !Claims(e) && !e.Enqueue? && !e.Skip? && !e.RequestRebuild? && s.db.next !in s.db.jobs
    ensures s.db.next !in Next(s, e).db.jobs
  {
    hide LookedUp, UploadSpec, KeepChunks;
  }

  lemma RowsStay(s: State, e: Event, d: DocId)
    requires Sound(s) && !e.Go? && d in Next(s, e).db.documents
    ensures forall t | t in s.db.jobs && s.db.jobs[t].spec.documentId == Some(d) ::
              t in Next(s, e).db.jobs && t < s.db.next
  {
    NextSound(s, e);
    SoundIssued(s);
    hide Next, Sound;
  }

  /** What one event makes of the record of the content of `d`. */
  lemma TrackedNext(s: State, e: Event, d: DocId, dropped: bool, strict: bool)
    requires Sound(s) && Honest(s) && SerialInv(s) && ContentKnown(s.hist) && Changing(strict)(s, e)
    requires d in Next(s, e).db.documents && (d in s.db.documents ==> Tracked(s, d, dropped, strict))
    ensures Tracked(Next(s, e), d, if Uploads(s, e, d) then false else GivesUp(s, e, d) || dropped, strict)
  {
    hide Sound, Honest, SerialInv, Next, Tracked, ContentKnown, Changing, LookedUp;
    if Uploads(s, e, d) {
      UploadTracked(s, e, d, strict);
    } else {
      OnlyUploadsCreate(s, e, d);
      if e.Go? {
        if e.r in s.runs { GoTracked(s, e.r, e.a, d, dropped, strict); } else { IdleGo(s, e); }
      } else if GivesUp(s, e, d) {
        AbandonTracked(s, e.u, d, dropped, strict);
      } else if e.Enqueue? && e.u in s.uploads && s.uploads[e.u].documentId == Some(d) {
        EnqueueTracked(s, e.u, d, dropped, strict);
      } else {
        QuietTracked(s, e, d, dropped, strict);
      }
    }
  }

  lemma OnlyUploadsCreate(s: State, e: Event, d: DocId)
    requires Sound(s) && d in Next(s, e).db.documents && !Uploads(s, e, d)
    ensures d in s.db.documents
  {
    hide Sound;
    SoundIssued(s);
    if e.Go? {
      if e.r in s.runs { DocumentsSame(s, e); }
      hide Proceed;
    } else if e.Delete? {
      QuietFrame(s, e);
      hide Next;
    } else if !e.Upload? {
      QuietFrame(s, e);
      hide Next;
    } else {
      hide LookedUp, UploadSpec;
    }
  }

  lemma ContentKnownNext(s: State, e: Event)
    requires ContentKnown(s.hist)
    ensures ContentKnown(Next(s, e).hist)
  {
    if e.Go? && e.r in s.runs {
      GoIs(s, e.r, e.a);
      RememberContent(s.hist, s.db, s.runs[e.r], Proceed(s.db, s.runs[e.r], e.a).1);
      RememberCommitted(s.hist, s.db, s.runs[e.r], Proceed(s.db, s.runs[e.r], e.a).1);
      hide Next, Proceed, Remember;
      forall d: DocId | Some(d) in Next(s, e).hist.content ensures Committed(Next(s, e).hist, Some(d)) != {} {
        if s.runs[e.r].pc.AtCommit? {
          assert s.runs[e.r].job.taskId in Committed(Next(s, e).hist, s.runs[e.r].job.spec.documentId);
        }
      }
    } else if !e.Go? {
      QuietFrame(s, e);
      hide Next;
    }
  }

  lemma ChangingIsSerial(strict: bool, s: State, es: seq<Event>)
    requires Guarded(Changing(strict), s, es)
    ensures Guarded(Serially, s, es)
  {
    hide Exec, Serially;
    forall i | 0 <= i < |es| ensures Serially(Exec(s, es[..i]), es[i]) {
      assert Changing(strict)(Exec(s, es[..i]), es[i]);
    }
  }

  lemma {:induction false} ExecTracked(es: seq<Event>, strict: bool)
    requires Guarded(Changing(strict), INIT, es)
    ensures ContentKnown(Exec(INIT, es).hist)
    ensures forall d | d in Exec(INIT, es).db.documents :: Tracked(Exec(INIT, es), d, Dropped(es, d), strict)
  {
    if es != [] {
      hide Next, Sound, Honest, SerialInv, Tracked, Exec, Guarded, Changing, ContentKnown, Uploads, GivesUp, Serially;
      var front, e := es[..|es| - 1], es[|es| - 1];
      ExecSplit(INIT, es);
      GuardedFront(Changing(strict), INIT, es);
      ChangingIsSerial(strict, INIT, front);
      ExecSound(front);
      ExecHonest(front);
      ExecSerial(front);
      ExecTracked(front, strict);
      ContentKnownNext(Exec(INIT, front), e);
      forall d | d in Exec(INIT, es).db.documents ensures Tracked(Exec(INIT, es), d, Dropped(es, d), strict) {
        TrackedNext(Exec(INIT, front), e, d, Dropped(front, d), strict);
      }
    }
  }

  // ---- what a consumer may conclude -------------------------------------------------------

  /** No upload of `d` is half done and none of its jobs is open. */
  predicate Quiet(s: State, d: DocId) {
    !HasUpload(s, d) && forall t | t in s.db.jobs :: !OpenJob(s.db, t, d)
  }

  /** The job queued last for `d` failed before its commit. */
  ghost predicate LastJobFailed(s: State, d: DocId) {
    exists t :: LastJob(s, d, t) && s.db.jobs[t].state == Failed && t !in Committed(s.hist, Some(d))
  }

  /** Job `t` carries the document's content, has committed it and is done. */
  predicate FinishedBy(s: State, d: DocId, t: TaskId)
    requires d in s.db.documents
  {
    && t in Committed(s.hist, Some(d)) && t in s.db.jobs && s.db.jobs[t].state == Done
    && s.db.jobs[t].spec.contentHash == s.db.documents[d].contentHash
  }

  lemma ContentAt(es: seq<Event>, d: DocId, strict: bool)
    requires Guarded(Changing(strict), INIT, es) && d in Exec(INIT, es).db.documents
    ensures Tracked(Exec(INIT, es), d, Dropped(es, d), strict)
  {
    hide Exec, Guarded, Changing, Tracked;
    ExecTracked(es, strict);
  }

  /** Content that changes only between the document's jobs, and no upload to the address given up: on a fully
      indexed address the live version of every document was committed by a job that carries its hash. */
  lemma FullyIndexedIsCurrent(es: seq<Event>, a: string, fallback: string, d: DocId)
    requires Guarded(Serially, INIT, es) && Guarded(NoAbandon(a), INIT, es) && NoneHalfDone(Exec(INIT, es), a)
    requires ReadStatus(Exec(INIT, es).db, a, fallback).fullyIndexed
    requires d in Exec(INIT, es).db.documents && Exec(INIT, es).db.documents[d].addressId == a
    ensures
      var s := Exec(INIT, es);
      && Published(s.db, d) && Indexed(s, d)
      && exists t :: FinishedBy(s, d, t)
  {
    hide Exec, Guarded, Serially, NoAbandon, ReadStatus, Sound, Published, Current, HasUpload, Tracked;
    var s := Exec(INIT, es);
    SerialIsChanging(INIT, es);
    ContentAt(es, d, false);
    NeverDropped(es, a, d);
    FullyIndexedMeansAllLive(es, a, fallback);
    FullyIndexedMeans(s.db, a, fallback);
    ExecSound(es);
    NoUploadOf(s, a, d);
    var t := CurrentJob(s, d, false);
    CurrentIsDone(s, a, d, t);
  }

  lemma SerialIsChanging(s: State, es: seq<Event>)
    requires Guarded(Serially, s, es)
    ensures Guarded(Changing(false), s, es)
  {
    hide Exec, Serially;
    forall i | 0 <= i < |es| ensures Changing(false)(Exec(s, es[..i]), es[i]) {
      assert Serially(Exec(s, es[..i]), es[i]);
    }
  }

  lemma NoUploadOf(s: State, a: string, d: DocId)
    requires Sound(s) && NoneHalfDone(s, a) && d in s.db.documents && s.db.documents[d].addressId == a
    ensures !HasUpload(s, d)
  {
    hide Sound;
    forall u | u in s.uploads ensures s.uploads[u].documentId != Some(d) { UploadAddress(s, u); }
  }

  lemma CurrentJob(s: State, d: DocId, strict: bool) returns (t: TaskId)
    requires d in s.db.documents && Tracked(s, d, false, strict) && !HasUpload(s, d)
    ensures Current(s, d, t, strict)
  {
    hide Current;
    assert !Coming(s, d, strict);
    t :| Current(s, d, t, strict);
  }

  lemma CurrentIsDone(s: State, a: string, d: DocId, t: TaskId)
    requires Sound(s) && d in s.db.documents && s.db.documents[d].addressId == a && Current(s, d, t, false)
    requires forall t | t in s.db.jobs && s.db.jobs[t].spec.addressId == a :: s.db.jobs[t].state in {Done, Skipped}
    ensures Indexed(s, d) && FinishedBy(s, d, t)
  {
    SoundDb(s);
    assert JobSound(s.db, s.db.jobs[t]);
    hide Sound, DbSound;
  }

  /** An address whose uploads are never given up drops no content. */
  lemma {:induction false} NeverDropped(es: seq<Event>, a: string, d: DocId)
    requires Guarded(NoAbandon(a), INIT, es)
    requires d in Exec(INIT, es).db.documents && Exec(INIT, es).db.documents[d].addressId == a
    ensures !Dropped(es, d)
  {
    if es != [] {
      hide Next, Exec, Guarded, NoAbandon, Sound, Uploads, GivesUp;
      var front, e := es[..|es| - 1], es[|es| - 1];
      var s := Exec(INIT, front);
      ExecSplit(INIT, es);
      GuardedFront(NoAbandon(a), INIT, es);
      ExecSound(front);
      if !Uploads(s, e, d) {
        OnlyUploadsCreate(s, e, d);
        SameAddress(s, e, d);
        NotGivenUp(s, e, a, d);
        NeverDropped(front, a, d);
      }
    }
  }

  lemma NotGivenUp(s: State, e: Event, a: string, d: DocId)
    requires Sound(s) && NoAbandon(a)(s, e) && d in s.db.documents && s.db.documents[d].addressId == a
    ensures !GivesUp(s, e, d)
  {
    hide Sound;
    if e.Abandon? && e.u in s.uploads { UploadAddress(s, e.u); }
  }

  /** Content that changes only between the document's jobs: at rest it is unindexed only if its upload was
      given up or its job failed before the commit. */
  lemma UnindexedOnlyIf(es: seq<Event>, d: DocId)
    requires Guarded(Serially, INIT, es) && d in Exec(INIT, es).db.documents && Quiet(Exec(INIT, es), d)
    ensures !Indexed(Exec(INIT, es), d) ==> Dropped(es, d) || LastJobFailed(Exec(INIT, es), d)
  {
    hide Exec, Guarded, Serially, HasUpload;
    SerialIsChanging(INIT, es);
    ContentAt(es, d, false);
    hide Tracked, Indexed;
    if !Dropped(es, d) {
      var t := CurrentJob(Exec(INIT, es), d, false);
      CurrentAtRest(Exec(INIT, es), d, t, false);
    }
  }

  /** The exact condition for a skipped upload. It comes back to a document at rest with its hash and is only
      recorded; the content is then unindexed if and only if the upload that brought it was given up or the job
      of that upload failed before its commit. (An upload that brings back the content already live is indexed
      whatever becomes of its job: `Changing` sets these aside.) */
  lemma SkippedUploadUnindexedIff(es: seq<Event>, d: DocId, hash: string, version: int, modelId: string)
    requires Guarded(Changing(true), INIT, es) && d in Exec(INIT, es).db.documents && Quiet(Exec(INIT, es), d)
    ensures
      var s := Exec(INIT, es);
      var s' := Next(s, Skip(d, hash, version, modelId));
      && d in s'.db.documents && (Indexed(s', d) <==> Indexed(s, d))
      && (!Indexed(s', d) <==> Dropped(es, d) || LastJobFailed(s, d))
  {
    hide Exec, Guarded, Changing, Next, HasUpload;
    var s := Exec(INIT, es);
    ContentAt(es, d, true);
    SkipKeepsContent(s, d, hash, version, modelId);
    hide Tracked, Indexed;
    if Dropped(es, d) {
      DroppedUnindexed(s, d);
    } else {
      var t := CurrentJob(s, d, true);
      CurrentAtRest(s, d, t, true);
    }
  }

  lemma SkipKeepsContent(s: State, d: DocId, hash: string, version: int, modelId: string)
    requires d in s.db.documents
    ensures
      var s' := Next(s, Skip(d, hash, version, modelId));
      d in s'.db.documents && (Indexed(s', d) <==> Indexed(s, d))
  {
    QuietFrame(s, Skip(d, hash, version, modelId));
    hide Next;
  }

  lemma DroppedUnindexed(s: State, d: DocId)
    requires d in s.db.documents && Tracked(s, d, true, true)
    ensures !Indexed(s, d)
  {
  }

  lemma CurrentAtRest(s: State, d: DocId, t: TaskId, strict: bool)
    requires d in s.db.documents && Current(s, d, t, strict) && Quiet(s, d)
    ensures !Indexed(s, d) ==> LastJobFailed(s, d)
    ensures strict && LastJobFailed(s, d) ==> !Indexed(s, d)
  {
    assert !OpenJob(s.db, t, d);
    if !Indexed(s, d) {
      assert s.db.jobs[t].state == Failed;
    }
  }
}
