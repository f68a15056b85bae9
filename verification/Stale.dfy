/** Exactly when what is live is not the content the document's row names. */
module Stale {
  import opened Schema
  import opened Documents
  import opened Pipeline
  import opened Protocol
  import opened Integrity
  import opened Frames
  import opened Status
  import opened Atomicity
  import opened Readers
  import opened VersionRows
  import opened Contents

  /** The event commits a version of `d`. */
  predicate CommitsOf(s: State, e: Event, d: DocId) {
    e.Go? && e.r in s.runs && s.runs[e.r].pc.AtCommit? && s.runs[e.r].job.spec.documentId == Some(d)
  }

  /** The hash the last commit of `d` carried. */
  function LiveHash(h: History, d: DocId): Option<string> {
    if Some(d) in h.content then Some(h.content[Some(d)]) else None
  }

  // ---- one event --------------------------------------------------------------------------

  lemma HashAfterGo(s: State, r: RunId, a: Answer, d: DocId)
    requires r in s.runs && d in s.db.documents
    ensures
      var s' := Next(s, Go(r, a));
      && d in s'.db.documents && s'.db.documents[d].contentHash == s.db.documents[d].contentHash
      && var spec, commits := s.runs[r].job.spec, CommitsOf(s, Go(r, a), d);
        && LiveHash(s'.hist, d) == (if commits then Some(spec.contentHash) else LiveHash(s.hist, d))
        && s'.db.documents[d].liveVersion == (if commits then spec.docVersion else s.db.documents[d].liveVersion)
  {
    var run := s.runs[r];
    GoIs(s, r, a);
    RememberContent(s.hist, s.db, run, Proceed(s.db, run, a).1);
    LiveVersionAfter(s.db, run, a, d);
    HashesStay(s.db, run, a, d);
    hide Next, Proceed, Remember;
  }

  lemma HashesStay(db: Db, run: Run, a: Answer, d: DocId)
    requires d in db.documents
    ensures d in Proceed(db, run, a).0.documents
    ensures Proceed(db, run, a).0.documents[d].contentHash == db.documents[d].contentHash
  {
    if run.pc.AtCommit? {
      CommitOutcome(db, run, a);
      hide Proceed;
    } else {
      ProceedFrame(db, run, a);
      hide Proceed;
    }
  }

  lemma HashAfterOther(s: State, e: Event, d: DocId)
    requires !e.Go? && d in s.db.documents && d in Next(s, e).db.documents && d < s.db.next
    ensures
      var s' := Next(s, e);
      && LiveHash(s'.hist, d) == LiveHash(s.hist, d)
      && s'.db.documents[d].contentHash == (if Uploads(s, e, d) then e.hash else s.db.documents[d].contentHash)
      && s'.db.documents[d].liveVersion == s.db.documents[d].liveVersion
  {
    QuietFrame(s, e);
    if e.Upload? {
      hide LookedUp, UploadSpec;
    } else {
      hide Next;
    }
  }

  /** The law of one step, under every interleaving: a commit makes the content of `d` indexed exactly if it
      carries the hash of the row, an upload exactly if it brings back what is live, and no other event changes
      whether it is. */
  lemma IndexedStep(s: State, e: Event, d: DocId)
    requires Sound(s) && d in s.db.documents && d in Next(s, e).db.documents
    ensures
      Indexed(Next(s, e), d) <==>
        if CommitsOf(s, e, d) then s.runs[e.r].job.spec.contentHash == s.db.documents[d].contentHash
        else if Uploads(s, e, d) then LiveHash(s.hist, d) == Some(e.hash)
        else Indexed(s, d)
  {
    SoundIssued(s);
    hide Next, Sound;
    if e.Go? {
      if e.r in s.runs { HashAfterGo(s, e.r, e.a, d); } else { IdleGo(s, e); }
    } else {
      HashAfterOther(s, e, d);
    }
  }

  // ---- whole traces -----------------------------------------------------------------------

  /** A live document whose live version was committed with another hash than its row names. */
  predicate IsStale(s: State, d: DocId) {
    Published(s.db, d) && !Indexed(s, d)
  }

  ghost predicate AllCurrent(s: State) {
    forall d :: !IsStale(s, d)
  }

  /** A commit that carries another hash than the row, or an upload that changes a live document's. */
  predicate Stales(s: State, e: Event, d: DocId) {
    && d in s.db.documents
    && var hash := s.db.documents[d].contentHash;
      || (CommitsOf(s, e, d) && s.runs[e.r].job.spec.contentHash != hash)
      || (Uploads(s, e, d) && Published(s.db, d) && e.hash != hash)
  }

  lemma StaleOf(s: State, e: Event, d: DocId)
    requires Sound(s) && !IsStale(s, d)
    ensures IsStale(Next(s, e), d) <==> Stales(s, e, d)
  {
    SoundIssued(s);
    hide Next, Sound;
    if d in s.db.documents && d in Next(s, e).db.documents {
      IndexedStep(s, e, d);
      PublishedStep(s, e, d);
    } else if d in s.db.documents {
      GoneIsDeleted(s, e, d);
    } else {
      NewUnpublished(s, e, d);
    }
  }

  lemma PublishedStep(s: State, e: Event, d: DocId)
    requires Sound(s) && d in s.db.documents && d in Next(s, e).db.documents
    ensures Published(Next(s, e).db, d) <==> CommitsOf(s, e, d) || Published(s.db, d)
  {
    SoundIssued(s);
    SoundDb(s);
    hide Next, Sound;
    if e.Go? {
      if e.r in s.runs {
        HashAfterGo(s, e.r, e.a, d);
        if CommitsOf(s, e, d) { OwnDocument(s.db, e.r, s.runs[e.r]); }
      } else {
        IdleGo(s, e);
      }
    } else {
      HashAfterOther(s, e, d);
    }
  }

  lemma GoneIsDeleted(s: State, e: Event, d: DocId)
    requires Sound(s) && d in s.db.documents && d !in Next(s, e).db.documents
    ensures e == Delete(d)
  {
    hide Sound;
    if e.Go? {
      if e.r in s.runs { DocumentsSame(s, e); }
      hide Next;
    } else {
      QuietFrame(s, e);
      if e.Upload? { hide LookedUp, UploadSpec; } else { hide Next; }
    }
  }

  lemma NewUnpublished(s: State, e: Event, d: DocId)
    requires Sound(s) && d !in s.db.documents
    ensures !Published(Next(s, e).db, d)
  {
    SoundIssued(s);
    hide Sound, Next;
    if e.Go? {
      if e.r in s.runs { DocumentsSame(s, e); } else { IdleGo(s, e); }
    } else if e.Delete? {
      QuietFrame(s, e);
    } else {
      LiveKept(s, e);
    }
  }

  ghost predicate NoStale(s: State, e: Event) {
    forall d :: !Stales(s, e, d)
  }

  lemma CurrentNext(s: State, e: Event)
    requires Sound(s) && AllCurrent(s)
    ensures AllCurrent(Next(s, e)) <==> NoStale(s, e)
  {
    var s' := Next(s, e);
    hide Next, Sound, IsStale, Stales;
    forall d ensures IsStale(s', d) <==> Stales(s, e, d) { StaleOf(s, e, d); }
  }

  ghost function LiveIsCurrent(): State -> bool {
    (s: State) => AllCurrent(s)
  }

  /** The exact condition: along a trace every live document's live version was committed with the hash its row
      names if and only if no commit carries another hash and no upload changes a live document's. */
  lemma AlwaysCurrentIff(es: seq<Event>)
    ensures Always(LiveIsCurrent(), es) <==> Guarded(NoStale, INIT, es)
  {
    var good := LiveIsCurrent();
    assert good(INIT);
    hide Next, Exec, Sound, Guarded, Always, AllCurrent, NoStale;
    forall es, e | good(Exec(INIT, es)) ensures good(Next(Exec(INIT, es), e)) <==> NoStale(Exec(INIT, es), e) {
      ExecSound(es);
      CurrentNext(Exec(INIT, es), e);
    }
    assert StepLaw(good, NoStale);
    AlwaysIff(good, NoStale, es);
  }
}
