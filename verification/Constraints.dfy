/** The two UNIQUE constraints of the schema hold in every reachable state, so no
    statement of the modelled transactions is ever refused by them. */
module Constraints {
  import opened Schema
  import opened Documents
  import opened Embeddings
  import opened Pipeline
  import opened Protocol
  import opened Integrity
  import opened Frames
  import opened Atomicity

  /** One logical document per (address, upload). */
  ghost predicate OnePerUpload(db: Db) {
    forall d, d' | d in db.documents && d' in db.documents
      && db.documents[d].addressId == db.documents[d'].addressId
         && db.documents[d].uploadId == db.documents[d'].uploadId ::
      d == d'
  }

  /** No two rows of a version share an ordinal. */
  ghost predicate OrdinalsUnique(db: Db) {
    forall c, c' | c in db.chunks && c' in db.chunks && db.chunks[c].documentId == db.chunks[c'].documentId
      && db.chunks[c].docVersion == db.chunks[c'].docVersion && db.chunks[c].row.ordinal == db.chunks[c'].row.ordinal ::
      c == c'
  }

  lemma UpsertOnePerUpload(db: Db, found: Option<DocId>, address: string, upload: string, hash: string)
    requires OnePerUpload(db) && LookedUp(db, address, upload, found)
    requires forall d | d in db.documents :: d < db.next
    ensures OnePerUpload(Upsert(db, found, address, upload, hash))
  {
  }

  /** A second lookup finds the document the first upload wrote, with its hash: the request is then skipped. */
  lemma ReuploadFindsIt(db: Db, found: Option<DocId>, address: string, upload: string, hash: string,
                        again: Option<DocId>)
    requires OnePerUpload(db) && LookedUp(db, address, upload, found)
    requires forall d | d in db.documents :: d < db.next
    requires LookedUp(Upsert(db, found, address, upload, hash), address, upload, again)
    ensures again == Some(UpsertedId(db, found))
    ensures Upsert(db, found, address, upload, hash).documents[again.value].contentHash == hash
  {
    UpsertOnePerUpload(db, found, address, upload, hash);
    var db' := Upsert(db, found, address, upload, hash);
    assert UpsertedId(db, found) in db'.documents && db'.documents[UpsertedId(db, found)].uploadId == upload;
  }

  ghost predicate RunNumbered(run: Run) {
    match run.pc
    case AtChunking(rows) => Numbered(rows)
    case AtWrite(rows) => Numbered(rows)
    case _ => true
  }

  ghost predicate AllNumbered(s: State) {
    && (forall r | r in s.runs :: RunNumbered(s.runs[r]))
    && (forall key | key in s.hist.written :: Numbered(s.hist.written[key].rows))
  }

  /** Commits change only the live version of a document, and that is all any step changes of one. */
  lemma StepNames(db: Db, run: Run, a: Answer, d: DocId)
    requires d in db.documents
    ensures
      var db' := Proceed(db, run, a).0;
      d in db'.documents && db'.documents[d] == db.documents[d].(liveVersion := db'.documents[d].liveVersion)
  {
    ProceedFrame(db, run, a);
    if !run.pc.AtCommit? {
      hide Proceed;
    }
  }

  lemma StepNumbered(db: Db, run: Run, a: Answer)
    requires RunNumbered(run)
    ensures RunNumbered(run.(pc := Proceed(db, run, a).1))
  {
    hide Lists, ItemsOf, CanEmbed, CanInsert, ByOrdinal, VersionChunks, Numbered;
  }

  lemma NextNumbered(s: State, e: Event)
    requires AllNumbered(s)
    ensures AllNumbered(Next(s, e))
  {
    hide Next, Proceed, Remember, Numbered;
    if e.Go? && e.r in s.runs {
      GoIs(s, e.r, e.a);
      RememberWritten(s.hist, s.db, s.runs[e.r], Proceed(s.db, s.runs[e.r], e.a).1);
    } else if e.Go? {
      IdleGo(s, e);
    } else {
      QuietFrame(s, e);
    }
    forall r | r in Next(s, e).runs ensures RunNumbered(Next(s, e).runs[r]) {
      RunChange(s, e, r);
      if r in s.runs { assert RunNumbered(s.runs[r]); }
      if e.Go? && r in s.runs { StepNumbered(s.db, s.runs[r], e.a); }
    }
  }

  lemma NextOnePerUpload(s: State, e: Event)
    requires Issued(s) && OnePerUpload(s.db)
    ensures OnePerUpload(Next(s, e).db)
  {
    if e.Go? {
      if e.r in s.runs {
        GoIs(s, e.r, e.a);
        ProceedFrame(s.db, s.runs[e.r], e.a);
        hide Next, Proceed, Remember;
        forall d | d in s.db.documents
          ensures d in Next(s, e).db.documents
            && Next(s, e).db.documents[d] == s.db.documents[d].(liveVersion := Next(s, e).db.documents[d].liveVersion)
        {
          StepNames(s.db, s.runs[e.r], e.a, d);
        }
      }
    } else if e.Upload? {
      if LookedUp(s.db, e.addressId, e.uploadId, e.found) {
        UpsertOnePerUpload(s.db, e.found, e.addressId, e.uploadId, e.hash);
        hide Upsert, LookedUp, UploadSpec, OnePerUpload;
        var db := Upsert(s.db, e.found, e.addressId, e.uploadId, e.hash);
        assert Next(s, e).db == db.(next := db.next + 1);
        SameDocuments(db, Next(s, e).db);
      }
    } else if e.Delete? {
      assert forall d | d in Next(s, e).db.documents ::
              && d in s.db.documents
              && Next(s, e).db.documents[d] == s.db.documents[d];
      hide Next, DeleteDocument;
    } else {
      QuietFrame(s, e);
      hide Next;
    }
  }

  lemma SameDocuments(a: Db, b: Db)
    requires a.documents == b.documents && OnePerUpload(a)
    ensures OnePerUpload(b)
  {
  }

  lemma {:induction false} ExecConstraints(es: seq<Event>)
    ensures OnePerUpload(Exec(INIT, es).db) && AllNumbered(Exec(INIT, es))
  {
    if es != [] {
      hide Next, Sound, Exec, OnePerUpload, AllNumbered, Issued;
      var front := es[..|es| - 1];
      ExecSplit(INIT, es);
      ExecSound(front);
      SoundIssued(Exec(INIT, front));
      ExecConstraints(front);
      NextOnePerUpload(Exec(INIT, front), es[|es| - 1]);
      NextNumbered(Exec(INIT, front), es[|es| - 1]);
    }
  }

  /** Under every interleaving both constraints hold. */
  lemma ConstraintsHold(es: seq<Event>)
    ensures OnePerUpload(Exec(INIT, es).db) && OrdinalsUnique(Exec(INIT, es).db)
  {
    hide Exec, Whole, OnePerUpload, AllNumbered;
    var s := Exec(INIT, es);
    ExecConstraints(es);
    ExecWhole(es);
    forall c, c' | c in s.db.chunks && c' in s.db.chunks && s.db.chunks[c].documentId == s.db.chunks[c'].documentId
      && s.db.chunks[c].docVersion == s.db.chunks[c'].docVersion
         && s.db.chunks[c].row.ordinal == s.db.chunks[c'].row.ordinal
      ensures c == c'
    {
      OrdinalOf(s, c);
      OrdinalOf(s, c');
    }
  }

  /** A row's ordinal is its place in the write it comes from. */
  lemma OrdinalOf(s: State, c: ChunkId)
    requires Whole(s.db, s.hist) && AllNumbered(s) && c in s.db.chunks
    ensures
      var key := (Some(s.db.chunks[c].documentId), s.db.chunks[c].docVersion);
      key in s.hist.written && s.db.chunks[c].row.ordinal == c - s.hist.written[key].first
  {
    assert WholeAt(s.db, s.hist, c);
  }
}
