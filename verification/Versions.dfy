/** Where the chunks of a document are, and that its live ones are embedded, under the serial discipline. */
module Versions {
  import opened Schema
  import opened Documents
  import opened Pipeline
  import opened Protocol
  import opened Integrity
  import opened Frames
  import opened Status
  import opened Atomicity
  import opened Readers
  import opened Coverage
  import opened Serial
  import opened SerialRuns
  import opened Snapshots

  /** Chunk rows exist at the live version and the next one only. */
  ghost predicate Adjacent(db: Db, d: DocId)
    requires d in db.documents
  {
    forall v, c | IsRow(db, d, v, c) :: v == Live(db, d) || v == Live(db, d) + 1
  }

  /** Every live chunk has a row in the table of the model that committed it. */
  ghost predicate LiveEmbedded(s: State, d: DocId)
    requires d in s.db.documents
  {
    Published(s.db, d) ==>
      && Some(d) in s.hist.committer
      && forall c | IsRow(s.db, d, Live(s.db, d), c) :: InTable(s.db, s.hist.committer[Some(d)], c)
  }

  ghost predicate Placed(s: State) {
    forall d | d in s.db.documents :: Adjacent(s.db, d) && LiveEmbedded(s, d)
  }

  // ---- a step of a run ----------------------------------------------------------------

  lemma RowsAfterWrite(db: Db, r: RunId, run: Run, a: Answer, d: DocId, v: int, c: ChunkId)
    requires KeysIssued(db) && RunSound(db, r, run) && IsRow(Proceed(db, run, a).0, d, v, c)
    ensures IsRow(db, d, v, c) || (run.pc.AtWrite? && run.job.spec.documentId == Some(d)
        && run.job.spec.docVersion == v)
    ensures run.pc.AtCommit? && run.job.spec.documentId == Some(d) ==> v == run.job.spec.docVersion
  {
    if run.pc.AtCommit? {
      OwnDocument(db, r, run);
      hide RunSound;
      assert Proceed(db, run, a).0 == Flip(db, run.job.spec.documentId, run.job.spec.docVersion);
      hide Proceed;
    } else if !Touches(run, d, v) {
      RowsUntouched(db, r, run, a, d, v, c);
    } else {
      hide Proceed;
    }
  }

  lemma StepAdjacent(s: State, r: RunId, a: Answer, d: DocId)
    requires Sound(s) && r in s.runs && d in s.db.documents && Adjacent(s.db, d)
    requires (s.runs[r].job.spec.documentId == Some(d) && OwnsDocument(s, r, d)) || Foreign(s, r, d)
    ensures var db' := Proceed(s.db, s.runs[r], a).0; d in db'.documents && Adjacent(db', d)
  {
    var run := s.runs[r];
    var db' := Proceed(s.db, run, a).0;
    hide Sound, Proceed, KeysIssued, RunSound, DbSound;
    SoundDb(s);
    IssuedKeys(s.db);
    LiveVersionAfter(s.db, run, a, d);
    forall v, c | IsRow(db', d, v, c) ensures v == Live(db', d) || v == Live(db', d) + 1 {
      RowsAfterWrite(s.db, r, run, a, d, v, c);
    }
  }

  lemma StepLiveEmbedded(s: State, r: RunId, a: Answer, d: DocId)
    requires Sound(s) && r in s.runs && d in s.db.documents && LiveEmbedded(s, d) && RunEmbeds(s.db, s.runs[r])
    requires (s.runs[r].job.spec.documentId == Some(d) && OwnsDocument(s, r, d)) || Foreign(s, r, d)
    ensures d in StepRun(s, r, a).db.documents && LiveEmbedded(StepRun(s, r, a), d)
  {
    var run := s.runs[r];
    var s' := StepRun(s, r, a);
    var db' := Proceed(s.db, run, a).0;
    hide Sound, Proceed, KeysIssued, RunSound, DbSound, Remember, Evolves;
    assert s'.db == db';
    SoundDb(s);
    IssuedKeys(s.db);
    LiveVersionAfter(s.db, run, a, d);
    RememberCommitted(s.hist, s.db, run, Proceed(s.db, run, a).1);
    ProceedDbSound(s.db, r, run, a);
    if Published(db', d) {
      var v := Live(db', d);
      var m := s'.hist.committer[Some(d)];
      EvolvesTable(s.db, db', m);
      forall c | IsRow(db', d, v, c) ensures InTable(db', m, c) {
        RowsAfterWrite(s.db, r, run, a, d, v, c);
      }
    }
  }

  lemma StepPlaced(s: State, r: RunId, a: Answer)
    requires Sound(s) && Honest(s) && SerialInv(s) && AllEmbed(s) && Placed(s) && r in s.runs
    ensures Placed(StepRun(s, r, a))
  {
    var s' := StepRun(s, r, a);
    assert s'.db == Proceed(s.db, s.runs[r], a).0;
    hide Sound, Honest, SerialInv, Adjacent, LiveEmbedded, OwnsDocument, Foreign, RunEmbeds, Proceed, StepRun;
    ProceedFrame(s.db, s.runs[r], a);
    forall d | d in s'.db.documents ensures Adjacent(s'.db, d) && LiveEmbedded(s', d) {
      OwnOrForeign(s, r, d);
      StepAdjacent(s, r, a, d);
      StepLiveEmbedded(s, r, a, d);
    }
  }

  lemma QuietPlaced(s: State, e: Event)
    requires Sound(s) && Placed(s) && !e.Go?
    ensures Placed(Next(s, e))
  {
    var s' := Next(s, e);
    hide Next, Sound, Adjacent, LiveEmbedded, Evolves;
    SoundIssued(s);
    NextSound(s, e);
    QuietFrame(s, e);
    forall d | d in s'.db.documents ensures Adjacent(s'.db, d) && LiveEmbedded(s', d) {
      QuietVersions(s, e, d);
      QuietLive(s, e, d);
      if d in s.db.documents {
        forall m { EvolvesTable(s.db, s'.db, m); }
        QuietDocument(s, s', d);
      } else {
        NewPlaced(s', d);
      }
    }
  }

  lemma QuietVersions(s: State, e: Event, d: DocId)
    requires Sound(s) && !e.Go? && d in Next(s, e).db.documents
    ensures forall v, c :: IsRow(Next(s, e).db, d, v, c) ==> IsRow(s.db, d, v, c)
    ensures d !in s.db.documents ==> forall v, c :: !IsRow(Next(s, e).db, d, v, c)
  {
    hide Next, Sound, DbSound;
    QuietFrame(s, e);
    SoundDb(s);
    assert ChunksSound(s.db) by { DbChunks(s.db); }
  }

  lemma DbChunks(db: Db)
    requires DbSound(db)
    ensures ChunksSound(db)
  {
  }

  lemma QuietLive(s: State, e: Event, d: DocId)
    requires Issued(s) && !e.Go? && d in Next(s, e).db.documents
    ensures Live(Next(s, e).db, d) == if d in s.db.documents then Live(s.db, d) else 0
  {
    if e.Delete? {
      assert Next(s, e).db.documents == s.db.documents - {e.d};
    } else {
      LiveKept(s, e);
      hide Next;
    }
  }

  lemma QuietDocument(s: State, s': State, d: DocId)
    requires d in s.db.documents && d in s'.db.documents && Adjacent(s.db, d) && LiveEmbedded(s, d)
    requires Live(s'.db, d) == Live(s.db, d) && s'.hist == s.hist
    requires forall v, c :: IsRow(s'.db, d, v, c) ==> IsRow(s.db, d, v, c)
    requires forall m :: TableKept(s.db, s'.db, m)
    ensures Adjacent(s'.db, d) && LiveEmbedded(s', d)
  {
    assert Some(d) in s.hist.committer ==> TableKept(s.db, s'.db, s.hist.committer[Some(d)]);
  }

  lemma NewPlaced(s: State, d: DocId)
    requires d in s.db.documents && Live(s.db, d) == 0 && forall v, c :: !IsRow(s.db, d, v, c)
    ensures Adjacent(s.db, d) && LiveEmbedded(s, d)
  {
  }

  lemma NextPlaced(s: State, e: Event)
    requires Sound(s) && Honest(s) && SerialInv(s) && AllEmbed(s) && Placed(s)
    ensures Placed(Next(s, e))
  {
    hide Sound, Honest, SerialInv, AllEmbed, Placed;
    if e.Go? {
      if e.r in s.runs { StepPlaced(s, e.r, e.a); }
    } else {
      hide Next;
      QuietPlaced(s, e);
    }
  }

  lemma SeriallyExclusive(s: State, es: seq<Event>)
    requires Guarded(Serially, s, es)
    ensures Guarded(Exclusive, s, es)
  {
    forall i | 0 <= i < |es| ensures Exclusive(Exec(s, es[..i]), es[i]) {
      assert Serially(Exec(s, es[..i]), es[i]);
    }
  }

  lemma {:induction false} ExecPlaced(es: seq<Event>)
    requires Guarded(Serially, INIT, es)
    ensures Placed(Exec(INIT, es))
  {
    if es != [] {
      hide Next, Sound, Honest, SerialInv, Exec, Guarded, Serially, AllEmbed, Placed;
      var front := es[..|es| - 1];
      ExecSplit(INIT, es);
      GuardedFront(Serially, INIT, es);
      SeriallyExclusive(INIT, front);
      ExecSound(front);
      ExecHonest(front);
      ExecSerial(front);
      ExecEmbeds(front);
      ExecPlaced(front);
      NextPlaced(Exec(INIT, front), es[|es| - 1]);
    }
  }

  /** If a document gets new content only once its earlier jobs have ended, and a commit is followed by
      its `mark_done`: the live version is the number of jobs that have committed; chunks exist at the
      live version and the next only; and every live chunk has its vector under the committing model. */
  lemma VersionLaw(es: seq<Event>, d: DocId)
    requires Guarded(Serially, INIT, es) && d in Exec(INIT, es).db.documents
    ensures
      var s := Exec(INIT, es);
      && Live(s.db, d) == |Committed(s.hist, Some(d))|
      && (forall c | c in s.db.chunks && s.db.chunks[c].documentId == d ::
            s.db.chunks[c].docVersion == Live(s.db, d) || s.db.chunks[c].docVersion == Live(s.db, d) + 1)
      && (Live(s.db, d) >= 1 ==> Some(d) in s.hist.committer)
      && (forall c | c in Visible(s.db, d) ::
            && Some(d) in s.hist.committer
            && var m := s.hist.committer[Some(d)];
              InTable(s.db, m, c) && s.db.tables[m][c].vector == VectorOf(m, s.db.chunks[c].row.text))
  {
    var s := Exec(INIT, es);
    hide Exec, Guarded, Sound, SerialInv;
    ExecSound(es);
    ExecSerial(es);
    ExecPlaced(es);
    GetCount(s, d);
    assert Adjacent(s.db, d) && LiveEmbedded(s, d);
    forall c | c in s.db.chunks && s.db.chunks[c].documentId == d
      ensures s.db.chunks[c].docVersion == Live(s.db, d) || s.db.chunks[c].docVersion == Live(s.db, d) + 1
    {
      assert IsRow(s.db, d, s.db.chunks[c].docVersion, c);
    }
    SoundDb(s);
    hide Placed, Adjacent;
    VisibleVectors(s, d);
  }

  lemma VisibleVectors(s: State, d: DocId)
    requires DbSound(s.db) && d in s.db.documents && LiveEmbedded(s, d)
    ensures forall c | c in Visible(s.db, d) ::
      && Some(d) in s.hist.committer
      && var m := s.hist.committer[Some(d)];
        InTable(s.db, m, c) && s.db.tables[m][c].vector == VectorOf(m, s.db.chunks[c].row.text)
  {
    forall c | c in Visible(s.db, d) ensures IsRow(s.db, d, Live(s.db, d), c) && Live(s.db, d) >= 1 { }
  }
}
