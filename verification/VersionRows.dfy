/** Exactly when a document version has the rows of its last write, under every interleaving. */
module VersionRows {
  import opened Schema
  import opened Documents
  import opened Pipeline
  import opened Protocol
  import opened Integrity
  import opened Atomicity
  import opened Snapshots

  /** The event writes the rows of (d, v). */
  predicate Writes(s: State, e: Event, d: DocId, v: int) {
    && e.Go? && e.r in s.runs
    && var run := s.runs[e.r];
      && run.pc.AtWrite? && run.job.spec.documentId == Some(d) && run.job.spec.docVersion == v
      && Proceed(s.db, run, e.a).1.AtCount?
  }

  function WrittenBy(s: State, e: Event): Written
    requires e.Go? && e.r in s.runs && s.runs[e.r].pc.AtWrite?
  {
    Written(s.db.next, s.runs[e.r].pc.rows)
  }

  /** The event removes the document or commits another version of it. */
  predicate Drops(s: State, e: Event, d: DocId, v: int) {
    || e == Delete(d)
    || (&& e.Go? && e.r in s.runs
        && var run := s.runs[e.r];
          run.pc.AtCommit? && run.job.spec.documentId == Some(d) && run.job.spec.docVersion != v)
  }

  // ---- one event --------------------------------------------------------------------------

  lemma WriteRows(s: State, e: Event, d: DocId, v: int)
    requires Sound(s) && Whole(s.db, s.hist) && Writes(s, e, d, v)
    ensures
      var s' := Next(s, e);
      && (Some(d), v) in s'.hist.written && s'.hist.written[(Some(d), v)] == WrittenBy(s, e)
      && Exactly(s'.db, d, v, WrittenBy(s, e))
  {
    var run := s.runs[e.r];
    GoIs(s, e.r, e.a);
    RememberWritten(s.hist, s.db, run, Proceed(s.db, run, e.a).1);
    NextWhole(s, e);
    SoundDb(s);
    IssuedKeys(s.db);
    hide Next, Proceed, Remember, Sound, DbSound, RunSound, Whole, Complete, Exactly, KeysIssued;
    WrittenComplete(s.db, s.hist, e.r, run, e.a);
    CompleteIsExact(Next(s, e).db, Next(s, e).hist, d, v);
  }

  lemma DropRows(s: State, e: Event, d: DocId, v: int)
    requires Sound(s) && Drops(s, e, d, v)
    ensures VersionChunks(Next(s, e).db, Some(d), v) == {}
    ensures Next(s, e).hist.written == s.hist.written
  {
    if e.Delete? {
      QuietFrame(s, e);
      hide Next, Sound;
    } else {
      var run := s.runs[e.r];
      GoIs(s, e.r, e.a);
      RememberWritten(s.hist, s.db, run, Proceed(s.db, run, e.a).1);
      CommitOutcome(s.db, run, e.a);
      hide Next, Sound, Proceed, Remember;
    }
  }

  lemma CommitOutcome(db: Db, run: Run, a: Answer)
    requires run.pc.AtCommit?
    ensures Proceed(db, run, a).0 == Flip(db, run.job.spec.documentId, run.job.spec.docVersion)
  {
    hide Flip;
  }

  lemma KeepRows(s: State, e: Event, d: DocId, v: int)
    requires Sound(s) && !Writes(s, e, d, v) && !Drops(s, e, d, v)
    ensures
      var s' := Next(s, e);
      && (forall c :: IsRow(s'.db, d, v, c) <==> IsRow(s.db, d, v, c))
      && (forall c | IsRow(s.db, d, v, c) :: s'.db.chunks[c] == s.db.chunks[c])
      && ((Some(d), v) in s'.hist.written <==> (Some(d), v) in s.hist.written)
      && ((Some(d), v) in s.hist.written ==> s'.hist.written[(Some(d), v)] == s.hist.written[(Some(d), v)])
  {
    hide Sound, Next, Evolves;
    NextSound(s, e);
    RowsIssued(s, d, v);
    ChunksKept(s, e);
    if e.Go? && e.r in s.runs {
      GoKeepsRows(s, e.r, e.a, d, v);
    } else if e.Go? {
      IdleGo(s, e);
    } else {
      QuietFrame(s, e);
      if e.Delete? { OthersKept(s.db, e.d, d, v); }
    }
  }

  lemma RowsIssued(s: State, d: DocId, v: int)
    requires Sound(s)
    ensures forall c | c in s.db.chunks :: c < s.db.next
  {
    SoundDb(s);
    assert KeysIssued(s.db);
    hide Sound, DbSound;
  }

  lemma ChunksKept(s: State, e: Event)
    requires Evolves(s.db, Next(s, e).db)
    ensures forall c | c in Next(s, e).db.chunks && c < s.db.next ::
              c in s.db.chunks && Next(s, e).db.chunks[c] == s.db.chunks[c]
  {
    hide Next;
  }

  lemma OthersKept(db: Db, removed: DocId, d: DocId, v: int)
    requires removed != d
    ensures forall c :: IsRow(DeleteDocument(db, removed), d, v, c) <==> IsRow(db, d, v, c)
  {
  }

  lemma GoKeepsRows(s: State, r: RunId, a: Answer, d: DocId, v: int)
    requires Sound(s) && r in s.runs && !Writes(s, Go(r, a), d, v) && !Drops(s, Go(r, a), d, v)
    ensures
      var s' := Next(s, Go(r, a));
      && (forall c :: IsRow(s'.db, d, v, c) <==> IsRow(s.db, d, v, c))
      && ((Some(d), v) in s'.hist.written <==> (Some(d), v) in s.hist.written)
      && ((Some(d), v) in s.hist.written ==> s'.hist.written[(Some(d), v)] == s.hist.written[(Some(d), v)])
  {
    var run := s.runs[r];
    GoIs(s, r, a);
    RememberWritten(s.hist, s.db, run, Proceed(s.db, run, a).1);
    SoundDb(s);
    IssuedKeys(s.db);
    if run.pc.AtWrite? { WriteOutcome(s.db, run, a); }
    hide Next, Proceed, Remember, Sound, DbSound, RunSound, KeysIssued, Flip, ReplaceChunks;
    if !Touches(run, d, v) {
      forall c ensures IsRow(Next(s, Go(r, a)).db, d, v, c) <==> IsRow(s.db, d, v, c) {
        RowsUntouched(s.db, r, run, a, d, v, c);
      }
    }
  }

  // ---- the law ----------------------------------------------------------------------------

  predicate WritesAt(es: seq<Event>, i: nat, d: DocId, v: int) {
    i < |es| && Writes(Exec(INIT, es[..i]), es[i], d, v)
  }

  predicate DropsAt(es: seq<Event>, i: nat, d: DocId, v: int) {
    i < |es| && Drops(Exec(INIT, es[..i]), es[i], d, v)
  }

  /** Event `i` is the last write of (d, v), and since then no other version of `d` was committed
      and `d` was not removed. */
  ghost predicate Stands(es: seq<Event>, i: nat, d: DocId, v: int) {
    && WritesAt(es, i, d, v)
    && forall j | i < j < |es| :: !WritesAt(es, j, d, v) && !DropsAt(es, j, d, v)
  }

  /** `w` is what event `i` wrote. */
  predicate Wrote(es: seq<Event>, i: nat, d: DocId, v: int, w: Written) {
    WritesAt(es, i, d, v) && w == WrittenBy(Exec(INIT, es[..i]), es[i])
  }

  lemma Earlier(es: seq<Event>, j: nat, d: DocId, v: int)
    requires es != [] && j < |es| - 1
    ensures WritesAt(es, j, d, v) <==> WritesAt(es[..|es| - 1], j, d, v)
    ensures DropsAt(es, j, d, v) <==> DropsAt(es[..|es| - 1], j, d, v)
  {
    hide Exec, Writes, Drops;
    assert es[..|es| - 1][..j] == es[..j];
  }

  lemma Latest(es: seq<Event>, d: DocId, v: int)
    requires es != []
    ensures
      var s, e := Exec(INIT, es[..|es| - 1]), es[|es| - 1];
      && (WritesAt(es, |es| - 1, d, v) <==> Writes(s, e, d, v))
      && (DropsAt(es, |es| - 1, d, v) <==> Drops(s, e, d, v))
  {
    hide Exec, Writes, Drops;
  }

  /** How whether event `i` stands depends on the last event. */
  lemma StandsStep(es: seq<Event>, i: nat, d: DocId, v: int)
    requires es != [] && i < |es| - 1
    ensures
      Stands(es, i, d, v) <==>
        Stands(es[..|es| - 1], i, d, v) && !WritesAt(es, |es| - 1, d, v) && !DropsAt(es, |es| - 1, d, v)
  {
    hide WritesAt, DropsAt;
    var front := es[..|es| - 1];
    Earlier(es, i, d, v);
    forall j: nat | i < j < |es| - 1
      ensures WritesAt(es, j, d, v) <==> WritesAt(es[..|es| - 1], j, d, v)
      ensures DropsAt(es, j, d, v) <==> DropsAt(es[..|es| - 1], j, d, v)
    {
      Earlier(es, j, d, v);
    }
    if Stands(front, i, d, v) && !WritesAt(es, |es| - 1, d, v) && !DropsAt(es, |es| - 1, d, v) {
      forall j: nat | i < j < |es| ensures !WritesAt(es, j, d, v) && !DropsAt(es, j, d, v) {
        if j < |front| { assert !WritesAt(front, j, d, v) && !DropsAt(front, j, d, v); }
      }
    }
    if Stands(es, i, d, v) {
      forall j: nat | i < j < |front| ensures !WritesAt(front, j, d, v) && !DropsAt(front, j, d, v) {
        assert !WritesAt(es, j, d, v) && !DropsAt(es, j, d, v);
      }
    }
  }

  /** The rows of (d, v) at the end of a trace, in terms of the last write that still stands, if one does. */
  ghost predicate Settled(es: seq<Event>, d: DocId, v: int, stands: bool, i: nat) {
    var s := Exec(INIT, es);
    if stands then
      && Stands(es, i, d, v)
      && (Some(d), v) in s.hist.written && Wrote(es, i, d, v, s.hist.written[(Some(d), v)])
      && Exactly(s.db, d, v, s.hist.written[(Some(d), v)])
    else VersionChunks(s.db, Some(d), v) == {} && forall k: nat :: !Stands(es, k, d, v)
  }

  lemma WrittenSettles(es: seq<Event>, d: DocId, v: int)
    requires es != []
    requires var s, e := Exec(INIT, es[..|es| - 1]), es[|es| - 1];
      Sound(s) && Whole(s.db, s.hist) && Writes(s, e, d, v)
    ensures Settled(es, d, v, true, |es| - 1)
  {
    hide Sound, Whole, Exactly;
    WriteRows(Exec(INIT, es[..|es| - 1]), es[|es| - 1], d, v);
    hide Next, Writes;
    Latest(es, d, v);
    ExecSplit(INIT, es);
    hide Exec;
  }

  lemma DroppedSettles(es: seq<Event>, d: DocId, v: int)
    requires es != []
    requires var s, e := Exec(INIT, es[..|es| - 1]), es[|es| - 1]; Sound(s) && Drops(s, e, d, v)
    ensures Settled(es, d, v, false, 0)
  {
    hide Sound, Exec, Next;
    DropRows(Exec(INIT, es[..|es| - 1]), es[|es| - 1], d, v);
    ExecSplit(INIT, es);
    Latest(es, d, v);
    forall k: nat ensures !Stands(es, k, d, v) {
      if k < |es| - 1 { StandsStep(es, k, d, v); } else { NotBoth(es, k, d, v); }
    }
  }

  lemma NotBoth(es: seq<Event>, k: nat, d: DocId, v: int)
    requires es != [] && k >= |es| - 1 && DropsAt(es, |es| - 1, d, v)
    ensures !Stands(es, k, d, v)
  {
    hide Exec, Proceed;
  }

  lemma KeptSettles(es: seq<Event>, d: DocId, v: int, stands: bool, i: nat)
    requires es != [] && Settled(es[..|es| - 1], d, v, stands, i)
    requires var s, e := Exec(INIT, es[..|es| - 1]), es[|es| - 1];
      Sound(s) && !Writes(s, e, d, v) && !Drops(s, e, d, v)
    ensures Settled(es, d, v, stands, i)
  {
    hide Sound, Exec, Next, Writes, Drops, Stands, Wrote, Exactly;
    var front := es[..|es| - 1];
    KeepRows(Exec(INIT, front), es[|es| - 1], d, v);
    ExecSplit(INIT, es);
    Latest(es, d, v);
    if stands {
      var w := Exec(INIT, front).hist.written[(Some(d), v)];
      StandsInside(front, i, d, v);
      StandsStep(es, i, d, v);
      SameWrote(es, i, d, v, w);
      SameExactly(Exec(INIT, front).db, Exec(INIT, es).db, d, v, w);
    } else {
      SameEmpty(Exec(INIT, front).db, Exec(INIT, es).db, d, v);
      forall k: nat ensures !Stands(es, k, d, v) {
        if k < |es| - 1 { StandsStep(es, k, d, v); } else { NotLast(es, k, d, v); }
      }
    }
  }

  lemma StandsInside(es: seq<Event>, i: nat, d: DocId, v: int)
    requires Stands(es, i, d, v)
    ensures i < |es| && WritesAt(es, i, d, v)
  {
  }

  lemma NotLast(es: seq<Event>, k: nat, d: DocId, v: int)
    requires es != [] && k >= |es| - 1 && !WritesAt(es, |es| - 1, d, v)
    ensures !Stands(es, k, d, v)
  {
  }

  lemma SameWrote(es: seq<Event>, i: nat, d: DocId, v: int, w: Written)
    requires es != [] && i < |es| - 1 && Wrote(es[..|es| - 1], i, d, v, w)
    ensures Wrote(es, i, d, v, w)
  {
    assert es[..|es| - 1][..i] == es[..i];
    hide Exec, Proceed;
  }

  lemma SameExactly(db: Db, db': Db, d: DocId, v: int, w: Written)
    requires Exactly(db, d, v, w)
    requires (forall c :: IsRow(db', d, v, c) <==> IsRow(db, d, v, c))
    requires (forall c | IsRow(db', d, v, c) && IsRow(db, d, v, c) :: db'.chunks[c] == db.chunks[c])
    ensures Exactly(db', d, v, w)
  {
    assert forall c :: c in VersionChunks(db', Some(d), v) <==> IsRow(db', d, v, c);
    assert forall c :: c in VersionChunks(db, Some(d), v) <==> IsRow(db, d, v, c);
  }

  lemma SameEmpty(db: Db, db': Db, d: DocId, v: int)
    requires VersionChunks(db, Some(d), v) == {}
    requires forall c :: IsRow(db', d, v, c) <==> IsRow(db, d, v, c)
    ensures VersionChunks(db', Some(d), v) == {}
  {
    forall c ensures c in VersionChunks(db', Some(d), v) <==> c in VersionChunks(db, Some(d), v) {
      assert IsRow(db', d, v, c) <==> IsRow(db, d, v, c);
    }
  }

  lemma NothingSettles(d: DocId, v: int)
    ensures Settled([], d, v, false, 0)
  {
  }

  lemma {:induction false} ExecSettles(es: seq<Event>, d: DocId, v: int) returns (stands: bool, i: nat)
    ensures Settled(es, d, v, stands, i)
  {
    hide Exec, Next, Sound, Whole, Settled, Writes, Drops;
    if es == [] {
      NothingSettles(d, v);
      return false, 0;
    }
    var front, e := es[..|es| - 1], es[|es| - 1];
    stands, i := ExecSettles(front, d, v);
    ExecSound(front);
    ExecWhole(front);
    if Writes(Exec(INIT, front), e, d, v) {
      WrittenSettles(es, d, v);
      return true, |front|;
    }
    if Drops(Exec(INIT, front), e, d, v) {
      DroppedSettles(es, d, v);
      return false, 0;
    }
    KeptSettles(es, d, v, stands, i);
  }

  lemma OneStands(es: seq<Event>, i: nat, k: nat, d: DocId, v: int)
    requires Stands(es, i, d, v) && Stands(es, k, d, v)
    ensures i == k
  {
    hide Exec, Writes, Drops;
  }

  /** Never a mix, under every interleaving and exactly: the rows of (d, v) are those of its last write if since
      then no other version of `d` was committed and `d` was not removed, and otherwise there are none. */
  lemma NeverAMix(es: seq<Event>, d: DocId, v: int)
    ensures
      var s := Exec(INIT, es);
      if exists i: nat :: Stands(es, i, d, v)
      then (Some(d), v) in s.hist.written && Exactly(s.db, d, v, s.hist.written[(Some(d), v)])
      else VersionChunks(s.db, Some(d), v) == {}
    ensures forall i: nat | Stands(es, i, d, v) ::
      (Some(d), v) in Exec(INIT, es).hist.written && Wrote(es, i, d, v, Exec(INIT, es).hist.written[(Some(d), v)])
  {
    hide Exec, Stands, Exactly, Wrote;
    var stands, i := ExecSettles(es, d, v);
    forall k: nat | Stands(es, k, d, v) ensures k == i { if stands { OneStands(es, i, k, d, v); } }
  }

  /** A live document has rows exactly if the last write of its live version stands and was not empty. */
  lemma LiveDocumentHasRows(es: seq<Event>, d: DocId)
    requires d in Exec(INIT, es).db.documents
    ensures
      var s := Exec(INIT, es);
      var v := s.db.documents[d].liveVersion;
      Visible(s.db, d) != {} <==>
        && (Some(d), v) in s.hist.written && s.hist.written[(Some(d), v)].rows != []
        && exists i: nat :: Stands(es, i, d, v)
  {
    hide Exec, Stands;
    var s := Exec(INIT, es);
    var v := s.db.documents[d].liveVersion;
    NeverAMix(es, d, v);
    if exists i: nat :: Stands(es, i, d, v) {
      var w := s.hist.written[(Some(d), v)];
      if w.rows != [] { assert w.first in VersionChunks(s.db, Some(d), v); } else { NoRows(s.db, d, v, w); }
    }
  }

  lemma NoRows(db: Db, d: DocId, v: int, w: Written)
    requires Exactly(db, d, v, w) && w.rows == []
    ensures VersionChunks(db, Some(d), v) == {}
  {
  }
}
