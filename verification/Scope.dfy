/** What a rebuild of one address, or of all, has embedded when it is done, and what it makes active. */
module Scope {
  import opened Schema
  import opened Embeddings
  import opened Pipeline
  import opened Protocol
  import opened Integrity
  import opened Coverage
  import opened Resume

  /** Under every interleaving: when a rebuild has come to its `mark_done`, every chunk that was at the live
      version of its document at the sweep query, belongs to the address of the scope, or to any for "*", and
      still exists, has a vector in the table of the rebuild's model. */
  lemma ScopeIsCovered(es: seq<Event>, r: RunId) returns (sweep: nat)
    requires r in Exec(INIT, es).runs && Exec(INIT, es).runs[r].pc.AtDone?
    requires Exec(INIT, es).runs[r].job.spec.jobType == Rebuild
    ensures sweep < |es| && Sweeps(es, sweep, r)
    ensures
      var past, db := Exec(INIT, es[..sweep]).db, Exec(INIT, es).db;
      var spec := Exec(INIT, es).runs[r].job.spec;
      forall c | c in past.chunks && c in db.chunks && past.chunks[c].documentId in past.documents
                 && past.documents[past.chunks[c].documentId].liveVersion == past.chunks[c].docVersion
                 && (spec.addressId == "*" || spec.addressId == past.chunks[c].addressId) ::
        spec.modelId in db.tables && c in db.tables[spec.modelId]
  {
    hide Exec, Sweeps, Sound;
    sweep := SweepBehind(es, r);
  }

  // ---- the active model ---------------------------------------------------------------------

  /** Event `i` makes the model of run `r` the active one. */
  predicate Activates(es: seq<Event>, i: nat, r: RunId, m: string) {
    && i < |es| && es[i].Go? && es[i].r == r
    && r in Exec(INIT, es[..i]).runs && Exec(INIT, es[..i]).runs[r].pc.AtActivate?
    && Exec(INIT, es[..i + 1]).db.active == Some(m)
  }

  /** Under every interleaving: a global rebuild at its `mark_done` has made its model active. (A scoped one
      never does: `PointerMoves`.) */
  lemma {:induction false} GlobalActivates(es: seq<Event>, r: RunId) returns (i: nat)
    requires r in Exec(INIT, es).runs && Exec(INIT, es).runs[r].pc.AtDone?
    requires
      var spec := Exec(INIT, es).runs[r].job.spec;
      spec.jobType == Rebuild && spec.addressId == "*"
    ensures Activates(es, i, r, Exec(INIT, es).runs[r].job.spec.modelId)
  {
    NoRunAtFirst(es, r);
    var front, e := es[..|es| - 1], es[|es| - 1];
    var s := Exec(INIT, front);
    hide Exec, Next, Sound, Activates, Proceed;
    ExecSplit(INIT, es);
    ExecSound(front);
    RunChange(s, e, r);
    OwnProgram(s, r);
    if e.Go? && e.r == r {
      DoneAfterActivate(s.db, s.runs[r], e.a);
      ActivateStep(s, r, e.a);
      ActivatesNow(es, r);
      return |front|;
    }
    i := GlobalActivates(front, r);
    ActivatesLater(es, i, r, s.runs[r].job.spec.modelId);
  }

  lemma NoRunAtFirst(es: seq<Event>, r: RunId)
    requires r in Exec(INIT, es).runs
    ensures es != []
  {
  }

  lemma DoneAfterActivate(db: Db, run: Run, a: Answer)
    requires Proceed(db, run, a).1.AtDone? && run.job.spec.addressId == "*"
    requires IsIngestPc(run.pc) ==> run.job.spec.jobType == Ingest
    requires run.job.spec.jobType == Rebuild
    ensures run.pc.AtActivate?
  {
    hide Lists, ItemsOf, Missing, CanEmbed;
  }

  lemma ActivatesNow(es: seq<Event>, r: RunId)
    requires es != [] && es[|es| - 1].Go? && es[|es| - 1].r == r
    requires r in Exec(INIT, es[..|es| - 1]).runs && Exec(INIT, es[..|es| - 1]).runs[r].pc.AtActivate?
    requires
      Exec(INIT, es).db == Exec(INIT, es[..|es| - 1]).db.(active := Exec(INIT, es).db.active)
    ensures Exec(INIT, es).db.active.Some? ==> Activates(es, |es| - 1, r, Exec(INIT, es).db.active.value)
  {
    hide Exec;
    assert es[..|es| - 1 + 1] == es;
  }

  lemma ActivatesLater(es: seq<Event>, i: nat, r: RunId, m: string)
    requires es != [] && Activates(es[..|es| - 1], i, r, m)
    ensures Activates(es, i, r, m)
  {
    hide Exec;
    var front := es[..|es| - 1];
    assert front[..i] == es[..i] && front[..i + 1] == es[..i + 1];
  }

  /** Start-up makes the configured model active, with a table for it, unless one is active already. */
  lemma StartUpActivates(s: State, m: string)
    ensures
      var s' := Next(s, Seed(m));
      && s'.db.active == (if s.db.active.Some? then s.db.active else Some(m))
      && (s.db.active.None? ==> m in s'.db.tables)
      && (forall k, c :: HasVector(s'.db, k, c) <==> HasVector(s.db, k, c))
      && s'.db.documents == s.db.documents && s'.db.chunks == s.db.chunks && s'.db.jobs == s.db.jobs
  {
  }

  // ---- undisturbed --------------------------------------------------------------------------

  /** Chunk `c` is live, and of the address of the scope, or of any for "*". */
  predicate Wanted(db: Db, scope: string, c: ChunkId) {
    && c in db.chunks && db.chunks[c].documentId in db.documents
    && db.documents[db.chunks[c].documentId].liveVersion == db.chunks[c].docVersion
    && (scope == "*" || db.chunks[c].addressId == scope)
  }

  predicate HasVector(db: Db, m: string, c: ChunkId) {
    m in db.tables && c in db.tables[m]
  }

  /** A rebuild on its own that has come to its `mark_done`: exactly the wanted chunks have got a vector that had
      none, every one of them the vector of its text, and the others have what they had. */
  lemma RebuildEmbedsWanted(db: Db, r: RunId, run: Run, answers: Answers, n: nat, c: ChunkId)
    requires DbSound(db) && RunSound(db, r, run) && run.job.spec.jobType == Rebuild && run.pc.AtEnsure?
    requires Solo(db, run, answers, n).1.pc.AtDone?
    ensures
      var db' := Solo(db, run, answers, n).0;
      var m := run.job.spec.modelId;
      && db'.chunks == db.chunks && db'.documents == db.documents
      && (HasVector(db', m, c) <==> HasVector(db, m, c) || Wanted(db, run.job.spec.addressId, c))
      && (HasVector(db', m, c) && !HasVector(db, m, c) ==>
            && db'.tables[m][c].vector == VectorOf(m, db.chunks[c].row.text)
            && db'.tables[m][c].addressId == db.chunks[c].addressId)
      && (HasVector(db, m, c) ==> db'.tables[m][c] == db.tables[m][c])
      && (forall k | k in db.tables && k != m :: k in db'.tables && db'.tables[k] == db.tables[k])
  {
    hide Solo, Filled, DbSound, RunSound, Backfilled, Missing, Wanted;
    RebuildAlone(db, r, run, answers, n);
    BackfilledRow(db, run.job.spec.modelId, run.job.spec.addressId, c);
  }

  lemma BackfilledRow(db: Db, m: string, scope: string, c: ChunkId)
    ensures
      var table := Backfilled(db, m, scope);
      && (c in table <==> HasVector(db, m, c) || Wanted(db, scope, c))
      && (HasVector(db, m, c) ==> table[c] == db.tables[m][c])
      && (c in table && !HasVector(db, m, c) ==>
            c in db.chunks && table[c] == EmbeddingRow(db.chunks[c].addressId, m, VectorOf(m, db.chunks[c].row.text)))
  {
  }

  /** Whatever the database, and however far its calls got: a rebuild changes no vector that is stored. */
  lemma {:induction false} RebuildKeepsRows(db: Db, run: Run, answers: Answers, n: nat, m: string, c: ChunkId)
    requires !IsIngestPc(run.pc) && HasVector(db, m, c)
    ensures
      var (db', run') := Solo(db, run, answers, n);
      !IsIngestPc(run'.pc) && HasVector(db', m, c) && db'.tables[m][c] == db.tables[m][c]
  {
    hide Proceed, IsIngestPc;
    if n > 0 {
      RebuildKeepsRows(db, run, answers, n - 1, m, c);
      var (mid, at) := Solo(db, run, answers, n - 1);
      StepKeepsRow(mid, at, answers(n - 1), m, c);
    }
  }

  lemma StepKeepsRow(db: Db, run: Run, a: Answer, m: string, c: ChunkId)
    requires !IsIngestPc(run.pc) && HasVector(db, m, c)
    ensures
      var (db', pc) := Proceed(db, run, a);
      !IsIngestPc(pc) && HasVector(db', m, c) && db'.tables[m][c] == db.tables[m][c]
  {
    if run.pc.AtFill? && m == run.job.spec.modelId && run.pc.pos <= BatchEnd(run.pc.items, run.pc.pos) {
      InsertKeepsRow(db.tables[m], m, run.pc.items[run.pc.pos..BatchEnd(run.pc.items, run.pc.pos)], c);
    }
    hide Lists, ItemsOf, Missing, CanEmbed, InsertAll;
  }

  lemma {:induction false} InsertKeepsRow(table: map<ChunkId, EmbeddingRow>, m: string, items: seq<Item>, c: ChunkId)
    requires c in table
    ensures
      var table' := InsertAll(table, m, items, DoNothing);
      c in table' && table'[c] == table[c]
  {
    if items != [] { InsertKeepsRow(table, m, items[..|items| - 1], c); }
  }

  /** And it has made its model active exactly if its scope is "*". */
  lemma {:induction false} RebuildActivates(db: Db, r: RunId, run: Run, answers: Answers, n: nat)
    requires DbSound(db) && RunSound(db, r, run) && run.job.spec.jobType == Rebuild && run.pc.AtEnsure?
    ensures
      var (db', run') := Solo(db, run, answers, n);
      var spec := run.job.spec;
      && (run'.pc.AtDone? && spec.addressId == "*" ==> db'.active == Some(spec.modelId))
      && (spec.addressId != "*" || (run'.pc.AtEnsure? || IsRebuildPc(run'.pc)) ==> db'.active == db.active)
  {
    hide Proceed, DbSound, RunSound, Alone;
    if n > 0 {
      var (mid, at) := Solo(db, run, answers, n - 1);
      RebuildActivates(db, r, run, answers, n - 1);
      SoloAlone(db, r, run, answers, n - 1);
      AloneProgram(db, r, mid, at, Filled(db, run, answers, n - 1));
      PointerAfter(mid, at, answers(n - 1));
    }
  }

  lemma AloneProgram(db0: Db, r: RunId, db: Db, run: Run, filled: nat)
    requires Alone(db0, r, db, run, filled)
    ensures !IsIngestPc(run.pc) && (run.pc.AtActivate? ==> run.job.spec.addressId == "*")
  {
  }

  lemma PointerAfter(db: Db, run: Run, a: Answer)
    requires !IsIngestPc(run.pc)
    ensures
      var (db', pc) := Proceed(db, run, a);
      && db'.active == (if run.pc.AtActivate? then Some(run.job.spec.modelId) else db.active)
      && (IsRebuildPc(pc) ==> IsRebuildPc(run.pc) && !run.pc.AtActivate?)
      && (pc.AtDone? && run.job.spec.addressId == "*" ==> run.pc.AtActivate?)
  {
    hide Lists, ItemsOf, Missing, CanEmbed, InsertAll;
  }
}
