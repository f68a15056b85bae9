/** Removal is final, whatever is still in flight (F11). */
module Removal {
  import opened Schema
  import opened Protocol
  import opened Integrity

  /** Nothing in the database belongs to document `d`. */
  ghost predicate Gone(db: Db, d: DocId) {
    && d !in db.documents
    && (forall c | c in db.chunks :: db.chunks[c].documentId != d)
    && (forall m, c | m in db.tables && c in db.tables[m] :: c in db.chunks && db.chunks[c].documentId != d)
    && (forall t | t in db.jobs :: db.jobs[t].spec.documentId != Some(d))
  }

  lemma SoundIsGone(s: State, d: DocId)
    requires Sound(s) && d !in s.db.documents
    ensures Gone(s.db, d)
  {
  }

  lemma KeysStayGone(a: Db, b: Db, d: DocId)
    requires Evolves(a, b) && DbSound(b) && d !in a.documents && d < a.next
    ensures d !in b.documents
    ensures forall c | c !in a.chunks && c < a.next :: c !in b.chunks && forall m | m in b.tables :: c !in b.tables[m]
  {
  }

  /** After the delete, no continuation brings back the document, a chunk of it, an embedding
      of such a chunk in any table, or a job; nor is a key of its chunks ever used again. */
  lemma RemovalIsFinal(before: seq<Event>, d: DocId, after: seq<Event>)
    requires d in Exec(INIT, before).db.documents
    ensures
      var s := Exec(INIT, before);
      var s' := Exec(Next(s, Delete(d)), after);
      && Gone(s'.db, d)
      && (forall c | c in s.db.chunks && s.db.chunks[c].documentId == d ::
            c !in s'.db.chunks && forall m | m in s'.db.tables :: c !in s'.db.tables[m])
  {
    var s := Exec(INIT, before);
    ExecSound(before);
    NextSound(s, Delete(d));
    var mid := Next(s, Delete(d));
    ExecEvolves(mid, after);
    var s' := Exec(mid, after);
    assert d !in mid.db.documents && d < mid.db.next;
    assert forall c | c in s.db.chunks && s.db.chunks[c].documentId == d :: c !in mid.db.chunks && c < mid.db.next;
    KeysStayGone(mid.db, s'.db, d);
    hide Evolves, Next;
    SoundIsGone(s', d);
  }

  /** The other documents keep their rows: a delete takes nothing that is not the document's. */
  lemma RemovalIsExact(before: seq<Event>, d: DocId)
    ensures
      var db := Exec(INIT, before).db;
      var db' := Next(Exec(INIT, before), Delete(d)).db;
      && db'.documents == db.documents - {d}
      && (forall c | c in db.chunks && db.chunks[c].documentId != d ::
            && c in db'.chunks && db'.chunks[c] == db.chunks[c]
            && forall m | m in db.tables && c in db.tables[m] ::
                    && c in db'.tables[m]
                    && db'.tables[m][c] == db.tables[m][c])
      && (forall t | t in db.jobs && db.jobs[t].spec.documentId != Some(d) ::
              && t in db'.jobs
              && db'.jobs[t] == db.jobs[t])
  {
  }
}
