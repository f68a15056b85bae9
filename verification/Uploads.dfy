/** The upload and removal requests, and the one logical document per (address, upload). */
module Uploads {
  import opened Schema
  import opened Tasks
  import opened Documents
  import opened Protocol
  import opened Constraints
  import opened Store

  datatype IngestReply =
    | Accepted(task: TaskId, document: DocId, version: int, state: JobState)
    | EmptyUpload
    | StorageUnavailable

  /** The body of the upload request. `stored` is whether the bytes landed; the model is the active one
      or, without one, the configured one. */
  method IngestDocument(store: Database, data: seq<bv8>, address: string, upload: string, hash: string,
                        stored: bool, configured: string) returns (reply: IngestReply, found: Option<DocId>)
    requires OnePerUpload(store.View())
    modifies store
    ensures data == [] ==> reply == EmptyUpload && store.View() == old(store.View())
    ensures data != [] ==> LookedUp(old(store.View()), address, upload, found)
    ensures data != [] ==>
      var db := old(store.View());
      var model := if db.active.Some? then db.active.value else configured;
      if found.Some? && db.documents[found.value].contentHash == hash then
        var version := db.documents[found.value].liveVersion;
        && reply == Accepted(db.next, found.value, version, Skipped)
        && store.View() == InsertJob(db, Spec(found, address, upload, hash, model, version, Ingest), Skipped)
      else if !stored then reply == StorageUnavailable && store.View() == db
      else
        var d, version := UpsertedId(db, found), NextVersion(db, found);
        var db' := Upsert(db, found, address, upload, hash);
        && reply == Accepted(db'.next, d, version, Pending)
        && store.View() == InsertJob(db', Spec(Some(d), address, upload, hash, model, version, Ingest), Pending)
  {
    found := None;
    if data == [] { return EmptyUpload, None; }
    found := store.GetDocumentByUpload(address, upload);
    var model := if store.active.Some? then store.active.value else configured;
    if found.Some? && store.documents[found.value].contentHash == hash {
      var version := store.documents[found.value].liveVersion;
      var task := store.RecordSkipped(Spec(found, address, upload, hash, model, version, Ingest));
      return Accepted(task.value, found.value, version, Skipped), found;
    }
    if !stored { return StorageUnavailable, found; }
    var again, d, version := store.UpsertDocument(address, upload, hash);
    var task := store.Enqueue(Spec(Some(d), address, upload, hash, model, version, Ingest));
    return Accepted(task.value, d, version, Pending), found;
  }

  /** The body of the removal request. */
  method RemoveDocument(store: Database, d: DocId) returns (deleted: bool)
    modifies store
    ensures deleted <==> d in old(store.documents)
    ensures store.View() == DeleteDocument(old(store.View()), d)
    ensures d !in store.documents && (forall c | c in store.chunks :: store.chunks[c].documentId != d)
    ensures forall t | t in store.jobs :: store.jobs[t].spec.documentId != Some(d)
    ensures forall m, c | m in store.tables && c in store.tables[m] :: c in store.chunks
  {
    deleted := store.DeleteDocument(d);
  }

  // ---- the same as events ---------------------------------------------------------------------

  /** Uninterrupted, the upload request is an `Upload` and an `Enqueue`: the database is the one the request
      leaves, but for the number the protocol files the half-done upload under. */
  lemma UploadIsEvents(s: State, found: Option<DocId>, address: string, upload: string, hash: string, model: string)
    requires LookedUp(s.db, address, upload, found)
    requires forall d | d in s.db.documents :: d < s.db.next
    ensures
      var db := Upsert(s.db, found, address, upload, hash);
      var spec := Spec(Some(UpsertedId(s.db, found)), address, upload, hash, model, NextVersion(s.db, found), Ingest);
      var s' := Next(Next(s, Upload(found, address, upload, hash, model)), Enqueue(db.next));
      && DocumentExists(db, spec.documentId)
      && s'.db == InsertJob(db.(next := db.next + 1), spec, Pending)
      && s'.uploads == s.uploads - {db.next} && s'.runs == s.runs && s'.hist == s.hist
  {
    var db := Upsert(s.db, found, address, upload, hash);
    var s1 := Next(s, Upload(found, address, upload, hash, model));
    assert s1.uploads == s.uploads[db.next := UploadSpec(s.db, Upload(found, address, upload, hash, model))];
    assert s1.db == db.(next := db.next + 1);
    assert s1.uploads - {db.next} == s.uploads - {db.next};
    hide LookedUp;
  }

  /** Unchanged content is a `Skip`. */
  lemma SkipIsEvent(s: State, d: DocId, address: string, upload: string, hash: string, model: string)
    requires LookedUp(s.db, address, upload, Some(d)) && s.db.documents[d].contentHash == hash
    ensures
      var version := s.db.documents[d].liveVersion;
      Next(s, Skip(d, hash, version, model))
        == s.(db := InsertJob(s.db, Spec(Some(d), address, upload, hash, model, version, Ingest), Skipped))
  {
  }
}
