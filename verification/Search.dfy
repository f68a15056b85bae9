/** The search over reachable databases: isolation of addresses, removal, completeness. */
module Search {
  import opened Schema
  import opened Embeddings
  import opened Pipeline
  import opened Protocol
  import opened Integrity
  import opened Removal
  import opened Status
  import opened Flags
  import opened Fusion
  import opened FusionLaws

  /** One search of an address under model `m`. The vector ranking lists the rows its filter on the embedding
      row allows, the text ranking some of the live chunks of the address; how they are ordered is open. */
  ghost predicate Answers(db: Db, m: string, address: string, vec: Ranking, fts: Ranking, k: nat, rrfK: nat,
                          result: Ranking) {
    && m in db.tables
    && Lists(vec, Examined(db, m, address))
    && Distinct(fts) && (forall i | 0 <= i < |fts| :: fts[i] in LiveAt(db, address))
    && IsSearch(result, vec, fts, k, rrfK)
  }

  predicate LiveChunkOf(db: Db, address: string, c: ChunkId) {
    && c in db.chunks && db.chunks[c].addressId == address
    && db.chunks[c].documentId in db.documents
    && db.documents[db.chunks[c].documentId].addressId == address
    && db.documents[db.chunks[c].documentId].liveVersion == db.chunks[c].docVersion
  }

  lemma InCutInAll(r: Ranking, n: nat, c: ChunkId)
    requires c in Cut(r, n)
    ensures c in r
  {
  }

  /** A result entry comes from one of the two rankings. */
  lemma FromRankings(result: Ranking, vec: Ranking, fts: Ranking, k: nat, rrfK: nat, i: nat)
    requires IsSearch(result, vec, fts, k, rrfK) && i < |result|
    ensures result[i] in vec || result[i] in fts
  {
    if result[i] in Cut(vec, 4 * k) {
      InCutInAll(vec, 4 * k, result[i]);
    } else {
      InCutInAll(fts, 4 * k, result[i]);
    }
  }

  lemma ExaminedIsLive(db: Db, m: string, address: string, c: ChunkId)
    requires DbSound(db) && m in db.tables && c in Examined(db, m, address)
    ensures c in LiveAt(db, address)
  {
    ExaminedIsEmbedded(db, m, address);
  }

  lemma LiveAtMeans(db: Db, address: string, c: ChunkId)
    requires DbSound(db) && c in LiveAt(db, address)
    ensures LiveChunkOf(db, address, c)
  {
  }

  /** Under every interleaving: the vector branch ranges over exactly the live chunks of the address that have a
      vector under the model. */
  lemma ExaminedAre(es: seq<Event>, m: string, address: string, c: ChunkId)
    requires m in Exec(INIT, es).db.tables
    ensures
      var db := Exec(INIT, es).db;
      c in Examined(db, m, address) <==> IsLiveOf(db, address, c) && c in db.tables[m]
  {
    ExecSound(es);
    SoundDb(Exec(INIT, es));
    hide Exec, Sound;
  }

  /** Isolation, under every interleaving: whatever the rankings, each returned chunk is a live chunk of the
      address, of a document of the address. */
  lemma SearchIsIsolated(es: seq<Event>, m: string, address: string, vec: Ranking, fts: Ranking, k: nat, rrfK: nat,
                         result: Ranking)
    requires Answers(Exec(INIT, es).db, m, address, vec, fts, k, rrfK, result)
    ensures forall i | 0 <= i < |result| :: LiveChunkOf(Exec(INIT, es).db, address, result[i])
  {
    hide Exec, Sound, LiveAt, Examined, IsSearch, LiveChunkOf;
    var db := Exec(INIT, es).db;
    ExecSound(es);
    SoundDb(Exec(INIT, es));
    hide DbSound;
    forall i | 0 <= i < |result| ensures LiveChunkOf(db, address, result[i]) {
      FromRankings(result, vec, fts, k, rrfK, i);
      if result[i] in vec { ExaminedIsLive(db, m, address, result[i]); }
      LiveAtMeans(db, address, result[i]);
    }
  }

  /** No search after a removal returns a chunk of the document, whatever was in flight. */
  lemma RemovedIsNeverReturned(before: seq<Event>, d: DocId, after: seq<Event>,
                               m: string, address: string, vec: Ranking, fts: Ranking, k: nat, rrfK: nat,
                                   result: Ranking)
    requires d in Exec(INIT, before).db.documents
    requires Answers(Exec(Next(Exec(INIT, before), Delete(d)), after).db, m, address, vec, fts, k, rrfK, result)
    ensures
      var was, db := Exec(INIT, before).db, Exec(Next(Exec(INIT, before), Delete(d)), after).db;
      forall i | 0 <= i < |result| ::
        && result[i] in db.chunks && db.chunks[result[i]].documentId != d
        && !(result[i] in was.chunks && was.chunks[result[i]].documentId == d)
  {
    hide Exec, Next, LiveAt, Examined, IsSearch;
    RemovalIsFinal(before, d, after);
    var db := Exec(Next(Exec(INIT, before), Delete(d)), after).db;
    forall i | 0 <= i < |result| ensures result[i] in db.chunks {
      FromRankings(result, vec, fts, k, rrfK, i);
      ExaminedAreChunks(db, m, address);
    }
  }

  lemma ExaminedAreChunks(db: Db, m: string, address: string)
    requires m in db.tables
    ensures forall c | c in Examined(db, m, address) :: c in db.chunks
    ensures forall c | c in LiveAt(db, address) :: c in db.chunks
  {
  }

  /** A search of a fully indexed address under the active model examines all its live chunks, returns
      `min(k, live chunks)` of them, and all of them once `k` allows. */
  lemma FullyIndexedSearch(es: seq<Event>, address: string, fallback: string,
                           vec: Ranking, fts: Ranking, k: nat, rrfK: nat, result: Ranking)
    requires ReadStatus(Exec(INIT, es).db, address, fallback).fullyIndexed
    requires Answers(Exec(INIT, es).db, ActiveModel(Exec(INIT, es).db, fallback), address, vec, fts, k, rrfK, result)
    ensures
      var db := Exec(INIT, es).db;
      && Examined(db, ActiveModel(db, fallback), address) == LiveAt(db, address)
      && (forall c :: c in LiveAt(db, address) <==> IsLiveOf(db, address, c))
      && |result| == Min(k, |LiveAt(db, address)|)
      && (|LiveAt(db, address)| <= k ==> forall c | c in LiveAt(db, address) :: c in result)
  {
    hide Exec, ReadStatus, LiveAt, Examined, IsSearch, ActiveModel, IsLiveOf;
    var db := Exec(INIT, es).db;
    FullyIndexedIsSound(es, address, fallback);
    LiveAtIs(db, address);
    var live := LiveAt(db, address);
    ListsElements(vec, live);
    UnionParts(vec, fts);
    forall c | c in Elements(fts) ensures c in live {}
    assert Union(vec, fts) == live;
    hide Union, Elements;
    ListDistinct(vec, live);
    ResultShape(result, vec, fts, k, rrfK);
    if |live| <= k {
      forall i | 0 <= i < |result| ensures result[i] in live {
        FromRankings(result, vec, fts, k, rrfK, i);
        InLists(vec, live, result[i]);
      }
      AllOfThem(result, live);
    }
  }

  lemma LiveAtIs(db: Db, address: string)
    ensures forall c :: c in LiveAt(db, address) <==> IsLiveOf(db, address, c)
  {
  }

  lemma InLists(order: Ranking, ids: set<ChunkId>, c: ChunkId)
    requires Lists(order, ids)
    ensures c in order <==> c in ids
  {
  }

  lemma ListsElements(order: Ranking, ids: set<ChunkId>)
    requires Lists(order, ids)
    ensures Elements(order) == ids
  {
  }

  lemma ListDistinct(order: Ranking, ids: set<ChunkId>)
    requires Lists(order, ids)
    ensures Distinct(order)
  {
  }

  lemma AllOfThem(result: Ranking, live: set<ChunkId>)
    requires Distinct(result) && |result| == |live| && forall i | 0 <= i < |result| :: result[i] in live
    ensures forall c | c in live :: c in result
  {
    DistinctSize(result);
    assert Elements(result) <= live;
    if Elements(result) != live {
      assert |live - Elements(result)| == |live| - |Elements(result)|;
    }
    assert forall c | c in live :: c in Elements(result);
  }
}
