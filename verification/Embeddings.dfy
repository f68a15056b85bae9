/** Writes and counts over the per-model embedding tables. */
module Embeddings {
  import opened Schema

  /** A chunk on its way to a provider, with the address its embedding is filed under. */
  datatype Item = Item(id: ChunkId, addressId: string, text: string)

  datatype OnConflict = DoUpdate | DoNothing

  function EnsureTable(db: Db, m: string): Db {
    if m in db.tables then db else db.(tables := db.tables[m := map[]])
  }

  /** One INSERT .. ON CONFLICT. The update leaves the stored address alone. */
  function InsertOne(table: map<ChunkId, EmbeddingRow>, m: string, it: Item, mode: OnConflict)
    : map<ChunkId, EmbeddingRow>
  {
    var v := VectorOf(m, it.text);
    if it.id !in table then table[it.id := EmbeddingRow(it.addressId, m, v)]
    else if mode == DoUpdate then table[it.id := table[it.id].(modelId := m, vector := v)]
    else table
  }

  function InsertAll(table: map<ChunkId, EmbeddingRow>, m: string, items: seq<Item>, mode: OnConflict)
    : map<ChunkId, EmbeddingRow>
  {
    if items == [] then table
    else InsertOne(InsertAll(table, m, items[..|items| - 1], mode), m, items[|items| - 1], mode)
  }

  /** The table exists and every row satisfies the foreign key to the chunks. */
  predicate CanEmbed(db: Db, m: string, items: seq<Item>) {
    m in db.tables && forall i | 0 <= i < |items| :: items[i].id in db.chunks
  }

  function InsertEmbeddings(db: Db, m: string, items: seq<Item>, mode: OnConflict): Db
    requires CanEmbed(db, m, items)
  {
    db.(tables := db.tables[m := InsertAll(db.tables[m], m, items, mode)])
  }

  predicate InScope(scope: string, address: string) {
    scope == "*" || scope == address
  }

  /** Live chunks in scope without a row in the table of `m`. */
  function Missing(db: Db, m: string, scope: string): set<ChunkId> {
    set c | && c in db.chunks && IsLive(db, c) && InScope(scope, db.chunks[c].addressId)
            && !(m in db.tables && c in db.tables[m])
  }

  /** The live chunks of an address. */
  function LiveAt(db: Db, address: string): set<ChunkId> {
    set c | c in db.chunks && IsLive(db, c) && db.chunks[c].addressId == address
  }

  /** The rows the vector branch of the search ranges over, and its examined count. */
  function Examined(db: Db, m: string, address: string): set<ChunkId>
    requires m in db.tables
  {
    set c | c in db.tables[m] && IsLive(db, c) && db.tables[m][c].addressId == address
  }

  lemma {:induction false} InsertAllKeys(table: map<ChunkId, EmbeddingRow>, m: string, items: seq<Item>,
                                         mode: OnConflict)
    ensures forall c | c in table :: c in InsertAll(table, m, items, mode)
    ensures forall i | 0 <= i < |items| :: items[i].id in InsertAll(table, m, items, mode)
    ensures forall c | c in InsertAll(table, m, items, mode) ::
              c in table || exists i :: 0 <= i < |items| && items[i].id == c
  {
    if items != [] {
      var front := items[..|items| - 1];
      InsertAllKeys(table, m, front, mode);
      forall c | c in InsertAll(table, m, items, mode) && c !in table
        ensures exists i :: 0 <= i < |items| && items[i].id == c
      {
        if c in InsertAll(table, m, front, mode) {
          var i :| 0 <= i < |front| && front[i].id == c;
          assert items[i].id == c;
        } else {
          assert items[|items| - 1].id == c;
        }
      }
    }
  }
}
