/** Reciprocal-rank fusion of two rankings, over exact reals. */
module Fusion {
  import opened Schema

  type Ranking = seq<ChunkId>

  predicate Distinct(r: Ranking) {
    forall i, j | 0 <= i < j < |r| :: r[i] != r[j]
  }

  /** LIMIT. */
  function Cut(r: Ranking, n: nat): Ranking {
    if n <= |r| then r[..n] else r
  }

  /** The rank of `c`, counted from 1. */
  function Rank(r: Ranking, c: ChunkId): (rank: nat)
    requires c in r
    ensures 1 <= rank <= |r| && r[rank - 1] == c
  {
    if r[0] == c then 1 else 1 + Rank(r[1..], c)
  }

  function Recip(n: nat): real
    requires n > 0
  {
    1.0 / n as real
  }

  /** What one ranking contributes; nothing when the outer join finds no row. */
  function Part(r: Ranking, rrfK: nat, c: ChunkId): real {
    if c in r then Recip(Rank(r, c) + rrfK) else 0.0
  }

  function Score(vec: Ranking, fts: Ranking, rrfK: nat, c: ChunkId): real {
    Part(vec, rrfK, c) + Part(fts, rrfK, c)
  }

  /** Score of entry `i` of a result. */
  function ScoreAt(vec: Ranking, fts: Ranking, rrfK: nat, result: Ranking, i: nat): real
    requires i < |result|
  {
    Score(vec, fts, rrfK, result[i])
  }

  predicate Found(vec: Ranking, fts: Ranking, c: ChunkId) {
    c in vec || c in fts
  }

  function Union(vec: Ranking, fts: Ranking): set<ChunkId> {
    (set c | c in vec) + (set c | c in fts)
  }

  function Min(a: nat, b: nat): nat {
    if a <= b then a else b
  }

  /** ORDER BY score DESC LIMIT k over the full outer join; ties go either way. */
  ghost predicate IsFusion(result: Ranking, vec: Ranking, fts: Ranking, k: nat, rrfK: nat) {
    && Distinct(result)
    && |result| == Min(k, |Union(vec, fts)|)
    && (forall i | 0 <= i < |result| :: Found(vec, fts, result[i]))
    && (forall i, j | 0 <= i <= j < |result| ::
          ScoreAt(vec, fts, rrfK, result, i) >= ScoreAt(vec, fts, rrfK, result, j))
    && (forall c, i | Found(vec, fts, c) && c !in result && 0 <= i < |result| ::
          ScoreAt(vec, fts, rrfK, result, i) >= Score(vec, fts, rrfK, c))
  }

  /** What `hybrid_search` returns, given the two full rankings of the rows its filters allow. */
  ghost predicate IsSearch(result: Ranking, vec: Ranking, fts: Ranking, k: nat, rrfK: nat) {
    IsFusion(result, Cut(vec, 4 * k), Cut(fts, 4 * k), k, rrfK)
  }

  // ---- arithmetic -----------------------------------------------------------------------------

  lemma RecipTimes(n: nat)
    requires n > 0
    ensures Recip(n) > 0.0 && Recip(n) * n as real == 1.0
  {
  }

  lemma Order(u: real, v: real, p: real)
    requires p > 0.0
    ensures u * p < v * p <==> u < v
  {
    if u < v { assert (v - u) * p > 0.0; } else { assert (u - v) * p >= 0.0; }
  }

  lemma Product(x: real, a: real, b: real)
    requires x * a == 1.0
    ensures x * (a * b) == b
  {
    assert x * (a * b) == (x * a) * b;
  }

  lemma RecipLess(a: nat, b: nat)
    requires 0 < a < b
    ensures Recip(b) < Recip(a)
  {
    RecipTimes(a);
    RecipTimes(b);
    Product(Recip(a), a as real, b as real);
    Product(Recip(b), b as real, a as real);
    Order(Recip(b), Recip(a), a as real * b as real);
  }

  lemma TwoRecip(a: nat, b: nat)
    requires a > 0 && b > 0
    ensures 2.0 * Recip(b) < Recip(a) <==> 2 * a < b
  {
    RecipTimes(a);
    RecipTimes(b);
    hide Recip;
    TwoReals(Recip(a), Recip(b), a as real, b as real);
  }

  lemma TwoReals(x: real, y: real, a: real, b: real)
    requires a > 0.0 && b > 0.0 && x * a == 1.0 && y * b == 1.0
    ensures 2.0 * y < x <==> 2.0 * a < b
  {
    Product(x, a, b);
    Product(y, b, a);
    var p := a * b;
    assert p == b * a && p > 0.0;
    Order(2.0 * y, x, p);
    assert 2.0 * y * p == 2.0 * (y * p);
  }

  lemma {:induction false} RankOf(r: Ranking, i: nat)
    requires Distinct(r) && i < |r|
    ensures r[i] in r && Rank(r, r[i]) == i + 1
  {
    if i > 0 {
      assert r[1..][i - 1] == r[i];
      RankOf(r[1..], i - 1);
    }
  }

  /** Ranks further down contribute less; absence contributes nothing. */
  lemma PartBounds(r: Ranking, rrfK: nat, c: ChunkId, best: nat, worst: nat)
    requires c in r ==> best <= Rank(r, c) <= worst
    requires 1 <= best <= worst
    ensures c in r ==> Recip(worst + rrfK) <= Part(r, rrfK, c) <= Recip(best + rrfK)
    ensures 0.0 <= Part(r, rrfK, c) <= Recip(best + rrfK)
    ensures c in r <==> Part(r, rrfK, c) > 0.0
  {
    RecipTimes(best + rrfK);
    if c in r {
      var rank := Rank(r, c);
      RecipTimes(rank + rrfK);
      if best < rank { RecipLess(best + rrfK, rank + rrfK); }
      if rank < worst { RecipLess(rank + rrfK, worst + rrfK); }
    }
  }

  lemma ScoreRange(vec: Ranking, fts: Ranking, rrfK: nat, c: ChunkId)
    ensures 0.0 <= Score(vec, fts, rrfK, c) <= 2.0 * Recip(1 + rrfK)
    ensures Found(vec, fts, c) <==> Score(vec, fts, rrfK, c) > 0.0
  {
    PartBounds(vec, rrfK, c, 1, |vec| + 1);
    PartBounds(fts, rrfK, c, 1, |fts| + 1);
  }
}
