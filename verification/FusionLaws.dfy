/** A fused ranking exists, and what every one of them guarantees. */
module FusionLaws {
  import opened Schema
  import opened Fusion
  import opened Sets

  // ---- a fusion exists ------------------------------------------------------------------------

  predicate Sorted(vec: Ranking, fts: Ranking, rrfK: nat, r: Ranking) {
    forall i, j | 0 <= i <= j < |r| :: ScoreAt(vec, fts, rrfK, r, i) >= ScoreAt(vec, fts, rrfK, r, j)
  }

  function Insert(vec: Ranking, fts: Ranking, rrfK: nat, r: Ranking, c: ChunkId): Ranking {
    if r == [] || Score(vec, fts, rrfK, c) >= Score(vec, fts, rrfK, r[0]) then [c] + r
    else [r[0]] + Insert(vec, fts, rrfK, r[1..], c)
  }

  lemma {:induction false} InsertHolds(vec: Ranking, fts: Ranking, rrfK: nat, r: Ranking, c: ChunkId)
    ensures var r' := Insert(vec, fts, rrfK, r, c);
      |r'| == |r| + 1 && forall x :: x in r' <==> x == c || x in r
  {
    hide Score;
    if r != [] && !(Score(vec, fts, rrfK, c) >= Score(vec, fts, rrfK, r[0])) {
      InsertHolds(vec, fts, rrfK, r[1..], c);
      assert r == [r[0]] + r[1..];
    }
  }

  lemma {:induction false} InsertSorted(vec: Ranking, fts: Ranking, rrfK: nat, r: Ranking, c: ChunkId)
    requires Sorted(vec, fts, rrfK, r)
    ensures Sorted(vec, fts, rrfK, Insert(vec, fts, rrfK, r, c))
  {
    hide Score;
    if r != [] && !(Score(vec, fts, rrfK, c) >= Score(vec, fts, rrfK, r[0])) {
      assert forall i | 0 <= i < |r[1..]| :: ScoreAt(vec, fts, rrfK, r[1..], i) == ScoreAt(vec, fts, rrfK, r, i + 1);
      InsertSorted(vec, fts, rrfK, r[1..], c);
      InsertHolds(vec, fts, rrfK, r[1..], c);
      PrependSorted(vec, fts, rrfK, r[0], Insert(vec, fts, rrfK, r[1..], c), r, c);
    } else if r != [] {
      var r' := [c] + r;
      forall i, j | 0 <= i <= j < |r'| ensures ScoreAt(vec, fts, rrfK, r', i) >= ScoreAt(vec, fts, rrfK, r', j) {
        if i > 0 {
          assert ScoreAt(vec, fts, rrfK, r, i - 1) >= ScoreAt(vec, fts, rrfK, r, j - 1);
        } else if j > 0 {
          assert ScoreAt(vec, fts, rrfK, r, 0) >= ScoreAt(vec, fts, rrfK, r, j - 1);
        }
      }
    }
  }

  lemma PrependSorted(vec: Ranking, fts: Ranking, rrfK: nat, x: ChunkId, tail: Ranking, r: Ranking, c: ChunkId)
    requires Sorted(vec, fts, rrfK, tail) && Sorted(vec, fts, rrfK, r) && r != [] && r[0] == x
    requires forall y | y in tail :: y == c || y in r[1..]
    requires Score(vec, fts, rrfK, c) < Score(vec, fts, rrfK, x)
    ensures Sorted(vec, fts, rrfK, [x] + tail)
  {
    hide Score;
    var r' := [x] + tail;
    forall i, j | 0 <= i <= j < |r'| ensures ScoreAt(vec, fts, rrfK, r', i) >= ScoreAt(vec, fts, rrfK, r', j) {
      if i > 0 {
        assert ScoreAt(vec, fts, rrfK, tail, i - 1) >= ScoreAt(vec, fts, rrfK, tail, j - 1);
      } else if j > 0 && tail[j - 1] != c {
        assert tail[j - 1] in tail;
        var k :| 0 <= k < |r[1..]| && r[1..][k] == tail[j - 1];
        assert ScoreAt(vec, fts, rrfK, r, 0) >= ScoreAt(vec, fts, rrfK, r, k + 1);
      }
    }
  }

  /** The chunks of `more` inserted by score into the result so far, each once. */
  function Gather(vec: Ranking, fts: Ranking, rrfK: nat, more: Ranking, r: Ranking): Ranking {
    if more == [] then r
    else if more[0] in r then Gather(vec, fts, rrfK, more[1..], r)
    else Gather(vec, fts, rrfK, more[1..], Insert(vec, fts, rrfK, r, more[0]))
  }

  function Elements(r: Ranking): set<ChunkId> {
    set c | c in r
  }

  lemma GatherStep(vec: Ranking, fts: Ranking, rrfK: nat, more: Ranking, r: Ranking) returns (r': Ranking)
    requires Sorted(vec, fts, rrfK, r) && |r| == |Elements(r)| && more != []
    ensures Gather(vec, fts, rrfK, more, r) == Gather(vec, fts, rrfK, more[1..], r')
    ensures Sorted(vec, fts, rrfK, r') && |r'| == |Elements(r')| && Elements(r') == Elements(r) + {more[0]}
  {
    hide Score, Sorted, Insert;
    r' := r;
    if more[0] !in r {
      r' := Insert(vec, fts, rrfK, r, more[0]);
      InsertHolds(vec, fts, rrfK, r, more[0]);
      InsertSorted(vec, fts, rrfK, r, more[0]);
      assert Elements(r') == Elements(r) + {more[0]};
      AddOne(more[0], Elements(r));
    } else {
      assert Elements(r) == Elements(r) + {more[0]};
    }
  }

  lemma FirstElement(r: Ranking)
    requires r != []
    ensures Elements(r) == {r[0]} + Elements(r[1..])
  {
    assert r == [r[0]] + r[1..];
  }

  lemma {:induction false} GatherHolds(vec: Ranking, fts: Ranking, rrfK: nat, more: Ranking, r: Ranking)
    requires Sorted(vec, fts, rrfK, r) && |r| == |Elements(r)|
    ensures var r' := Gather(vec, fts, rrfK, more, r);
      && Sorted(vec, fts, rrfK, r') && Elements(r') == Elements(r) + Elements(more) && |r'| == |Elements(r')|
    decreases |more|
  {
    if more == [] {
      assert Elements(more) == {};
    } else {
      hide Score, Sorted, Gather, Elements;
      FirstElement(more);
      var r' := GatherStep(vec, fts, rrfK, more, r);
      GatherHolds(vec, fts, rrfK, more[1..], r');
    }
  }

  lemma {:induction false} CountedOnce(r: Ranking)
    requires |r| == |Elements(r)|
    ensures Distinct(r)
  {
    if r != [] {
      var rest := r[1..];
      FirstElement(r);
      ElementsAtMost(rest);
      AddOne(r[0], Elements(rest));
      CountedOnce(rest);
      PrependDistinct(r[0], rest);
      assert r == [r[0]] + rest;
    }
  }

  lemma AddOne(x: ChunkId, xs: set<ChunkId>)
    ensures |{x} + xs| == |xs| + if x in xs then 0 else 1
  {
    if x in xs { assert {x} + xs == xs; }
  }

  lemma PrependDistinct(x: ChunkId, r: Ranking)
    requires Distinct(r) && x !in r
    ensures Distinct([x] + r)
  {
  }

  lemma {:induction false} ElementsAtMost(r: Ranking)
    ensures |Elements(r)| <= |r|
  {
    if r != [] {
      assert r == [r[0]] + r[1..];
      assert Elements(r) == {r[0]} + Elements(r[1..]);
      ElementsAtMost(r[1..]);
    }
  }

  /** One fused ranking: all found chunks by score, cut to `k`. */
  function Fuse(vec: Ranking, fts: Ranking, k: nat, rrfK: nat): Ranking {
    Cut(Gather(vec, fts, rrfK, vec + fts, []), k)
  }

  lemma FuseIsFusion(vec: Ranking, fts: Ranking, k: nat, rrfK: nat)
    ensures IsFusion(Fuse(vec, fts, k, rrfK), vec, fts, k, rrfK)
  {
    hide Score;
    var all := Gather(vec, fts, rrfK, vec + fts, []);
    assert Elements([]) == {};
    GatherHolds(vec, fts, rrfK, vec + fts, []);
    assert Elements(all) == Union(vec, fts);
    CountedOnce(all);
    CutSorted(vec, fts, rrfK, all, k);
  }

  lemma CutSorted(vec: Ranking, fts: Ranking, rrfK: nat, all: Ranking, k: nat)
    requires Sorted(vec, fts, rrfK, all) && Distinct(all) && Elements(all) == Union(vec, fts)
    requires |all| == |Union(vec, fts)|
    ensures IsFusion(Cut(all, k), vec, fts, k, rrfK)
  {
    hide Score;
    var r := Cut(all, k);
    assert forall c :: c in Union(vec, fts) <==> Found(vec, fts, c);
    assert forall c :: c in Elements(all) <==> c in all;
    forall c, i | Found(vec, fts, c) && c !in r && 0 <= i < |r|
      ensures ScoreAt(vec, fts, rrfK, r, i) >= Score(vec, fts, rrfK, c)
    {
      assert c in all;
      var j :| 0 <= j < |all| && all[j] == c;
      assert i < j;
      assert ScoreAt(vec, fts, rrfK, all, i) >= ScoreAt(vec, fts, rrfK, all, j);
    }
    forall i, j | 0 <= i <= j < |r| ensures ScoreAt(vec, fts, rrfK, r, i) >= ScoreAt(vec, fts, rrfK, r, j) {
      assert ScoreAt(vec, fts, rrfK, all, i) >= ScoreAt(vec, fts, rrfK, all, j);
    }
    forall i | 0 <= i < |r| ensures Found(vec, fts, r[i]) { assert all[i] in all; }
  }

  // ---- order of the results -----------------------------------------------------------------

  lemma ScoresFall(result: Ranking, vec: Ranking, fts: Ranking, k: nat, rrfK: nat, i: nat, j: nat)
    requires IsFusion(result, vec, fts, k, rrfK) && i < |result| && j < |result|
    ensures i <= j ==> ScoreAt(vec, fts, rrfK, result, i) >= ScoreAt(vec, fts, rrfK, result, j)
  {
    hide ScoreAt;
  }

  /** A found chunk with a strictly higher score than a returned one is returned before it. */
  lemma HigherComesFirst(result: Ranking, vec: Ranking, fts: Ranking, k: nat, rrfK: nat, c: ChunkId, j: nat)
    requires IsFusion(result, vec, fts, k, rrfK) && j < |result| && Found(vec, fts, c)
    requires Score(vec, fts, rrfK, c) > ScoreAt(vec, fts, rrfK, result, j)
    ensures exists i :: 0 <= i < j && result[i] == c
  {
    hide Score;
    assert c in result;
    var i :| 0 <= i < |result| && result[i] == c;
    assert ScoreAt(vec, fts, rrfK, result, i) == Score(vec, fts, rrfK, c);
    ScoresFall(result, vec, fts, k, rrfK, j, i);
  }

  /** No duplicates, as many as there are up to `k`, scores falling and within (0, 2/(rrf_k + 1)]. */
  lemma ResultShape(result: Ranking, vec: Ranking, fts: Ranking, k: nat, rrfK: nat)
    requires Distinct(vec) && Distinct(fts) && IsSearch(result, vec, fts, k, rrfK)
    ensures
      var v, f := Cut(vec, 4 * k), Cut(fts, 4 * k);
      && Distinct(result) && |result| == Min(k, |Union(vec, fts)|)
      && (forall i | 0 <= i < |result| :: 0.0 < ScoreAt(v, f, rrfK, result, i) <= 2.0 * Recip(rrfK + 1))
      && Sorted(v, f, rrfK, result)
  {
    hide Score;
    var v, f := Cut(vec, 4 * k), Cut(fts, 4 * k);
    forall i | 0 <= i < |result| ensures 0.0 < ScoreAt(v, f, rrfK, result, i) <= 2.0 * Recip(rrfK + 1) {
      ScoreRange(v, f, rrfK, result[i]);
    }
    CutKeepsEnough(vec, fts, k);
  }

  lemma {:induction false} DistinctSize(r: Ranking)
    requires Distinct(r)
    ensures |Elements(r)| == |r|
  {
    if r != [] {
      FirstElement(r);
      DistinctSize(r[1..]);
      assert r[0] !in r[1..];
    }
  }

  lemma CutDistinct(r: Ranking, n: nat)
    requires Distinct(r)
    ensures Distinct(Cut(r, n)) && Elements(Cut(r, n)) <= Elements(r)
    ensures |r| <= n ==> Cut(r, n) == r
  {
    forall c | c in Elements(Cut(r, n)) ensures c in Elements(r) {}
  }

  /** The cut leaves at least `k` found chunks if there are as many. */
  lemma CutKeepsEnough(vec: Ranking, fts: Ranking, k: nat)
    requires Distinct(vec) && Distinct(fts)
    ensures Min(k, |Union(Cut(vec, 4 * k), Cut(fts, 4 * k))|) == Min(k, |Union(vec, fts)|)
  {
    var v, f := Cut(vec, 4 * k), Cut(fts, 4 * k);
    CutDistinct(vec, 4 * k);
    CutDistinct(fts, 4 * k);
    hide Elements, Distinct;
    UnionParts(v, f);
    UnionParts(vec, fts);
    SubsetSize(Union(v, f), Union(vec, fts));
    SubsetSize(Elements(v), Union(v, f));
    SubsetSize(Elements(f), Union(v, f));
    DistinctSize(v);
    DistinctSize(f);
  }

  lemma UnionParts(vec: Ranking, fts: Ranking)
    ensures Union(vec, fts) == Elements(vec) + Elements(fts)
  {
  }

  /** If the ranking has `b`, it has `a` before it. */
  predicate NotBehind(r: Ranking, a: ChunkId, b: ChunkId) {
    b in r ==> a in r && Rank(r, a) < Rank(r, b)
  }

  lemma {:induction false} CutRank(r: Ranking, n: nat, c: ChunkId)
    requires c in r
    ensures c in Cut(r, n) <==> Rank(r, c) <= n
    ensures c in Cut(r, n) ==> Rank(Cut(r, n), c) == Rank(r, c)
  {
    hide Cut;
    if n == 0 || n > |r| || r[0] == c {
      CutHead(r, n, c);
    } else {
      CutRank(r[1..], n - 1, c);
      CutTail(r, n, c);
    }
  }

  lemma CutHead(r: Ranking, n: nat, c: ChunkId)
    requires c in r && (n == 0 || n > |r| || r[0] == c)
    ensures c in Cut(r, n) <==> Rank(r, c) <= n
    ensures c in Cut(r, n) ==> Rank(Cut(r, n), c) == Rank(r, c)
  {
    if 0 < n <= |r| { assert Cut(r, n)[0] == c; }
  }

  lemma CutTail(r: Ranking, n: nat, c: ChunkId)
    requires 0 < n <= |r| && r[0] != c
    ensures c in Cut(r, n) <==> c in Cut(r[1..], n - 1)
    ensures c in Cut(r, n) ==> Rank(Cut(r, n), c) == 1 + Rank(Cut(r[1..], n - 1), c)
  {
    assert Cut(r, n)[1..] == Cut(r[1..], n - 1);
    assert c in Cut(r, n) ==> c in Cut(r, n)[1..];
  }

  /** The cut keeps the order of two chunks. */
  lemma CutNotBehind(r: Ranking, n: nat, a: ChunkId, b: ChunkId)
    requires NotBehind(r, a, b)
    ensures NotBehind(Cut(r, n), a, b)
  {
    hide Cut, Rank;
    if b in Cut(r, n) {
      InCutInRanking(r, n, b);
      CutRank(r, n, a);
      CutRank(r, n, b);
    }
  }

  lemma InCutInRanking(r: Ranking, n: nat, c: ChunkId)
    requires c in Cut(r, n)
    ensures c in r
  {
  }

  /** What `a` gets from a ranking in which it is not behind `b`. */
  lemma PartNotBehind(r: Ranking, rrfK: nat, a: ChunkId, b: ChunkId)
    requires NotBehind(r, a, b)
    ensures Part(r, rrfK, a) >= Part(r, rrfK, b)
    ensures b in r ==> Part(r, rrfK, a) > Part(r, rrfK, b)
  {
    if a in r { RecipTimes(Rank(r, a) + rrfK); }
    if b in r { RecipLess(Rank(r, a) + rrfK, Rank(r, b) + rrfK); }
  }

  /** A chunk that in each ranking is ahead of another wherever that one is found at all, before the cut,
      stays ahead: ahead in both, or ahead in one while the other ranking has neither or only it. */
  lemma AheadStaysAhead(result: Ranking, vec: Ranking, fts: Ranking, k: nat, rrfK: nat, a: ChunkId, b: ChunkId, j: nat)
    requires IsSearch(result, vec, fts, k, rrfK) && j < |result| && result[j] == b
    requires NotBehind(vec, a, b) && NotBehind(fts, a, b)
    ensures exists i :: 0 <= i < j && result[i] == a
  {
    var v, f := Cut(vec, 4 * k), Cut(fts, 4 * k);
    CutNotBehind(vec, 4 * k, a, b);
    CutNotBehind(fts, 4 * k, a, b);
    hide Cut;
    assert Found(v, f, result[j]);
    PartNotBehind(v, rrfK, a, b);
    PartNotBehind(f, rrfK, a, b);
    HigherComesFirst(result, v, f, k, rrfK, a, j);
  }

  lemma NotEarlier(r: Ranking, p: nat, i: nat)
    requires Distinct(r) && i < |r|
    ensures p < i ==> r[p] != r[i]
  {
  }

  lemma {:induction false} VectorOrder(result: Ranking, v: Ranking, k: nat, rrfK: nat, i: nat)
    requires IsFusion(result, v, [], k, rrfK) && Distinct(v) && i < |result| && |result| <= |v|
    ensures forall j | 0 <= j <= i :: result[j] == v[j]
  {
    if i > 0 { VectorOrder(result, v, k, rrfK, i - 1); }
    assert Found(v, [], result[i]);
    var p := Rank(v, result[i]) - 1;
    NotEarlier(result, p, i);
    if p != i {
      RankOf(v, i);
      PartNotBehind(v, rrfK, v[i], result[i]);
      HigherComesFirst(result, v, [], k, rrfK, v[i], i);
    }
  }

  /** Without text matches the search returns the first `k` of the vector order. */
  lemma NoTextMatches(result: Ranking, vec: Ranking, k: nat, rrfK: nat)
    requires Distinct(vec) && IsSearch(result, vec, [], k, rrfK)
    ensures result == Cut(vec, k)
  {
    var v := Cut(vec, 4 * k);
    CutDistinct(vec, 4 * k);
    CutDistinct([], 4 * k);
    ResultShape(result, vec, [], k, rrfK);
    UnionParts(vec, []);
    DistinctSize(vec);
    assert Elements([]) == {};
    assert Cut([], 4 * k) == [];
    forall i | 0 <= i < |result| ensures result[i] == v[i] {
      VectorOrder(result, v, k, rrfK, i);
    }
  }
}
