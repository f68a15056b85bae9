/** The exact values of `k` and `rrf_k` for which the 4k cut is harmless and for which being
    found twice beats being found once. */
module FusionLimits {
  import opened Schema
  import opened Fusion
  import opened FusionLaws
  import opened Sets

  /** One over `a` against two over `b`. */
  lemma RecipTwo(a: nat, b: nat)
    requires a > 0 && b > 0
    ensures Recip(a) < 2.0 * Recip(b) <==> b < 2 * a
  {
    RecipTimes(a);
    RecipTimes(b);
    hide Recip;
    RealsTwo(Recip(a), Recip(b), a as real, b as real);
  }

  lemma RealsTwo(x: real, y: real, a: real, b: real)
    requires a > 0.0 && b > 0.0 && x * a == 1.0 && y * b == 1.0
    ensures x < 2.0 * y <==> b < 2.0 * a
  {
    Product(x, a, b);
    Product(y, b, a);
    var p := a * b;
    assert p == b * a && p > 0.0;
    Order(x, 2.0 * y, p);
    assert 2.0 * y * p == 2.0 * (y * p);
  }

  // ---- the cut --------------------------------------------------------------------------------

  /** A chunk outside both candidate lists is among the top `k` of the uncut rankings. */
  ghost predicate Lost(result: Ranking, vec: Ranking, fts: Ranking, k: nat, rrfK: nat, c: ChunkId) {
    && Distinct(vec) && Distinct(fts) && IsFusion(result, vec, fts, k, rrfK)
    && c !in Cut(vec, 4 * k) && c !in Cut(fts, 4 * k) && c in result
  }

  lemma InCut(r: Ranking, n: nat, c: ChunkId)
    requires c in r && Rank(r, c) <= n
    ensures c in Cut(r, n)
  {
    assert Cut(r, n)[Rank(r, c) - 1] == c;
  }

  lemma OutsideCut(r: Ranking, n: nat, rrfK: nat, c: ChunkId)
    requires c !in Cut(r, n)
    ensures Part(r, rrfK, c) <= Recip(n + 1 + rrfK)
    ensures c in r ==> |r| > n
  {
    RecipTimes(n + 1 + rrfK);
    if c in r {
      var rank := Rank(r, c);
      if rank <= n { InCut(r, n, c); }
      if n + 1 < rank { RecipLess(n + 1 + rrfK, rank + rrfK); }
    }
  }

  /** The first `k` of a ranking all score higher than `c`. */
  ghost predicate Beaten(vec: Ranking, fts: Ranking, rrfK: nat, first: Ranking, c: ChunkId) {
    forall i | 0 <= i < |first| :: Found(vec, fts, first[i])
        && Score(vec, fts, rrfK, first[i]) > Score(vec, fts, rrfK, c)
  }

  /** Then `c` is not returned. */
  lemma BeatenIsOut(result: Ranking, vec: Ranking, fts: Ranking, k: nat, rrfK: nat, first: Ranking, c: ChunkId)
    requires IsFusion(result, vec, fts, k, rrfK) && Distinct(first) && |first| == k
    requires Beaten(vec, fts, rrfK, first, c)
    ensures c !in result
  {
    hide Score, IsFusion;
    if c in result {
      var j := Rank(result, c) - 1;
      var before := result[..j];
      forall x | x in Elements(first) ensures x in Elements(before) {
        var i :| 0 <= i < |first| && first[i] == x;
        HigherComesFirst(result, vec, fts, k, rrfK, x, j);
        var m :| 0 <= m < j && result[m] == x;
        assert before[m] == x;
      }
      SubsetSize(Elements(first), Elements(before));
      DistinctSize(first);
      ElementsAtMost(before);
      AtMostK(result, vec, fts, k, rrfK);
    }
  }

  lemma AtMostK(result: Ranking, vec: Ranking, fts: Ranking, k: nat, rrfK: nat)
    requires IsFusion(result, vec, fts, k, rrfK)
    ensures |result| <= k
  {
  }

  lemma FirstBeats(vec: Ranking, fts: Ranking, k: nat, rrfK: nat, c: ChunkId, own: Ranking)
    requires own == vec || own == fts
    requires Distinct(own) && |own| > k >= 1 && Score(vec, fts, rrfK, c) < Recip(k + rrfK)
    ensures Distinct(own[..k]) && Beaten(vec, fts, rrfK, own[..k], c)
  {
    forall i | 0 <= i < k
      ensures Found(vec, fts, own[i]) && Score(vec, fts, rrfK, own[i]) > Score(vec, fts, rrfK, c)
    {
      RankOf(own, i);
      PartBounds(own, rrfK, own[i], 1, k);
      PartAtLeastZero(vec, rrfK, own[i]);
      PartAtLeastZero(fts, rrfK, own[i]);
    }
    assert forall i | 0 <= i < k :: own[..k][i] == own[i];
  }

  lemma PartAtLeastZero(r: Ranking, rrfK: nat, c: ChunkId)
    ensures Part(r, rrfK, c) >= 0.0
  {
    PartBounds(r, rrfK, c, 1, |r| + 1);
  }

  /** With `rrf_k <= 2k` a chunk outside both 4k candidate lists is never in the top k of the uncut fusion. */
  lemma CutIsHarmless(result: Ranking, vec: Ranking, fts: Ranking, k: nat, rrfK: nat, c: ChunkId)
    requires k >= 1 && rrfK <= 2 * k && Distinct(vec) && Distinct(fts) && IsFusion(result, vec, fts, k, rrfK)
    requires c !in Cut(vec, 4 * k) && c !in Cut(fts, 4 * k)
    ensures c !in result
  {
    OutsideCut(vec, 4 * k, rrfK, c);
    OutsideCut(fts, 4 * k, rrfK, c);
    TwoRecip(k + rrfK, 4 * k + 1 + rrfK);
    hide Cut, Rank, Recip;
    if c in vec {
      FirstBeats(vec, fts, k, rrfK, c, vec);
      BeatenIsOut(result, vec, fts, k, rrfK, vec[..k], c);
    } else if c in fts {
      FirstBeats(vec, fts, k, rrfK, c, fts);
      BeatenIsOut(result, vec, fts, k, rrfK, fts[..k], c);
    }
  }

  /** `k - 1` chunks shared with the other ranking, `3k + 1` of its own, and the chunk 8k at rank 4k + 1. */
  function Adverse(k: nat, offset: nat): Ranking
    requires k >= 1
  {
    seq(4 * k + 1, i requires 0 <= i < 4 * k + 1 => if i == 4 * k then 8 * k else if i < k - 1 then i else offset + i)
  }

  function AdverseTop(k: nat): Ranking
    requires k >= 1
  {
    seq(k, i requires 0 <= i < k => if i < k - 1 then i else 8 * k)
  }

  lemma AdverseShape(k: nat)
    requires k >= 1
    ensures Distinct(Adverse(k, 0)) && Distinct(Adverse(k, 4 * k)) && Distinct(AdverseTop(k))
    ensures forall c | c in Adverse(k, 0) && c in Adverse(k, 4 * k) :: c in AdverseTop(k)
    ensures 8 * k !in Cut(Adverse(k, 0), 4 * k) && 8 * k !in Cut(Adverse(k, 4 * k), 4 * k)
    ensures AdverseTop(k)[k - 1] == 8 * k
  {
    var top := AdverseTop(k);
    forall c | c in Adverse(k, 0) && c in Adverse(k, 4 * k) ensures c in top {
      var i :| 0 <= i < 4 * k + 1 && Adverse(k, 0)[i] == c;
      if i == 4 * k { assert top[k - 1] == c; } else if i < k - 1 { assert top[i] == c; }
    }
  }

  /** The score of a chunk of the top, at rank `rank` in both rankings. */
  lemma SharedScore(k: nat, rrfK: nat, i: nat)
    requires k >= 1 && i < k
    ensures
      var vec, fts := Adverse(k, 0), Adverse(k, 4 * k);
      var rank := if i < k - 1 then i + 1 else 4 * k + 1;
      && AdverseTop(k)[i] in vec && AdverseTop(k)[i] in fts
      && ScoreAt(vec, fts, rrfK, AdverseTop(k), i) == 2.0 * Recip(rank + rrfK)
  {
    hide Recip, Adverse, AdverseTop, Rank;
    SharedRank(k, 0, i);
    SharedRank(k, 4 * k, i);
  }

  lemma SharedRank(k: nat, offset: nat, i: nat)
    requires k >= 1 && i < k && (offset == 0 || offset == 4 * k)
    ensures
      var r := Adverse(k, offset);
      && AdverseTop(k)[i] in r && Rank(r, AdverseTop(k)[i]) == if i < k - 1 then i + 1 else 4 * k + 1
  {
    var r := Adverse(k, offset);
    var place := if i < k - 1 then i else 4 * k;
    assert r[place] == AdverseTop(k)[i];
    AdverseShape(k);
    hide Adverse, AdverseTop, Distinct, Rank;
    RankOf(r, place);
  }

  /** A chunk of one ranking only scores no more than one over `k + rrf_k`. */
  lemma SingleScore(k: nat, rrfK: nat, c: ChunkId)
    requires k >= 1
    requires var vec, fts := Adverse(k, 0), Adverse(k, 4 * k); Found(vec, fts, c) && c !in AdverseTop(k)
    ensures Score(Adverse(k, 0), Adverse(k, 4 * k), rrfK, c) <= Recip(k + rrfK)
  {
    AdverseShape(k);
    RankInAdverse(k, 0, c);
    RankInAdverse(k, 4 * k, c);
    hide Recip, Adverse, Rank;
    PartBounds(Adverse(k, 0), rrfK, c, k, 4 * k + 1);
    PartBounds(Adverse(k, 4 * k), rrfK, c, k, 4 * k + 1);
  }

  lemma SharedInTop(k: nat, offset: nat, c: ChunkId)
    requires k >= 1 && c in Adverse(k, offset) && Rank(Adverse(k, offset), c) < k
    ensures c in AdverseTop(k)
  {
    assert AdverseTop(k)[Rank(Adverse(k, offset), c) - 1] == c;
  }

  lemma RankInAdverse(k: nat, offset: nat, c: ChunkId)
    requires k >= 1 && c !in AdverseTop(k)
    ensures c in Adverse(k, offset) ==> k <= Rank(Adverse(k, offset), c) <= 4 * k + 1
  {
    if c in Adverse(k, offset) && Rank(Adverse(k, offset), c) < k { SharedInTop(k, offset, c); }
  }

  lemma TopAbove(k: nat, rrfK: nat, i: nat)
    requires k >= 1 && rrfK > 2 * k && i < k
    ensures
      var vec, fts, top := Adverse(k, 0), Adverse(k, 4 * k), AdverseTop(k);
      && Found(vec, fts, top[i])
      && ScoreAt(vec, fts, rrfK, top, i) >= Recip(k + rrfK)
  {
    SharedScore(k, rrfK, i);
    TwoRecip(k + rrfK, 4 * k + 1 + rrfK);
    hide ScoreAt, Adverse, AdverseTop, Recip;
    if i < k - 1 { RecipLess(i + 1 + rrfK, 4 * k + 1 + rrfK); }
  }

  lemma TopFalls(k: nat, rrfK: nat, i: nat, j: nat)
    requires k >= 1 && i <= j < k
    ensures
      var vec, fts, top := Adverse(k, 0), Adverse(k, 4 * k), AdverseTop(k);
      ScoreAt(vec, fts, rrfK, top, i) >= ScoreAt(vec, fts, rrfK, top, j)
  {
    SharedScore(k, rrfK, i);
    SharedScore(k, rrfK, j);
    hide ScoreAt, Adverse, AdverseTop;
    var a, b := if i < k - 1 then i + 1 else 4 * k + 1, if j < k - 1 then j + 1 else 4 * k + 1;
    if a < b { RecipLess(a + rrfK, b + rrfK); }
  }

  lemma AdverseSize(k: nat)
    requires k >= 1
    ensures |Union(Adverse(k, 0), Adverse(k, 4 * k))| >= k
  {
    AdverseShape(k);
    hide Union, Distinct, Elements;
    UnionParts(Adverse(k, 0), Adverse(k, 4 * k));
    DistinctSize(Adverse(k, 0));
    SubsetSize(Elements(Adverse(k, 0)), Union(Adverse(k, 0), Adverse(k, 4 * k)));
  }

  /** A falling list of `k` found chunks, none of which scores less than a chunk outside it. */
  lemma IsTop(result: Ranking, vec: Ranking, fts: Ranking, k: nat, rrfK: nat, least: real)
    requires Distinct(result) && |result| == k <= |Union(vec, fts)|
    requires forall i | 0 <= i < k :: Found(vec, fts, result[i]) && ScoreAt(vec, fts, rrfK, result, i) >= least
    requires Sorted(vec, fts, rrfK, result)
    requires forall c | Found(vec, fts, c) && c !in result :: Score(vec, fts, rrfK, c) <= least
    ensures IsFusion(result, vec, fts, k, rrfK)
  {
    hide Score, ScoreAt, Union, Found, Distinct;
  }

  lemma AdverseFusion(k: nat, rrfK: nat)
    requires k >= 1 && rrfK > 2 * k
    ensures IsFusion(AdverseTop(k), Adverse(k, 0), Adverse(k, 4 * k), k, rrfK)
  {
    var vec, fts, top := Adverse(k, 0), Adverse(k, 4 * k), AdverseTop(k);
    assert |top| == k;
    hide IsFusion, Score, ScoreAt, Recip, Adverse, AdverseTop, Union, Distinct, Found;
    AdverseShape(k);
    AdverseSize(k);
    forall i | 0 <= i < k
      ensures Found(vec, fts, top[i]) && ScoreAt(vec, fts, rrfK, top, i) >= Recip(k + rrfK)
    {
      TopAbove(k, rrfK, i);
    }
    forall i, j | 0 <= i <= j < k ensures ScoreAt(vec, fts, rrfK, top, i) >= ScoreAt(vec, fts, rrfK, top, j) {
      TopFalls(k, rrfK, i, j);
    }
    forall c | Found(vec, fts, c) && c !in top ensures Score(vec, fts, rrfK, c) <= Recip(k + rrfK) {
      SingleScore(k, rrfK, c);
    }
    IsTop(top, vec, fts, k, rrfK, Recip(k + rrfK));
  }

  ghost predicate CutHarmless(k: nat, rrfK: nat) {
    forall result, vec, fts, c :: !Lost(result, vec, fts, k, rrfK, c)
  }

  /** The cut is harmless for membership exactly when `rrf_k <= 2k`. */
  lemma CutHarmlessIff(k: nat, rrfK: nat)
    requires k >= 1
    ensures CutHarmless(k, rrfK) <==> rrfK <= 2 * k
  {
    if rrfK <= 2 * k {
      forall result, vec, fts, c ensures !Lost(result, vec, fts, k, rrfK, c) {
        if Distinct(vec) && Distinct(fts) && IsFusion(result, vec, fts, k, rrfK)
           && c !in Cut(vec, 4 * k) && c !in Cut(fts, 4 * k) {
          CutIsHarmless(result, vec, fts, k, rrfK, c);
        }
      }
    } else {
      AdverseShape(k);
      AdverseFusion(k, rrfK);
      hide IsFusion, Adverse;
      assert Lost(AdverseTop(k), Adverse(k, 0), Adverse(k, 4 * k), k, rrfK, 8 * k);
    }
  }

  // ---- found twice against found once -----------------------------------------------------------

  predicate Both(vec: Ranking, fts: Ranking, c: ChunkId) {
    c in vec && c in fts
  }

  predicate One(vec: Ranking, fts: Ranking, c: ChunkId) {
    c in vec <==> c !in fts
  }

  lemma BothBeatsOne(vec: Ranking, fts: Ranking, n: nat, rrfK: nat, c: ChunkId, d: ChunkId)
    requires n <= rrfK + 1 && |vec| <= n && |fts| <= n && Both(vec, fts, c) && One(vec, fts, d)
    ensures Score(vec, fts, rrfK, c) > Score(vec, fts, rrfK, d)
  {
    PartBounds(vec, rrfK, c, 1, n);
    PartBounds(fts, rrfK, c, 1, n);
    PartBounds(vec, rrfK, d, 1, n);
    PartBounds(fts, rrfK, d, 1, n);
    RecipTwo(1 + rrfK, n + rrfK);
    hide Recip, Rank;
  }

  /** When `4k <= rrf_k + 1`, every chunk both rankings found comes before every chunk only one found. */
  lemma FoundTwiceComesFirst(result: Ranking, vec: Ranking, fts: Ranking, k: nat, rrfK: nat, c: ChunkId, j: nat)
    requires 4 * k <= rrfK + 1 && IsSearch(result, vec, fts, k, rrfK) && j < |result|
    requires var v, f := Cut(vec, 4 * k), Cut(fts, 4 * k); Both(v, f, c) && One(v, f, result[j])
    ensures exists i :: 0 <= i < j && result[i] == c
  {
    var v, f := Cut(vec, 4 * k), Cut(fts, 4 * k);
    BothBeatsOne(v, f, 4 * k, rrfK, c, result[j]);
    HigherComesFirst(result, v, f, k, rrfK, c, j);
  }

  /** A search that returns a chunk only one ranking found, with one that both found not before it. */
  ghost predicate Upset(result: Ranking, vec: Ranking, fts: Ranking, k: nat, rrfK: nat, c: ChunkId, j: nat) {
    && Distinct(vec) && Distinct(fts) && IsSearch(result, vec, fts, k, rrfK) && j < |result|
    && Both(Cut(vec, 4 * k), Cut(fts, 4 * k), c) && One(Cut(vec, 4 * k), Cut(fts, 4 * k), result[j])
    && !exists i :: 0 <= i < j && result[i] == c
  }

  ghost predicate TwiceWins(k: nat, rrfK: nat) {
    forall result, vec, fts, c, j: nat :: !Upset(result, vec, fts, k, rrfK, c, j)
  }

  /** Two full candidate lists that share only their last chunk. */
  function Crossing(n: nat, offset: nat): Ranking {
    seq(n, i requires 0 <= i < n => if i == n - 1 then i else offset + i)
  }

  lemma CrossingShape(n: nat)
    requires n >= 2
    ensures
      var vec, fts := Crossing(n, 0), Crossing(n, n);
      && Distinct(vec) && Distinct(fts) && Cut(vec, n) == vec && Cut(fts, n) == fts
      && 0 in vec && 0 !in fts && (forall c | c in vec && c in fts :: c == n - 1)
      && n - 1 in vec && n - 1 in fts
  {
    var vec, fts := Crossing(n, 0), Crossing(n, n);
    assert vec[n - 1] == fts[n - 1] == n - 1 && vec[0] == 0;
  }

  lemma CrossingRanks(n: nat)
    requires n >= 2
    ensures
      var vec, fts := Crossing(n, 0), Crossing(n, n);
      && 0 in vec && Rank(vec, 0) == 1
      && n - 1 in vec && n - 1 in fts && Rank(vec, n - 1) == n && Rank(fts, n - 1) == n
  {
    var vec, fts := Crossing(n, 0), Crossing(n, n);
    CrossingShape(n);
    assert vec[n - 1] == fts[n - 1] == n - 1 && vec[0] == 0;
    hide Crossing, Rank, Distinct;
    RankOf(vec, n - 1);
    RankOf(fts, n - 1);
    RankOf(vec, 0);
  }

  /** No chunk gets more from one ranking than its first. */
  lemma PartAtMostFirst(r: Ranking, rrfK: nat, c: ChunkId)
    ensures 0.0 <= Part(r, rrfK, c) <= Recip(1 + rrfK)
    ensures c !in r ==> Part(r, rrfK, c) == 0.0
  {
    hide Recip, Rank, Part;
    RankBound(r, c);
    PartBounds(r, rrfK, c, 1, 1 + |r|);
    RecipTimes(1 + rrfK);
    NoPart(r, rrfK, c);
  }

  lemma RankBound(r: Ranking, c: ChunkId)
    ensures c in r ==> 1 <= Rank(r, c) <= 1 + |r|
  {
  }

  lemma NoPart(r: Ranking, rrfK: nat, c: ChunkId)
    ensures c !in r ==> Part(r, rrfK, c) == 0.0
  {
  }

  /** A chunk that at most one ranking found scores no more than the first of a ranking. */
  lemma OnceAtMostFirst(vec: Ranking, fts: Ranking, rrfK: nat, c: ChunkId)
    requires !Both(vec, fts, c)
    ensures Score(vec, fts, rrfK, c) <= Recip(1 + rrfK)
  {
    hide Recip, Part;
    PartAtMostFirst(vec, rrfK, c);
    PartAtMostFirst(fts, rrfK, c);
  }

  /** The shared last chunk scores less than the first of a ranking. */
  lemma LastBelowFirst(n: nat, rrfK: nat)
    requires n >= 2 && n > rrfK + 1
    ensures Score(Crossing(n, 0), Crossing(n, n), rrfK, n - 1) <= Recip(1 + rrfK)
  {
    CrossingRanks(n);
    RecipTwo(1 + rrfK, n + rrfK);
    hide Recip, Rank, Crossing, Distinct;
  }

  lemma FirstScore(n: nat, rrfK: nat)
    requires n >= 2
    ensures Score(Crossing(n, 0), Crossing(n, n), rrfK, 0) == Recip(1 + rrfK)
  {
    CrossingShape(n);
    CrossingRanks(n);
    hide Recip, Rank, Crossing, Distinct, Cut;
  }

  /** No chunk scores more than the first of one ranking, which the other did not find. */
  lemma FirstIsBest(k: nat, rrfK: nat, c: ChunkId)
    requires k >= 1 && 4 * k > rrfK + 1
    ensures
      var vec, fts := Crossing(4 * k, 0), Crossing(4 * k, 4 * k);
      Score(vec, fts, rrfK, c) <= Score(vec, fts, rrfK, 0)
  {
    var vec, fts := Crossing(4 * k, 0), Crossing(4 * k, 4 * k);
    CrossingShape(4 * k);
    hide Crossing, Score, Recip, Rank, Distinct, Cut;
    FirstScore(4 * k, rrfK);
    if Both(vec, fts, c) { LastBelowFirst(4 * k, rrfK); } else { OnceAtMostFirst(vec, fts, rrfK, c); }
  }

  /** Inserting a chunk that nothing beats puts it first. */
  lemma {:induction false} GatherLast(vec: Ranking, fts: Ranking, rrfK: nat, more: Ranking, x: ChunkId, r: Ranking)
    requires x !in more && x !in r
    ensures Gather(vec, fts, rrfK, more + [x], r) == Insert(vec, fts, rrfK, Gather(vec, fts, rrfK, more, r), x)
    ensures x !in Gather(vec, fts, rrfK, more, r)
    decreases |more|
  {
    hide Score, Insert;
    if more == [] {
      assert more + [x] == [x] && [x][1..] == [];
    } else {
      assert (more + [x])[1..] == more[1..] + [x] && (more + [x])[0] == more[0];
      if more[0] in r {
        GatherLast(vec, fts, rrfK, more[1..], x, r);
      } else {
        InsertHolds(vec, fts, rrfK, r, more[0]);
        GatherLast(vec, fts, rrfK, more[1..], x, Insert(vec, fts, rrfK, r, more[0]));
      }
    }
  }

  /** A found chunk that no other beats may be returned first. */
  lemma BestCanBeFirst(vec: Ranking, fts: Ranking, k: nat, rrfK: nat, best: ChunkId) returns (result: Ranking)
    requires k >= 1 && best in vec && best !in fts && Distinct(vec) && vec[0] == best
    requires forall c | Found(vec, fts, c) :: Score(vec, fts, rrfK, c) <= Score(vec, fts, rrfK, best)
    ensures IsFusion(result, vec, fts, k, rrfK) && |result| >= 1 && result[0] == best
  {
    hide Score, Sorted, Insert, Gather;
    var more := vec[1..] + fts;
    var before := Gather(vec, fts, rrfK, more, []);
    var all := Gather(vec, fts, rrfK, more + [best], []);
    assert best !in vec[1..];
    EmptyGather(vec, fts, rrfK);
    GatherLast(vec, fts, rrfK, more, best, []);
    GatherHolds(vec, fts, rrfK, more, []);
    GatherHolds(vec, fts, rrfK, more + [best], []);
    OnlyFound(vec, fts, more, before);
    InsertFirst(vec, fts, rrfK, before, best);
    WholeUnion(vec, fts, best);
    CountedOnce(all);
    CutSorted(vec, fts, rrfK, all, k);
    result := Cut(all, k);
  }

  lemma EmptyGather(vec: Ranking, fts: Ranking, rrfK: nat)
    ensures Sorted(vec, fts, rrfK, []) && Elements([]) == {} && |Elements([])| == 0
  {
  }

  lemma OnlyFound(vec: Ranking, fts: Ranking, more: Ranking, r: Ranking)
    requires vec != [] && more == vec[1..] + fts && Elements(r) == Elements([]) + Elements(more)
    ensures forall c | c in r :: Found(vec, fts, c)
  {
    forall c | c in r ensures Found(vec, fts, c) {
      assert c in Elements(r);
      assert c in more;
    }
  }

  lemma InsertFirst(vec: Ranking, fts: Ranking, rrfK: nat, r: Ranking, x: ChunkId)
    requires forall c | c in r :: Score(vec, fts, rrfK, c) <= Score(vec, fts, rrfK, x)
    ensures Insert(vec, fts, rrfK, r, x) == [x] + r
  {
    hide Score;
    if r != [] { assert r[0] in r; }
  }

  lemma WholeUnion(vec: Ranking, fts: Ranking, best: ChunkId)
    requires vec != [] && vec[0] == best
    ensures Elements([]) + Elements(vec[1..] + fts + [best]) == Union(vec, fts)
  {
    assert vec == [vec[0]] + vec[1..];
    assert Elements([]) == {};
  }

  lemma CrossingUpsets(k: nat, rrfK: nat) returns (result: Ranking)
    requires k >= 1 && 4 * k > rrfK + 1
    ensures Upset(result, Crossing(4 * k, 0), Crossing(4 * k, 4 * k), k, rrfK, 4 * k - 1, 0)
  {
    var vec, fts := Crossing(4 * k, 0), Crossing(4 * k, 4 * k);
    CrossingShape(4 * k);
    assert vec[0] == 0;
    hide Crossing, Score, Rank, Recip;
    forall c | Found(vec, fts, c) ensures Score(vec, fts, rrfK, c) <= Score(vec, fts, rrfK, 0) {
      FirstIsBest(k, rrfK, c);
    }
    result := BestCanBeFirst(vec, fts, k, rrfK, 0);
    hide IsFusion, Distinct;
  }

  /** In every search every chunk found twice precedes every chunk found once, exactly when `4k <= rrf_k + 1`. */
  lemma TwiceWinsIff(k: nat, rrfK: nat)
    ensures TwiceWins(k, rrfK) <==> 4 * k <= rrfK + 1
  {
    hide IsSearch, Both, One, Cut, Distinct;
    if 4 * k <= rrfK + 1 {
      forall result, vec, fts, c, j: nat ensures !Upset(result, vec, fts, k, rrfK, c, j) {
        if IsSearch(result, vec, fts, k, rrfK) && j < |result|
           && Both(Cut(vec, 4 * k), Cut(fts, 4 * k), c) && One(Cut(vec, 4 * k), Cut(fts, 4 * k), result[j]) {
          FoundTwiceComesFirst(result, vec, fts, k, rrfK, c, j);
        }
      }
    } else {
      var result := CrossingUpsets(k, rrfK);
      assert Upset(result, Crossing(4 * k, 0), Crossing(4 * k, 4 * k), k, rrfK, 4 * k - 1, 0);
    }
  }

  // ---- ties -----------------------------------------------------------------------------------

  /** Two results of one search agree in every score: they differ only among chunks with equal scores. */
  lemma ScoresAgree(a: Ranking, b: Ranking, vec: Ranking, fts: Ranking, k: nat, rrfK: nat, i: nat)
    requires IsFusion(a, vec, fts, k, rrfK) && IsFusion(b, vec, fts, k, rrfK) && i < |a|
    ensures |a| == |b| && ScoreAt(vec, fts, rrfK, a, i) == ScoreAt(vec, fts, rrfK, b, i)
  {
    NoHigher(a, b, vec, fts, k, rrfK, i);
    NoHigher(b, a, vec, fts, k, rrfK, i);
  }

  lemma NoHigher(a: Ranking, b: Ranking, vec: Ranking, fts: Ranking, k: nat, rrfK: nat, i: nat)
    requires IsFusion(a, vec, fts, k, rrfK) && IsFusion(b, vec, fts, k, rrfK) && i < |a|
    ensures i < |b| && ScoreAt(vec, fts, rrfK, a, i) <= ScoreAt(vec, fts, rrfK, b, i)
  {
    hide Score;
    if ScoreAt(vec, fts, rrfK, a, i) > ScoreAt(vec, fts, rrfK, b, i) {
      var mine, theirs := a[..i + 1], b[..i];
      forall x | x in Elements(mine) ensures x in Elements(theirs) {
        var j :| 0 <= j < |mine| && mine[j] == x;
        ScoresFall(a, vec, fts, k, rrfK, j, i);
        HigherComesFirst(b, vec, fts, k, rrfK, x, i);
        var m :| 0 <= m < i && b[m] == x;
        assert theirs[m] == x;
      }
      SubsetSize(Elements(mine), Elements(theirs));
      DistinctSize(mine);
      ElementsAtMost(theirs);
    }
  }
}
