/** Which segment, and so which page and paragraph, a chunk is attributed to. */
module Provenance {
  import opened Schema
  import opened Windows
  import opened Chunker
  import Pipeline

  /** Character `pos` is in the text of segment `i` or in the separator after it. */
  predicate Within(segs: seq<Segment>, i: nat, pos: nat)
    requires i < |segs|
  {
    StartOf(segs, i) <= pos && (i + 1 < |segs| ==> pos < StartOf(segs, i + 1))
  }

  lemma NextStart(segs: seq<Segment>, i: nat, j: nat)
    requires i < |segs| && j < |segs|
    ensures i < j ==> StartOf(segs, i + 1) <= StartOf(segs, j)
  {
    if i + 1 < j { StartsGrow(segs, i + 1, j); }
  }

  /** The bisection finds that segment, and there is no other. */
  lemma LocateFinds(segs: seq<Segment>, pos: nat)
    requires segs != []
    ensures Increasing(SegmentStarts(segs))
    ensures Within(segs, Locate(SegmentStarts(segs), pos), pos)
    ensures forall i: nat | i < |segs| && Within(segs, i, pos) :: i == Locate(SegmentStarts(segs), pos)
  {
    StartsIncrease(segs);
    var starts := SegmentStarts(segs);
    var found := Locate(starts, pos);
    assert starts[0] == 0;
    forall i: nat | i < |segs| && Within(segs, i, pos) ensures i == found {
      NextStart(segs, i, found);
      NextStart(segs, found, i);
    }
  }

  lemma LocateMonotone(segs: seq<Segment>, p: nat, q: nat)
    requires segs != [] && p <= q && Increasing(SegmentStarts(segs))
    ensures Locate(SegmentStarts(segs), p) <= Locate(SegmentStarts(segs), q)
  {
    var starts := SegmentStarts(segs);
    LocateFinds(segs, p);
    LocateFinds(segs, q);
    var i, j := Locate(starts, p), Locate(starts, q);
    NextStart(segs, j, i);
  }

  /** Segment `i` is where its start says, in the full text. */
  lemma {:induction false} SegmentInText(segs: seq<Segment>, i: nat)
    requires i < |segs|
    ensures
      var full, from := FullText(segs), StartOf(segs, i);
      && from + |segs[i].text| <= |full| && full[from..from + |segs[i].text|] == segs[i].text
      && (i + 1 < |segs| ==> from + |segs[i].text| + 2 <= |full|
                             && full[from + |segs[i].text|..from + |segs[i].text| + 2] == SEPARATOR)
    ensures i + 1 == |segs| ==> StartOf(segs, i) + |segs[i].text| == |FullText(segs)|
  {
    var front := segs[..|segs| - 1];
    if i < |front| {
      SegmentInText(front, i);
      SameStart(segs, i);
      if i + 1 == |front| { JoinAt(segs); }
    } else if i > 0 {
      SegmentInText(front, i - 1);
      SameStart(segs, i - 1);
      JoinAt(segs);
    }
  }

  lemma {:induction false} SameStart(segs: seq<Segment>, i: nat)
    requires i < |segs| - 1
    ensures StartOf(segs[..|segs| - 1], i) == StartOf(segs, i)
  {
    if i > 0 { SameStart(segs, i - 1); }
  }

  lemma JoinAt(segs: seq<Segment>)
    requires |segs| >= 2
    ensures FullText(segs) == FullText(segs[..|segs| - 1]) + SEPARATOR + segs[|segs| - 1].text
  {
  }

  /** The segment a chunk names is the one its first character falls in. */
  lemma ChunkProvenance(rows: seq<ChunkRow>, segs: seq<Segment>, size: nat, overlap: int,
                        encode: Encoder, decode: Decoder, k: nat)
    returns (i: nat)
    requires segs != [] && overlap < size && ChunkedAs(rows, segs, size, overlap, encode, decode) && k < |rows|
    ensures i < |segs| && rows[k].charStart >= 0 && Within(segs, i, rows[k].charStart)
    ensures rows[k].pageNumber == segs[i].pageNumber && rows[k].paragraphIndex == Some(segs[i].paragraphIndex)
    ensures Increasing(SegmentStarts(segs)) && i == Locate(SegmentStarts(segs), rows[k].charStart)
  {
    var tokens := encode(FullText(segs));
    var ws := Starts(|tokens|, size, overlap, 0);
    assert IsRow(rows[k], k, tokens, decode, ws, size, segs);
    LocateFinds(segs, rows[k].charStart);
    i := Locate(SegmentStarts(segs), rows[k].charStart);
  }

  predicate PagesInOrder(segs: seq<Segment>) {
    && (forall i | 0 <= i < |segs| :: segs[i].pageNumber.Some?)
    && (forall i, j | 0 <= i <= j < |segs| :: segs[i].pageNumber.value <= segs[j].pageNumber.value)
  }

  lemma {:induction false} StartsNeverDecrease(rows: seq<ChunkRow>, segs: seq<Segment>, size: nat, overlap: int,
                                               encode: Encoder, decode: Decoder, j: nat, k: nat)
    requires segs != [] && overlap < size && ChunkedAs(rows, segs, size, overlap, encode, decode) && j <= k < |rows|
    ensures 0 <= rows[j].charStart <= rows[k].charStart
    decreases k - j
  {
    var tokens := encode(FullText(segs));
    var ws := Starts(|tokens|, size, overlap, 0);
    assert IsRow(rows[k], k, tokens, decode, ws, size, segs);
    if j < k {
      assert IsRow(rows[k - 1], k - 1, tokens, decode, ws, size, segs);
      StartsNeverDecrease(rows, segs, size, overlap, encode, decode, j, k - 1);
    }
  }

  /** Later chunks begin in the same or later segments; with the pages in order, on the same or later pages.
      This needs nothing of the tokeniser. */
  lemma ProvenanceNeverDecreases(rows: seq<ChunkRow>, segs: seq<Segment>, size: nat, overlap: int,
                                 encode: Encoder, decode: Decoder, j: nat, k: nat) returns (i: nat, i': nat)
    requires segs != [] && overlap < size && ChunkedAs(rows, segs, size, overlap, encode, decode) && j <= k < |rows|
    ensures i <= i' < |segs| && 0 <= rows[j].charStart <= rows[k].charStart
    ensures Within(segs, i, rows[j].charStart) && Within(segs, i', rows[k].charStart)
    ensures PagesInOrder(segs) ==>
      rows[j].pageNumber.Some? && rows[k].pageNumber.Some? && rows[j].pageNumber.value <= rows[k].pageNumber.value
  {
    hide ChunkedAs, Locate;
    i := ChunkProvenance(rows, segs, size, overlap, encode, decode, j);
    i' := ChunkProvenance(rows, segs, size, overlap, encode, decode, k);
    StartsNeverDecrease(rows, segs, size, overlap, encode, decode, j, k);
    LocateMonotone(segs, rows[j].charStart, rows[k].charStart);
  }

  /** The stored rows: how many there are, how many tokens each has, and that they are numbered from 0. */
  lemma RowShape(rows: seq<ChunkRow>, segs: seq<Segment>, size: nat, overlap: nat, encode: Encoder, decode: Decoder)
    requires segs != [] && overlap < size && ChunkedAs(rows, segs, size, overlap, encode, decode)
    ensures
      var n := |encode(FullText(segs))|;
      |rows| == if n == 0 then 0 else if n <= size then 1 else 1 + CeilDiv(n - size, size - overlap)
    ensures Pipeline.Numbered(rows)
    ensures forall k | 0 <= k < |rows| - 1 :: rows[k].tokenCount == size
    ensures |rows| > 1 ==> overlap < rows[|rows| - 1].tokenCount <= size
  {
    var tokens := encode(FullText(segs));
    var n := |tokens|;
    var ws := Starts(n, size, overlap, 0);
    Count(n, size, overlap, 0);
    forall k | 0 <= k < |rows|
      ensures rows[k].ordinal == k
      ensures k < |rows| - 1 ==> rows[k].tokenCount == size
      ensures k == |rows| - 1 && k > 0 ==> overlap < rows[k].tokenCount <= size
    {
      assert IsRow(rows[k], k, tokens, decode, ws, size, segs);
      Shape(n, size, overlap, k);
    }
  }

  /** Which tokens row `k` holds: those from `k` strides on, at most `size` of them, and it counts them. */
  lemma RowTokens(rows: seq<ChunkRow>, segs: seq<Segment>, size: nat, overlap: int, encode: Encoder, decode: Decoder,
                  k: nat)
    requires segs != [] && overlap < size && ChunkedAs(rows, segs, size, overlap, encode, decode) && k < |rows|
    ensures
      var tokens, from := encode(FullText(segs)), k * (size - overlap);
      && 0 <= from < |tokens|
      && rows[k].tokenCount == (if |tokens| - from < size then |tokens| - from else size)
      && rows[k].text == decode(tokens[from..from + rows[k].tokenCount])
      && rows[k].charEnd == rows[k].charStart + |rows[k].text|
    ensures rows[0].charStart == 0
  {
    var tokens := encode(FullText(segs));
    var ws := Starts(|tokens|, size, overlap, 0);
    assert IsRow(rows[k], k, tokens, decode, ws, size, segs);
    assert IsRow(rows[0], 0, tokens, decode, ws, size, segs);
    StartAt(|tokens|, size, overlap, 0, k);
  }
}
