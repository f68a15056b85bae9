/** The token-window chunker, with character spans and the segment each chunk begins in. */
module Chunker {
  import opened Schema
  import opened Windows

  datatype Segment = Segment(pageNumber: Option<int>, paragraphIndex: int, text: string)

  type Encoder = string -> seq<int>
  type Decoder = seq<int> -> string

  datatype Chunked = Chunks(rows: seq<ChunkRow>) | ValueError

  const SEPARATOR := "\n\n"

  function FullText(segs: seq<Segment>): string {
    if segs == [] then ""
    else if |segs| == 1 then segs[0].text
    else FullText(segs[..|segs| - 1]) + SEPARATOR + segs[|segs| - 1].text
  }

  /** Where segment `i` begins in the full text. */
  function StartOf(segs: seq<Segment>, i: nat): nat
    requires i < |segs|
  {
    if i == 0 then 0 else StartOf(segs, i - 1) + |segs[i - 1].text| + |SEPARATOR|
  }

  predicate Increasing(a: seq<nat>) {
    forall i, j | 0 <= i < j < |a| :: a[i] < a[j]
  }

  /** The position after the last entry of `a[lo..hi]` that is at most `x`. */
  function BisectRight(a: seq<nat>, x: nat, lo: nat, hi: nat): (r: nat)
    requires Increasing(a) && lo <= hi <= |a|
    requires (forall i | 0 <= i < lo :: a[i] <= x) && (forall i | hi <= i < |a| :: x < a[i])
    ensures r <= |a| && (forall i | 0 <= i < r :: a[i] <= x) && (forall i | r <= i < |a| :: x < a[i])
    decreases hi - lo
  {
    if lo == hi then lo
    else
      var mid := (lo + hi) / 2;
      if x < a[mid] then BisectRight(a, x, lo, mid) else BisectRight(a, x, mid + 1, hi)
  }

  /** The segment a character position is attributed to. */
  function Locate(starts: seq<nat>, pos: nat): (i: nat)
    requires Increasing(starts) && starts != []
    ensures i < |starts|
  {
    var i := BisectRight(starts, pos, 0, |starts|) - 1;
    if i < 0 then 0 else i
  }

  function SegmentStarts(segs: seq<Segment>): (starts: seq<nat>)
    ensures |starts| == |segs| && forall i | 0 <= i < |segs| :: starts[i] == StartOf(segs, i)
  {
    seq(|segs|, i requires 0 <= i < |segs| => StartOf(segs, i))
  }

  lemma {:induction false} StartsGrow(segs: seq<Segment>, i: nat, j: nat)
    requires i < j < |segs|
    ensures StartOf(segs, i) + |segs[i].text| + |SEPARATOR| <= StartOf(segs, j)
  {
    if i < j - 1 { StartsGrow(segs, i, j - 1); }
  }

  lemma StartsIncrease(segs: seq<Segment>)
    ensures Increasing(SegmentStarts(segs))
    ensures segs != [] ==> SegmentStarts(segs)[0] == 0
  {
    var starts := SegmentStarts(segs);
    forall i, j | 0 <= i < j < |segs| ensures starts[i] < starts[j] { StartsGrow(segs, i, j); }
  }

  /** Characters before window `k`, as the loop adds them up. */
  function PrefixLen(tokens: seq<int>, decode: Decoder, ws: seq<nat>, k: nat): nat
    requires k < |ws| && forall i | 0 <= i < |ws| :: ws[i] <= |tokens|
    requires forall i | 0 < i < |ws| :: ws[i - 1] <= ws[i]
  {
    if k == 0 then 0 else PrefixLen(tokens, decode, ws, k - 1) + |decode(tokens[ws[k - 1]..ws[k]])|
  }

  ghost predicate Ascending(ws: seq<nat>, n: nat) {
    && (forall i | 0 <= i < |ws| :: ws[i] <= n)
    && (forall i | 0 < i < |ws| :: ws[i - 1] <= ws[i])
  }

  /** The row of window `k`: its text, its span, and the page and paragraph it begins in. */
  ghost predicate IsRow(row: ChunkRow, k: nat, tokens: seq<int>, decode: Decoder, ws: seq<nat>, size: nat,
                        segs: seq<Segment>)
    requires k < |ws| && Ascending(ws, |tokens|) && segs != []
  {
    StartsIncrease(segs);
    var start, end := ws[k], End(|tokens|, size, ws[k]);
    var text := decode(tokens[start..end]);
    var from := PrefixLen(tokens, decode, ws, k);
    var seg := segs[Locate(SegmentStarts(segs), from)];
    row == ChunkRow(text, k, seg.pageNumber, Some(seg.paragraphIndex), from, from + |text|, end - start)
  }

  lemma StartsAscend(n: nat, size: nat, overlap: int)
    requires overlap < size
    ensures Ascending(Starts(n, size, overlap, 0), n)
  {
    var ws := Starts(n, size, overlap, 0);
    forall i | 0 <= i < |ws| ensures ws[i] <= n { StartAt(n, size, overlap, 0, i); }
    forall i | 0 < i < |ws| ensures ws[i - 1] <= ws[i] { Shape(n, size, overlap, i - 1); }
  }

  lemma NoText(segs: seq<Segment>)
    ensures FullText(segs[..0]) == ""
  {
  }

  /** One more segment: the text so far, a separator unless it is the first, and the segment where it starts. */
  lemma JoinNext(segs: seq<Segment>, i: nat)
    requires i < |segs|
    ensures FullText(segs[..i + 1]) == (if i == 0 then "" else FullText(segs[..i]) + SEPARATOR) + segs[i].text
    ensures i == 0 ==> FullText(segs[..i]) == ""
    ensures StartOf(segs, i) == if i == 0 then 0 else StartOf(segs, i - 1) + |segs[i - 1].text| + |SEPARATOR|
  {
    assert segs[..i + 1][..i] == segs[..i];
  }

  method Layout(segs: seq<Segment>) returns (full: string, starts: seq<nat>, provenance: seq<(Option<int>, int)>)
    ensures full == FullText(segs) && starts == SegmentStarts(segs)
    ensures |provenance| == |segs|
    ensures forall i | 0 <= i < |segs| :: provenance[i] == (segs[i].pageNumber, segs[i].paragraphIndex)
  {
    hide FullText, StartOf;
    var cursor := 0;
    full, starts, provenance := "", [], [];
    NoText(segs);
    for i := 0 to |segs|
      invariant |starts| == |provenance| == i && full == FullText(segs[..i])
      invariant forall j | 0 <= j < i :: starts[j] == StartOf(segs, j)
      invariant forall j | 0 <= j < i :: provenance[j] == (segs[j].pageNumber, segs[j].paragraphIndex)
      invariant cursor == if i == 0 then 0 else StartOf(segs, i - 1) + |segs[i - 1].text|
    {
      JoinNext(segs, i);
      if i > 0 {
        cursor := cursor + |SEPARATOR|;
        full := full + SEPARATOR;
      }
      starts := starts + [cursor];
      provenance := provenance + [(segs[i].pageNumber, segs[i].paragraphIndex)];
      full := full + segs[i].text;
      cursor := cursor + |segs[i].text|;
    }
    assert segs[..|segs|] == segs;
  }

  /** One row per window, in order. */
  ghost predicate ChunkedAs(rows: seq<ChunkRow>, segs: seq<Segment>, size: nat, overlap: int, encode: Encoder,
                            decode: Decoder)
    requires segs != [] && overlap < size
  {
    var tokens := encode(FullText(segs));
    var ws := Starts(|tokens|, size, overlap, 0);
    && Ascending(ws, |tokens|) && |rows| == |ws|
    && forall k | 0 <= k < |ws| :: IsRow(rows[k], k, tokens, decode, ws, size, segs)
  }

  lemma AllRows(rows: seq<ChunkRow>, segs: seq<Segment>, size: nat, overlap: int, encode: Encoder, decode: Decoder,
                tokens: seq<int>, ws: seq<nat>)
    requires segs != [] && overlap < size && tokens == encode(FullText(segs))
    requires ws == Starts(|tokens|, size, overlap, 0)
    requires Ascending(ws, |tokens|) && |rows| == |ws| && RowsSoFar(rows, tokens, decode, ws, size, segs)
    ensures ChunkedAs(rows, segs, size, overlap, encode, decode)
  {
    hide IsRow, Ascending, Starts, FullText;
  }

  /** The first window, if any, is at the start of the text. */
  lemma FirstPrefix(tokens: seq<int>, decode: Decoder, ws: seq<nat>)
    requires Ascending(ws, |tokens|)
    ensures ws != [] ==> PrefixLen(tokens, decode, ws, 0) == 0
  {
  }

  lemma PrefixNext(tokens: seq<int>, decode: Decoder, ws: seq<nat>, k: nat)
    requires Ascending(ws, |tokens|) && 0 < k < |ws|
    ensures ws[k - 1] <= ws[k] <= |tokens|
    ensures PrefixLen(tokens, decode, ws, k) == PrefixLen(tokens, decode, ws, k - 1)
        + |decode(tokens[ws[k - 1]..ws[k]])|
  {
  }

  /** The rows of the first windows. */
  ghost predicate RowsSoFar(rows: seq<ChunkRow>, tokens: seq<int>, decode: Decoder, ws: seq<nat>, size: nat,
                            segs: seq<Segment>)
    requires Ascending(ws, |tokens|) && segs != []
  {
    |rows| <= |ws| && forall k | 0 <= k < |rows| :: IsRow(rows[k], k, tokens, decode, ws, size, segs)
  }

  /** The row the loop adds for the next window. */
  lemma RowIs(rows: seq<ChunkRow>, tokens: seq<int>, decode: Decoder, ws: seq<nat>, size: nat, segs: seq<Segment>)
    requires Ascending(ws, |tokens|) && |rows| < |ws| && segs != [] && RowsSoFar(rows, tokens, decode, ws, size, segs)
    ensures ws[|rows|] <= |tokens| && Increasing(SegmentStarts(segs))
    ensures
      var k := |rows|;
      var end, from := End(|tokens|, size, ws[k]), PrefixLen(tokens, decode, ws, k);
      var text, seg := decode(tokens[ws[k]..end]), segs[Locate(SegmentStarts(segs), from)];
      var row := ChunkRow(text, k, seg.pageNumber, Some(seg.paragraphIndex), from, from + |text|, end - ws[k]);
      RowsSoFar(rows + [row], tokens, decode, ws, size, segs)
  {
    StartsIncrease(segs);
    var end, from := End(|tokens|, size, ws[|rows|]), PrefixLen(tokens, decode, ws, |rows|);
    var text, seg := decode(tokens[ws[|rows|]..end]), segs[Locate(SegmentStarts(segs), from)];
    var row := ChunkRow(text, |rows|, seg.pageNumber, Some(seg.paragraphIndex), from, from + |text|, end - ws[|rows|]);
    assert IsRow(row, |rows|, tokens, decode, ws, size, segs);
    hide IsRow;
  }

  /** After window `k` the loop stops, or goes on at window `k + 1`. */
  lemma NextWindow(n: nat, size: nat, overlap: int, ws: seq<nat>, k: nat)
    requires overlap < size && ws == Starts(n, size, overlap, 0) && k < |ws|
    ensures k + 1 < |ws| <==> End(n, size, ws[k]) < n && ws[k] + size - overlap < n
    ensures k + 1 < |ws| ==> ws[k + 1] == ws[k] + size - overlap
    ensures ws[k] <= End(n, size, ws[k]) <= n && (End(n, size, ws[k]) < n ==> End(n, size, ws[k]) == ws[k] + size)
  {
    Shape(n, size, overlap, k);
    StartAt(n, size, overlap, 0, k);
    if k + 1 == |ws| { LastStart(n, size, overlap, 0); }
  }

  method ChunkSegments(segs: seq<Segment>, size: nat, overlap: int, encode: Encoder, decode: Decoder)
    returns (r: Chunked)
    ensures r.ValueError? <==> segs != [] && overlap >= size
    ensures segs == [] ==> r == Chunks([])
    ensures segs != [] && overlap < size ==> ChunkedAs(r.rows, segs, size, overlap, encode, decode)
  {
    hide ChunkedAs;
    if segs == [] { return Chunks([]); }
    if overlap >= size { return ValueError; }
    var full, starts, provenance := Layout(segs);
    StartsIncrease(segs);
    var tokens := encode(full);
    ghost var ws := Starts(|tokens|, size, overlap, 0);
    StartsAscend(|tokens|, size, overlap);
    FirstPrefix(tokens, decode, ws);
    assert RowsSoFar([], tokens, decode, ws, size, segs);
    hide End, RowsSoFar, PrefixLen, FullText, Ascending, Starts, Locate, BisectRight, SegmentStarts, StartOf,
        Increasing;

    var rows: seq<ChunkRow> := [];
    var start, ordinal, prefix := 0, 0, 0;
    while start < |tokens|
      invariant ordinal == |rows| <= |ws| && (start < |tokens| <==> |rows| < |ws|)
      invariant |rows| < |ws| ==> ws[|rows|] == start && prefix == PrefixLen(tokens, decode, ws, |rows|)
      invariant RowsSoFar(rows, tokens, decode, ws, size, segs)
      decreases |tokens| - start
    {
      RowIs(rows, tokens, decode, ws, size, segs);
      NextWindow(|tokens|, size, overlap, ws, ordinal);
      var end := End(|tokens|, size, start);
      var text := decode(tokens[start..end]);
      var (page, para) := provenance[Locate(starts, prefix)];
      rows := rows + [ChunkRow(text, ordinal, page, Some(para), prefix, prefix + |text|, end - start)];
      ordinal := ordinal + 1;
      if end == |tokens| { break; }
      var step := end - overlap;
      if ordinal < |ws| { PrefixNext(tokens, decode, ws, ordinal); }
      prefix := prefix + |decode(tokens[start..if step <= |tokens| then step else |tokens|])|;
      start := step;
    }
    AllRows(rows, segs, size, overlap, encode, decode, tokens, ws);
    r := Chunks(rows);
  }
}
