/** What the chunks say about the text they come from. Decoding inverts encoding, and no token
    of this text splits a character, so decoding a run of tokens splits at every token. */
module Spans {
  import opened Schema
  import opened Windows
  import opened Chunker

  ghost predicate Splits(decode: Decoder, tokens: seq<int>) {
    forall i, j, k | 0 <= i <= j <= k <= |tokens| ::
      decode(tokens[i..k]) == decode(tokens[i..j]) + decode(tokens[j..k])
  }

  ghost predicate Lossless(encode: Encoder, decode: Decoder, full: string) {
    decode(encode(full)) == full && Splits(decode, encode(full))
  }

  /** Characters before token `i`. */
  function CharsBefore(decode: Decoder, tokens: seq<int>, i: nat): nat
    requires i <= |tokens|
  {
    |decode(tokens[..i])|
  }

  lemma SplitAt(decode: Decoder, tokens: seq<int>, i: nat, j: nat)
    requires Splits(decode, tokens) && i <= j <= |tokens|
    ensures decode(tokens[..j]) == decode(tokens[..i]) + decode(tokens[i..j])
  {
    assert tokens[0..j] == tokens[..j] && tokens[0..i] == tokens[..i];
  }

  lemma NoTokens(decode: Decoder, tokens: seq<int>)
    requires Splits(decode, tokens)
    ensures decode([]) == ""
  {
    assert tokens[0..0] == [];
  }

  lemma {:induction false} PrefixIsChars(decode: Decoder, tokens: seq<int>, ws: seq<nat>, k: nat)
    requires Splits(decode, tokens) && Ascending(ws, |tokens|) && k < |ws| && ws[0] == 0
    ensures PrefixLen(tokens, decode, ws, k) == CharsBefore(decode, tokens, ws[k])
  {
    if k == 0 {
      NoTokens(decode, tokens);
      assert tokens[..0] == [];
    } else {
      PrefixIsChars(decode, tokens, ws, k - 1);
      SplitAt(decode, tokens, ws[k - 1], ws[k]);
    }
  }

  /** A window's text is the slice of the full text between the characters before it and before its end. */
  lemma WindowSlice(encode: Encoder, decode: Decoder, full: string, i: nat, j: nat)
    requires Lossless(encode, decode, full) && i <= j <= |encode(full)|
    ensures
      var tokens := encode(full);
      var from, to := CharsBefore(decode, tokens, i), CharsBefore(decode, tokens, j);
      from <= to <= |full| && decode(tokens[i..j]) == full[from..to]
  {
    var tokens := encode(full);
    SplitAt(decode, tokens, i, j);
    SplitAt(decode, tokens, j, |tokens|);
    assert tokens[..|tokens|] == tokens;
  }

  /** The span of chunk `k` in terms of the characters before its tokens. */
  lemma RowSpan(rows: seq<ChunkRow>, segs: seq<Segment>, size: nat, overlap: int, encode: Encoder, decode: Decoder,
                k: nat)
    requires segs != [] && overlap < size && ChunkedAs(rows, segs, size, overlap, encode, decode) && k < |rows|
    requires Lossless(encode, decode, FullText(segs))
    ensures
      var tokens := encode(FullText(segs));
      var start := Starts(|tokens|, size, overlap, 0)[k];
      && start <= End(|tokens|, size, start) <= |tokens|
      && rows[k].charStart == CharsBefore(decode, tokens, start)
      && rows[k].charEnd == CharsBefore(decode, tokens, End(|tokens|, size, start))
      && rows[k].text == decode(tokens[start..End(|tokens|, size, start)])
  {
    var tokens := encode(FullText(segs));
    var ws := Starts(|tokens|, size, overlap, 0);
    assert IsRow(rows[k], k, tokens, decode, ws, size, segs);
    StartAt(|tokens|, size, overlap, 0, 0);
    PrefixIsChars(decode, tokens, ws, k);
    SplitAt(decode, tokens, ws[k], End(|tokens|, size, ws[k]));
  }

  /** Each chunk's text is exactly the slice its span names. */
  lemma TextIsSlice(rows: seq<ChunkRow>, segs: seq<Segment>, size: nat, overlap: int, encode: Encoder,
                    decode: Decoder, k: nat)
    requires segs != [] && overlap < size && ChunkedAs(rows, segs, size, overlap, encode, decode) && k < |rows|
    requires Lossless(encode, decode, FullText(segs))
    ensures
      var full := FullText(segs);
      0 <= rows[k].charStart <= rows[k].charEnd <= |full| && rows[k].text == full[rows[k].charStart..rows[k].charEnd]
  {
    var tokens := encode(FullText(segs));
    var start := Starts(|tokens|, size, overlap, 0)[k];
    RowSpan(rows, segs, size, overlap, encode, decode, k);
    WindowSlice(encode, decode, FullText(segs), start, End(|tokens|, size, start));
  }

  // ---- gluing -------------------------------------------------------------------------------

  /** Each chunk starts within, or right at the end of, the one before it. */
  predicate Gluable(rows: seq<ChunkRow>) {
    forall k | 0 < k < |rows| ::
      rows[k].charStart <= rows[k - 1].charEnd && rows[k - 1].charEnd - rows[k].charStart <= |rows[k].text|
  }

  /** The chunk texts one after the other, each without what its span shares with the one before. */
  function Glue(rows: seq<ChunkRow>): string
    requires Gluable(rows)
  {
    if rows == [] then ""
    else if |rows| == 1 then rows[0].text
    else
      var last, before := rows[|rows| - 1], rows[|rows| - 2];
      Glue(rows[..|rows| - 1]) + last.text[before.charEnd - last.charStart..]
  }

  lemma {:induction false} GluePrefix(rows: seq<ChunkRow>, full: string)
    requires Gluable(rows) && rows != [] && rows[0].charStart == 0
    requires forall k | 0 <= k < |rows| ::
               0 <= rows[k].charStart <= rows[k].charEnd <= |full|
                   && rows[k].text == full[rows[k].charStart..rows[k].charEnd]
    ensures Glue(rows) == full[..rows[|rows| - 1].charEnd]
  {
    if |rows| > 1 {
      var last, before := rows[|rows| - 1], rows[|rows| - 2];
      var front := rows[..|rows| - 1];
      GluePrefix(front, full);
      assert front[|front| - 1] == before;
      assert last.text[before.charEnd - last.charStart..] == full[before.charEnd..last.charEnd];
    }
  }

  /** Later tokens start at later characters. */
  lemma CharsGrow(decode: Decoder, tokens: seq<int>, i: nat, j: nat)
    requires Splits(decode, tokens) && i <= j <= |tokens|
    ensures CharsBefore(decode, tokens, i) <= CharsBefore(decode, tokens, j)
  {
    SplitAt(decode, tokens, i, j);
  }

  lemma Neighbours(rows: seq<ChunkRow>, segs: seq<Segment>, size: nat, overlap: nat, encode: Encoder,
                   decode: Decoder, k: nat)
    requires segs != [] && overlap < size && ChunkedAs(rows, segs, size, overlap, encode, decode) && k + 1 < |rows|
    requires Lossless(encode, decode, FullText(segs))
    ensures rows[k].charStart <= rows[k + 1].charStart <= rows[k].charEnd <= rows[k + 1].charEnd
  {
    var tokens := encode(FullText(segs));
    var n := |tokens|;
    var ws := Starts(n, size, overlap, 0);
    RowSpan(rows, segs, size, overlap, encode, decode, k);
    RowSpan(rows, segs, size, overlap, encode, decode, k + 1);
    Shape(n, size, overlap, k);
    CharsGrow(decode, tokens, ws[k], ws[k + 1]);
    CharsGrow(decode, tokens, ws[k + 1], End(n, size, ws[k]));
    CharsGrow(decode, tokens, End(n, size, ws[k]), End(n, size, ws[k + 1]));
  }

  /** Round trip: dropping the overlap the stored spans show rebuilds the full text. */
  lemma GluingRebuilds(rows: seq<ChunkRow>, segs: seq<Segment>, size: nat, overlap: nat, encode: Encoder,
                       decode: Decoder)
    requires segs != [] && overlap < size && ChunkedAs(rows, segs, size, overlap, encode, decode)
    requires Lossless(encode, decode, FullText(segs))
    ensures Gluable(rows) && Glue(rows) == FullText(segs)
  {
    hide ChunkedAs, Lossless, FullText;
    var full := FullText(segs);
    forall k | 0 <= k < |rows|
      ensures 0 <= rows[k].charStart <= rows[k].charEnd <= |full|
      ensures rows[k].text == full[rows[k].charStart..rows[k].charEnd]
    {
      TextIsSlice(rows, segs, size, overlap, encode, decode, k);
    }
    forall k | 0 < k < |rows| ensures rows[k].charStart <= rows[k - 1].charEnd <= rows[k].charEnd {
      Neighbours(rows, segs, size, overlap, encode, decode, k - 1);
    }
    Ends(rows, segs, size, overlap, encode, decode);
    if rows != [] { GluePrefix(rows, full); }
  }

  lemma Ends(rows: seq<ChunkRow>, segs: seq<Segment>, size: nat, overlap: nat, encode: Encoder, decode: Decoder)
    requires segs != [] && overlap < size && ChunkedAs(rows, segs, size, overlap, encode, decode)
    requires Lossless(encode, decode, FullText(segs))
    ensures rows == [] ==> FullText(segs) == ""
    ensures rows != [] ==> rows[0].charStart == 0 && rows[|rows| - 1].charEnd == |FullText(segs)|
  {
    var tokens := encode(FullText(segs));
    var n := |tokens|;
    NoTokens(decode, tokens);
    if rows == [] {
      if n > 0 { LastStart(n, size, overlap, 0); }
    } else {
      RowSpan(rows, segs, size, overlap, encode, decode, 0);
      RowSpan(rows, segs, size, overlap, encode, decode, |rows| - 1);
      Shape(n, size, overlap, |rows| - 1);
      assert tokens[..0] == [] && tokens[..n] == tokens;
    }
  }
}
