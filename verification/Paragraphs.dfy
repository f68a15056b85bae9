/** The paragraph splitter of plain-text extraction, and when it inverts the chunker's join. */
module Paragraphs {
  import opened Schema
  import opened Chunker

  // ---- the string operations --------------------------------------------------------------

  predicate CrLfAt(t: string, i: nat) {
    i + 1 < |t| && t[i] == '\r' && t[i + 1] == '\n'
  }

  predicate HasCrLf(t: string) {
    exists i :: 0 <= i < |t| && CrLfAt(t, i)
  }

  /** `replace("\r\n", "\n")`. */
  function ReplaceCrLf(t: string): string {
    if t == "" then ""
    else if CrLfAt(t, 0) then "\n" + ReplaceCrLf(t[2..])
    else [t[0]] + ReplaceCrLf(t[1..])
  }

  predicate BreakAt(t: string, i: nat) {
    i + 1 < |t| && t[i] == '\n' && t[i + 1] == '\n'
  }

  predicate NoBreak(t: string) {
    forall i | 0 <= i < |t| :: !BreakAt(t, i)
  }

  /** `split("\n\n")`. */
  function Split(t: string): (pieces: seq<string>)
    ensures pieces != []
  {
    if t == "" then [""]
    else if BreakAt(t, 0) then [""] + Split(t[2..])
    else
      var rest := Split(t[1..]);
      [[t[0]] + rest[0]] + rest[1..]
  }

  /** What `strip()` removes. */
  predicate IsSpace(c: char) {
    || '\t' <= c <= '\r' || c == ' '
    || '\U{1C}' <= c <= '\U{1F}' || c == '\U{85}' || c == '\U{A0}' || c == '\U{1680}'
    || '\U{2000}' <= c <= '\U{200A}' || c == '\U{2028}' || c == '\U{2029}' || c == '\U{202F}'
    || c == '\U{205F}' || c == '\U{3000}'
  }

  function StripLeft(t: string): string {
    if t != "" && IsSpace(t[0]) then StripLeft(t[1..]) else t
  }

  function StripRight(t: string): string {
    if t != "" && IsSpace(t[|t| - 1]) then StripRight(t[..|t| - 1]) else t
  }

  function Strip(t: string): string {
    StripRight(StripLeft(t))
  }

  function NonBlank(pieces: seq<string>): seq<string> {
    if pieces == [] then []
    else (if Strip(pieces[0]) == "" then [] else [Strip(pieces[0])]) + NonBlank(pieces[1..])
  }

  function SplitParagraphs(t: string): seq<string> {
    NonBlank(Split(ReplaceCrLf(t)))
  }

  function ExtractText(t: string): (segs: seq<Segment>)
    ensures |segs| == |SplitParagraphs(t)|
    ensures forall i | 0 <= i < |segs| :: segs[i] == Segment(Some(1), i, SplitParagraphs(t)[i])
  {
    var texts := SplitParagraphs(t);
    seq(|texts|, i requires 0 <= i < |texts| => Segment(Some(1), i, texts[i]))
  }

  function Join(texts: seq<string>): string {
    if texts == [] then ""
    else if |texts| == 1 then texts[0]
    else texts[0] + SEPARATOR + Join(texts[1..])
  }

  // ---- what a paragraph is ------------------------------------------------------------------

  /** Not empty, no space at either end, no blank line inside. */
  predicate Paragraph(t: string) {
    t != "" && !IsSpace(t[0]) && !IsSpace(t[|t| - 1]) && NoBreak(t)
  }

  predicate AllParagraphs(texts: seq<string>) {
    forall i | 0 <= i < |texts| :: Paragraph(texts[i])
  }

  lemma {:induction false} FirstPieceIsPrefix(t: string)
    ensures Split(t)[0] <= t
  {
    if t != "" && !BreakAt(t, 0) {
      FirstPieceIsPrefix(t[1..]);
    }
  }

  lemma {:induction false} PiecesUnbroken(t: string)
    ensures forall i | 0 <= i < |Split(t)| :: NoBreak(Split(t)[i])
  {
    if t == "" {
    } else if BreakAt(t, 0) {
      PiecesUnbroken(t[2..]);
    } else {
      var rest := Split(t[1..]);
      PiecesUnbroken(t[1..]);
      FirstPieceIsPrefix(t[1..]);
      PrependUnbroken(t[0], rest[0]);
    }
  }

  lemma PrependUnbroken(c: char, t: string)
    requires NoBreak(t) && !BreakAt([c] + t, 0)
    ensures NoBreak([c] + t)
  {
    forall i | 0 <= i < |[c] + t| ensures !BreakAt([c] + t, i) {
      if i > 0 { assert !BreakAt(t, i - 1); }
    }
  }

  lemma {:induction false} StripLeftSlice(t: string) returns (from: nat)
    ensures from <= |t| && StripLeft(t) == t[from..]
    ensures StripLeft(t) != "" ==> !IsSpace(StripLeft(t)[0])
  {
    from := 0;
    if t != "" && IsSpace(t[0]) {
      var f := StripLeftSlice(t[1..]);
      from := f + 1;
    }
  }

  lemma {:induction false} StripRightSlice(t: string) returns (to: nat)
    ensures to <= |t| && StripRight(t) == t[..to]
    ensures StripRight(t) != "" ==> !IsSpace(StripRight(t)[|StripRight(t)| - 1])
  {
    to := |t|;
    if t != "" && IsSpace(t[|t| - 1]) {
      to := StripRightSlice(t[..|t| - 1]);
    }
  }

  lemma SliceUnbroken(t: string, from: nat, to: nat)
    requires NoBreak(t) && from <= to <= |t|
    ensures NoBreak(t[from..to])
  {
    forall i | 0 <= i < to - from ensures !BreakAt(t[from..to], i) {
      assert !BreakAt(t, from + i);
    }
  }

  lemma StripGives(t: string)
    requires NoBreak(t)
    ensures Strip(t) == "" || Paragraph(Strip(t))
    ensures |Strip(t)| <= |t|
  {
    var left := StripLeft(t);
    var from := StripLeftSlice(t);
    var to := StripRightSlice(left);
    assert Strip(t) == left[..to] == t[from..from + to];
    SliceUnbroken(t, from, from + to);
  }

  lemma {:induction false} NonBlankParagraphs(pieces: seq<string>)
    requires forall i | 0 <= i < |pieces| :: NoBreak(pieces[i])
    ensures AllParagraphs(NonBlank(pieces))
  {
    if pieces != [] {
      NonBlankParagraphs(pieces[1..]);
      StripGives(pieces[0]);
    }
  }

  lemma SplitGivesParagraphs(t: string)
    ensures AllParagraphs(SplitParagraphs(t))
  {
    PiecesUnbroken(ReplaceCrLf(t));
    NonBlankParagraphs(Split(ReplaceCrLf(t)));
  }

  // ---- splitting what was joined --------------------------------------------------------------

  lemma {:induction false} ParagraphStripped(t: string)
    requires Paragraph(t)
    ensures Strip(t) == t
  {
  }

  /** A text without a break, not ending in a newline, is the first piece before a separator. */
  lemma {:induction false} SplitFirst(t: string, rest: string)
    requires NoBreak(t) && (t != "" ==> t[|t| - 1] != '\n')
    ensures Split(t + SEPARATOR + rest) == [t] + Split(rest)
  {
    var all := t + SEPARATOR + rest;
    if t == "" {
      assert BreakAt(all, 0) && all[2..] == rest;
    } else {
      assert !BreakAt(all, 0) by {
        assert !BreakAt(t, 0);
      }
      assert all[1..] == t[1..] + SEPARATOR + rest;
      SliceUnbroken(t, 1, |t|);
      assert t[1..|t|] == t[1..];
      SplitFirst(t[1..], rest);
      assert [t[0]] + t[1..] == t;
    }
  }

  lemma {:induction false} SplitWhole(t: string)
    requires NoBreak(t)
    ensures Split(t) == [t]
  {
    if t != "" {
      assert !BreakAt(t, 0);
      SliceUnbroken(t, 1, |t|);
      assert t[1..|t|] == t[1..];
      SplitWhole(t[1..]);
      assert [t[0]] + t[1..] == t;
    }
  }

  lemma {:induction false} SplitJoin(texts: seq<string>)
    requires AllParagraphs(texts) && texts != []
    ensures Split(Join(texts)) == texts
  {
    assert Paragraph(texts[0]);
    if |texts| == 1 {
      SplitWhole(texts[0]);
    } else {
      SplitJoin(texts[1..]);
      SplitFirst(texts[0], Join(texts[1..]));
    }
  }

  lemma {:induction false} NonBlankSame(texts: seq<string>)
    requires AllParagraphs(texts)
    ensures NonBlank(texts) == texts
  {
    if texts != [] {
      assert Paragraph(texts[0]);
      ParagraphStripped(texts[0]);
      NonBlankSame(texts[1..]);
    }
  }

  lemma {:induction false} ReplaceNothing(t: string)
    requires !HasCrLf(t)
    ensures ReplaceCrLf(t) == t
  {
    if t != "" {
      assert !CrLfAt(t, 0);
      forall i | 0 <= i < |t[1..]| ensures !CrLfAt(t[1..], i) { assert !CrLfAt(t, i + 1); }
      ReplaceNothing(t[1..]);
    }
  }

  lemma JoinCrLf(t: string, rest: string)
    requires !HasCrLf(t) && !HasCrLf(rest) && Paragraph(t)
    ensures !HasCrLf(t + SEPARATOR + rest)
  {
    var all := t + SEPARATOR + rest;
    forall i | 0 <= i < |all| ensures !CrLfAt(all, i) {
      if i < |t| {
        assert !CrLfAt(t, i);
      } else if i >= |t| + 2 {
        assert !CrLfAt(rest, i - |t| - 2);
      }
    }
  }

  lemma {:induction false} JoinHasNoCrLf(texts: seq<string>)
    requires AllParagraphs(texts) && forall i | 0 <= i < |texts| :: !HasCrLf(texts[i])
    ensures !HasCrLf(Join(texts))
  {
    if |texts| > 1 {
      JoinHasNoCrLf(texts[1..]);
      assert Paragraph(texts[0]);
      JoinCrLf(texts[0], Join(texts[1..]));
    }
  }

  /** Paragraphs without a carriage-return line end come back from their join. */
  lemma RoundTrip(texts: seq<string>)
    requires AllParagraphs(texts) && forall i | 0 <= i < |texts| :: !HasCrLf(texts[i])
    ensures SplitParagraphs(Join(texts)) == texts
  {
    if texts == [] {
      assert Split("") == [""] && Strip("") == "";
    } else {
      JoinHasNoCrLf(texts);
      ReplaceNothing(Join(texts));
      SplitJoin(texts);
      NonBlankSame(texts);
    }
  }

  // ---- and when it does not come back ---------------------------------------------------------

  lemma {:induction false} ReplaceShrinks(t: string)
    ensures |ReplaceCrLf(t)| <= |t|
    ensures HasCrLf(t) ==> |ReplaceCrLf(t)| < |t|
  {
    if t == "" {
    } else if CrLfAt(t, 0) {
      ReplaceShrinks(t[2..]);
    } else {
      ReplaceShrinks(t[1..]);
      if HasCrLf(t) {
        var i :| 0 <= i < |t| && CrLfAt(t, i);
        assert CrLfAt(t[1..], i - 1);
      }
    }
  }

  lemma {:induction false} JoinSplit(t: string)
    ensures Join(Split(t)) == t
  {
    if t == "" {
    } else if BreakAt(t, 0) {
      JoinSplit(t[2..]);
      assert Split(t)[1..] == Split(t[2..]);
      assert t == "" + SEPARATOR + t[2..];
    } else {
      JoinSplit(t[1..]);
      assert Split(t)[1..] == Split(t[1..])[1..];
      assert t == [t[0]] + t[1..];
    }
  }

  lemma {:induction false} StripShrinks(t: string)
    ensures |Strip(t)| <= |t|
  {
    var from := StripLeftSlice(t);
    var to := StripRightSlice(StripLeft(t));
  }

  lemma {:induction false} NonBlankShrinks(pieces: seq<string>)
    requires pieces != []
    ensures |Join(NonBlank(pieces))| <= |Join(pieces)|
  {
    StripShrinks(pieces[0]);
    if |pieces| > 1 {
      NonBlankShrinks(pieces[1..]);
      var kept, rest := NonBlank(pieces), NonBlank(pieces[1..]);
      if Strip(pieces[0]) != "" {
        assert kept == [Strip(pieces[0])] + rest && kept[1..] == rest;
      } else {
        assert kept == rest;
      }
    } else {
      assert pieces[1..] == [];
    }
  }

  /** The paragraphs of a text, joined, are no longer than the text with its line ends replaced. */
  lemma ParagraphsShrink(t: string)
    ensures |Join(SplitParagraphs(t))| <= |ReplaceCrLf(t)|
  {
    NonBlankShrinks(Split(ReplaceCrLf(t)));
    JoinSplit(ReplaceCrLf(t));
  }

  lemma {:induction false} JoinKeepsCrLf(texts: seq<string>, i: nat)
    requires i < |texts| && HasCrLf(texts[i])
    ensures HasCrLf(Join(texts))
  {
    var all := Join(texts);
    if i == 0 {
      var k :| 0 <= k < |texts[0]| && CrLfAt(texts[0], k);
      assert CrLfAt(all, k);
    } else {
      JoinKeepsCrLf(texts[1..], i - 1);
      var rest := Join(texts[1..]);
      var k :| 0 <= k < |rest| && CrLfAt(rest, k);
      assert all == texts[0] + SEPARATOR + rest;
      assert CrLfAt(all, |texts[0]| + 2 + k);
    }
  }

  /** Paragraphs come back from their join exactly when none of them has a carriage-return line end inside. */
  lemma RoundTripIff(texts: seq<string>)
    requires AllParagraphs(texts)
    ensures SplitParagraphs(Join(texts)) == texts <==> forall i | 0 <= i < |texts| :: !HasCrLf(texts[i])
  {
    if i :| 0 <= i < |texts| && HasCrLf(texts[i]) {
      JoinKeepsCrLf(texts, i);
      ReplaceShrinks(Join(texts));
      ParagraphsShrink(Join(texts));
    } else {
      RoundTrip(texts);
    }
  }

  // ---- which inputs ---------------------------------------------------------------------------

  predicate CrCrLfAt(t: string, i: nat) {
    i + 2 < |t| && t[i] == '\r' && CrLfAt(t, i + 1)
  }

  predicate HasCrCrLf(t: string) {
    exists i :: 0 <= i < |t| && CrCrLfAt(t, i)
  }

  lemma PrependNoCrLf(c: char, t: string)
    requires !HasCrLf(t) && !CrLfAt([c] + t, 0)
    ensures !HasCrLf([c] + t)
  {
    forall i | 0 <= i < |[c] + t| ensures !CrLfAt([c] + t, i) {
      if i > 0 { assert !CrLfAt(t, i - 1); }
    }
  }

  /** One pass of replacing leaves a line end only where a carriage return stood before one. */
  lemma {:induction false} ReplaceLeavesNone(t: string)
    requires !HasCrCrLf(t)
    ensures !HasCrLf(ReplaceCrLf(t))
    ensures ReplaceCrLf(t) != "" && ReplaceCrLf(t)[0] == '\n' ==> t[0] == '\n' || CrLfAt(t, 0)
  {
    if t == "" {
    } else if CrLfAt(t, 0) {
      forall i | 0 <= i < |t[2..]| ensures !CrCrLfAt(t[2..], i) { assert !CrCrLfAt(t, i + 2); }
      ReplaceLeavesNone(t[2..]);
      PrependNoCrLf('\n', ReplaceCrLf(t[2..]));
    } else {
      forall i | 0 <= i < |t[1..]| ensures !CrCrLfAt(t[1..], i) { assert !CrCrLfAt(t, i + 1); }
      ReplaceLeavesNone(t[1..]);
      assert !CrCrLfAt(t, 0);
      PrependNoCrLf(t[0], ReplaceCrLf(t[1..]));
    }
  }

  lemma {:induction false} PiecesNoCrLf(t: string)
    requires !HasCrLf(t)
    ensures forall i | 0 <= i < |Split(t)| :: !HasCrLf(Split(t)[i])
  {
    if t == "" {
    } else if BreakAt(t, 0) {
      SliceNoCrLf(t, 2, |t|);
      assert t[2..|t|] == t[2..];
      PiecesNoCrLf(t[2..]);
    } else {
      SliceNoCrLf(t, 1, |t|);
      assert t[1..|t|] == t[1..];
      PiecesNoCrLf(t[1..]);
      FirstPieceIsPrefix(t[1..]);
      assert !CrLfAt(t, 0);
      PrependNoCrLf(t[0], Split(t[1..])[0]);
    }
  }

  lemma SliceNoCrLf(t: string, from: nat, to: nat)
    requires !HasCrLf(t) && from <= to <= |t|
    ensures !HasCrLf(t[from..to])
  {
    forall i | 0 <= i < to - from ensures !CrLfAt(t[from..to], i) { assert !CrLfAt(t, from + i); }
  }

  lemma StripNoCrLf(t: string)
    requires !HasCrLf(t)
    ensures !HasCrLf(Strip(t))
  {
    var left := StripLeft(t);
    var from := StripLeftSlice(t);
    var to := StripRightSlice(left);
    assert Strip(t) == left[..to] == t[from..from + to];
    SliceNoCrLf(t, from, from + to);
  }

  lemma {:induction false} NonBlankNoCrLf(pieces: seq<string>)
    requires forall i | 0 <= i < |pieces| :: !HasCrLf(pieces[i])
    ensures forall i | 0 <= i < |NonBlank(pieces)| :: !HasCrLf(NonBlank(pieces)[i])
  {
    if pieces != [] {
      NonBlankNoCrLf(pieces[1..]);
      StripNoCrLf(pieces[0]);
    }
  }

  // ---- with the chunker -----------------------------------------------------------------------

  lemma {:induction false} JoinLast(texts: seq<string>)
    requires |texts| >= 2
    ensures Join(texts) == Join(texts[..|texts| - 1]) + SEPARATOR + texts[|texts| - 1]
  {
    var front := texts[..|texts| - 1];
    if |texts| > 2 {
      JoinLast(texts[1..]);
      assert texts[1..][..|texts| - 2] == front[1..];
      assert texts[1..][|texts| - 2] == texts[|texts| - 1];
    } else {
      assert texts[1..] == [texts[1]];
    }
  }

  lemma {:induction false} FullTextIsJoin(segs: seq<Segment>, texts: seq<string>)
    requires |segs| == |texts| && forall i | 0 <= i < |segs| :: segs[i].text == texts[i]
    ensures FullText(segs) == Join(texts)
  {
    if |segs| >= 2 {
      FullTextIsJoin(segs[..|segs| - 1], texts[..|texts| - 1]);
      JoinLast(texts);
    }
  }

  /** Round trip through extraction and chunking: splitting the full text gives back the segment texts
      exactly when no segment has a carriage-return line end inside, in particular for every input
      in which no carriage return stands right before a carriage-return line end. */
  lemma ExtractionRoundTrip(t: string)
    ensures
      var texts := SplitParagraphs(t);
      var full := FullText(ExtractText(t));
      && (SplitParagraphs(full) == texts <==> forall i | 0 <= i < |texts| :: !HasCrLf(texts[i]))
      && (!HasCrCrLf(t) ==> SplitParagraphs(full) == texts)
  {
    hide SplitParagraphs;
    var texts := SplitParagraphs(t);
    FullTextIsJoin(ExtractText(t), texts);
    SplitGivesParagraphs(t);
    RoundTripIff(texts);
    if !HasCrCrLf(t) { NoCrLfLeft(t); }
  }

  lemma NoCrLfLeft(t: string)
    requires !HasCrCrLf(t)
    ensures forall i | 0 <= i < |SplitParagraphs(t)| :: !HasCrLf(SplitParagraphs(t)[i])
  {
    ReplaceLeavesNone(t);
    PiecesNoCrLf(ReplaceCrLf(t));
    NonBlankNoCrLf(Split(ReplaceCrLf(t)));
  }

  /** An input on which the round trip fails. */
  lemma DoubledReturnDoesNotComeBack()
    ensures
      var t := "a\r\r\nb";
      && SplitParagraphs(t) == ["a\r\nb"]
      && SplitParagraphs(FullText(ExtractText(t))) != SplitParagraphs(t)
  {
    var t, once := "a\r\r\nb", "a\r\nb";
    assert ReplaceCrLf("\r\nb") == "\n" + ReplaceCrLf("b");
    assert ReplaceCrLf("b") == "b" + ReplaceCrLf("");
    assert ReplaceCrLf("\r\r\nb") == "\r" + ReplaceCrLf("\r\nb");
    assert ReplaceCrLf(t) == "a" + ReplaceCrLf("\r\r\nb") == once;
    assert NoBreak(once);
    SplitWhole(once);
    ParagraphStripped(once);
    NonBlankSame([once]);
    ExtractionRoundTrip(t);
    assert CrLfAt(once, 1);
    assert HasCrLf(SplitParagraphs(t)[0]);
  }
}
