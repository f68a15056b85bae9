/** The paragraph splitter loses nothing: every character that is not a space comes back, in order, in the
    paragraph it stood in. */
module Words {
  import opened Chunker
  import opened Paragraphs

  /** The characters `strip()` takes for spaces, one by one. */
  lemma SpacesAre(c: char)
    ensures
      IsSpace(c) <==>
        c in {'\t', '\n', '\U{0B}', '\U{0C}', '\r', '\U{1C}', '\U{1D}', '\U{1E}', '\U{1F}', ' ', '\U{85}', '\U{A0}',
              '\U{1680}', '\U{2000}', '\U{2001}', '\U{2002}', '\U{2003}', '\U{2004}', '\U{2005}', '\U{2006}',
              '\U{2007}', '\U{2008}', '\U{2009}', '\U{200A}', '\U{2028}', '\U{2029}', '\U{202F}', '\U{205F}',
              '\U{3000}'}
  {
    var k := c as int;
    if '\t' <= c <= '\r' { assert k == 9 || k == 10 || k == 11 || k == 12 || k == 13; }
    if '\U{1C}' <= c <= '\U{1F}' { assert k == 28 || k == 29 || k == 30 || k == 31; }
    if '\U{2000}' <= c <= '\U{200A}' {
      assert 8192 <= k <= 8202;
      assert k == 8192 || k == 8193 || k == 8194 || k == 8195 || k == 8196 || k == 8197 || k == 8198 || k == 8199
          || k == 8200 || k == 8201 || k == 8202;
    }
  }

  /** The characters that are not spaces, in order. */
  function Ink(t: string): string {
    if t == "" then "" else (if IsSpace(t[0]) then "" else [t[0]]) + Ink(t[1..])
  }

  lemma {:induction false} InkConcat(a: string, b: string)
    ensures Ink(a + b) == Ink(a) + Ink(b)
  {
    if a == "" {
      assert a + b == b;
    } else {
      assert (a + b)[1..] == a[1..] + b;
      InkConcat(a[1..], b);
    }
  }

  lemma {:induction false} InkOfSpaces(t: string)
    requires forall i | 0 <= i < |t| :: IsSpace(t[i])
    ensures Ink(t) == ""
  {
    if t != "" { InkOfSpaces(t[1..]); }
  }

  lemma SeparatorHasNoInk()
    ensures Ink(SEPARATOR) == ""
  {
    InkOfSpaces(SEPARATOR);
  }

  lemma {:induction false} ReplaceKeepsInk(t: string)
    ensures Ink(ReplaceCrLf(t)) == Ink(t)
  {
    if t == "" {
    } else if CrLfAt(t, 0) {
      ReplaceKeepsInk(t[2..]);
      var rest := ReplaceCrLf(t[2..]);
      InkConcat("\n", rest);
      InkOfSpaces("\n");
      InkConcat(t[..2], t[2..]);
      assert t == t[..2] + t[2..];
      InkOfSpaces(t[..2]);
    } else {
      ReplaceKeepsInk(t[1..]);
      InkConcat([t[0]], ReplaceCrLf(t[1..]));
      InkConcat([t[0]], t[1..]);
      assert t == [t[0]] + t[1..];
    }
  }

  // ---- where a stretch of text is among pieces ------------------------------------------------

  /** `w` stands in piece `p` at offset `o`, after the ink `before`. */
  predicate StandsAt(pieces: seq<string>, p: nat, o: nat, w: string, before: string) {
    && p < |pieces| && o + |w| <= |pieces[p]| && pieces[p][o..o + |w|] == w
    && Ink(Join(pieces[..p])) + Ink(pieces[p][..o]) == before
  }

  /** Joining one more piece adds its ink. */
  lemma {:induction false} JoinInk(pieces: seq<string>, more: string)
    ensures Ink(Join(pieces + [more])) == Ink(Join(pieces)) + Ink(more)
  {
    if pieces == [] {
      assert pieces + [more] == [more];
    } else {
      JoinLast(pieces + [more]);
      assert (pieces + [more])[..|pieces|] == pieces;
      InkConcat(Join(pieces) + SEPARATOR, more);
      InkConcat(Join(pieces), SEPARATOR);
      SeparatorHasNoInk();
    }
  }

  lemma {:induction false} JoinFirstInk(first: string, pieces: seq<string>)
    ensures Ink(Join([first] + pieces)) == Ink(first) + Ink(Join(pieces))
  {
    if pieces == [] {
      assert [first] + pieces == [first];
    } else {
      assert ([first] + pieces)[1..] == pieces;
      InkConcat(first + SEPARATOR, Join(pieces));
      InkConcat(first, SEPARATOR);
      SeparatorHasNoInk();
    }
  }

  /** One piece in front moves the place on, and its ink goes before. */
  lemma StandsAfter(first: string, pieces: seq<string>, p: nat, o: nat, w: string, before: string)
    requires StandsAt(pieces, p, o, w, before)
    ensures StandsAt([first] + pieces, p + 1, o, w, Ink(first) + before)
  {
    hide Ink, Join;
    var all := [first] + pieces;
    assert all[..p + 1] == [first] + pieces[..p] && all[p + 1] == pieces[p];
    JoinFirstInk(first, pieces[..p]);
  }

  /** One character more at the front of the first piece. */
  lemma StandsBehind(x: char, pieces: seq<string>, p: nat, o: nat, w: string, before: string)
    requires pieces != [] && StandsAt(pieces, p, o, w, before)
    ensures StandsAt([[x] + pieces[0]] + pieces[1..], p, if p == 0 then o + 1 else o, w, Ink([x]) + before)
  {
    hide Ink, Join;
    var all := [[x] + pieces[0]] + pieces[1..];
    if p == 0 {
      assert all[..0] == pieces[..0] == [];
      assert all[0][..o + 1] == [x] + pieces[0][..o];
      InkConcat([x], pieces[0][..o]);
      NoPieces();
      assert all[0][o + 1..o + 1 + |w|] == pieces[0][o..o + |w|];
    } else {
      assert pieces[..p] == [pieces[0]] + pieces[1..p] && all[..p] == [[x] + pieces[0]] + pieces[1..p];
      JoinFirstInk(pieces[0], pieces[1..p]);
      JoinFirstInk([x] + pieces[0], pieces[1..p]);
      InkConcat([x], pieces[0]);
    }
  }

  lemma NoPieces()
    ensures Ink(Join([])) == ""
  {
  }

  /** A stretch without a break that begins at the start and does not end in a newline is in the first piece. */
  lemma {:induction false} FirstPieceHolds(u: string, n: nat)
    requires 0 < n <= |u| && NoBreak(u[..n]) && u[n - 1] != '\n'
    ensures n <= |Split(u)[0]| && Split(u)[0][..n] == u[..n]
  {
    assert !BreakAt(u, 0) by {
      if BreakAt(u, 0) { assert BreakAt(u[..n], 0); }
    }
    if n > 1 {
      SliceUnbroken(u[..n], 1, n);
      assert u[..n][1..n] == u[1..][..n - 1];
      FirstPieceHolds(u[1..], n - 1);
    }
  }

  /** A stretch of the text behind a leading separator stands one piece further on in the text. */
  lemma PastBreak(u: string, i: nat, p: nat, o: nat, w: string)
    requires BreakAt(u, 0) && 2 <= i <= |u| && StandsAt(Split(u[2..]), p, o, w, Ink(u[2..][..i - 2]))
    ensures StandsAt(Split(u), p + 1, o, w, Ink(u[..i]))
  {
    hide Ink, Join, StandsAt;
    assert Split(u) == [""] + Split(u[2..]);
    hide Split, BreakAt;
    StandsAfterEmpty(Split(u[2..]), p, o, w, Ink(u[2..][..i - 2]));
    InkBehindBreak(u, i);
  }

  lemma StandsAfterEmpty(pieces: seq<string>, p: nat, o: nat, w: string, before: string)
    requires StandsAt(pieces, p, o, w, before)
    ensures StandsAt([""] + pieces, p + 1, o, w, before)
  {
    StandsAfter("", pieces, p, o, w, before);
    InkOfSpaces("");
    hide StandsAt;
    assert Ink("") + before == before;
  }

  lemma InkBehindBreak(u: string, i: nat)
    requires BreakAt(u, 0) && 2 <= i <= |u|
    ensures Ink(u[..i]) == Ink(u[2..][..i - 2])
  {
    InkAfter(u, 2, i);
    InkOfSpaces(u[..2]);
  }

  /** A stretch of the text behind a first character that begins no separator stands in the same piece. */
  lemma PastFirst(u: string, i: nat, p: nat, o: nat, w: string)
    requires 1 <= i <= |u| && !BreakAt(u, 0) && StandsAt(Split(u[1..]), p, o, w, Ink(u[1..][..i - 1]))
    ensures StandsAt(Split(u), p, if p == 0 then o + 1 else o, w, Ink(u[..i]))
  {
    hide Ink, Join, StandsAt;
    StandsBehind(u[0], Split(u[1..]), p, o, w, Ink(u[1..][..i - 1]));
    InkAfter(u, 1, i);
    assert u[..1] == [u[0]];
  }

  lemma SliceBehind(u: string, n: nat, i: nat, j: nat)
    requires n <= i <= j <= |u|
    ensures u[n..][i - n..j - n] == u[i..j]
  {
  }

  /** `split` keeps every such stretch in one piece, with the ink before it before it. */
  lemma {:induction false} PieceHolds(u: string, i: nat, n: nat) returns (p: nat, o: nat)
    requires 0 < n && i + n <= |u| && NoBreak(u[i..i + n]) && u[i] != '\n' && u[i + n - 1] != '\n'
    ensures StandsAt(Split(u), p, o, u[i..i + n], Ink(u[..i]))
    decreases |u|
  {
    hide Ink, Join, StandsAt;
    if BreakAt(u, 0) {
      assert i >= 2;
      SliceBehind(u, 2, i, i + n);
      p, o := PieceHolds(u[2..], i - 2, n);
      PastBreak(u, i, p, o, u[i..i + n]);
      p := p + 1;
    } else if i == 0 {
      p, o := 0, 0;
      StandsFirst(u, n);
    } else {
      SliceBehind(u, 1, i, i + n);
      p, o := PieceHolds(u[1..], i - 1, n);
      PastFirst(u, i, p, o, u[i..i + n]);
      o := if p == 0 then o + 1 else o;
    }
  }

  lemma InkAfter(u: string, k: nat, i: nat)
    requires k <= i <= |u|
    ensures Ink(u[..i]) == Ink(u[..k]) + Ink(u[k..][..i - k])
  {
    assert u[..i] == u[..k] + u[k..][..i - k];
    InkConcat(u[..k], u[k..][..i - k]);
  }

  lemma StandsFirst(u: string, n: nat)
    requires 0 < n <= |u| && NoBreak(u[..n]) && u[n - 1] != '\n'
    ensures StandsAt(Split(u), 0, 0, u[0..n], Ink(u[..0]))
  {
    FirstPieceHolds(u, n);
    assert Split(u)[..0] == [] && Split(u)[0][..0] == "" == u[..0];
  }

  // ---- stripping ------------------------------------------------------------------------------

  lemma {:induction false} StripLeftCuts(t: string) returns (from: nat)
    ensures from <= |t| && StripLeft(t) == t[from..] && forall i | 0 <= i < from :: IsSpace(t[i])
  {
    from := 0;
    if t != "" && IsSpace(t[0]) {
      var f := StripLeftCuts(t[1..]);
      from := f + 1;
      assert forall i | 0 < i < from :: t[i] == t[1..][i - 1];
    }
  }

  lemma {:induction false} StripRightCuts(t: string) returns (to: nat)
    ensures to <= |t| && StripRight(t) == t[..to] && forall i | to <= i < |t| :: IsSpace(t[i])
  {
    to := |t|;
    if t != "" && IsSpace(t[|t| - 1]) { to := StripRightCuts(t[..|t| - 1]); }
  }

  /** `strip` cuts spaces at the two ends and nothing else. */
  lemma StripCuts(t: string) returns (from: nat, to: nat)
    ensures from <= to <= |t| && Strip(t) == t[from..to]
    ensures (forall i | 0 <= i < from :: IsSpace(t[i])) && (forall i | to <= i < |t| :: IsSpace(t[i]))
  {
    from := StripLeftCuts(t);
    var end := StripRightCuts(StripLeft(t));
    to := from + end;
    assert forall i | to <= i < |t| :: t[i] == t[from..][i - from];
  }

  lemma StripKeepsInk(t: string)
    ensures Ink(Strip(t)) == Ink(t)
  {
    var from, to := StripCuts(t);
    assert t == t[..from] + t[from..to] + t[to..];
    InkConcat(t[..from] + t[from..to], t[to..]);
    InkConcat(t[..from], t[from..to]);
    InkOfSpaces(t[..from]);
    InkOfSpaces(t[to..]);
  }

  lemma {:induction false} NonBlankKeepsInk(pieces: seq<string>)
    ensures Ink(Join(NonBlank(pieces))) == Ink(Join(pieces))
  {
    if pieces != [] {
      NonBlankKeepsInk(pieces[1..]);
      StripKeepsInk(pieces[0]);
      assert pieces == [pieces[0]] + pieces[1..];
      JoinFirstInk(pieces[0], pieces[1..]);
      JoinFirstInk(Strip(pieces[0]), NonBlank(pieces[1..]));
      if Strip(pieces[0]) == "" {
        assert NonBlank(pieces) == NonBlank(pieces[1..]);
      } else {
        assert NonBlank(pieces) == [Strip(pieces[0])] + NonBlank(pieces[1..]);
      }
    }
  }

  /** The stretch is where it was in its stripped piece. */
  lemma InStripped(t: string, o: nat, w: string) returns (o': nat)
    requires w != "" && o + |w| <= |t| && t[o..o + |w|] == w && !IsSpace(w[0]) && !IsSpace(w[|w| - 1])
    ensures Strip(t) != "" && o' + |w| <= |Strip(t)| && Strip(t)[o'..o' + |w|] == w
    ensures Ink(Strip(t)[..o']) == Ink(t[..o])
  {
    var from, to := StripCuts(t);
    assert t[o] == w[0] && t[o + |w| - 1] == w[|w| - 1];
    assert from <= o && o + |w| <= to;
    o' := o - from;
    assert Strip(t)[o'..o' + |w|] == t[o..o + |w|];
    assert t[..o] == t[..from] + t[from..o] && Strip(t)[..o'] == t[from..o];
    InkConcat(t[..from], t[from..o]);
    InkOfSpaces(t[..from]);
  }

  /** Dropping blank pieces and stripping the others keeps the stretch in one piece. */
  lemma {:induction false} KeptPieceHolds(pieces: seq<string>, p: nat, o: nat, w: string, before: string)
    returns (q: nat, o': nat)
    requires w != "" && !IsSpace(w[0]) && !IsSpace(w[|w| - 1]) && StandsAt(pieces, p, o, w, before)
    ensures StandsAt(NonBlank(pieces), q, o', w, before) && q == |NonBlank(pieces[..p])|
  {
    hide Ink, Join;
    var first, rest := pieces[0], pieces[1..];
    assert p > 0 ==> pieces[..p] == [first] + rest[..p - 1];
    if p == 0 {
      q := 0;
      o' := InStripped(first, o, w);
      assert NonBlank(pieces) == [Strip(first)] + NonBlank(rest);
      assert pieces[..0] == [] && NonBlank(pieces)[..0] == [];
    } else {
      var inner := Ink(Join(rest[..p - 1])) + Ink(rest[p - 1][..o]);
      assert rest[p - 1] == pieces[p];
      q, o' := KeptPieceHolds(rest, p - 1, o, w, inner);
      assert pieces == [first] + rest;
      StandsAfter(first, rest, p - 1, o, w, inner);
      StripKeepsInk(first);
      if Strip(first) == "" {
        InkOfSpaces("");
        assert NonBlank(pieces) == NonBlank(rest) && before == inner;
      } else {
        assert NonBlank(pieces) == [Strip(first)] + NonBlank(rest);
        StandsAfter(Strip(first), NonBlank(rest), q, o', w, inner);
        q := q + 1;
      }
    }
  }

  // ---- nothing is lost ------------------------------------------------------------------------

  /** For every text: the characters of its paragraphs that are not spaces are exactly its own, in order. */
  lemma NothingIsLost(t: string)
    ensures Ink(Join(SplitParagraphs(t))) == Ink(t)
  {
    ReplaceKeepsInk(t);
    NonBlankKeepsInk(Split(ReplaceCrLf(t)));
    JoinSplit(ReplaceCrLf(t));
  }

  // ---- the place of a character ---------------------------------------------------------------

  /** Two characters that are not spaces with the same ink before them are the same. */
  lemma InkRank(t: string, a: nat, b: nat)
    requires a < |t| && b < |t| && !IsSpace(t[a]) && !IsSpace(t[b]) && |Ink(t[..a])| == |Ink(t[..b])|
    ensures a == b
  {
    if a < b { InkGrows(t, a, b); }
    if b < a { InkGrows(t, b, a); }
  }

  lemma InkGrows(t: string, a: nat, b: nat)
    requires a < b <= |t| && !IsSpace(t[a])
    ensures |Ink(t[..a])| < |Ink(t[..b])|
  {
    InkAfter(t, a, b);
    assert t[a..][..b - a] == [t[a]] + t[a + 1..b];
    InkConcat([t[a]], t[a + 1..b]);
  }

  /** A character of a piece is before everything in later pieces. */
  lemma InkOfLater(pieces: seq<string>, p: nat, o: nat, q: nat)
    requires p < q < |pieces| && o < |pieces[p]| && !IsSpace(pieces[p][o])
    ensures |Ink(Join(pieces[..p]))| + |Ink(pieces[p][..o])| < |Ink(Join(pieces[..q]))|
    decreases q
  {
    if q == p + 1 {
      assert pieces[..q] == pieces[..p] + [pieces[p]];
      JoinInk(pieces[..p], pieces[p]);
      InkGrows(pieces[p], o, |pieces[p]|);
      assert pieces[p][..|pieces[p]|] == pieces[p];
    } else {
      InkOfLater(pieces, p, o, q - 1);
      assert pieces[..q] == pieces[..q - 1] + [pieces[q - 1]];
      JoinInk(pieces[..q - 1], pieces[q - 1]);
    }
  }

  /** So each character has one place. */
  lemma OnePlace(pieces: seq<string>, p: nat, o: nat, q: nat, o': nat, x: char, y: char, before: string)
    requires StandsAt(pieces, p, o, [x], before) && StandsAt(pieces, q, o', [y], before)
    requires !IsSpace(x) && !IsSpace(y)
    ensures p == q && o == o'
  {
    hide Ink, Join;
    assert pieces[p][o..o + 1] == [x] && pieces[p][o] == x;
    assert pieces[q][o'..o' + 1] == [y] && pieces[q][o'] == y;
    if p < q { InkOfLater(pieces, p, o, q); }
    if q < p { InkOfLater(pieces, q, o', p); }
    if p == q { InkRank(pieces[p], o, o'); }
  }

  lemma {:induction false} NonBlankConcat(a: seq<string>, b: seq<string>)
    ensures NonBlank(a + b) == NonBlank(a) + NonBlank(b)
  {
    if a == [] {
      assert a + b == b;
    } else {
      assert (a + b)[1..] == a[1..] + b;
      NonBlankConcat(a[1..], b);
    }
  }

  /** Two characters with a blank line between them are in different pieces. */
  lemma {:induction false} PiecesApart(u: string, i: nat, j: nat) returns (p: nat, o: nat, q: nat, o': nat)
    requires i < j < |u| && !IsSpace(u[i]) && !IsSpace(u[j]) && !NoBreak(u[i..j + 1])
    ensures p < q && StandsAt(Split(u), p, o, [u[i]], Ink(u[..i])) && StandsAt(Split(u), q, o', [u[j]], Ink(u[..j]))
    decreases |u|
  {
    hide Ink, Join, StandsAt, NoBreak;
    if BreakAt(u, 0) {
      InkPastBreak(u, i);
      SliceBehind(u, 2, i, j + 1);
      p, o, q, o' := PiecesApart(u[2..], i - 2, j - 2);
      PastBreak(u, i, p, o, [u[i]]);
      PastBreak(u, j, q, o', [u[j]]);
      p, q := p + 1, q + 1;
    } else if i == 0 {
      p, o := 0, 0;
      StandsFirstChar(u);
      OneCharUnbroken(u, j);
      q, o' := PieceHolds(u, j, 1);
      assert u[j..j + 1] == [u[j]];
      NotInFirst(u, j, q, o');
    } else {
      SliceBehind(u, 1, i, j + 1);
      p, o, q, o' := PiecesApart(u[1..], i - 1, j - 1);
      PastFirst(u, i, p, o, [u[i]]);
      PastFirst(u, j, q, o', [u[j]]);
      o := if p == 0 then o + 1 else o;
    }
  }

  lemma InkPastBreak(u: string, i: nat)
    requires BreakAt(u, 0) && i < |u| && !IsSpace(u[i])
    ensures i >= 2
  {
  }

  lemma OneCharUnbroken(u: string, j: nat)
    requires j < |u| && !IsSpace(u[j])
    ensures NoBreak(u[j..j + 1]) && u[j] != '\n'
  {
  }

  lemma StandsFirstChar(u: string)
    requires u != "" && !IsSpace(u[0])
    ensures StandsAt(Split(u), 0, 0, [u[0]], Ink(u[..0]))
  {
    OneCharUnbroken(u, 0);
    assert u[..1] == u[0..1] == [u[0]];
    StandsFirst(u, 1);
  }

  lemma NotInFirst(u: string, j: nat, q: nat, o: nat)
    requires j < |u| && !IsSpace(u[j]) && !NoBreak(u[0..j + 1])
    requires StandsAt(Split(u), q, o, [u[j]], Ink(u[..j]))
    ensures q > 0
  {
    hide Split, Join;
    if q == 0 {
      FirstPieceIsPrefix(u);
      PiecesUnbroken(u);
      var first := Split(u)[0];
      NoPieces();
      assert Split(u)[..0] == [];
      assert first[o..o + 1] == [u[j]] && first[o] == u[o] && first[..o] == u[..o];
      hide Ink, IsSpace;
      InkRank(u, o, j);
      hide StandsAt;
      assert first[0..j + 1] == u[0..j + 1];
      SliceUnbroken(first, 0, j + 1);
    }
  }

  /** With the line ends normalised, a stretch of the text between two characters that are not spaces, with no
      blank line in it, comes back whole in one paragraph, at its place: with the same ink before it. */
  lemma StretchStaysWhole(t: string, i: nat, n: nat) returns (p: nat, o: nat)
    requires
      var u := ReplaceCrLf(t);
      && 0 < n && i + n <= |u| && !IsSpace(u[i]) && !IsSpace(u[i + n - 1])
      && NoBreak(u[i..i + n])
    ensures StandsAt(SplitParagraphs(t), p, o, ReplaceCrLf(t)[i..i + n], Ink(ReplaceCrLf(t)[..i]))
  {
    var u := ReplaceCrLf(t);
    p, o := PieceHolds(u, i, n);
    p, o := KeptPieceHolds(Split(u), p, o, u[i..i + n], Ink(u[..i]));
  }

  /** Two characters that are not spaces come back in the same paragraph if and only if, with the line ends
      normalised, no blank line stands between them; each has exactly one place. */
  lemma SameParagraphIff(t: string, i: nat, j: nat) returns (p: nat, o: nat, q: nat, o': nat)
    requires var u := ReplaceCrLf(t); i < j < |u| && !IsSpace(u[i]) && !IsSpace(u[j])
    ensures
      var u, texts := ReplaceCrLf(t), SplitParagraphs(t);
      && StandsAt(texts, p, o, [u[i]], Ink(u[..i])) && StandsAt(texts, q, o', [u[j]], Ink(u[..j]))
      && (forall k: nat, m: nat | StandsAt(texts, k, m, [u[i]], Ink(u[..i])) :: (k, m) == (p, o))
      && (forall k: nat, m: nat | StandsAt(texts, k, m, [u[j]], Ink(u[..j])) :: (k, m) == (q, o'))
      && (p == q <==> NoBreak(u[i..j + 1])) && p <= q
  {
    var u := ReplaceCrLf(t);
    hide Ink, Join, StandsAt, NoBreak, IsSpace;
    if NoBreak(u[i..j + 1]) {
      var n := j + 1 - i;
      p, o := StretchStaysWhole(t, i, n);
      q, o' := p, o + n - 1;
      WithinStretch(SplitParagraphs(t), p, o, u, i, j);
    } else {
      var k, m, k', m' := PiecesApart(u, i, j);
      var pieces := Split(u);
      p, o := KeptPieceHolds(pieces, k, m, [u[i]], Ink(u[..i]));
      q, o' := KeptPieceHolds(pieces, k', m', [u[j]], Ink(u[..j]));
      StandsInside(pieces, k', m', [u[j]], Ink(u[..j]));
      KeptApart(pieces, k, m, k', u[i], Ink(u[..i]), p);
    }
    forall k: nat, m: nat | StandsAt(SplitParagraphs(t), k, m, [u[i]], Ink(u[..i])) ensures (k, m) == (p, o) {
      OnePlace(SplitParagraphs(t), k, m, p, o, u[i], u[i], Ink(u[..i]));
    }
    forall k: nat, m: nat | StandsAt(SplitParagraphs(t), k, m, [u[j]], Ink(u[..j])) ensures (k, m) == (q, o') {
      OnePlace(SplitParagraphs(t), k, m, q, o', u[j], u[j], Ink(u[..j]));
    }
  }

  /** The two ends of a stretch that stands whole. */
  lemma WithinStretch(texts: seq<string>, p: nat, o: nat, u: string, i: nat, j: nat)
    requires i < j < |u| && StandsAt(texts, p, o, u[i..j + 1], Ink(u[..i]))
    ensures StandsAt(texts, p, o, [u[i]], Ink(u[..i]))
    ensures StandsAt(texts, p, o + j - i, [u[j]], Ink(u[..j]))
  {
    hide Ink, Join;
    var w, x := u[i..j + 1], texts[p];
    assert x[o..o + |w|] == w && w[0] == u[i] && w[j - i] == u[j];
    assert x[o..o + 1] == [u[i]] && x[o + j - i..o + j - i + 1] == [u[j]];
    InkAfter(u, i, j);
    assert x[..o + j - i] == x[..o] + x[o..][..j - i] && x[o..][..j - i] == w[..j - i] == u[i..][..j - i];
    InkConcat(x[..o], x[o..][..j - i]);
  }

  lemma StandsInside(pieces: seq<string>, p: nat, o: nat, w: string, before: string)
    requires StandsAt(pieces, p, o, w, before)
    ensures p < |pieces|
  {
  }

  /** A kept piece counts before the later ones. */
  lemma KeptApart(pieces: seq<string>, k: nat, m: nat, k': nat, x: char, before: string, p: nat)
    requires StandsAt(pieces, k, m, [x], before) && !IsSpace(x) && k < k' <= |pieces|
    requires p == |NonBlank(pieces[..k])|
    ensures p < |NonBlank(pieces[..k'])|
  {
    hide Ink, Join;
    assert pieces[k][m..m + 1] == [x];
    var o' := InStripped(pieces[k], m, [x]);
    assert pieces[..k'] == pieces[..k] + ([pieces[k]] + pieces[k + 1..k']);
    NonBlankConcat(pieces[..k], [pieces[k]] + pieces[k + 1..k']);
    NonBlankConcat([pieces[k]], pieces[k + 1..k']);
    assert [pieces[k]][1..] == [];
  }
}
