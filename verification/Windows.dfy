/** The token windows of the chunker: where they start, what they cover, how many there are. */
module Windows {

  /** The starts of the windows taken from `start` on. */
  function Starts(n: nat, size: nat, overlap: int, start: nat): seq<nat>
    requires overlap < size
    decreases n - start
  {
    if start >= n then []
    else if start + size >= n then [start]
    else [start] + Starts(n, size, overlap, start + size - overlap)
  }

  function End(n: nat, size: nat, start: nat): nat {
    if start + size <= n then start + size else n
  }

  lemma {:induction false} StartAt(n: nat, size: nat, overlap: int, start: nat, k: nat)
    requires overlap < size && k < |Starts(n, size, overlap, start)|
    ensures Starts(n, size, overlap, start)[k] == start + k * (size - overlap) < n
    ensures k + 1 < |Starts(n, size, overlap, start)| ==> Starts(n, size, overlap, start)[k] + size < n
    decreases k
  {
    if k > 0 {
      StartAt(n, size, overlap, start + size - overlap, k - 1);
      assert (k - 1) * (size - overlap) + (size - overlap) == k * (size - overlap);
    }
  }

  /** The last window reaches the end, unless negative overlaps jump past it. */
  lemma {:induction false} LastStart(n: nat, size: nat, overlap: int, start: nat)
    requires overlap < size && start < n
    ensures var ws := Starts(n, size, overlap, start);
      && ws != []
      && (overlap >= 0 ==> ws[|ws| - 1] + size >= n)
      && (ws[|ws| - 1] + size >= n || ws[|ws| - 1] + size - overlap >= n)
      && (overlap >= 0 && |ws| > 1 ==> n - ws[|ws| - 1] > overlap)
    decreases n - start
  {
    if start + size < n && start + size - overlap < n {
      LastStart(n, size, overlap, start + size - overlap);
    }
  }

  /** Windows start in order and, without the last, have exactly `size` tokens; with an overlap that is not
      negative the next one starts `overlap` tokens before their end. */
  lemma Shape(n: nat, size: nat, overlap: int, k: nat)
    requires overlap < size
    requires k < |Starts(n, size, overlap, 0)|
    ensures
      var ws := Starts(n, size, overlap, 0);
      && ws[0] == 0
      && (k + 1 < |ws| ==>
              && End(n, size, ws[k]) == ws[k] + size && ws[k + 1] == ws[k] + size - overlap
              && ws[k] < ws[k + 1] < n)
      && (0 <= overlap && k + 1 == |ws| ==> End(n, size, ws[k]) == n && (k > 0 ==> n - ws[k] > overlap))
  {
    var ws := Starts(n, size, overlap, 0);
    StartAt(n, size, overlap, 0, 0);
    StartAt(n, size, overlap, 0, k);
    LastStart(n, size, overlap, 0);
    if k + 1 < |ws| {
      StartAt(n, size, overlap, 0, k + 1);
      assert (k + 1) * (size - overlap) == k * (size - overlap) + (size - overlap);
    }
  }

  predicate Covers(n: nat, size: nat, ws: seq<nat>, t: nat) {
    exists k :: 0 <= k < |ws| && ws[k] <= t < End(n, size, ws[k])
  }

  lemma {:induction false} CoversFrom(n: nat, size: nat, overlap: nat, start: nat, t: nat)
    requires overlap < size && start <= t < n
    ensures Covers(n, size, Starts(n, size, overlap, start), t)
    decreases n - start
  {
    var ws := Starts(n, size, overlap, start);
    assert ws[0] == start;
    if t >= End(n, size, start) {
      var rest := Starts(n, size, overlap, start + size - overlap);
      CoversFrom(n, size, overlap, start + size - overlap, t);
      var k :| 0 <= k < |rest| && rest[k] <= t < End(n, size, rest[k]);
      assert ws[k + 1] == rest[k];
    }
  }

  /** Every token is in a window exactly when the overlap is not negative or one window takes them all. */
  lemma NoGaps(n: nat, size: nat, overlap: int)
    requires overlap < size
    ensures (forall t: nat | t < n :: Covers(n, size, Starts(n, size, overlap, 0), t)) <==> overlap >= 0 || n <= size
  {
    var ws := Starts(n, size, overlap, 0);
    if overlap >= 0 {
      forall t: nat | t < n ensures Covers(n, size, ws, t) { CoversFrom(n, size, overlap, 0, t); }
    } else if n <= size {
      forall t: nat | t < n ensures Covers(n, size, ws, t) { assert ws[0] == 0; }
    } else {
      GapAt(n, size, overlap);
    }
  }

  /** A negative overlap leaves out the token after the first window. */
  lemma GapAt(n: nat, size: nat, overlap: int)
    requires overlap < 0 && n > size
    ensures !Covers(n, size, Starts(n, size, overlap, 0), size)
  {
    var ws := Starts(n, size, overlap, 0);
    forall k | 0 <= k < |ws| ensures !(ws[k] <= size < End(n, size, ws[k])) {
      if k > 0 {
        StartAt(n, size, overlap, size - overlap, k - 1);
        assert ws[k] == Starts(n, size, overlap, size - overlap)[k - 1];
        assert (k - 1) * (size - overlap) >= 0;
      }
    }
  }

  function CeilDiv(a: nat, b: nat): nat
    requires b > 0
  {
    (a + b - 1) / b
  }

  lemma DivUnique(x: nat, b: nat, q: nat, r: nat)
    requires 0 <= r < b && x == b * q + r
    ensures x / b == q
  {
    var d := x / b;
    assert x == b * d + x % b;
    assert b * (d + 1) == b * d + b && b * (q + 1) == b * q + b;
    if d < q {
      Multiply(b, d + 1, q);
    } else if d > q {
      Multiply(b, q + 1, d);
    }
  }

  lemma Multiply(b: nat, x: nat, y: nat)
    requires x <= y
    ensures b * x <= b * y
  {
  }

  lemma CeilDivStep(a: nat, b: nat)
    requires b > 0 && a > 0
    ensures CeilDiv(a, b) == if a <= b then 1 else 1 + CeilDiv(a - b, b)
  {
    if a <= b {
      DivUnique(a + b - 1, b, 1, a - 1);
    } else {
      var x := a - 1;
      assert x == b * (x / b) + x % b;
      assert b * (x / b) + b == b * (x / b + 1);
      DivUnique(x + b, b, x / b + 1, x % b);
    }
  }

  /** None for no tokens, one for up to `size`, then one per further `size - overlap` tokens or part of them. */
  lemma {:induction false} Count(n: nat, size: nat, overlap: nat, start: nat)
    requires overlap < size && start <= n
    ensures |Starts(n, size, overlap, start)| ==
      if start == n then 0 else if n - start <= size then 1 else 1 + CeilDiv(n - start - size, size - overlap)
    decreases n - start
  {
    if n - start > size {
      var step := size - overlap;
      Count(n, size, overlap, start + step);
      CeilDivStep(n - start - size, step);
    }
  }
}
