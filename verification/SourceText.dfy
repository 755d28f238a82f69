/** Positions in source text: lines, columns, carets, and byte and char offsets. */
module SourceText {
  import opened Utf8
  import opened Wrappers

  const U32_MAX := 0xffff_ffff

  function Saturate(n: nat): nat {
    if n > U32_MAX then U32_MAX else n
  }

  // ── Lines, by counting ───────────────────────────────────────────────────

  /** The newlines among the first `k` chars. */
  function Newlines(t: Text, k: nat): (n: nat)
    requires k <= |t|
    ensures n <= k
  {
    if k == 0 then 0 else Newlines(t, k - 1) + if t[k - 1] == NEWLINE then 1 else 0
  }

  /** How many of the first `k` chars come after the last newline among them. */
  function Since(t: Text, k: nat): (n: nat)
    requires k <= |t|
    ensures n <= k
  {
    if k == 0 || t[k - 1] == NEWLINE then 0 else 1 + Since(t, k - 1)
  }

  /** A feed ends its line: it is the last char of the one, and the next starts past it. */
  lemma LinesEndAtFeeds(a: Text, b: Text)
    requires 10 !in b
    ensures var t := a + [10] + b; Newlines(t, |t|) == Newlines(t, |a|) + 1 && Since(t, |t|) == |b| && Since(t, |a| + 1) == 0
    decreases |b|
  {
    var t := a + [10] + b;
    assert t[|a|] == 10;
    if b != [] {
      var u := a + [10] + b[..|b| - 1];
      assert b[|b| - 1] != 10 && t[..|t| - 1] == u;
      LinesEndAtFeeds(a, b[..|b| - 1]);
      SameBefore(t, u, |t| - 1);
      SameBefore(t, u, |a|);
    }
  }

  lemma {:induction false} SameBefore(t: Text, u: Text, k: nat)
    requires k <= |t| && k <= |u| && t[..k] == u[..k]
    ensures Newlines(t, k) == Newlines(u, k) && Since(t, k) == Since(u, k)
  {
    if k > 0 {
      assert t[k - 1] == t[..k][k - 1] && u[k - 1] == u[..k][k - 1];
      assert t[..k - 1] == t[..k][..k - 1] && u[..k - 1] == u[..k][..k - 1];
      SameBefore(t, u, k - 1);
    }
  }

  /** The lines begun within the first `i` bytes: at zero, and past each newline. */
  function Starts(bytes: seq<Byte>, i: nat): (s: seq<nat>)
    requires i <= |bytes|
    ensures s != [] && s[0] == 0
  {
    if i == 0 then [0] else Starts(bytes, i - 1) + if bytes[i - 1] == NEWLINE then [i] else []
  }

  /** Strictly increasing, up to `top`. */
  predicate Climbs(s: seq<nat>, top: nat) {
    && (forall j | 0 <= j < |s| :: s[j] <= top)
    && (forall j, k | 0 <= j < k < |s| :: s[j] < s[k])
  }

  lemma ClimbsMore(s: seq<nat>, top: nat)
    requires top > 0 && Climbs(s, top - 1)
    ensures Climbs(s + [top], top) && Climbs(s, top)
  {
  }

  lemma {:induction false} StartsWithin(bytes: seq<Byte>, i: nat)
    requires i <= |bytes|
    ensures Climbs(Starts(bytes, i), i)
  {
    if i > 0 {
      StartsWithin(bytes, i - 1);
      ClimbsMore(Starts(bytes, i - 1), i);
    } else {
      assert Starts(bytes, 0) == [0];
    }
  }

  /** Bytes that are no newline begin no line. */
  lemma {:induction false} StartsPlain(bytes: seq<Byte>, i: nat, j: nat)
    requires i <= j <= |bytes| && forall k | i <= k < j :: bytes[k] != NEWLINE
    ensures Starts(bytes, j) == Starts(bytes, i)
    decreases j - i
  {
    if i < j { StartsPlain(bytes, i, j - 1); }
  }

  /** One char more: a line more exactly if it is a newline. */
  lemma StartsOfChar(t: Text, k: nat)
    requires k < |t|
    ensures Offset(t, k) < Offset(t, k + 1) <= |Bytes(t)|
    ensures Starts(Bytes(t), Offset(t, k + 1)) == Starts(Bytes(t), Offset(t, k)) + if t[k] == NEWLINE then [Offset(t, k + 1)] else []
  {
    OffsetsGrow(t, k + 1, |t|);
    var bytes, a, b := Bytes(t), Offset(t, k), Offset(t, k + 1);
    BytesOfChar(t, k, 0);
    if t[k] != NEWLINE {
      forall i | a <= i < b ensures bytes[i] != NEWLINE { BytesOfChar(t, k, i - a); }
      StartsPlain(bytes, a, b);
    }
  }

  /** The lines begun by the first `k` chars: one more than their newlines, the last
      of them where the chars since begin. */
  lemma {:induction false} StartsCount(t: Text, k: nat)
    requires k <= |t|
    ensures Offset(t, k) <= |Bytes(t)|
    ensures var s := Starts(Bytes(t), Offset(t, k)); |s| == 1 + Newlines(t, k) && s[|s| - 1] == Offset(t, k - Since(t, k))
  {
    OffsetsGrow(t, k, |t|);
    if k > 0 {
      StartsCount(t, k - 1);
      StartsOfChar(t, k - 1);
    }
  }

  /** The lines begun later begin at later chars. */
  lemma {:induction false} StartsLater(t: Text, k: nat, m: nat)
    requires k <= m <= |t|
    ensures Offset(t, k) <= Offset(t, m) <= |Bytes(t)|
    ensures AllLater(t, k, m, Starts(Bytes(t), Offset(t, k)), Starts(Bytes(t), Offset(t, m)))
    decreases m - k
  {
    OffsetsGrow(t, k, m);
    OffsetsGrow(t, m, |t|);
    if k < m {
      StartsLater(t, k, m - 1);
      StartsOfChar(t, m - 1);
      LaterStill(t, k, m, Starts(Bytes(t), Offset(t, k)), Starts(Bytes(t), Offset(t, m - 1)), Starts(Bytes(t), Offset(t, m)));
    }
  }

  ghost predicate AllLater(t: Text, k: nat, m: nat, a: seq<nat>, b: seq<nat>)
    requires m <= |t|
  {
    a <= b && forall i | |a| <= i < |b| :: LaterChar(t, k, m, b[i])
  }

  lemma LaterStill(t: Text, k: nat, m: nat, a: seq<nat>, c: seq<nat>, b: seq<nat>)
    requires k < m <= |t| && AllLater(t, k, m - 1, a, c)
    requires b == c || b == c + [Offset(t, m)]
    ensures AllLater(t, k, m, a, b)
  {
    forall i | |a| <= i < |b| ensures LaterChar(t, k, m, b[i]) {
      if i < |c| { assert LaterChar(t, k, m - 1, c[i]); }
    }
  }

  predicate LaterChar(t: Text, k: nat, m: nat, b: nat)
    requires m <= |t|
  {
    exists j :: k < j <= m && b == Offset(t, j)
  }

  // ── A source ─────────────────────────────────────────────────────────────

  /** Text with a line-start index built once. */
  class Source {
    const text: Text
    const bytes: seq<Byte>
    const lineStarts: seq<nat>

    ghost predicate Indexed() {
      bytes == Bytes(text) && lineStarts == Starts(bytes, |bytes|)
    }

    /** One pass over the bytes. */
    constructor (t: Text)
      ensures text == t && Indexed()
    {
      var bs := Bytes(t);
      var starts := [0];
      for i := 0 to |bs|
        invariant starts == Starts(bs, i)
      {
        if bs[i] == NEWLINE { starts := starts + [i + 1]; }
      }
      text, bytes, lineStarts := t, bs, starts;
    }

    /** The lines starting at or before `offset`, by binary search. */
    method PartitionPoint(offset: nat) returns (p: nat)
      requires Indexed()
      ensures 0 < p <= |lineStarts|
      ensures forall i | 0 <= i < p :: lineStarts[i] <= offset
      ensures forall i | p <= i < |lineStarts| :: lineStarts[i] > offset
    {
      StartsWithin(bytes, |bytes|);
      var lo, hi := 0, |lineStarts|;
      while lo < hi
        invariant 0 <= lo <= hi <= |lineStarts|
        invariant forall i | 0 <= i < lo :: lineStarts[i] <= offset
        invariant forall i | hi <= i < |lineStarts| :: lineStarts[i] > offset
      {
        var mid := (lo + hi) / 2;
        assert forall i | 0 <= i < mid :: lineStarts[i] < lineStarts[mid];
        assert forall i | mid < i < |lineStarts| :: lineStarts[mid] < lineStarts[i];
        if lineStarts[mid] <= offset { lo := mid + 1; } else { hi := mid; }
      }
      p := lo;
    }

    /** The line and column of a byte offset: one more than the newlines before the
        char it falls in, and one more than the chars since the last of them.  An
        offset inside a char or past the end is taken back to a boundary, and the
        line never starts past it. */
    method LineCol(offset: nat) returns (line: nat, col: nat)
      requires Indexed()
      ensures var k := Index(text, offset);
              line == Saturate(1 + Newlines(text, k)) && col == Saturate(1 + Since(text, k))
      ensures var k := Index(text, offset);
              k < 4_294_967_295 ==> line == 1 + Newlines(text, k) && col == 1 + Since(text, k)
    {
      ghost var k := Index(text, offset);
      var floored := FloorBoundary(text, offset);
      var p := PartitionPoint(offset);
      LineFound(text, offset, p);
      var start := lineStarts[p - 1];
      var chars := CharsBetween(start, floored);
      line, col := Saturate(p), Saturate(chars + 1);
    }

    /** The chars of a slice that starts and ends on boundaries. */
    method CharsBetween(start: nat, end: nat) returns (n: nat)
      requires Indexed() && Boundary(text, start) && Boundary(text, end) && start <= end
      ensures n == Index(text, end) - Index(text, start)
    {
      ghost var a, b := Index(text, start), Index(text, end);
      BoundaryIndex(text, start);
      BoundaryIndex(text, end);
      if a > b { OffsetsGrow(text, b, a); }
      n := 0;
      var i := start;
      while i < end
        invariant a + n <= b && i == Offset(text, a + n)
        decreases b - (a + n)
      {
        IndexOfOffset(text, a + n);
        if a + n < b { OffsetsGrow(text, a + n + 1, b); }
        i := i + Width(text[Index(text, i)]);
        n := n + 1;
      }
      if a + n < b { OffsetsGrow(text, a + n, b); }
    }
  }

  /** A boundary is the offset of the char at it. */
  lemma BoundaryIndex(t: Text, b: nat)
    requires Boundary(t, b)
    ensures Offset(t, Index(t, b)) == b
  {
    var k :| 0 <= k <= |t| && Offset(t, k) == b;
    IndexOfOffset(t, k);
  }

  /** The search finds the line of the char the offset falls in. */
  lemma LineFound(t: Text, offset: nat, p: nat)
    requires var s := Starts(Bytes(t), |Bytes(t)|);
             0 < p <= |s| && (forall i | 0 <= i < p :: s[i] <= offset) && (forall i | p <= i < |s| :: s[i] > offset)
    ensures var k := Index(t, offset); var s := Starts(Bytes(t), |Bytes(t)|); var first := k - Since(t, k);
            && p == 1 + Newlines(t, k) && s[p - 1] == Offset(t, first)
            && Offset(t, first) <= Offset(t, k) && Index(t, Offset(t, first)) == first && Index(t, Offset(t, k)) == k
  {
    var k := Index(t, offset);
    StartsCount(t, k);
    StartsLater(t, k, |t|);
    LastStart(t, offset, p);
    OffsetsGrow(t, k - Since(t, k), k);
    IndexOfOffset(t, k - Since(t, k));
    IndexOfOffset(t, k);
  }

  lemma LastStart(t: Text, offset: nat, p: nat)
    requires var s := Starts(Bytes(t), |Bytes(t)|);
             0 < p <= |s| && (forall i | 0 <= i < p :: s[i] <= offset) && (forall i | p <= i < |s| :: s[i] > offset)
    ensures Offset(t, Index(t, offset)) <= |Bytes(t)|
    ensures p == |Starts(Bytes(t), Offset(t, Index(t, offset)))|
  {
    var k := Index(t, offset);
    StartsLater(t, k, |t|);
    var a, s := Starts(Bytes(t), Offset(t, k)), Starts(Bytes(t), |Bytes(t)|);
    IndexAt(t, offset, k);
    StartsWithin(Bytes(t), Offset(t, k));
    if p > |a| {
      var j :| k < j <= |t| && s[|a|] == Offset(t, j);
      IndexAt(t, offset, j);
      assert false;
    }
    assert s[|a| - 1] == a[|a| - 1] && |a| - 1 < p;
  }

  // ── Bytes and chars ──────────────────────────────────────────────────────

  function ByteToChar(t: Text, i: nat): nat {
    Index(t, i)
  }

  function CharToByte(t: Text, n: nat): nat {
    if n < |t| then Offset(t, n) else |Bytes(t)|
  }

  /** There and back is the char, or the end; back and there is the boundary at or
      before the byte. */
  lemma CharsAndBytes(t: Text, n: nat, i: nat)
    ensures ByteToChar(t, CharToByte(t, n)) == if n < |t| then n else |t|
    ensures CharToByte(t, ByteToChar(t, i)) == Floor(t, i)
    ensures Boundary(t, CharToByte(t, n))
  {
    IndexOfOffset(t, if n < |t| then n else |t|);
  }

  // ── Carets ───────────────────────────────────────────────────────────────

  datatype Span = Span(start: nat, end: nat)

  /** The span widened to boundaries; an empty one to the char at it, or at the end
      of the text to the last char. */
  function Caret(t: Text, span: Option<Span>): Span {
    var len := |Bytes(t)|;
    var start := Floor(t, if span.Some? then span.value.start else len);
    var given := if span.Some? then span.value.end else len;
    var end := Ceil(t, if given < start then start else given);
    if start < end then Span(start, end)
    else if start < len then Span(start, Ceil(t, start + 1))
    else Span(Floor(t, if start == 0 then 0 else start - 1), start)
  }

  /** Every caret can be drawn: in range, on boundaries, and empty only for empty
      text.  It covers what of the span lies in the text, and an empty span exactly
      one char. */
  lemma CaretsAreDrawable(t: Text, span: Option<Span>)
    ensures var c, len := Caret(t, span), |Bytes(t)|;
            && c.start <= c.end <= len && Boundary(t, c.start) && Boundary(t, c.end)
            && (c.start == c.end <==> t == [])
            && (span.Some? && span.value.start <= span.value.end ==>
                  c.start <= span.value.start && (span.value.end <= len ==> span.value.end <= c.end) && (span.value.end > len ==> c.end == len))
  {
    CaretsAreInside(t, span);
    if span.Some? { CaretsCover(t, span.value); }
  }

  lemma CaretsCover(t: Text, span: Span)
    ensures var c, len := Caret(t, Some(span)), |Bytes(t)|;
            span.start <= span.end ==>
              c.start <= span.start && (span.end <= len ==> span.end <= c.end) && (span.end > len ==> c.end == len)
  {
    var len := |Bytes(t)|;
    var start := Floor(t, span.start);
    FloorIsGreatest(t, span.start, start);
    CaretEnd(t, if span.end < start then start else span.end);
    if start < len {
      CeilIsLeast(t, start + 1, start);
    } else if start > 0 {
      FloorIsGreatest(t, start - 1, 0);
    }
  }

  lemma CaretsAreInside(t: Text, span: Option<Span>)
    ensures var c, len := Caret(t, span), |Bytes(t)|;
            && c.start <= c.end <= len && Boundary(t, c.start) && Boundary(t, c.end)
            && (c.start == c.end <==> t == [])
  {
    var len := |Bytes(t)|;
    OffsetsGrow(t, 0, |t|);
    var s := if span.Some? then span.value.start else len;
    var start := Floor(t, s);
    FloorIsGreatest(t, s, start);
    var given := if span.Some? then span.value.end else len;
    CaretEnd(t, if given < start then start else given);
    if start < len {
      CeilIsLeast(t, start + 1, start);
      OneChar(t, start);
    } else if start > 0 {
      FloorIsGreatest(t, start - 1, 0);
    }
  }

  lemma CaretEnd(t: Text, i: nat)
    ensures var e := Ceil(t, i);
            Boundary(t, e) && e <= |Bytes(t)| && (i <= |Bytes(t)| ==> i <= e) && (i > |Bytes(t)| ==> e == |Bytes(t)|)
  {
    if i <= |Bytes(t)| { CeilIsLeast(t, i, i); }
  }

  /** The boundary after one inside the text is one char on. */
  lemma OneChar(t: Text, b: nat)
    requires Boundary(t, b) && b < |Bytes(t)|
    ensures Ceil(t, b + 1) > b && Index(t, Ceil(t, b + 1)) == Index(t, b) + 1
  {
    var k: nat :| k <= |t| && Offset(t, k) == b;
    IndexOfOffset(t, k);
    assert k < |t|;
    CeilIsLeast(t, b + 1, Offset(t, k + 1));
    var e := Ceil(t, b + 1);
    var j: nat :| j <= |t| && Offset(t, j) == e;
    if j <= k { OffsetsGrow(t, j, k); }
    IndexOfOffset(t, j);
    OffsetsGrow(t, k + 1, j);
  }

  /** A span of some of the text underlines no more than it must: any boundaries that
      take in what of it lies in the text take in the caret. */
  lemma CaretsAreTight(t: Text, span: Span, a: nat, b: nat)
    requires span.start < span.end && span.start < |Bytes(t)| && Boundary(t, a) && Boundary(t, b)
    requires a <= span.start && (span.end <= b || b == |Bytes(t)|)
    ensures var c := Caret(t, Some(span)); a <= c.start && c.end <= b
  {
    FloorIsGreatest(t, span.start, a);
    if span.end <= |Bytes(t)| { CeilIsLeast(t, span.end, b); }
  }

  /** An empty span, or one that ends before it starts, underlines the one char it
      starts in; one past the text, or no span at all, the last char. */
  lemma EmptySpansUnderlineOneChar(t: Text, span: Span)
    requires t != [] && span.end <= span.start
    ensures var c, len := Caret(t, Some(span)), |Bytes(t)|;
            && Index(t, c.end) == Index(t, c.start) + 1
            && (span.start < len ==> Index(t, c.start) == Index(t, span.start)) && (span.start >= len ==> c.end == len)
    ensures Caret(t, None) == Caret(t, Some(Span(|Bytes(t)|, |Bytes(t)|)))
  {
    NoSpanMeansTheEnd(t);
    var start, k := Floor(t, span.start), Index(t, span.start);
    FloorIsGreatest(t, span.start, start);
    IndexOfOffset(t, k);
    CeilIsLeast(t, start, start);
    if start < |Bytes(t)| {
      OneChar(t, start);
      if span.end > start { EndInside(t, span.start, span.end); }
    } else {
      LastChar(t);
      IndexAt(t, span.start, |t|);
    }
  }

  /** Past the start of a char and within it, the next boundary is the char's end. */
  lemma EndInside(t: Text, i: nat, e: nat)
    requires i < |Bytes(t)| && Floor(t, i) < e <= i
    ensures Ceil(t, e) == Ceil(t, Floor(t, i) + 1)
  {
    var b := Floor(t, i);
    CeilIsLeast(t, e, Ceil(t, b + 1));
    CeilIsLeast(t, b + 1, Ceil(t, e));
    FloorIsGreatest(t, i, Ceil(t, b + 1));
  }

  lemma NoSpanMeansTheEnd(t: Text)
    ensures Caret(t, None) == Caret(t, Some(Span(|Bytes(t)|, |Bytes(t)|)))
  {
    FloorIsGreatest(t, |Bytes(t)|, 0);
  }

  lemma LastChar(t: Text)
    requires t != []
    ensures var len := |Bytes(t)|; len > 0 && Index(t, Floor(t, len - 1)) == |t| - 1 && Index(t, len) == |t|
  {
    var k := |t| - 1;
    IndexOfOffset(t, |t|);
    IndexAt(t, |Bytes(t)| - 1, k);
    IndexAt(t, |Bytes(t)| - 1, |t|);
    IndexOfOffset(t, k);
  }
}
