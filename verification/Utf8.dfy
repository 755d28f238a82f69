/** Text in UTF-8, as section 3 of RFC 3629 lays it out, and its char boundaries. */
module Utf8 {

  type Scalar = c: int | 0 <= c <= 0x10FFFF && !(0xD800 <= c <= 0xDFFF)

  type Byte = b: int | 0 <= b < 256

  type Text = seq<Scalar>

  const NEWLINE: Scalar := 10

  function Width(c: Scalar): (n: nat)
    ensures 1 <= n <= 4
  {
    if c < 0x80 then 1 else if c < 0x800 then 2 else if c < 0x10000 then 3 else 4
  }

  /** One to four bytes, by the size of the scalar. */
  function Encoded(c: Scalar): (bs: seq<Byte>)
    ensures |bs| == Width(c)
    ensures !Continues(bs[0]) && forall i | 1 <= i < |bs| :: Continues(bs[i])
  {
    if c < 0x80 then [c]
    else if c < 0x800 then [0xC0 + c / 0x40, Tail(c)]
    else if c < 0x10000 then [0xE0 + c / 0x1000, Tail(c / 0x40), Tail(c)]
    else [0xF0 + c / 0x40000, Tail(c / 0x1000), Tail(c / 0x40), Tail(c)]
  }

  function Bits(b: int, mark: int): int {
    b - mark
  }

  /** The bits of the bytes, less their marks, are the scalar's, as section 3 of
      RFC 3629 has them; its shortest form, the first byte telling how long. */
  lemma EncodedJoins(c: Scalar)
    ensures var bs := Encoded(c);
            match |bs|
            case 1 => bs[0] == c && c <= 0x7F
            case 2 => Bits(bs[0], 0xC0) * 64 + Bits(bs[1], 0x80) == c && 0xC2 <= bs[0] <= 0xDF
            case 3 => (Bits(bs[0], 0xE0) * 64 + Bits(bs[1], 0x80)) * 64 + Bits(bs[2], 0x80) == c && 0xE0 <= bs[0] <= 0xEF && c >= 0x800
            case _ => ((Bits(bs[0], 0xF0) * 64 + Bits(bs[1], 0x80)) * 64 + Bits(bs[2], 0x80)) * 64 + Bits(bs[3], 0x80) == c && 0xF0 <= bs[0] <= 0xF4 && c >= 0x10000
  {
    assert c / 0x40 / 0x40 == c / 0x1000 && c / 0x1000 / 0x40 == c / 0x40000;
  }

  /** The low six bits, marked as a continuation. */
  function Tail(c: nat): (b: Byte)
    ensures Continues(b)
  {
    0x80 + c % 0x40
  }

  predicate Continues(b: Byte) {
    0x80 <= b < 0xC0
  }

  /** The bytes of the first `k` chars. */
  function BytesTo(t: Text, k: nat): (bs: seq<Byte>)
    requires k <= |t|
    ensures |bs| == Offset(t, k)
  {
    if k == 0 then [] else BytesTo(t, k - 1) + Encoded(t[k - 1])
  }

  function Bytes(t: Text): (bs: seq<Byte>)
    ensures |bs| == Offset(t, |t|)
  {
    BytesTo(t, |t|)
  }

  /** Where the `k`-th char starts: the boundaries are exactly these. */
  function Offset(t: Text, k: nat): nat
    requires k <= |t|
  {
    if k == 0 then 0 else Offset(t, k - 1) + Width(t[k - 1])
  }

  predicate Boundary(t: Text, i: nat) {
    exists k :: 0 <= k <= |t| && Offset(t, k) == i
  }

  lemma {:induction false} OffsetsGrow(t: Text, j: nat, k: nat)
    requires j <= k <= |t|
    ensures Offset(t, j) + (k - j) <= Offset(t, k)
    decreases k - j
  {
    if j < k { OffsetsGrow(t, j, k - 1); }
  }

  lemma {:induction false} BytesGrow(t: Text, j: nat, k: nat)
    requires j <= k <= |t|
    ensures BytesTo(t, j) <= BytesTo(t, k)
    decreases k - j
  {
    if j < k { BytesGrow(t, j, k - 1); }
  }

  // ── The char an offset falls in ──────────────────────────────────────────

  /** How many chars end at or before byte `i`. */
  function Index(t: Text, i: nat): (k: nat)
    ensures k <= |t|
  {
    IndexUpTo(t, i, |t|)
  }

  function IndexUpTo(t: Text, i: nat, k: nat): (r: nat)
    requires k <= |t|
    ensures r <= k
  {
    if k == 0 || Offset(t, k) <= i then k else IndexUpTo(t, i, k - 1)
  }

  lemma {:induction false} IndexUpToAt(t: Text, i: nat, k: nat)
    requires k <= |t|
    ensures var r := IndexUpTo(t, i, k); Offset(t, r) <= i && forall j | r < j <= k :: Offset(t, j) > i
  {
    if k > 0 && Offset(t, k) > i { IndexUpToAt(t, i, k - 1); }
  }

  /** The char index at `i` is the largest whose offset does not pass `i`. */
  lemma IndexAt(t: Text, i: nat, k: nat)
    requires k <= |t|
    ensures Offset(t, Index(t, i)) <= i
    ensures k <= Index(t, i) <==> Offset(t, k) <= i
  {
    IndexUpToAt(t, i, |t|);
    if k <= Index(t, i) { OffsetsGrow(t, k, Index(t, i)); }
  }

  lemma IndexOfOffset(t: Text, k: nat)
    requires k <= |t|
    ensures Index(t, Offset(t, k)) == k
  {
    IndexAt(t, Offset(t, k), k);
    var r := Index(t, Offset(t, k));
    IndexAt(t, Offset(t, k), r);
    if r > k { OffsetsGrow(t, k, r); }
  }

  /** The boundary at or before a byte, and the one at or after it. */
  function Floor(t: Text, i: nat): nat {
    Offset(t, Index(t, i))
  }

  function Ceil(t: Text, i: nat): nat {
    if i >= |Bytes(t)| then |Bytes(t)|
    else if Floor(t, i) == i || Index(t, i) == |t| then Floor(t, i)
    else Offset(t, Index(t, i) + 1)
  }

  lemma FloorIsGreatest(t: Text, i: nat, b: nat)
    ensures Boundary(t, Floor(t, i)) && Floor(t, i) <= i && Floor(t, i) <= |Bytes(t)|
    ensures Boundary(t, b) && b <= i ==> b <= Floor(t, i)
    ensures i >= |Bytes(t)| ==> Floor(t, i) == |Bytes(t)|
  {
    IndexAt(t, i, |t|);
    OffsetsGrow(t, Index(t, i), |t|);
    if Boundary(t, b) && b <= i {
      var k :| 0 <= k <= |t| && Offset(t, k) == b;
      IndexAt(t, i, k);
      OffsetsGrow(t, k, Index(t, i));
    }
  }

  lemma CeilIsLeast(t: Text, i: nat, b: nat)
    requires i <= |Bytes(t)|
    ensures Boundary(t, Ceil(t, i)) && i <= Ceil(t, i) <= |Bytes(t)|
    ensures Boundary(t, b) && i <= b ==> Ceil(t, i) <= b
  {
    FloorIsGreatest(t, i, b);
    CeilInRange(t, i);
    if Boundary(t, b) && i <= b && Floor(t, i) < i { NextBoundary(t, i, b); }
  }

  lemma CeilInRange(t: Text, i: nat)
    requires i <= |Bytes(t)|
    ensures Boundary(t, Ceil(t, i)) && i <= Ceil(t, i) <= |Bytes(t)|
  {
    var k := Index(t, i);
    IndexAt(t, i, k);
    IndexAt(t, i, |t|);
    if k < |t| {
      IndexAt(t, i, k + 1);
      OffsetsGrow(t, k + 1, |t|);
    }
  }

  /** Past the boundary below, the next one is a char on. */
  lemma NextBoundary(t: Text, i: nat, b: nat)
    requires i < |Bytes(t)| && Boundary(t, b) && i <= b && Floor(t, i) < i
    ensures Ceil(t, i) <= b
  {
    var k := Index(t, i);
    IndexAt(t, i, |t|);
    var j :| 0 <= j <= |t| && Offset(t, j) == b;
    IndexAt(t, i, j);
    if j > k { OffsetsGrow(t, k + 1, j); } else { OffsetsGrow(t, j, k); }
  }

  // ── Boundaries in the bytes ──────────────────────────────────────────────

  /** A char's bytes, in place. */
  lemma BytesOfChar(t: Text, k: nat, j: nat)
    requires k < |t| && j < Width(t[k])
    ensures Offset(t, k) + j < |Bytes(t)| && Bytes(t)[Offset(t, k) + j] == Encoded(t[k])[j]
  {
    OffsetsGrow(t, k + 1, |t|);
    BytesGrow(t, k + 1, |t|);
    assert BytesTo(t, k + 1)[Offset(t, k) + j] == Encoded(t[k])[j];
  }

  /** A byte is a boundary exactly when it does not continue a char. */
  lemma BoundaryByte(t: Text, i: nat)
    requires i < |Bytes(t)|
    ensures Boundary(t, i) <==> !Continues(Bytes(t)[i])
  {
    var k := Index(t, i);
    IndexAt(t, i, |t|);
    IndexAt(t, i, k);
    IndexAt(t, i, k + 1);
    BytesOfChar(t, k, i - Offset(t, k));
    if Boundary(t, i) {
      var j :| 0 <= j <= |t| && Offset(t, j) == i;
      IndexOfOffset(t, j);
    }
  }

  /** Stepping back over continuation bytes finds the boundary below. */
  method FloorBoundary(t: Text, i: nat) returns (b: nat)
    ensures b == Floor(t, i)
  {
    var bytes := Bytes(t);
    if i >= |bytes| {
      FloorIsGreatest(t, i, i);
      return |bytes|;
    }
    b := i;
    FloorIsGreatest(t, i, 0);
    assert Offset(t, 0) == 0 && Boundary(t, 0);
    while b > 0 && Continues(bytes[b])
      invariant 0 <= b <= i && Floor(t, i) <= b
    {
      BoundaryByte(t, b);
      b := b - 1;
    }
    if b > 0 { BoundaryByte(t, b); }
    FloorIsGreatest(t, i, b);
  }
}
