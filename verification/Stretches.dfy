/** What the pass notes of the stretches it is inside: which of a stretch's blocks
    each of them refers to. */
module Stretches {
  import opened Ir
  import opened Surface
  import opened Elaborator
  import Components

  /** A stretch under elaboration: the frame it binds into, each member's index by
      name, the member being elaborated, and the members each refers to. */
  datatype Stretch = Stretch(frame: nat, members: map<Name, nat>, current: nat, edges: seq<seq<nat>>)

  /** The innermost frame that holds a name, or the number of frames. */
  function Resolve(frames: seq<set<Name>>, x: Name): (f: nat)
    ensures f <= |frames|
    ensures f < |frames| ==> x in frames[f] && forall k | f < k < |frames| :: x !in frames[k]
    ensures f == |frames| ==> forall k | 0 <= k < |frames| :: x !in frames[k]
  {
    var top := |frames| - 1;
    if frames == [] then 0
    else if x in frames[top] then top
    else
      var f := Resolve(frames[..top], x);
      if f == top then |frames| else f
  }

  /** Stretches lie one inside the other, below frame `n`. */
  predicate Open(stretches: seq<Stretch>, n: nat) {
    && (forall t | 0 <= t < |stretches| :: stretches[t].frame < n && stretches[t].current < |stretches[t].edges|)
    && (forall t, u | 0 <= t < u < |stretches| :: stretches[t].frame < stretches[u].frame)
  }

  /** One of the names resolves to the stretch's member `m`. */
  ghost predicate Points(frames: seq<set<Name>>, s: Stretch, names: set<Name>, m: nat) {
    exists x :: x in names && Resolve(frames, x) == s.frame && x in s.members && s.members[x] == m
  }

  ghost predicate NotedOne(frames: seq<set<Name>>, s: Stretch, names: set<Name>, t: Stretch) {
    && t.frame == s.frame && t.members == s.members && t.current == s.current && |t.edges| == |s.edges|
    && forall i: nat, m: nat | i < |s.edges| :: NotedAt(frames, s, names, t, i, m)
  }

  ghost predicate NotedAt(frames: seq<set<Name>>, s: Stretch, names: set<Name>, t: Stretch, i: nat, m: nat)
    requires i < |s.edges| && |t.edges| == |s.edges|
  {
    m in t.edges[i] <==> m in s.edges[i] || (i == s.current && Points(frames, s, names, m))
  }

  /** Every stretch has gained, for its current member, exactly the members the names
      resolve to. */
  ghost predicate Noted(frames: seq<set<Name>>, a: seq<Stretch>, names: set<Name>, b: seq<Stretch>) {
    |a| == |b| && forall t | 0 <= t < |a| :: NotedOne(frames, a[t], names, b[t])
  }

  lemma NotedNone(frames: seq<set<Name>>, a: seq<Stretch>)
    ensures Noted(frames, a, {}, a)
  {
  }

  lemma NotedThen(frames: seq<set<Name>>, a: seq<Stretch>, names: set<Name>, b: seq<Stretch>, more: set<Name>, c: seq<Stretch>, all: set<Name>)
    requires Noted(frames, a, names, b) && Noted(frames, b, more, c) && all == names + more
    ensures Noted(frames, a, all, c)
  {
    forall t | 0 <= t < |a| ensures NotedOne(frames, a[t], all, c[t]) {
      assert NotedOne(frames, a[t], names, b[t]) && NotedOne(frames, b[t], more, c[t]);
      forall i: nat, m: nat | i < |a[t].edges| ensures NotedAt(frames, a[t], all, c[t], i, m) {
        assert NotedAt(frames, a[t], names, b[t], i, m) && NotedAt(frames, b[t], more, c[t], i, m);
        assert Points(frames, a[t], all, m) <==> Points(frames, a[t], names, m) || Points(frames, b[t], more, m);
      }
    }
  }

  lemma NotedOpen(frames: seq<set<Name>>, a: seq<Stretch>, names: set<Name>, b: seq<Stretch>, n: nat)
    requires Noted(frames, a, names, b) && Open(a, n)
    ensures Open(b, n)
  {
    forall t | 0 <= t < |a| ensures b[t].frame == a[t].frame && b[t].current < |b[t].edges| { assert NotedOne(frames, a[t], names, b[t]); }
  }

  /** Names the top frame has come to hold resolve to no stretch below it. */
  lemma NotedUnder(outer: seq<set<Name>>, inner: seq<set<Name>>, a: seq<Stretch>, names: set<Name>, held: set<Name>, b: seq<Stretch>)
    requires inner != [] && Open(a, |inner| - 1) && Noted(inner, a, names, b)
    requires forall x | x in held :: Resolve(inner, x) == |inner| - 1
    requires forall x | x !in held :: Resolve(outer, x) == Resolve(inner, x) || (Resolve(outer, x) >= |inner| - 1 && Resolve(inner, x) >= |inner| - 1)
    ensures Noted(outer, a, names - held, b)
  {
    forall t | 0 <= t < |a| ensures NotedOne(outer, a[t], names - held, b[t]) {
      assert NotedOne(inner, a[t], names, b[t]);
      forall i: nat, m: nat | i < |a[t].edges| ensures NotedAt(outer, a[t], names - held, b[t], i, m) {
        assert NotedAt(inner, a[t], names, b[t], i, m);
        if Points(inner, a[t], names, m) {
          var x :| x in names && Resolve(inner, x) == a[t].frame && x in a[t].members && a[t].members[x] == m;
          assert x !in held;
        }
      }
    }
  }

  /** A frame pushed, and what it came to hold. */
  lemma NotedPushed(frames: seq<set<Name>>, top: set<Name>, a: seq<Stretch>, names: set<Name>, b: seq<Stretch>)
    requires Open(a, |frames|) && Noted(frames + [top], a, names, b)
    ensures Noted(frames, a, names - top, b)
  {
    forall x | x !in top ensures Resolve(frames, x) == Resolve(frames + [top], x) || Resolve(frames, x) >= |frames| {
      assert (frames + [top])[..|frames|] == frames;
    }
    NotedUnder(frames, frames + [top], a, names, top, b);
  }

  /** Names bound in the top frame. */
  lemma NotedBound(frames: seq<set<Name>>, held: set<Name>, a: seq<Stretch>, names: set<Name>, b: seq<Stretch>)
    requires frames != [] && Open(a, |frames| - 1)
    requires var i := |frames| - 1; Noted(frames[i := frames[i] + held], a, names, b)
    ensures Noted(frames, a, names - held, b)
  {
    var i := |frames| - 1;
    var inner := frames[i := frames[i] + held];
    assert inner[..i] == frames[..i];
    NotedUnder(frames, inner, a, names, held, b);
  }

  /** An edge pushed for the one stretch, if any, whose frame a name resolves to. */
  lemma ReferNotes(frames: seq<set<Name>>, a: seq<Stretch>, x: Name, t: nat)
    requires t <= |a| && frames != [] && Open(a, |frames| - 1)
    requires forall u | t <= u < |a| :: a[u].frame != Resolve(frames, x)
    requires t > 0 ==> a[t - 1].frame == Resolve(frames, x)
    ensures var b := if t > 0 && x in a[t - 1].members then a[t - 1 := Pushed(a[t - 1], a[t - 1].members[x])] else a;
            Open(b, |frames| - 1) && Noted(frames, a, {x}, b)
  {
    var b := if t > 0 && x in a[t - 1].members then a[t - 1 := Pushed(a[t - 1], a[t - 1].members[x])] else a;
    forall u | 0 <= u < |a| ensures NotedOne(frames, a[u], {x}, b[u]) {
      if u < t - 1 { assert a[u].frame < a[t - 1].frame; }
      forall m: nat ensures Points(frames, a[u], {x}, m) <==> u == t - 1 && x in a[u].members && a[u].members[x] == m { }
    }
  }

  function Pushed(s: Stretch, m: nat): Stretch
    requires s.current < |s.edges|
  {
    s.(edges := s.edges[s.current := s.edges[s.current] + [m]])
  }

  // ── The graph of a stretch ───────────────────────────────────────────────

  /** Each name's last definition among the first `n`. */
  function Positions(defs: seq<Def>, n: nat): (ms: map<Name, nat>)
    requires n <= |defs|
    ensures forall x | x in ms :: ms[x] < n && defs[ms[x]].x == x && forall k | ms[x] < k < n :: defs[k].x != x
    ensures forall k | 0 <= k < n :: defs[k].x in ms
  {
    if n == 0 then map[] else Positions(defs, n - 1)[defs[n - 1].x := n - 1]
  }

  lemma PositionsStand(defs: seq<Def>, j: nat)
    requires j < |defs|
    ensures Positions(defs, |defs|)[defs[j].x] == j <==> Stands(defs, j)
  {
    var ms := Positions(defs, |defs|);
    assert defs[ms[defs[j].x]].x == defs[j].x;
    if Stands(defs, j) {
      forall k | j < k < |defs| ensures defs[k].x != defs[j].x { assert defs[j + 1..][k - j - 1].x in DefNames(defs[j + 1..]); }
    } else {
      var k :| 0 <= k < |defs[j + 1..]| && defs[j + 1..][k].x == defs[j].x;
      assert defs[j + 1 + k].x == defs[j].x;
    }
  }

  /** Two ascending lists of the same nodes are the same. */
  lemma {:induction false} AscendingSame(a: seq<nat>, b: seq<nat>)
    requires forall v: nat :: v in a <==> v in b
    requires forall i, j | 0 <= i < j < |a| :: a[i] < a[j]
    requires forall i, j | 0 <= i < j < |b| :: b[i] < b[j]
    ensures a == b
  {
    assert a != [] ==> a[0] in b;
    assert b != [] ==> b[0] in a;
    if a != [] {
      var m, n := |a| - 1, |b| - 1;
      assert a[m] in b && b[n] in a;
      assert a[m] == b[n];
      forall v: nat ensures v in a[..m] <==> v in b[..n] {
        assert v in a <==> v in a[..m] || v == a[m] by { assert a == a[..m] + [a[m]]; }
        assert v in b <==> v in b[..n] || v == b[n] by { assert b == b[..n] + [b[n]]; }
      }
      AscendingSame(a[..m], b[..n]);
      assert a == a[..m] + [a[m]] && b == b[..n] + [b[n]];
    }
  }

  /** What is noted of a member elaborated in the stretch's own frame. */
  lemma MemberPoints(frames: seq<set<Name>>, s: Stretch, defs: seq<Def>, names: set<Name>, m: nat)
    requires frames != [] && s.frame == |frames| - 1 && s.members == Positions(defs, |defs|) && DefNames(defs) <= frames[|frames| - 1]
    ensures Points(frames, s, names, m) <==> m < |defs| && defs[m].x in names && Stands(defs, m)
  {
    if Points(frames, s, names, m) {
      var x :| x in names && Resolve(frames, x) == s.frame && x in s.members && s.members[x] == m;
      PositionsStand(defs, m);
    }
    if m < |defs| && defs[m].x in names && Stands(defs, m) {
      PositionsStand(defs, m);
      assert Resolve(frames, defs[m].x) == s.frame;
    }
  }

  /** The edges noted of member `i` lead to the members its block refers to. */
  ghost predicate Referred(defs: seq<Def>, edges: seq<seq<nat>>, i: nat, m: nat)
    requires i < |defs| && |edges| == |defs|
  {
    m in edges[i] <==> m < |defs| && defs[m].x in UsesDef(defs[i]) && Stands(defs, m)
  }

  /** The first `i` members' edges are all noted, and no other's. */
  ghost predicate ReferredUpTo(defs: seq<Def>, edges: seq<seq<nat>>, i: nat) {
    && |edges| == |defs|
    && (forall j: nat, m: nat | j < i && j < |defs| :: Referred(defs, edges, j, m))
    && (forall j: nat, m: nat | i <= j < |defs| :: m !in edges[j])
  }

  lemma ReferredNext(defs: seq<Def>, edges: seq<seq<nat>>, i: nat, more: seq<seq<nat>>)
    requires ReferredUpTo(defs, edges, i) && i < |defs| && |more| == |defs| && forall m: nat :: Referred(defs, more, i, m)
    requires forall j: nat, m: nat | j < |defs| && j != i :: m in more[j] <==> m in edges[j]
    ensures ReferredUpTo(defs, more, i + 1)
  {
    forall j: nat, m: nat | j < i + 1 ensures Referred(defs, more, j, m) {
      if j < i { assert Referred(defs, edges, j, m); }
    }
  }

  /** A stretch with one of its members being elaborated in its own frame. */
  ghost predicate Current(frames: seq<set<Name>>, s: Stretch, defs: seq<Def>, i: nat) {
    && frames != [] && s.frame == |frames| - 1 && s.members == Positions(defs, |defs|) && DefNames(defs) <= frames[|frames| - 1]
    && s.current == i < |defs| && |s.edges| == |defs|
  }

  /** A stretch just begun in the top frame. */
  function Begun(frames: seq<set<Name>>, defs: seq<Def>): Stretch
    requires frames != []
  {
    Stretch(|frames| - 1, Positions(defs, |defs|), 0, seq(|defs|, _ => []))
  }

  lemma EmptyStretch(frames: seq<set<Name>>, a: seq<Stretch>, defs: seq<Def>, bound: set<Name>, n: nat)
    requires defs == []
    ensures ElabDefs(defs, bound, n) == LoweredDefs([], n)
    ensures Noted(frames, a, UsesDefs(defs) - DefNames(defs), a) && KnotBinds(defs, [], Height(defs)) == []
  {
    assert Height(defs) == 0;
  }

  lemma BegunIsOpen(frames: seq<set<Name>>, a: seq<Stretch>, defs: seq<Def>)
    requires frames != [] && defs != [] && Open(a, |frames| - 1)
    ensures Open(a + [Begun(frames, defs)], |frames|)
  {
  }

  lemma BegunIsCurrent(frames: seq<set<Name>>, defs: seq<Def>)
    requires frames != [] && defs != [] && DefNames(defs) <= frames[|frames| - 1]
    ensures var s := Begun(frames, defs); Current(frames, s, defs, 0) && ReferredUpTo(defs, s.edges, 0)
  {
  }

  lemma CurrentMoves(frames: seq<set<Name>>, s: Stretch, defs: seq<Def>, i: nat, j: nat)
    requires Current(frames, s, defs, i) && j < |defs|
    ensures Current(frames, s.(current := j), defs, j)
  {
  }

  lemma MemberNoted(frames: seq<set<Name>>, s: Stretch, defs: seq<Def>, i: nat, t: Stretch)
    requires Current(frames, s, defs, i) && NotedOne(frames, s, UsesDef(defs[i]), t) && forall m: nat :: m !in s.edges[i]
    ensures Current(frames, t, defs, i) && forall m: nat :: Referred(defs, t.edges, i, m)
    ensures forall j, m: nat | 0 <= j < |defs| && j != i :: m in t.edges[j] <==> m in s.edges[j]
  {
    forall m: nat ensures Referred(defs, t.edges, i, m) {
      assert NotedAt(frames, s, UsesDef(defs[i]), t, i, m);
      MemberPoints(frames, s, defs, UsesDef(defs[i]), m);
    }
    forall j: nat, m: nat | j < |defs| && j != i ensures m in t.edges[j] <==> m in s.edges[j] { assert NotedAt(frames, s, UsesDef(defs[i]), t, j, m); }
  }

  lemma NotedPrefix(frames: seq<set<Name>>, a: seq<Stretch>, names: set<Name>, b: seq<Stretch>, n: nat)
    requires Noted(frames, a, names, b) && n <= |a|
    ensures Noted(frames, a[..n], names, b[..n])
  {
    forall t | 0 <= t < n ensures NotedOne(frames, a[..n][t], names, b[..n][t]) { assert NotedOne(frames, a[t], names, b[t]); }
  }

  lemma {:induction false} UsesOfLast(defs: seq<Def>, i: nat)
    requires i < |defs|
    ensures UsesDefs(defs[..i + 1]) == UsesDefs(defs[..i]) + UsesDef(defs[i])
  {
    if i == 0 {
      assert defs[..1][1..] == [] && defs[..0] == [];
    } else {
      UsesOfLast(defs[1..], i - 1);
      assert defs[..i + 1][1..] == defs[1..][..i] && defs[..i][1..] == defs[1..][..i - 1];
    }
  }

  /** Member `i`, elaborated as the current one. */
  ghost predicate Turned(frames: seq<set<Name>>, a: seq<Stretch>, defs: seq<Def>, i: nat, b: seq<Stretch>) {
    && i < |defs| && |a| == |b| && a != []
    && Noted(frames, a[..|a| - 1], UsesDef(defs[i]), b[..|a| - 1])
    && var s, t := a[|a| - 1], b[|a| - 1];
       && Current(frames, t, defs, i) && |s.edges| == |defs| && (forall m: nat :: Referred(defs, t.edges, i, m))
       && forall j: nat, m: nat | j < |defs| && j != i :: m in t.edges[j] <==> m in s.edges[j]
  }

  /** The first `i` members elaborated, of the last stretch. */
  ghost predicate Turning(frames: seq<set<Name>>, a: seq<Stretch>, defs: seq<Def>, i: nat, b: seq<Stretch>) {
    && i <= |defs| && |a| == |b| && a != [] && defs != []
    && Noted(frames, a[..|a| - 1], UsesDefs(defs[..i]), b[..|a| - 1])
    && var t := b[|a| - 1]; Current(frames, t.(current := 0), defs, 0) && ReferredUpTo(defs, t.edges, i)
  }

  lemma TurningBegins(frames: seq<set<Name>>, a: seq<Stretch>, defs: seq<Def>)
    requires a != [] && defs != [] && Current(frames, a[|a| - 1], defs, 0) && ReferredUpTo(defs, a[|a| - 1].edges, 0)
    ensures Turning(frames, a, defs, 0, a)
  {
    NotedNone(frames, a[..|a| - 1]);
    CurrentMoves(frames, a[|a| - 1], defs, 0, 0);
    assert UsesDefs(defs[..0]) == {};
  }

  lemma TurningNext(frames: seq<set<Name>>, a: seq<Stretch>, defs: seq<Def>, i: nat, b: seq<Stretch>, c: seq<Stretch>)
    requires Turning(frames, a, defs, i, b) && Turned(frames, b, defs, i, c)
    ensures Turning(frames, a, defs, i + 1, c)
  {
    hide Noted, ReferredUpTo, Referred, UsesDefs, UsesDef;
    var top := |a| - 1;
    UsesOfLast(defs, i);
    NotedThen(frames, a[..top], UsesDefs(defs[..i]), b[..top], UsesDef(defs[i]), c[..top], UsesDefs(defs[..i + 1]));
    ReferredNext(defs, b[top].edges, i, c[top].edges);
    CurrentMoves(frames, c[top], defs, i, 0);
  }

  lemma TurningReady(frames: seq<set<Name>>, a: seq<Stretch>, defs: seq<Def>, i: nat, b: seq<Stretch>)
    requires Turning(frames, a, defs, i, b) && i < |defs|
    ensures var s := b[|b| - 1].(current := i); Current(frames, s, defs, i) && ReferredUpTo(defs, s.edges, i)
  {
    CurrentMoves(frames, b[|b| - 1].(current := 0), defs, 0, i);
  }

  lemma TurningEnds(frames: seq<set<Name>>, a: seq<Stretch>, defs: seq<Def>, b: seq<Stretch>)
    requires Turning(frames, a, defs, |defs|, b)
    ensures Noted(frames, a[..|a| - 1], UsesDefs(defs), b[..|a| - 1]) && ReferredUpTo(defs, b[|a| - 1].edges, |defs|)
  {
    assert defs[..|defs|] == defs;
  }

  lemma EdgesCount(defs: seq<Def>, edges: seq<seq<nat>>)
    requires ReferredUpTo(defs, edges, |defs|)
    ensures |edges| == |defs|
  {
  }

  /** Sorted and without repeats, the edges noted are the stretch's references. */
  lemma EdgesAre(defs: seq<Def>, edges: seq<seq<nat>>, refs: seq<seq<nat>>)
    requires ReferredUpTo(defs, edges, |defs|) && |refs| == |defs| && forall i | 0 <= i < |defs| :: refs[i] == Components.Ascending(edges[i], |defs|)
    ensures refs == References(defs)
  {
    hide Stands, Defining, DefNames, UsesDef, Components.Ascending;
    forall i: nat | i < |defs| ensures refs[i] == References(defs)[i] {
      forall m: nat ensures m in edges[i] <==> m < |defs| && defs[m].x in UsesDef(defs[i]) && Stands(defs, m) { assert Referred(defs, edges, i, m); }
      AscendingSame(refs[i], Defining(defs, UsesDef(defs[i]), |defs|));
    }
  }
}
