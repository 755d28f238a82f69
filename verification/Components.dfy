/** Tarjan's strongly connected components, iteratively: dependencies first, each
    component ascending. */
module Components {
  import opened Wrappers

  /** `g[i]`: the nodes `i` refers to. */
  type Graph = seq<seq<nat>>

  predicate Closed(g: Graph) {
    forall i, j | 0 <= i < |g| && 0 <= j < |g[i]| :: g[i][j] < |g|
  }

  // ── The search ───────────────────────────────────────────────────────────

  datatype Search = Search(next: nat, index: seq<Option<nat>>, low: seq<nat>, onStack: seq<bool>, stack: seq<nat>, out: seq<seq<nat>>)

  /** A node, and where in its edges to resume. */
  datatype Frame = Frame(node: nat, at: nat)

  predicate Sized(g: Graph, s: Search) {
    |s.index| == |g| && |s.low| == |g| && |s.onStack| == |g|
  }

  predicate Framed(g: Graph, work: seq<Frame>) {
    forall k | 0 <= k < |work| :: work[k].node < |g| && work[k].at <= |g[work[k].node]|
  }

  function Min(a: nat, b: nat): nat { if a < b then a else b }

  function Visit(g: Graph, s: Search, v: nat): (t: Search)
    requires Sized(g, s) && v < |g|
    ensures Sized(g, t)
  {
    Search(s.next + 1, s.index[v := Some(s.next)], s.low[v := s.next], s.onStack[v := true], s.stack + [v], s.out)
  }

  function Lower(g: Graph, s: Search, v: nat, i: nat): (t: Search)
    requires Sized(g, s) && v < |g|
    ensures Sized(g, t)
  {
    s.(low := s.low[v := Min(s.low[v], i)])
  }

  /** Where a node last stands, or the end. */
  function LastAt(stack: seq<nat>, v: nat): (i: nat)
    ensures i <= |stack|
    ensures i < |stack| ==> stack[i] == v
    ensures v in stack ==> i < |stack|
  {
    if stack == [] then 0
    else if stack[|stack| - 1] == v then |stack| - 1
    else
      var i := LastAt(stack[..|stack| - 1], v);
      if i == |stack| - 1 then |stack| else i
  }

  /** The nodes below `n` among those given, ascending. */
  function Ascending(nodes: seq<nat>, n: nat): (r: seq<nat>)
    ensures forall v: nat :: v in r <==> v in nodes && v < n
    ensures forall i | 0 <= i < |r| :: r[i] < n
    ensures forall i, j | 0 <= i < j < |r| :: r[i] < r[j]
  {
    if n == 0 then [] else Ascending(nodes, n - 1) + if n - 1 in nodes then [n - 1] else []
  }

  /** A root and everything above it on the stack is a component. */
  function Cut(g: Graph, s: Search, v: nat): (t: Search)
    requires Sized(g, s)
    ensures Sized(g, t)
  {
    var from := LastAt(s.stack, v);
    var component := s.stack[from..];
    s.(stack := s.stack[..from],
       onStack := seq(|s.onStack|, i requires 0 <= i < |s.onStack| => s.onStack[i] && i !in component),
       out := s.out + [Ascending(component, |g|)])
  }

  function Leave(g: Graph, s: Search, v: nat, parent: seq<Frame>): (t: Search)
    requires Sized(g, s) && v < |g| && Framed(g, parent)
    ensures Sized(g, t)
  {
    var s1 := if s.index[v] == Some(s.low[v]) then Cut(g, s, v) else s;
    if parent == [] then s1 else Lower(g, s1, parent[|parent| - 1].node, s1.low[v])
  }

  function Unvisited(index: seq<Option<nat>>): nat {
    if index == [] then 0 else Unvisited(index[..|index| - 1]) + if index[|index| - 1].None? then 1 else 0
  }

  lemma {:induction false} VisitLeavesFewer(index: seq<Option<nat>>, v: nat, i: nat)
    requires v < |index| && index[v].None?
    ensures Unvisited(index[v := Some(i)]) == Unvisited(index) - 1
  {
    var m := |index| - 1;
    if v < m {
      assert index[v := Some(i)][..m] == index[..m][v := Some(i)];
      VisitLeavesFewer(index[..m], v, i);
    } else {
      assert index[v := Some(i)][..m] == index[..m];
    }
  }

  /** The edges still to follow, and the frames still to leave. */
  function Remaining(g: Graph, work: seq<Frame>): nat
    requires Framed(g, work)
  {
    if work == [] then 0
    else
      var f := work[|work| - 1];
      Remaining(g, work[..|work| - 1]) + |g[f.node]| - f.at + 1
  }

  /** One turn of the loop: follow an edge of the last frame's node, or leave it. */
  function Step(g: Graph, s: Search, work: seq<Frame>): (r: (Search, seq<Frame>))
    requires Closed(g) && Sized(g, s) && Framed(g, work) && work != []
    ensures Sized(g, r.0) && Framed(g, r.1)
    ensures Unvisited(r.0.index) < Unvisited(s.index) || (r.0.index == s.index && Remaining(g, r.1) < Remaining(g, work))
  {
    var f, rest := work[|work| - 1], work[..|work| - 1];
    if f.at < |g[f.node]| then
      var w, on := g[f.node][f.at], rest + [Frame(f.node, f.at + 1)];
      assert on[..|on| - 1] == rest;
      match s.index[w]
      case None => VisitLeavesFewer(s.index, w, s.next); (Visit(g, s, w), on + [Frame(w, 0)])
      case Some(i) => (if s.onStack[w] then Lower(g, s, f.node, i) else s, on)
    else
      (Leave(g, s, f.node, rest), rest)
  }

  function Drive(g: Graph, s: Search, work: seq<Frame>): (t: Search)
    requires Closed(g) && Sized(g, s) && Framed(g, work)
    ensures Sized(g, t)
    decreases Unvisited(s.index), Remaining(g, work)
  {
    if work == [] then s
    else
      var r := Step(g, s, work);
      Drive(g, r.0, r.1)
  }

  /** The search once every node below `n` has been visited. */
  function Searched(g: Graph, n: nat): (s: Search)
    requires Closed(g) && n <= |g|
    ensures Sized(g, s)
  {
    if n == 0 then Fresh(|g|)
    else
      var s := Searched(g, n - 1);
      if s.index[n - 1].None? then Drive(g, Visit(g, s, n - 1), [Frame(n - 1, 0)]) else s
  }

  function Fresh(n: nat): Search {
    Search(0, seq(n, _ => None), seq(n, _ => 0), seq(n, _ => false), [], [])
  }

  function Sccs(g: Graph): seq<seq<nat>>
    requires Closed(g)
  {
    Searched(g, |g|).out
  }

  // ── Reaching ─────────────────────────────────────────────────────────────

  ghost predicate IsPath(g: Graph, u: nat, v: nat, p: seq<nat>) {
    && p != [] && p[0] == u && p[|p| - 1] == v
    && (forall i | 0 <= i < |p| :: p[i] < |g|)
    && (forall i | 0 <= i < |p| - 1 :: p[i + 1] in g[p[i]])
  }

  ghost predicate Reach(g: Graph, u: nat, v: nat) {
    exists p :: IsPath(g, u, v, p)
  }

  lemma ReachSelf(g: Graph, u: nat)
    requires u < |g|
    ensures Reach(g, u, u)
  {
    assert IsPath(g, u, u, [u]);
  }

  lemma ReachEdge(g: Graph, u: nat, v: nat)
    requires Closed(g) && u < |g| && v in g[u]
    ensures Reach(g, u, v)
  {
    assert IsPath(g, u, v, [u, v]);
  }

  lemma ReachThrough(g: Graph, u: nat, v: nat, w: nat)
    requires Reach(g, u, v) && Reach(g, v, w)
    ensures Reach(g, u, w)
  {
    var p, q :| IsPath(g, u, v, p) && IsPath(g, v, w, q);
    assert IsPath(g, u, w, p + q[1..]);
  }

  // ── What every turn keeps ────────────────────────────────────────────────

  ghost predicate Before(s: Search, u: nat, v: nat) {
    && u < |s.index| && v < |s.index| && s.index[u].Some? && s.index[v].Some?
    && s.index[u].value < s.index[v].value
  }

  /** The stack holds visited nodes in the order of their visits. */
  ghost predicate Stacked(g: Graph, s: Search)
    requires Sized(g, s)
  {
    && (forall i | 0 <= i < |s.stack| :: s.stack[i] < |g| && s.index[s.stack[i]].Some? && s.index[s.stack[i]].value < s.next)
    && (forall i, j | 0 <= i < j < |s.stack| :: Before(s, s.stack[i], s.stack[j]))
    && (forall v: nat | v < |g| :: s.onStack[v] <==> v in s.stack)
  }

  ghost predicate Emitted(out: seq<seq<nat>>, v: nat) {
    exists c :: 0 <= c < |out| && v in out[c]
  }

  /** A visited node is on the stack or in exactly one component. */
  ghost predicate Parted(g: Graph, s: Search)
    requires Sized(g, s)
  {
    && (forall v: nat | v < |g| :: s.index[v].Some? <==> v in s.stack || Emitted(s.out, v))
    && (forall c, v | 0 <= c < |s.out| && v in s.out[c] :: v < |g|)
    && (forall c, v | 0 <= c < |s.out| && v in s.out[c] :: v !in s.stack)
    && (forall c, d, v | 0 <= c < d < |s.out| && v in s.out[c] :: v !in s.out[d])
    && (forall c | 0 <= c < |s.out| :: s.out[c] != [])
    && (forall c, i, j | 0 <= c < |s.out| && 0 <= i < j < |s.out[c]| :: s.out[c][i] < s.out[c][j])
  }

  /** The frames are a chain up the stack, each reaching the next. */
  ghost predicate Working(g: Graph, s: Search, work: seq<Frame>) {
    && Framed(g, work)
    && (work == [] <==> s.stack == []) && (work != [] ==> s.stack[0] == work[0].node)
    && (forall k | 0 <= k < |work| :: work[k].node in s.stack)
    && (forall j, k | 0 <= j < k < |work| :: Before(s, work[j].node, work[k].node) && Reach(g, work[j].node, work[k].node))
  }

  ghost predicate Witness(g: Graph, s: Search, v: nat, i: nat, u: nat) {
    u in s.stack && u < |s.index| && s.index[u] == Some(i) && Reach(g, v, u)
  }

  /** A frame's lowlink is the index of a node on the stack that it reaches. */
  ghost predicate Lows(g: Graph, s: Search, work: seq<Frame>)
    requires Sized(g, s) && Framed(g, work)
  {
    forall k | 0 <= k < |work| ::
      s.index[work[k].node].Some? && s.low[work[k].node] <= s.index[work[k].node].value
      && exists u :: Witness(g, s, work[k].node, s.low[work[k].node], u)
  }

  /** The `j`-th edge of `v` has been followed, or will not be. */
  ghost predicate Followed(g: Graph, work: seq<Frame>, v: nat, j: nat) {
    v < |g| && j < |g[v]| && forall k | 0 <= k < |work| && work[k].node == v :: j < work[k].at
  }

  ghost predicate Seen(g: Graph, s: Search, work: seq<Frame>)
    requires Closed(g) && Sized(g, s)
  {
    forall v: nat, j: nat | Followed(g, work, v, j) && s.index[v].Some? :: s.index[g[v][j]].Some?
  }

  /** The frame whose part of the stack a node is in. */
  ghost predicate Owns(s: Search, work: seq<Frame>, k: nat, u: nat)
    requires k < |work|
  {
    u in s.stack && !Before(s, u, work[k].node) && (k + 1 < |work| ==> Before(s, u, work[k + 1].node))
  }

  /** Every edge followed from a frame's part to the stack is bounded by its lowlink. */
  ghost predicate Bounded(g: Graph, s: Search, work: seq<Frame>)
    requires Closed(g) && Sized(g, s) && Framed(g, work)
  {
    forall k, u: nat, j: nat | 0 <= k < |work| && Owns(s, work, k, u) && Followed(g, work, u, j) && g[u][j] in s.stack ::
      s.index[g[u][j]].Some? && s.low[work[k].node] <= s.index[g[u][j]].value
  }

  /** A frame and the nodes of its part reach each other. */
  ghost predicate Knit(g: Graph, s: Search, work: seq<Frame>) {
    forall k, u | 0 <= k < |work| && Owns(s, work, k, u) :: Reach(g, work[k].node, u) && Reach(g, u, work[k].node)
  }

  /** What a component refers to is in it or in an earlier one. */
  ghost predicate Settled(g: Graph, out: seq<seq<nat>>) {
    forall c, v, w | 0 <= c < |out| && v in out[c] && v < |g| && w in g[v] :: Emitted(out[..c + 1], w)
  }

  ghost predicate Strong(g: Graph, out: seq<seq<nat>>) {
    forall c, u, v | 0 <= c < |out| && u in out[c] && v in out[c] :: Reach(g, u, v)
  }

  ghost predicate Inv(g: Graph, s: Search, work: seq<Frame>) {
    && Closed(g) && Sized(g, s) && Stacked(g, s) && Parted(g, s) && Working(g, s, work) && Lows(g, s, work)
    && Seen(g, s, work) && Bounded(g, s, work) && Knit(g, s, work) && Settled(g, s.out) && Strong(g, s.out)
  }

  // ── A node discovered ────────────────────────────────────────────────────

  ghost predicate New(g: Graph, s: Search, work: seq<Frame>, v: nat) {
    && Inv(g, s, work) && v < |g| && s.index[v].None?
    && (work != [] ==> work[|work| - 1].node < |g| && v in g[work[|work| - 1].node])
  }

  lemma NewStacked(g: Graph, s: Search, work: seq<Frame>, v: nat)
    requires New(g, s, work, v)
    ensures Stacked(g, Visit(g, s, v))
  {
    hide Working, Settled, Strong, Reach, Seen, Bounded, Knit, Lows;
  }

  lemma NewParted(g: Graph, s: Search, work: seq<Frame>, v: nat)
    requires New(g, s, work, v)
    ensures Parted(g, Visit(g, s, v))
  {
    hide Stacked, Working, Settled, Strong, Reach, Seen, Bounded, Knit, Lows;
  }

  lemma NewWorking(g: Graph, s: Search, work: seq<Frame>, v: nat)
    requires New(g, s, work, v)
    ensures Working(g, Visit(g, s, v), work + [Frame(v, 0)])
  {
    var t, more := Visit(g, s, v), work + [Frame(v, 0)];
    forall j | 0 <= j < |work| ensures Before(t, work[j].node, v) && Reach(g, work[j].node, v) {
      var last := work[|work| - 1].node;
      assert work[j].node in s.stack;
      ReachEdge(g, last, v);
      if j < |work| - 1 { ReachThrough(g, work[j].node, last, v); }
    }
    forall j, k | 0 <= j < k < |more| ensures Before(t, more[j].node, more[k].node) && Reach(g, more[j].node, more[k].node) {
      if k < |work| { assert Before(s, work[j].node, work[k].node); }
    }
  }

  lemma NewLows(g: Graph, s: Search, work: seq<Frame>, v: nat)
    requires New(g, s, work, v)
    ensures Lows(g, Visit(g, s, v), work + [Frame(v, 0)])
  {
    var t, more := Visit(g, s, v), work + [Frame(v, 0)];
    forall k | 0 <= k < |more|
      ensures t.index[more[k].node].Some? && t.low[more[k].node] <= t.index[more[k].node].value
      ensures exists u :: Witness(g, t, more[k].node, t.low[more[k].node], u)
    {
      if k < |work| {
        var u :| Witness(g, s, work[k].node, s.low[work[k].node], u);
        assert work[k].node != v;
        assert Witness(g, t, work[k].node, t.low[work[k].node], u);
      } else {
        ReachSelf(g, v);
        assert Witness(g, t, v, t.low[v], v);
      }
    }
  }

  lemma NewOwns(g: Graph, s: Search, work: seq<Frame>, v: nat, k: nat, u: nat)
    requires New(g, s, work, v) && k <= |work| && Owns(Visit(g, s, v), work + [Frame(v, 0)], k, u)
    ensures if k == |work| then u == v else u != v && Owns(s, work, k, u)
  {
    var more := work + [Frame(v, 0)];
    assert k < |work| ==> more[k] == work[k];
    assert k + 1 < |work| ==> more[k + 1] == work[k + 1];
  }

  lemma NewFollowed(g: Graph, s: Search, work: seq<Frame>, v: nat, u: nat, j: nat)
    requires New(g, s, work, v) && Followed(g, work + [Frame(v, 0)], u, j)
    ensures u != v && Followed(g, work, u, j)
  {
    var more := work + [Frame(v, 0)];
    assert more[|work|] == Frame(v, 0);
    forall k | 0 <= k < |work| && work[k].node == u ensures j < work[k].at { assert more[k] == work[k]; }
  }

  lemma NewBounded(g: Graph, s: Search, work: seq<Frame>, v: nat)
    requires New(g, s, work, v)
    ensures var t, more := Visit(g, s, v), work + [Frame(v, 0)]; Seen(g, t, more) && Bounded(g, t, more)
  {
    var t, more := Visit(g, s, v), work + [Frame(v, 0)];
    forall u: nat, j: nat | Followed(g, more, u, j) && t.index[u].Some? ensures t.index[g[u][j]].Some? { NewFollowed(g, s, work, v, u, j); }
    forall k, u: nat, j: nat | 0 <= k < |more| && Owns(t, more, k, u) && Followed(g, more, u, j) && g[u][j] in t.stack
      ensures t.index[g[u][j]].Some? && t.low[more[k].node] <= t.index[g[u][j]].value
    {
      NewFollowed(g, s, work, v, u, j);
      NewOwns(g, s, work, v, k, u);
      assert s.index[u].Some? && g[u][j] != v;
      assert work[k].node != v;
    }
  }

  lemma NewKnit(g: Graph, s: Search, work: seq<Frame>, v: nat)
    requires New(g, s, work, v)
    ensures Knit(g, Visit(g, s, v), work + [Frame(v, 0)])
  {
    var t, more := Visit(g, s, v), work + [Frame(v, 0)];
    forall k, u | 0 <= k < |more| && Owns(t, more, k, u) ensures Reach(g, more[k].node, u) && Reach(g, u, more[k].node) {
      NewOwns(g, s, work, v, k, u);
      ReachSelf(g, v);
    }
  }

  lemma Discovered(g: Graph, s: Search, work: seq<Frame>, v: nat)
    requires New(g, s, work, v)
    ensures Inv(g, Visit(g, s, v), work + [Frame(v, 0)])
  {
    NewStacked(g, s, work, v);
    NewParted(g, s, work, v);
    NewWorking(g, s, work, v);
    NewLows(g, s, work, v);
    NewBounded(g, s, work, v);
    NewKnit(g, s, work, v);
  }

  // ── An edge followed ─────────────────────────────────────────────────────

  lemma Lowered(g: Graph, s: Search, work: seq<Frame>, k: nat, i: nat, u: nat)
    requires Inv(g, s, work) && k < |work| && Witness(g, s, work[k].node, i, u)
    ensures Inv(g, Lower(g, s, work[k].node, i), work)
  {
    LoweredLows(g, s, work, k, i, u);
    LoweredBounded(g, s, work, k, i);
    hide Stacked, Parted, Working, Settled, Strong, Reach, Lows, Seen, Bounded, Knit;
    LoweredSame(g, s, work, work[k].node, i);
  }

  /** Everything else does not read the lowlinks. */
  lemma LoweredSame(g: Graph, s: Search, work: seq<Frame>, v: nat, i: nat)
    requires Inv(g, s, work) && v < |g|
    ensures var t := Lower(g, s, v, i);
            Stacked(g, t) && Parted(g, t) && Working(g, t, work) && Seen(g, t, work) && Knit(g, t, work)
  {
    hide Settled, Strong, Reach, Lows, Bounded;
    var t := Lower(g, s, v, i);
    forall j, w | 0 <= j < |work| && Owns(t, work, j, w) ensures Owns(s, work, j, w) { }
  }

  lemma LoweredLows(g: Graph, s: Search, work: seq<Frame>, k: nat, i: nat, u: nat)
    requires Inv(g, s, work) && k < |work| && Witness(g, s, work[k].node, i, u)
    ensures Lows(g, Lower(g, s, work[k].node, i), work)
  {
    hide Stacked, Parted, Settled, Strong, Reach, Seen, Bounded, Knit;
    var t := Lower(g, s, work[k].node, i);
    forall j | 0 <= j < |work|
      ensures t.low[work[j].node] <= s.low[work[j].node] && exists w :: Witness(g, t, work[j].node, t.low[work[j].node], w)
    {
      var w :| Witness(g, s, work[j].node, s.low[work[j].node], w);
      assert Witness(g, t, work[j].node, s.low[work[j].node], w);
      if work[j].node == work[k].node { assert Witness(g, t, work[j].node, i, u); }
    }
  }

  lemma LoweredBounded(g: Graph, s: Search, work: seq<Frame>, k: nat, i: nat)
    requires Inv(g, s, work) && k < |work|
    ensures Bounded(g, Lower(g, s, work[k].node, i), work)
  {
    assert Framed(g, work) && Sized(g, s);
    hide Stacked, Parted, Working, Settled, Strong, Reach, Seen, Knit, Lows;
    var t := Lower(g, s, work[k].node, i);
    forall j, w | 0 <= j < |work| && Owns(t, work, j, w) ensures Owns(s, work, j, w) { }
  }

  ghost predicate Passable(g: Graph, s: Search, work: seq<Frame>, k: nat) {
    && Inv(g, s, work) && k < |work| && work[k].at < |g[work[k].node]|
    && (var w := g[work[k].node][work[k].at]; s.index[w].Some? && (w in s.stack ==> s.low[work[k].node] <= s.index[w].value))
  }

  function Pass(work: seq<Frame>, k: nat): seq<Frame>
    requires k < |work|
  {
    work[k := Frame(work[k].node, work[k].at + 1)]
  }

  /** Past an edge whose end is visited, and bounds the lowlink if it is on the stack. */
  lemma Passed(g: Graph, s: Search, work: seq<Frame>, k: nat)
    requires Passable(g, s, work, k)
    ensures Inv(g, s, Pass(work, k))
  {
    PassedWorking(g, s, work, k);
    PassedBounded(g, s, work, k);
    PassedKnit(g, s, work, k);
  }

  lemma PassedWorking(g: Graph, s: Search, work: seq<Frame>, k: nat)
    requires Passable(g, s, work, k)
    ensures Working(g, s, Pass(work, k)) && Lows(g, s, Pass(work, k))
  {
    hide Stacked, Parted, Seen, Bounded, Knit, Settled, Strong, Reach;
    assert forall m | 0 <= m < |work| :: Pass(work, k)[m].node == work[m].node;
  }

  lemma PassedOwns(s: Search, work: seq<Frame>, k: nat, m: nat, u: nat)
    requires k < |work| && m < |work| && Owns(s, Pass(work, k), m, u)
    ensures Owns(s, work, m, u)
  {
  }

  lemma PassedKnit(g: Graph, s: Search, work: seq<Frame>, k: nat)
    requires Passable(g, s, work, k)
    ensures Knit(g, s, Pass(work, k))
  {
    hide Stacked, Parted, Seen, Bounded, Working, Settled, Strong, Reach, Lows;
    forall m, u | 0 <= m < |work| && Owns(s, Pass(work, k), m, u) ensures Reach(g, work[m].node, u) && Reach(g, u, work[m].node) {
      PassedOwns(s, work, k, m, u);
    }
  }

  /** One more edge has been followed. */
  lemma PassedFollowed(g: Graph, work: seq<Frame>, k: nat, v: nat, j: nat)
    requires k < |work| && Followed(g, Pass(work, k), v, j)
    ensures Followed(g, work, v, j) || (v == work[k].node && j == work[k].at)
  {
    if !Followed(g, work, v, j) {
      var m :| 0 <= m < |work| && work[m].node == v && j >= work[m].at;
      assert Pass(work, k)[m].node == v;
    }
  }

  lemma PassedBounded(g: Graph, s: Search, work: seq<Frame>, k: nat)
    requires Passable(g, s, work, k)
    ensures Seen(g, s, Pass(work, k)) && Framed(g, Pass(work, k)) && Bounded(g, s, Pass(work, k))
  {
    var on := Pass(work, k);
    OwnsOne(g, s, work, k);
    hide Stacked, Parted, Settled, Strong, Reach, Lows, Knit, Owns, Followed, Working;
    forall v: nat, j: nat | Followed(g, on, v, j) && s.index[v].Some? ensures s.index[g[v][j]].Some? { PassedFollowed(g, work, k, v, j); }
    forall m, u: nat, j: nat | 0 <= m < |on| && Owns(s, on, m, u) && Followed(g, on, u, j) && g[u][j] in s.stack
      ensures s.index[g[u][j]].Some? && s.low[on[m].node] <= s.index[g[u][j]].value
    {
      PassedOwns(s, work, k, m, u);
      PassedFollowed(g, work, k, u, j);
    }
  }

  /** A frame's node is in its own part and no other. */
  lemma OwnsOne(g: Graph, s: Search, work: seq<Frame>, k: nat)
    requires Inv(g, s, work) && k < |work|
    ensures forall m | 0 <= m < |work| && Owns(s, work, m, work[k].node) :: m == k
  {
    forall m | 0 <= m < |work| && m != k ensures !Owns(s, work, m, work[k].node) {
      if m < k {
        if m + 1 < k { assert Before(s, work[m + 1].node, work[k].node); }
      } else {
        assert Before(s, work[k].node, work[m].node);
      }
    }
  }

  // ── A frame left ─────────────────────────────────────────────────────────

  /** The last frame, past every edge. */
  ghost predicate Spent(g: Graph, s: Search, work: seq<Frame>) {
    Inv(g, s, work) && work != [] && work[|work| - 1].at == |g[work[|work| - 1].node]|
  }

  function Parent(work: seq<Frame>): seq<Frame>
    requires work != []
  {
    work[..|work| - 1]
  }

  lemma LeftFollowed(g: Graph, work: seq<Frame>, v: nat, j: nat)
    requires work != [] && work[|work| - 1].node < |g| && work[|work| - 1].at == |g[work[|work| - 1].node]| && Followed(g, Parent(work), v, j)
    ensures Followed(g, work, v, j)
  {
    forall k | 0 <= k < |work| && work[k].node == v ensures j < work[k].at {
      if k < |work| - 1 { assert Parent(work)[k] == work[k]; }
    }
  }

  lemma LeftOwns(s: Search, work: seq<Frame>, k: nat, u: nat)
    requires work != [] && k < |work| - 1 && Owns(s, Parent(work), k, u)
    ensures Owns(s, work, k, u) || (k == |work| - 2 && u in s.stack && !Before(s, u, work[|work| - 1].node))
  {
  }

  /** No root: its part joins its parent's. */
  lemma Joined(g: Graph, s: Search, work: seq<Frame>)
    requires Spent(g, s, work) && |work| >= 2
    requires s.low[work[|work| - 2].node] <= s.low[work[|work| - 1].node] && Reach(g, work[|work| - 1].node, work[|work| - 2].node)
    ensures Inv(g, s, Parent(work))
  {
    JoinedWorking(g, s, work);
    JoinedBounded(g, s, work);
    JoinedKnit(g, s, work);
  }

  lemma JoinedWorking(g: Graph, s: Search, work: seq<Frame>)
    requires |work| >= 2 && Inv(g, s, work)
    ensures Working(g, s, Parent(work)) && Lows(g, s, Parent(work))
  {
    hide Stacked, Parted, Seen, Bounded, Knit, Settled, Strong, Reach;
  }

  lemma JoinedBounded(g: Graph, s: Search, work: seq<Frame>)
    requires Spent(g, s, work) && |work| >= 2 && s.low[work[|work| - 2].node] <= s.low[work[|work| - 1].node]
    ensures Seen(g, s, Parent(work)) && Framed(g, Parent(work)) && Bounded(g, s, Parent(work))
  {
    var rest, m := Parent(work), |work| - 1;
    hide Stacked, Parted, Settled, Strong, Reach, Lows, Knit, Followed, Working;
    forall v: nat, j: nat | Followed(g, rest, v, j) && s.index[v].Some? ensures s.index[g[v][j]].Some? { LeftFollowed(g, work, v, j); }
    forall k, u: nat, j: nat | 0 <= k < |rest| && Owns(s, rest, k, u) && Followed(g, rest, u, j) && g[u][j] in s.stack
      ensures s.index[g[u][j]].Some? && s.low[rest[k].node] <= s.index[g[u][j]].value
    {
      LeftFollowed(g, work, u, j);
      LeftOwns(s, work, k, u);
      assert Owns(s, work, k, u) || (k == m - 1 && Owns(s, work, m, u));
    }
  }

  lemma JoinedKnit(g: Graph, s: Search, work: seq<Frame>)
    requires |work| >= 2 && Inv(g, s, work) && Reach(g, work[|work| - 1].node, work[|work| - 2].node)
    ensures Knit(g, s, Parent(work))
  {
    var m := |work| - 1;
    var rest := Parent(work);
    var v, p := work[m].node, work[m - 1].node;
    hide Stacked, Parted, Settled, Strong, Reach, Lows, Seen, Bounded;
    forall k, u | 0 <= k < m && Owns(s, rest, k, u) ensures Reach(g, rest[k].node, u) && Reach(g, u, rest[k].node) {
      LeftOwns(s, work, k, u);
      if !Owns(s, work, k, u) {
        assert Owns(s, work, m, u);
        ReachThrough(g, p, v, u);
        ReachThrough(g, u, v, p);
      }
    }
  }

  ghost predicate Witnessed(g: Graph, s: Search, v: nat, i: nat) {
    exists u :: Witness(g, s, v, i, u)
  }

  /** A node with a smaller lowlink than its index reaches its parent. */
  lemma ReachesParent(g: Graph, s: Search, work: seq<Frame>)
    requires Inv(g, s, work) && work != [] && s.index[work[|work| - 1].node] != Some(s.low[work[|work| - 1].node])
    ensures |work| >= 2 && Reach(g, work[|work| - 1].node, work[|work| - 2].node)
    ensures Witnessed(g, s, work[|work| - 2].node, s.low[work[|work| - 1].node])
  {
    var m := |work| - 1;
    var v := work[m].node;
    var u :| Witness(g, s, v, s.low[v], u);
    assert Before(s, u, v);
    var k := OwnerBelow(g, s, work, m, u);
    ReachThrough(g, v, u, work[k].node);
    var p := work[m - 1].node;
    if k < m - 1 { ReachThrough(g, v, work[k].node, p); }
    ReachThrough(g, p, v, u);
    assert Witness(g, s, p, s.low[v], u);
  }

  lemma NoneBelowFirst(g: Graph, s: Search, work: seq<Frame>, u: nat)
    requires Inv(g, s, work) && work != [] && u in s.stack
    ensures !Before(s, u, work[0].node)
  {
    var i :| 0 <= i < |s.stack| && s.stack[i] == u;
    if i > 0 { assert Before(s, s.stack[0], s.stack[i]); }
  }

  /** A node on the stack below a frame's is in the part of a frame below. */
  lemma {:induction false} OwnerBelow(g: Graph, s: Search, work: seq<Frame>, m: nat, u: nat) returns (k: nat)
    requires Inv(g, s, work) && m < |work| && u in s.stack && Before(s, u, work[m].node)
    ensures k < m && Owns(s, work, k, u)
  {
    hide Stacked, Parted, Settled, Strong, Reach, Seen, Bounded, Knit, Lows;
    NoneBelowFirst(g, s, work, u);
    if Before(s, u, work[m - 1].node) {
      k := OwnerBelow(g, s, work, m - 1, u);
    } else {
      k := m - 1;
    }
  }

  // ── A component cut ──────────────────────────────────────────────────────

  ghost predicate Root(g: Graph, s: Search, work: seq<Frame>) {
    Spent(g, s, work) && s.index[work[|work| - 1].node] == Some(s.low[work[|work| - 1].node])
  }

  /** Cutting touches no index and no lowlink. */
  lemma CutSame(g: Graph, s: Search, v: nat)
    requires Sized(g, s)
    ensures Cut(g, s, v).index == s.index && Cut(g, s, v).low == s.low
  {
  }

  /** A node on the stack divides it by the order of visits. */
  lemma Halves(g: Graph, s: Search, v: nat, u: nat)
    requires Sized(g, s) && Stacked(g, s) && v in s.stack
    ensures var from := LastAt(s.stack, v);
            && (u in s.stack[..from] <==> u in s.stack && Before(s, u, v))
            && (u in s.stack[from..] <==> u in s.stack && !Before(s, u, v))
  {
    var from := LastAt(s.stack, v);
    assert s.stack == s.stack[..from] + s.stack[from..];
    forall i | 0 <= i < |s.stack| ensures Before(s, s.stack[i], v) <==> i < from {
      if from < i { assert Before(s, s.stack[from], s.stack[i]); }
    }
    hide Stacked, LastAt;
    assert forall i | 0 <= i < from :: s.stack[..from][i] == s.stack[i];
    assert forall i | from <= i < |s.stack| :: s.stack[from..][i - from] == s.stack[i];
  }

  ghost function LastOut(s: Search): seq<nat>
    requires s.out != []
  {
    s.out[|s.out| - 1]
  }

  /** What is cut is what the last frame owns; what stays came before it. */
  lemma CutWhere(g: Graph, s: Search, work: seq<Frame>, u: nat)
    requires Root(g, s, work)
    ensures var v, t := work[|work| - 1].node, Cut(g, s, work[|work| - 1].node);
            && (u in t.stack <==> u in s.stack && Before(s, u, v))
            && (u in LastOut(t) <==> Owns(s, work, |work| - 1, u))
  {
    var v := work[|work| - 1].node;
    Halves(g, s, v, u);
    assert u in s.stack ==> u < |g|;
    hide Stacked, Parted, Settled, Strong, Reach, Lows, Seen, Bounded, Knit;
  }

  lemma CutStacked(g: Graph, s: Search, work: seq<Frame>)
    requires Root(g, s, work)
    ensures Stacked(g, Cut(g, s, work[|work| - 1].node))
  {
    hide Parted, Settled, Strong, Reach, Lows, Seen, Bounded, Knit, LastAt;
    var t := Cut(g, s, work[|work| - 1].node);
    CutOnStack(g, s, work);
    forall i, j | 0 <= i < j < |t.stack| ensures Before(t, t.stack[i], t.stack[j]) { assert Before(s, s.stack[i], s.stack[j]); }
  }

  lemma CutOnStack(g: Graph, s: Search, work: seq<Frame>)
    requires Root(g, s, work)
    ensures var t := Cut(g, s, work[|work| - 1].node); forall u: nat | u < |g| :: t.onStack[u] <==> u in t.stack
  {
    hide Parted, Settled, Strong, Reach, Lows, Seen, Bounded, Knit, LastAt;
    var v := work[|work| - 1].node;
    var t := Cut(g, s, v);
    forall u: nat | u < |g| ensures t.onStack[u] <==> u in t.stack {
      CutWhere(g, s, work, u);
      Halves(g, s, v, u);
    }
  }

  lemma CutParted(g: Graph, s: Search, work: seq<Frame>)
    requires Root(g, s, work)
    ensures Parted(g, Cut(g, s, work[|work| - 1].node))
  {
    var v := work[|work| - 1].node;
    var t := Cut(g, s, v);
    forall u: nat ensures (u in t.stack <==> u in s.stack && Before(s, u, v)) && (u in LastOut(t) <==> u in s.stack && !Before(s, u, v)) {
      CutWhere(g, s, work, u);
    }
    assert v in s.stack && !Before(s, v, v);
    hide Stacked, Settled, Strong, Reach, Lows, Seen, Bounded, Knit, LastAt, Emitted, Working;
    CutMoves(g, s, t, v);
  }

  /** Nodes moved from the stack to one more component. */
  lemma CutMoves(g: Graph, s: Search, t: Search, v: nat)
    requires Sized(g, s) && Sized(g, t) && Parted(g, s) && v in s.stack && t.index == s.index
    requires t.out != [] && t.out[..|t.out| - 1] == s.out && forall i, j | 0 <= i < j < |LastOut(t)| :: LastOut(t)[i] < LastOut(t)[j]
    requires forall u: nat | u in LastOut(t) :: u < |g|
    requires forall u: nat :: (u in t.stack <==> u in s.stack && Before(s, u, v)) && (u in LastOut(t) <==> u in s.stack && !Before(s, u, v))
    ensures Parted(g, t)
  {
    var n := |s.out|;
    assert t.out == s.out + [LastOut(t)];
    assert v in LastOut(t);
    forall u: nat ensures Emitted(t.out, u) <==> Emitted(s.out, u) || u in LastOut(t) { EmittedNext(s.out, LastOut(t), u); }
    forall c, u | 0 <= c < n && u in s.out[c] ensures u !in LastOut(t) { }
    hide Emitted, Before;
  }

  lemma EmittedNext(out: seq<seq<nat>>, last: seq<nat>, u: nat)
    ensures Emitted(out + [last], u) <==> Emitted(out, u) || u in last
  {
    var more := out + [last];
    if Emitted(out, u) {
      var c :| 0 <= c < |out| && u in out[c];
      assert u in more[c];
    }
    if u in last { assert u in more[|out|]; }
  }

  lemma CutFirst(g: Graph, s: Search, work: seq<Frame>)
    requires Root(g, s, work)
    ensures var t := Cut(g, s, work[|work| - 1].node);
            (Parent(work) == [] <==> t.stack == []) && (Parent(work) != [] ==> t.stack[0] == work[0].node)
  {
    var m := |work| - 1;
    var t := Cut(g, s, work[m].node);
    if m > 0 {
      assert Before(s, work[0].node, work[m].node);
      CutWhere(g, s, work, s.stack[0]);
    } else {
      forall u | u in s.stack ensures u !in t.stack {
        NoneBelowFirst(g, s, work, u);
        CutWhere(g, s, work, u);
      }
    }
    hide Stacked, Parted, Settled, Strong, Reach, Lows, Seen, Bounded, Knit, LastAt;
  }

  lemma CutFrames(g: Graph, s: Search, work: seq<Frame>)
    requires Root(g, s, work)
    ensures forall k | 0 <= k < |work| - 1 :: work[k].node in Cut(g, s, work[|work| - 1].node).stack
  {
    hide Stacked, Parted, Settled, Strong, Reach, Lows, Seen, Bounded, Knit, Cut;
    var m := |work| - 1;
    forall k | 0 <= k < m ensures work[k].node in Cut(g, s, work[m].node).stack {
      CutWhere(g, s, work, work[k].node);
      assert Before(s, work[k].node, work[m].node);
    }
  }

  lemma CutWorking(g: Graph, s: Search, work: seq<Frame>)
    requires Root(g, s, work)
    ensures Working(g, Cut(g, s, work[|work| - 1].node), Parent(work))
  {
    hide Stacked, Parted, Settled, Strong, Reach, Lows, Seen, Bounded, Knit, Cut;
    CutFirst(g, s, work);
    CutFrames(g, s, work);
    CutSame(g, s, work[|work| - 1].node);
    var t := Cut(g, s, work[|work| - 1].node);
    forall j, k | 0 <= j < k < |work| - 1 ensures Before(t, work[j].node, work[k].node) && Reach(g, work[j].node, work[k].node) {
      assert Before(s, work[j].node, work[k].node);
    }
  }

  lemma CutLows(g: Graph, s: Search, work: seq<Frame>)
    requires Root(g, s, work)
    ensures Lows(g, Cut(g, s, work[|work| - 1].node), Parent(work))
  {
    hide Stacked, Parted, Settled, Strong, Reach, Seen, Bounded, Knit, LastAt;
    var m := |work| - 1;
    var t := Cut(g, s, work[m].node);
    forall k | 0 <= k < m ensures exists u :: Witness(g, t, work[k].node, t.low[work[k].node], u) {
      var u :| Witness(g, s, work[k].node, s.low[work[k].node], u);
      assert Before(s, work[k].node, work[m].node);
      CutWhere(g, s, work, u);
      assert Witness(g, t, work[k].node, t.low[work[k].node], u);
    }
  }

  lemma CutOwns(g: Graph, s: Search, work: seq<Frame>, k: nat, u: nat)
    requires Root(g, s, work) && k < |work| - 1 && Owns(Cut(g, s, work[|work| - 1].node), Parent(work), k, u)
    ensures Owns(s, work, k, u)
  {
    CutWhere(g, s, work, u);
  }

  lemma CutSeen(g: Graph, s: Search, work: seq<Frame>)
    requires Root(g, s, work)
    ensures Seen(g, Cut(g, s, work[|work| - 1].node), Parent(work)) && Framed(g, Parent(work))
  {
    hide Stacked, Parted, Settled, Strong, Reach, Lows, Cut, Owns, Knit, Bounded;
    var t, rest := Cut(g, s, work[|work| - 1].node), Parent(work);
    CutSame(g, s, work[|work| - 1].node);
    forall v: nat, j: nat | Followed(g, rest, v, j) && t.index[v].Some? ensures t.index[g[v][j]].Some? { LeftFollowed(g, work, v, j); }
  }

  /** An edge followed from what stays to what stays was bounded before. */
  lemma CutBound(g: Graph, s: Search, work: seq<Frame>, k: nat, u: nat, j: nat)
    requires Root(g, s, work) && k < |work| - 1 && Owns(Cut(g, s, work[|work| - 1].node), Parent(work), k, u)
    requires Followed(g, Parent(work), u, j) && g[u][j] in Cut(g, s, work[|work| - 1].node).stack
    ensures s.index[g[u][j]].Some? && s.low[work[k].node] <= s.index[g[u][j]].value
  {
    hide Stacked, Parted, Settled, Strong, Reach, Lows, Cut, Followed, Owns, Knit, Seen;
    LeftFollowed(g, work, u, j);
    CutOwns(g, s, work, k, u);
    CutWhere(g, s, work, g[u][j]);
  }

  lemma CutBounded(g: Graph, s: Search, work: seq<Frame>)
    requires Root(g, s, work) && Framed(g, Parent(work))
    ensures Bounded(g, Cut(g, s, work[|work| - 1].node), Parent(work))
  {
    hide Stacked, Parted, Settled, Strong, Reach, Lows, Cut, Owns, Knit, Seen;
    var t, rest := Cut(g, s, work[|work| - 1].node), Parent(work);
    CutSame(g, s, work[|work| - 1].node);
    forall k, u: nat, j: nat | 0 <= k < |rest| && Owns(t, rest, k, u) && Followed(g, rest, u, j) && g[u][j] in t.stack
      ensures t.index[g[u][j]].Some? && t.low[rest[k].node] <= t.index[g[u][j]].value
    {
      CutBound(g, s, work, k, u, j);
    }
  }

  lemma CutKnit(g: Graph, s: Search, work: seq<Frame>)
    requires Root(g, s, work)
    ensures Knit(g, Cut(g, s, work[|work| - 1].node), Parent(work))
  {
    var t, rest := Cut(g, s, work[|work| - 1].node), Parent(work);
    hide Stacked, Parted, Settled, Strong, Reach, Lows, Cut, Seen, Owns, Bounded;
    forall k, u | 0 <= k < |rest| && Owns(t, rest, k, u) ensures Reach(g, rest[k].node, u) && Reach(g, u, rest[k].node) {
      CutOwns(g, s, work, k, u);
    }
  }

  /** What a root's part refers to is in it, or in a component already out. */
  lemma CutRefers(g: Graph, s: Search, work: seq<Frame>, u: nat, j: nat)
    requires Root(g, s, work) && Owns(s, work, |work| - 1, u) && u < |g| && j < |g[u]|
    ensures Owns(s, work, |work| - 1, g[u][j]) || Emitted(s.out, g[u][j])
  {
    var m := |work| - 1;
    forall k | 0 <= k < m ensures work[k].node != u { assert Before(s, work[k].node, work[m].node); }
    assert Followed(g, work, u, j);
    assert s.index[u].Some?;
    hide Settled, Strong, Reach, Lows, Knit;
  }

  lemma CutSettled(g: Graph, s: Search, work: seq<Frame>)
    requires Root(g, s, work)
    ensures Settled(g, Cut(g, s, work[|work| - 1].node).out)
  {
    var t, n := Cut(g, s, work[|work| - 1].node), |s.out|;
    hide Stacked, Parted, Strong, Reach, Lows, LastAt, Seen, Bounded, Knit, Working, Emitted;
    forall c, v, w | 0 <= c < |t.out| && v in t.out[c] && v < |g| && w in g[v] ensures Emitted(t.out[..c + 1], w) {
      if c < n {
        assert t.out[..c + 1] == s.out[..c + 1];
      } else {
        assert t.out[..c + 1] == s.out + [LastOut(t)];
        var j :| 0 <= j < |g[v]| && g[v][j] == w;
        CutWhere(g, s, work, v);
        CutRefers(g, s, work, v, j);
        CutWhere(g, s, work, w);
        EmittedNext(s.out, LastOut(t), w);
      }
    }
  }

  lemma CutStrong(g: Graph, s: Search, work: seq<Frame>)
    requires Root(g, s, work)
    ensures Strong(g, Cut(g, s, work[|work| - 1].node).out)
  {
    var x := work[|work| - 1].node;
    var t, n := Cut(g, s, x), |s.out|;
    hide Stacked, Parted, Settled, Reach, Lows, LastAt, Seen, Bounded, Working;
    forall c, u, v | 0 <= c < |t.out| && u in t.out[c] && v in t.out[c] ensures Reach(g, u, v) {
      if c == n {
        CutWhere(g, s, work, u);
        CutWhere(g, s, work, v);
        ReachThrough(g, u, x, v);
      }
    }
  }

  lemma CutKeeps(g: Graph, s: Search, work: seq<Frame>)
    requires Root(g, s, work)
    ensures Inv(g, Cut(g, s, work[|work| - 1].node), Parent(work))
  {
    CutStacked(g, s, work);
    CutParted(g, s, work);
    CutWorking(g, s, work);
    CutLows(g, s, work);
    CutSeen(g, s, work);
    CutBounded(g, s, work);
    CutKnit(g, s, work);
    CutSettled(g, s, work);
    CutStrong(g, s, work);
    hide Stacked, Parted, Settled, Strong, Reach, Lows, LastAt, Seen, Bounded, Working, Knit;
  }

  // ── Every turn keeps it ──────────────────────────────────────────────────

  /** A root's lowlink tells its parent nothing. */
  lemma RootLowers(g: Graph, s: Search, work: seq<Frame>)
    requires Root(g, s, work)
    ensures Sized(g, s) && Framed(g, work) && work != []
    ensures |work| >= 2 ==> var p := work[|work| - 2].node; s.low[p] <= s.low[work[|work| - 1].node]
  {
    var m := |work| - 1;
    hide Stacked, Parted, Settled, Strong, Reach, Seen, Bounded, Knit;
    if m > 0 { assert Before(s, work[m - 1].node, work[m].node); }
  }

  lemma LowerNothing(g: Graph, s: Search, v: nat, i: nat)
    requires Sized(g, s) && v < |g| && s.low[v] <= i
    ensures Lower(g, s, v, i) == s
  {
    assert s.low[v := s.low[v]] == s.low;
  }

  lemma RootKeeps(g: Graph, s: Search, work: seq<Frame>)
    requires Root(g, s, work)
    ensures Inv(g, Leave(g, s, work[|work| - 1].node, Parent(work)), Parent(work))
  {
    hide Inv, Lower;
    var m := |work| - 1;
    CutKeeps(g, s, work);
    RootLowers(g, s, work);
    if m > 0 { LowerNothing(g, Cut(g, s, work[m].node), work[m - 1].node, s.low[work[m].node]); }
  }

  lemma ChildKeeps(g: Graph, s: Search, work: seq<Frame>)
    requires Spent(g, s, work) && s.index[work[|work| - 1].node] != Some(s.low[work[|work| - 1].node])
    ensures Inv(g, Leave(g, s, work[|work| - 1].node, Parent(work)), Parent(work))
  {
    hide Stacked, Parted, Settled, Strong, Reach, Lows, Seen, Bounded, Knit;
    var m := |work| - 1;
    ReachesParent(g, s, work);
    var p, v := work[m - 1].node, work[m].node;
    assert Before(s, p, v);
    var u :| Witness(g, s, p, s.low[v], u);
    Lowered(g, s, work, m - 1, s.low[v], u);
    hide Inv, Working;
    var t := Lower(g, s, p, s.low[v]);
    assert t.low[v] == s.low[v] && Spent(g, t, work);
    Joined(g, t, work);
  }

  ghost predicate Following(g: Graph, s: Search, work: seq<Frame>) {
    Inv(g, s, work) && work != [] && work[|work| - 1].at < |g[work[|work| - 1].node]|
  }

  /** The node the next edge of the last frame leads to. */
  ghost function Target(g: Graph, s: Search, work: seq<Frame>): (w: nat)
    requires Following(g, s, work)
    ensures Closed(g) && Sized(g, s) && Framed(g, work) && work != [] && w < |g|
  {
    g[work[|work| - 1].node][work[|work| - 1].at]
  }

  lemma NewPassable(g: Graph, s: Search, work: seq<Frame>)
    requires Following(g, s, work) && s.index[Target(g, s, work)].None?
    ensures var w := Target(g, s, work); Passable(g, Visit(g, s, w), work + [Frame(w, 0)], |work| - 1)
  {
    var m, w := |work| - 1, Target(g, s, work);
    Discovered(g, s, work, w);
    hide Parted, Settled, Strong, Reach, Seen, Bounded, Knit;
    var t, more := Visit(g, s, w), work + [Frame(w, 0)];
    var f := work[m];
    assert more[m] == f && f.node in s.stack && s.index[f.node].Some? && f.node != w;
    assert t.low[f.node] == s.low[f.node] && s.low[f.node] <= s.index[f.node].value < s.next;
    hide Inv;
  }

  lemma NewStep(g: Graph, s: Search, work: seq<Frame>)
    requires Following(g, s, work) && s.index[Target(g, s, work)].None?
    ensures var w := Target(g, s, work); Step(g, s, work) == (Visit(g, s, w), Pass(work + [Frame(w, 0)], |work| - 1))
  {
    hide Stacked, Parted, Settled, Strong, Lows, Seen, Bounded, Knit;
    var m, w := |work| - 1, Target(g, s, work);
    assert Pass(work + [Frame(w, 0)], m) == Parent(work) + [Frame(work[m].node, work[m].at + 1)] + [Frame(w, 0)];
  }

  lemma OldStep(g: Graph, s: Search, work: seq<Frame>)
    requires Following(g, s, work) && s.index[Target(g, s, work)].Some?
    ensures Step(g, s, work).1 == Pass(work, |work| - 1)
  {
    hide Stacked, Parted, Settled, Strong, Lows, Seen, Bounded, Knit;
    assert Pass(work, |work| - 1) == Parent(work) + [Frame(work[|work| - 1].node, work[|work| - 1].at + 1)];
  }

  /** An edge to a node on the stack bounds the lowlink; any other tells nothing. */
  lemma OldPassable(g: Graph, s: Search, work: seq<Frame>)
    requires Following(g, s, work) && s.index[Target(g, s, work)].Some?
    ensures Passable(g, Step(g, s, work).0, work, |work| - 1)
  {
    var m, w := |work| - 1, Target(g, s, work);
    var v := work[m].node;
    if s.onStack[w] {
      ReachEdge(g, v, w);
      assert Witness(g, s, v, s.index[w].value, w);
      Lowered(g, s, work, m, s.index[w].value, w);
    }
    assert s.onStack[w] <==> w in s.stack;
    hide Stacked, Parted, Settled, Strong, Reach, Lows, Seen, Bounded, Knit, Working;
  }

  lemma FollowKeeps(g: Graph, s: Search, work: seq<Frame>)
    requires Following(g, s, work)
    ensures var r := Step(g, s, work); Inv(g, r.0, r.1)
  {
    hide Inv, Passable, Following, Step, Target;
    var m, w := |work| - 1, Target(g, s, work);
    if s.index[w].None? {
      NewStep(g, s, work);
      NewPassable(g, s, work);
      Passed(g, Visit(g, s, w), work + [Frame(w, 0)], m);
    } else {
      OldStep(g, s, work);
      OldPassable(g, s, work);
      Passed(g, Step(g, s, work).0, work, m);
    }
  }

  lemma {:induction false} DriveKeeps(g: Graph, s: Search, work: seq<Frame>)
    requires Inv(g, s, work)
    ensures Inv(g, Drive(g, s, work), [])
    ensures forall v | 0 <= v < |g| && s.index[v].Some? :: Drive(g, s, work).index[v].Some?
    decreases Unvisited(s.index), Remaining(g, work)
  {
    if work != [] {
      StepKeeps(g, s, work);
      var r := Step(g, s, work);
      DriveKeeps(g, r.0, r.1);
    }
  }

  lemma StepKeeps(g: Graph, s: Search, work: seq<Frame>)
    requires Inv(g, s, work) && work != []
    ensures var r := Step(g, s, work); Inv(g, r.0, r.1)
    ensures forall v | 0 <= v < |g| && s.index[v].Some? :: Step(g, s, work).0.index[v].Some?
  {
    var f := work[|work| - 1];
    hide Stacked, Parted, Settled, Strong, Lows, Seen, Bounded, Knit;
    if f.at < |g[f.node]| {
      FollowKeeps(g, s, work);
    } else if s.index[f.node] == Some(s.low[f.node]) {
      RootKeeps(g, s, work);
    } else {
      ChildKeeps(g, s, work);
    }
  }

  lemma FreshHolds(g: Graph)
    requires Closed(g)
    ensures Inv(g, Fresh(|g|), [])
  {
  }

  /** From nothing in hand, a node not yet visited and all it leads to. */
  lemma DrivenFrom(g: Graph, s: Search, v: nat)
    requires Inv(g, s, []) && v < |g| && s.index[v].None?
    ensures var t := Drive(g, Visit(g, s, v), [Frame(v, 0)]);
            Inv(g, t, []) && t.index[v].Some? && forall u | 0 <= u < |g| && s.index[u].Some? :: t.index[u].Some?
  {
    Discovered(g, s, [], v);
    assert [] + [Frame(v, 0)] == [Frame(v, 0)];
    hide Inv, Drive;
    DriveKeeps(g, Visit(g, s, v), [Frame(v, 0)]);
  }

  lemma {:induction false} SearchedKeeps(g: Graph, n: nat)
    requires Closed(g) && n <= |g|
    ensures Inv(g, Searched(g, n), [])
    ensures forall v | 0 <= v < n :: Searched(g, n).index[v].Some?
  {
    hide Inv, Drive;
    if n == 0 {
      FreshHolds(g);
    } else {
      SearchedKeeps(g, n - 1);
      var s := Searched(g, n - 1);
      if s.index[n - 1].None? { DrivenFrom(g, s, n - 1); }
    }
  }

  // ── What the components are ──────────────────────────────────────────────

  /** Where a node's component stands, or the end. */
  function Place(out: seq<seq<nat>>, v: nat): (c: nat)
    ensures c <= |out|
    ensures c < |out| ==> v in out[c]
  {
    if out == [] || v in out[0] then 0 else 1 + Place(out[1..], v)
  }

  lemma {:induction false} PlaceIs(out: seq<seq<nat>>, c: nat, v: nat)
    requires c < |out| && v in out[c] && forall d | 0 <= d < c :: v !in out[d]
    ensures Place(out, v) == c
  {
    if c > 0 {
      assert v !in out[0];
      PlaceIs(out[1..], c - 1, v);
    }
  }

  /** The strongly connected components of a graph: every node in exactly one, each
      ascending, two nodes in the same exactly when they reach each other, and each
      referring only to itself and earlier ones. */
  ghost predicate Exact(g: Graph, out: seq<seq<nat>>) {
    && (forall c, v | 0 <= c < |out| && v in out[c] :: v < |g|)
    && (forall c, v | 0 <= c < |out| && v in out[c] :: Place(out, v) == c)
    && (forall v: nat | v < |g| :: Place(out, v) < |out|)
    && (forall c | 0 <= c < |out| :: out[c] != [])
    && (forall c, i, j | 0 <= c < |out| && 0 <= i < j < |out[c]| :: out[c][i] < out[c][j])
    && (forall u: nat, v: nat | u < |g| && v in g[u] :: Place(out, v) <= Place(out, u))
    && (forall u: nat, v: nat | u < |g| && v < |g| :: Place(out, u) == Place(out, v) <==> Reach(g, u, v) && Reach(g, v, u))
  }

  lemma Placed(g: Graph, s: Search)
    requires Inv(g, s, []) && forall v | 0 <= v < |g| :: s.index[v].Some?
    ensures forall c, v | 0 <= c < |s.out| && v in s.out[c] :: v < |g|
    ensures forall c, v | 0 <= c < |s.out| && v in s.out[c] :: Place(s.out, v) == c
    ensures forall v: nat | v < |g| :: Place(s.out, v) < |s.out|
  {
    hide Stacked, Settled, Strong, Reach, Seen, Bounded, Knit, Lows;
    forall c, v | 0 <= c < |s.out| && v in s.out[c] ensures Place(s.out, v) == c { PlaceIs(s.out, c, v); }
    forall v: nat | v < |g| ensures Place(s.out, v) < |s.out| {
      assert Emitted(s.out, v);
      var c :| 0 <= c < |s.out| && v in s.out[c];
      PlaceIs(s.out, c, v);
    }
  }

  /** Edges lead to the same component or an earlier one. */
  lemma EdgesDescend(g: Graph, s: Search, u: nat, v: nat)
    requires Inv(g, s, []) && (forall w | 0 <= w < |g| :: s.index[w].Some?) && u < |g| && v in g[u]
    ensures Place(s.out, v) <= Place(s.out, u)
  {
    Placed(g, s);
    hide Stacked, Parted, Strong, Reach, Seen, Bounded, Knit, Lows, Place;
    var c := Place(s.out, u);
    assert u in s.out[c];
    assert Emitted(s.out[..c + 1], v);
    var d :| 0 <= d < c + 1 && v in s.out[..c + 1][d];
    assert s.out[d] == s.out[..c + 1][d];
  }

  lemma {:induction false} PathsDescend(g: Graph, s: Search, u: nat, v: nat, p: seq<nat>)
    requires Inv(g, s, []) && (forall w | 0 <= w < |g| :: s.index[w].Some?) && IsPath(g, u, v, p)
    ensures Place(s.out, v) <= Place(s.out, u)
    decreases |p|
  {
    if |p| > 1 {
      assert IsPath(g, p[1], v, p[1..]);
      assert p[0 + 1] in g[p[0]];
      hide Inv;
      EdgesDescend(g, s, u, p[1]);
      PathsDescend(g, s, p[1], v, p[1..]);
    }
  }

  lemma ComponentsAreExact(g: Graph)
    requires Closed(g)
    ensures Exact(g, Sccs(g))
  {
    var s := Searched(g, |g|);
    SearchedKeeps(g, |g|);
    Placed(g, s);
    forall u: nat, v: nat | u < |g| && v in g[u] ensures Place(s.out, v) <= Place(s.out, u) { EdgesDescend(g, s, u, v); }
    forall u: nat, v: nat | u < |g| && v < |g| ensures Place(s.out, u) == Place(s.out, v) <==> Reach(g, u, v) && Reach(g, v, u) {
      if Reach(g, u, v) && Reach(g, v, u) {
        var p, q :| IsPath(g, u, v, p) && IsPath(g, v, u, q);
        PathsDescend(g, s, u, v, p);
        PathsDescend(g, s, v, u, q);
      }
    }
    hide Stacked, Settled, Reach, Seen, Bounded, Knit, Lows, Place;
  }

  lemma MembersAreIn(g: Graph, out: seq<seq<nat>>, c: nat)
    requires Exact(g, out) && c < |out|
    ensures forall k | 0 <= k < |out[c]| :: out[c][k] < |g| && Place(out, out[c][k]) == c
  {
    forall k | 0 <= k < |out[c]| ensures out[c][k] < |g| && Place(out, out[c][k]) == c {
      var v := out[c][k];
      assert v in out[c];
    }
  }

  // ── In place ─────────────────────────────────────────────────────────────

  class Tarjan {
    var next: nat
    var index: seq<Option<nat>>
    var low: seq<nat>
    var onStack: seq<bool>
    var stack: seq<nat>
    var out: seq<seq<nat>>

    ghost function View(): Search
      reads this
    {
      Search(next, index, low, onStack, stack, out)
    }

    constructor (n: nat)
      ensures View() == Fresh(n)
    {
      next, index, low, onStack, stack, out := 0, seq(n, _ => None), seq(n, _ => 0), seq(n, _ => false), [], [];
      new;
      assert index == Fresh(n).index && low == Fresh(n).low && onStack == Fresh(n).onStack;
    }

    method Discover(ghost g: Graph, v: nat)
      requires Sized(g, View()) && v < |g|
      modifies this
      ensures View() == Visit(g, old(View()), v)
    {
      index := index[v := Some(next)];
      low := low[v := next];
      next := next + 1;
      stack := stack + [v];
      onStack := onStack[v := true];
    }

    /** The root and everything above it, off the stack. */
    method Emit(ghost g: Graph, v: nat)
      requires Sized(g, View()) && v in stack && forall i | 0 <= i < |stack| :: stack[i] < |g|
      modifies this
      ensures View() == Cut(g, old(View()), v)
    {
      var from := |stack| - 1;
      while stack[from] != v
        invariant 0 <= from < |stack| && v in stack[..from + 1]
        invariant forall i | from < i < |stack| :: stack[i] != v
        decreases from
      {
        from := from - 1;
      }
      LastIs(stack, v, from);
      var component := stack[from..];
      stack := stack[..from];
      var i := 0;
      while i < |component|
        invariant 0 <= i <= |component| && stack == old(stack)[..from]
        invariant |onStack| == |g| && next == old(next) && index == old(index) && low == old(low) && out == old(out)
        invariant forall w: nat | w < |g| :: onStack[w] <==> old(onStack)[w] && w !in component[..i]
      {
        assert component[..i + 1] == component[..i] + [component[i]];
        assert component[i] == old(stack)[from + i];
        onStack := onStack[component[i] := false];
        i := i + 1;
      }
      assert component[..i] == component;
      out := out + [Ascending(component, |onStack|)];
      assert onStack == Cut(g, old(View()), v).onStack;
    }

    /** Popping a frame folds its lowlink into its parent's. */
    method Connect(v: nat, g: Graph)
      requires Inv(g, View(), []) && v < |g| && index[v].None?
      modifies this
      ensures View() == Drive(g, Visit(g, old(View()), v), [Frame(v, 0)])
      ensures Inv(g, View(), [])
    {
      ghost var s := View();
      Discovered(g, s, [], v);
      assert [] + [Frame(v, 0)] == [Frame(v, 0)];
      Discover(g, v);
      var work := [Frame(v, 0)];
      while work != []
        invariant Inv(g, View(), work)
        invariant Drive(g, View(), work) == Drive(g, Visit(g, s, v), [Frame(v, 0)])
        decreases Unvisited(index), Remaining(g, work)
      {
        StepKeeps(g, View(), work);
        work := Turn(g, work);
      }
    }

    method Turn(g: Graph, work: seq<Frame>) returns (more: seq<Frame>)
      requires Inv(g, View(), work) && work != []
      modifies this
      ensures (View(), more) == Step(g, old(View()), work)
    {
      hide Stacked, Parted, Settled, Strong, Seen, Bounded, Knit, Lows;
      var top := |work| - 1;
      var f := work[top];
      if f.at < |g[f.node]| {
        var w := g[f.node][f.at];
        more := work[..top] + [Frame(f.node, f.at + 1)];
        if index[w].None? {
          Discover(g, w);
          more := more + [Frame(w, 0)];
        } else if onStack[w] {
          low := low[f.node := Min(low[f.node], index[w].value)];
        }
      } else {
        if index[f.node] == Some(low[f.node]) {
          OnlyNodes(g, View(), work);
          Emit(g, f.node);
        }
        more := work[..top];
        if more != [] {
          var p := more[|more| - 1].node;
          low := low[p := Min(low[p], low[f.node])];
        }
      }
    }
  }

  lemma OnlyNodes(g: Graph, s: Search, work: seq<Frame>)
    requires Inv(g, s, work) && work != []
    ensures work[|work| - 1].node in s.stack && forall i | 0 <= i < |s.stack| :: s.stack[i] < |g|
  {
  }

  lemma {:induction false} LastIs(stack: seq<nat>, v: nat, i: nat)
    requires i < |stack| && stack[i] == v && forall j | i < j < |stack| :: stack[j] != v
    ensures LastAt(stack, v) == i
  {
    if i < |stack| - 1 { LastIs(stack[..|stack| - 1], v, i); }
  }

  /** Tarjan's search over every node. */
  method Find(g: Graph) returns (out: seq<seq<nat>>)
    requires Closed(g)
    ensures out == Sccs(g) && Exact(g, out)
  {
    var t := new Tarjan(|g|);
    FreshHolds(g);
    for v := 0 to |g|
      invariant Inv(g, t.View(), []) && t.View() == Searched(g, v)
    {
      if t.index[v].None? { t.Connect(v, g); }
    }
    ComponentsAreExact(g);
    out := t.out;
  }
}
