/** Elaboration: surface syntax into the IR.

    Where the IR wants a value and the source has a computation, the computation
    is bound to a fresh temporary; the pending bindings are folded around the
    statement they belong to.  A context that may not run hands its subtree a
    fresh accumulator, so its bindings stay behind its guard. */
module Elaborator {
  import opened Ir
  import opened Surface
  import opened Occurrence
  import Components
  import Decimal

  /** The `n`-th hoisted temporary. */
  function Temp(n: nat): Name {
    "%var" + Decimal.Print(n)
  }

  lemma TempInjective(m: nat, n: nat)
    requires Temp(m) == Temp(n)
    ensures m == n
  {
    assert Temp(m)[4..] == Decimal.Print(m) && Temp(n)[4..] == Decimal.Print(n);
    Decimal.PrintInjective(m, n);
  }

  datatype Hoist = Hoist(name: Name, comp: Comp)

  /** A computation, the bindings it needs run first, and the counter after. */
  datatype Lowered = Lowered(comp: Comp, binds: seq<Hoist>, next: nat)
  datatype LoweredVal = LoweredVal(v: Val, binds: seq<Hoist>, next: nat)
  datatype LoweredVals = LoweredVals(vs: seq<Val>, binds: seq<Hoist>, next: nat)
  datatype LoweredKeys = LoweredKeys(keys: seq<Key>, binds: seq<Hoist>, next: nat)

  function ThunkVal(c: Comp): Val {
    Thunk(ThunkNode(c, OccOf(RefsC(c))))
  }

  function ListVal(vs: seq<Val>): Val {
    List(ListNode(vs, OccOf(RefsVs(vs))))
  }

  /** The first binding outermost, so they run in the order they were pushed. */
  function WrapBinds(binds: seq<Hoist>, inner: Comp): Comp {
    if binds == [] then inner
    else Bind(binds[0].comp, Binder(binds[0].name), WrapBinds(binds[1..], inner))
  }

  /** `Return(v)` passes through; anything else is bound to a fresh temporary. */
  function HoistVal(l: Lowered): (r: LoweredVal)
    ensures l.next <= r.next
  {
    if l.comp.Return? then LoweredVal(l.comp.v, l.binds, l.next)
    else LoweredVal(Variable(Temp(l.next + 1)), l.binds + [Hoist(Temp(l.next + 1), l.comp)], l.next + 1)
  }

  function Lams(ps: seq<Name>, body: Comp): Comp {
    if ps == [] then body else Lam(ps[0], Lams(ps[1..], body))
  }

  function Slots(vs: seq<Val>): (r: seq<Slot>)
    ensures |r| == |vs|
  {
    seq(|vs|, i requires 0 <= i < |vs| => Slot(vs[i], false))
  }

  /** Read through the keys in turn, every read but the last bound. */
  function LowerIndex(target: Val, keys: seq<Key>, n: nat): (l: Lowered)
    requires keys != []
    ensures n <= l.next && !l.comp.Return?
    decreases |keys|
  {
    var read := Primitive(Index(target, keys[0]));
    if |keys| == 1 then Lowered(read, [], n)
    else
      var more := LowerIndex(Variable(Temp(n + 1)), keys[1..], n + 1);
      Lowered(more.comp, [Hoist(Temp(n + 1), read)] + more.binds, more.next)
  }

  function ElabVals(es: seq<Ast>, bound: set<Name>, n: nat): (l: LoweredVals)
    ensures n <= l.next && |l.vs| == |es|
    decreases es, 0
  {
    if es == [] then LoweredVals([], [], n)
    else
      var a := HoistVal(Elab(es[0], bound, n));
      var b := ElabVals(es[1..], bound, a.next);
      LoweredVals([a.v] + b.vs, a.binds + b.binds, b.next)
  }

  function ElabKeys(ks: seq<KeyAst>, bound: set<Name>, n: nat): (l: LoweredKeys)
    ensures n <= l.next && |l.keys| == |ks|
    decreases ks, 0
  {
    if ks == [] then LoweredKeys([], [], n)
    else
      var a := ElabKey(ks[0], bound, n);
      var b := ElabKeys(ks[1..], bound, a.next);
      LoweredKeys(a.keys + b.keys, a.binds + b.binds, b.next)
  }

  function ElabKey(k: KeyAst, bound: set<Name>, n: nat): (l: LoweredKeys)
    ensures n <= l.next && |l.keys| == 1
    decreases k, 0
  {
    match k
    case KLabel(x) => LoweredKeys([Label(x)], [], n)
    case KPosition(i) => LoweredKeys([Position(i)], [], n)
    case KData(e) =>
      var a := HoistVal(Elab(e, bound, n));
      LoweredKeys([Data(a.v)], a.binds, a.next)
  }

  /** A branch arm: a literal block is the thunk the form forces in place. */
  function ElabArm(a: ArmAst, bound: set<Name>, n: nat): (l: LoweredVal)
    ensures n <= l.next
    decreases a, 0
  {
    match a
    case ArmName(x) => LoweredVal(Variable(x), [], n)
    case ArmBlock(body) =>
      var b := ElabStmts(body, bound, n);
      LoweredVal(ThunkVal(b.comp), [], b.next)
  }

  /** The arm of an `if` with nothing after it: run it, then yield unit. */
  function UnitArm(v: Val): Val {
    ThunkVal(Seq(if v.Thunk? then v.thunk.shape else Force(v), Return(Unit)))
  }

  /** What follows the first branch, as the thunk its `If` forces: a later
      condition's bindings are wrapped inside. */
  function ElabChain(r: Chain, bound: set<Name>, n: nat): (l: LoweredVal)
    ensures n <= l.next
    decreases r, 0
  {
    match r
    case NoElse => LoweredVal(ThunkVal(Return(Unit)), [], n)
    case Else(a) => ElabArm(a, bound, n)
    case ElseIf(c, a, r1) =>
      var els := ElabChain(r1, bound, n);
      var cond := HoistVal(Elab(c, bound, els.next));
      var thn := ElabArm(a, bound, cond.next);
      LoweredVal(ThunkVal(WrapBinds(cond.binds, If(cond.v, thn.v, els.v))), [], thn.next)
  }

  /** A junction: the right side, its own bindings inside, runs only where the left
      does not decide. */
  function Join(or: bool, left: Val, right: Lowered): Comp {
    var rhs, short := ThunkVal(WrapBinds(right.binds, right.comp)), ThunkVal(Return(Bool(or)));
    if or then If(left, short, rhs) else If(left, rhs, short)
  }

  /** A bound bare head is forced and applied; an unbound one is dispatched. */
  function CallOf(head: Val, args: seq<Val>): Comp {
    if args == [] then Force(head) else App(Force(head), args)
  }

  function Elab(e: Ast, bound: set<Name>, n: nat): (l: Lowered)
    ensures n <= l.next
    decreases e, 0
  {
    match e
    case AUnit => Lowered(Return(Unit), [], n)
    case AStr(s) => Lowered(Return(Str(s)), [], n)
    case AInt(i) => Lowered(Return(Int(i)), [], n)
    case ABool(b) => Lowered(Return(Bool(b)), [], n)
    case AVar(x) => Lowered(Return(Variable(x)), [], n)
    case ABlock(body) =>
      var b := ElabStmts(body, bound, n);
      Lowered(Return(ThunkVal(b.comp)), [], b.next)
    case ALambda(ps, body) =>
      var b := ElabStmts(body, bound + Params(ps), n);
      Lowered(Return(ThunkVal(Lams(ps, b.comp))), [], b.next)
    case AForce(d) =>
      var a := HoistVal(Elab(d, bound, n));
      Lowered(Force(a.v), a.binds, a.next)
    case ACall(h, es) =>
      (match h
       case HValue(d) =>
         var f := HoistVal(Elab(d, bound, n));
         var vs := ElabVals(es, bound, f.next);
         Lowered(CallOf(f.v, vs.vs), f.binds + vs.binds, vs.next)
       case HBare(x) =>
         var vs := ElabVals(es, bound, n);
         Lowered(if x in bound then CallOf(Variable(x), vs.vs) else Exec(Named(Bare(x)), Slots(vs.vs)), vs.binds, vs.next)
       case HExternal(x) =>
         var vs := ElabVals(es, bound, n);
         Lowered(Exec(External(Bare(x)), Slots(vs.vs)), vs.binds, vs.next))
    case AReturn(d) =>
      var a := HoistVal(Elab(d, bound, n));
      Lowered(Return(a.v), a.binds, a.next)
    case AList(es) =>
      var vs := ElabVals(es, bound, n);
      Lowered(Return(ListVal(vs.vs)), vs.binds, vs.next)
    case AIndex(t, ks) =>
      var a := HoistVal(Elab(t, bound, n));
      var keys := ElabKeys(ks, bound, a.next);
      if ks == [] then Lowered(Return(a.v), a.binds + keys.binds, keys.next)
      else
        var read := LowerIndex(a.v, keys.keys, keys.next);
        Lowered(read.comp, a.binds + keys.binds + read.binds, read.next)
    case ABinary(op, l, r) =>
      var a := HoistVal(Elab(l, bound, n));
      var b := HoistVal(Elab(r, bound, a.next));
      Lowered(Primitive(Binary(op, a.v, b.v)), a.binds + b.binds, b.next)
    case ANot(d) =>
      var a := HoistVal(Elab(d, bound, n));
      Lowered(Primitive(Not(a.v)), a.binds, a.next)
    case AJunction(or, l, r) =>
      var a := HoistVal(Elab(l, bound, n));
      var b := Elab(r, bound, a.next);
      Lowered(Join(or, a.v, b), a.binds, b.next)
    case AIf(c, arm, r) =>
      var els := ElabChain(r, bound, n);
      var cond := HoistVal(Elab(c, bound, els.next));
      var thn := ElabArm(arm, bound, cond.next);
      Lowered(If(cond.v, if r.NoElse? then UnitArm(thn.v) else thn.v, els.v), cond.binds, thn.next)
    case ATry(b, h) =>
      var f := HoistVal(Elab(b, bound, n));
      var g := HoistVal(Elab(h, bound, f.next));
      Lowered(Try(f.v, g.v), f.binds + g.binds, g.next)
  }

  /** A statement list: each statement's bindings wrap that statement alone. */
  function ElabStmts(ss: seq<Stmt>, bound: set<Name>, n: nat): (l: Lowered)
    ensures n <= l.next && l.binds == []
    decreases ss, 0
  {
    if ss == [] then Lowered(Return(Unit), [], n)
    else
      match ss[0]
      case SDo(e) =>
        assert ss[0].e < ss[0];
        var a := Elab(e, bound, n);
        var c := WrapBinds(a.binds, a.comp);
        if |ss| == 1 then Lowered(c, [], a.next)
        else
          var rest := ElabStmts(ss[1..], bound, a.next);
          Lowered(Seq(c, rest.comp), [], rest.next)
      case SLet(x, e) =>
        assert ss[0].e < ss[0];
        var a := Elab(e, bound, n);
        var rest := ElabStmts(ss[1..], bound + {x}, a.next);
        Lowered(Bind(WrapBinds(a.binds, a.comp), Binder(x), rest.comp), [], rest.next)
      case SDefs(defs) =>
        var codes := ElabDefs(defs, bound + DefNames(defs), n);
        var rest := ElabStmts(ss[1..], bound + DefNames(defs), codes.next);
        Lowered(WrapBinds(KnotBinds(defs, codes.comps, Height(defs)), rest.comp), [], rest.next)
  }

  datatype LoweredDefs = LoweredDefs(comps: seq<Comp>, next: nat)

  /** The code of each block of a stretch, in source order, every name of the
      stretch in scope. */
  function ElabDefs(defs: seq<Def>, bound: set<Name>, n: nat): (l: LoweredDefs)
    ensures n <= l.next && |l.comps| == |defs|
    decreases defs, 0
  {
    if defs == [] then LoweredDefs([], n)
    else
      var b := ElabStmts(defs[0].body, bound + Params(defs[0].params), n);
      var rest := ElabDefs(defs[1..], bound, b.next);
      LoweredDefs([Lams(defs[0].params, b.comp)] + rest.comps, rest.next)
  }

  // ── Stretches ────────────────────────────────────────────────────────────

  /** The definition its name stands for: the last, were there more. */
  predicate Stands(defs: seq<Def>, j: nat)
    requires j < |defs|
  {
    defs[j].x !in DefNames(defs[j + 1..])
  }

  /** The definitions below `n` that some of the names stand for, ascending. */
  function Defining(defs: seq<Def>, names: set<Name>, n: nat): (r: seq<nat>)
    requires n <= |defs|
    ensures forall j: nat :: j in r <==> j < n && defs[j].x in names && Stands(defs, j)
    ensures forall j | 0 <= j < |r| :: r[j] < n
    ensures forall j, k | 0 <= j < k < |r| :: r[j] < r[k]
  {
    if n == 0 then []
    else Defining(defs, names, n - 1) + if defs[n - 1].x in names && Stands(defs, n - 1) then [n - 1] else []
  }

  /** Which blocks of a stretch each refers to. */
  function References(defs: seq<Def>): (g: Components.Graph)
    ensures |g| == |defs| && Components.Closed(g)
  {
    seq(|defs|, i requires 0 <= i < |defs| => Defining(defs, UsesDef(defs[i]), |defs|))
  }

  /** How many components a stretch has. */
  function Height(defs: seq<Def>): nat {
    |Components.Sccs(References(defs))|
  }

  /** The component a definition is in, dependencies first. */
  function Rank(defs: seq<Def>, i: nat): (r: nat)
    requires i < |defs|
    ensures r < Height(defs)
  {
    Components.ComponentsAreExact(References(defs));
    Components.Place(Components.Sccs(References(defs)), i)
  }

  lemma RankedAlike(defs: seq<Def>, r: nat)
    requires r < Height(defs)
    ensures var ms := Components.Sccs(References(defs))[r];
            && (forall k | 0 <= k < |ms| :: ms[k] < |defs| && Rank(defs, ms[k]) == r)
            && (forall i: nat | i < |defs| && Rank(defs, i) == r :: i in ms)
            && (forall j, k | 0 <= j < k < |ms| :: ms[j] < ms[k])
  {
    var g := References(defs);
    var out := Components.Sccs(g);
    Components.ComponentsAreExact(g);
    Components.MembersAreIn(g, out, r);
  }

  /** The definitions of component `r`, ascending. */
  function Component(defs: seq<Def>, r: nat): (ms: seq<nat>)
    ensures forall k | 0 <= k < |ms| :: ms[k] < |defs| && Rank(defs, ms[k]) == r
    ensures forall i: nat | i < |defs| && Rank(defs, i) == r :: i in ms
    ensures forall j, k | 0 <= j < k < |ms| :: ms[j] < ms[k]
  {
    if r < Height(defs) then
      RankedAlike(defs, r);
      Components.Sccs(References(defs))[r]
    else []
  }

  /** A definition refers only to its own component and earlier ones. */
  lemma DependenciesFirst(defs: seq<Def>, i: nat, j: nat)
    requires Unrepeated(defs) && i < |defs| && j < |defs| && defs[j].x in UsesDef(defs[i])
    ensures Rank(defs, j) <= Rank(defs, i)
  {
    Components.ComponentsAreExact(References(defs));
    assert j in References(defs)[i];
  }

  /** More than one definition, or one that refers to itself. */
  predicate Cyclic(defs: seq<Def>, ms: seq<nat>)
    requires forall k | 0 <= k < |ms| :: ms[k] < |defs|
  {
    |ms| != 1 || ms[0] in References(defs)[ms[0]]
  }

  function Group(defs: seq<Def>, ms: seq<nat>, codes: seq<Comp>): GroupNode
    requires |codes| == |defs| && forall k | 0 <= k < |ms| :: ms[k] < |defs|
  {
    var shape := seq(|ms|, k requires 0 <= k < |ms| => Member(defs[ms[k]].x, codes[ms[k]]));
    GroupNode(shape, OccOf(RefsMembers(shape)))
  }

  /** A component's bindings: a lone block as it is, a cyclic one as one group. */
  function ComponentBinds(defs: seq<Def>, ms: seq<nat>, codes: seq<Comp>): (bs: seq<Hoist>)
    requires |codes| == |defs| && forall k | 0 <= k < |ms| :: ms[k] < |defs|
  {
    if !Cyclic(defs, ms) then [Hoist(defs[ms[0]].x, Return(ThunkVal(codes[ms[0]])))]
    else
      seq(|ms|, k requires 0 <= k < |ms| => Hoist(defs[ms[k]].x, Return(ThunkVal(Rec(Group(defs, ms, codes), k)))))
  }

  /** The bindings of the first `r` components. */
  function KnotBinds(defs: seq<Def>, codes: seq<Comp>, r: nat): seq<Hoist>
    requires |codes| == |defs|
  {
    if r == 0 then []
    else KnotBinds(defs, codes, r - 1) + ComponentBinds(defs, Component(defs, r - 1), codes)
  }
}
