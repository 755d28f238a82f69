/** Where elaboration binds its temporaries: each one made is bound exactly once,
    in whichever arm, block, group or pending binding it ends up. */
module Temporaries {
  import opened Ir
  import opened Surface
  import opened Elaborator
  import Components

  // ── Counting binders ─────────────────────────────────────────────────────

  function One(x: Name, t: Name): nat { if x == t then 1 else 0 }

  /** How often a computation binds `t`.  A group is one node its members' thunks
      share: each of them counts its own block. */
  function BindsC(c: Comp, t: Name): nat
    decreases c, 0
  {
    match c
    case Return(v) => BindsV(v, t)
    case Force(v) => BindsV(v, t)
    case Lam(x, body) => One(x, t) + BindsC(body, t)
    case App(head, args) => BindsC(head, t) + BindsVs(args, t)
    case Bind(comp, p, rest) => BindsC(comp, t) + (if p.Binder? then One(p.name, t) else 0) + BindsC(rest, t)
    case Seq(first, rest) => BindsC(first, t) + BindsC(rest, t)
    case Rec(group, i) => if i < |group.shape| then (assert group.shape[i] < c; BindsC(group.shape[i].body, t)) else 0
    case If(cond, thn, els) => BindsV(cond, t) + BindsV(thn, t) + BindsV(els, t)
    case Case(scrutinee, arms) => BindsV(scrutinee, t) + BindsArms(arms, t)
    case Try(tried, handler) => BindsV(tried, t) + BindsV(handler, t)
    case Guard(tried, cleanup) => BindsV(tried, t) + BindsV(cleanup, t)
    case Primitive(prim) => BindsPrim(prim, t)
    case Exec(_, argv) => BindsSlots(argv, t)
  }

  function BindsV(v: Val, t: Name): nat
    decreases v, 0
  {
    match v
    case Thunk(node) => BindsC(node.shape, t)
    case List(node) => BindsVs(node.shape, t)
    case Record(_, node) => BindsVs(node.shape, t)
    case Variant(_, payload) => BindsV(payload, t)
    case _ => 0
  }

  function BindsVs(vs: seq<Val>, t: Name): nat
    decreases vs, 0
  {
    if vs == [] then 0 else BindsV(vs[0], t) + BindsVs(vs[1..], t)
  }

  function BindsSlots(ss: seq<Slot>, t: Name): nat
    decreases ss, 0
  {
    if ss == [] then 0 else (assert ss[0].v < ss[0]; BindsV(ss[0].v, t)) + BindsSlots(ss[1..], t)
  }

  function BindsArms(arms: seq<Arm>, t: Name): nat
    decreases arms, 0
  {
    if arms == [] then 0 else BindsV(arms[0].body, t) + BindsArms(arms[1..], t)
  }

  function BindsPrim(p: Prim, t: Name): nat
    decreases p, 0
  {
    match p
    case Binary(_, l, r) => BindsV(l, t) + BindsV(r, t)
    case Not(v) => BindsV(v, t)
    case Index(target, k) => BindsV(target, t) + BindsKey(k, t)
    case ListOf(elems) => BindsSlots(elems, t)
  }

  function BindsKey(k: Key, t: Name): nat
    decreases k, 0
  {
    if k.Data? then BindsV(k.v, t) else 0
  }

  function BindsKeys(ks: seq<Key>, t: Name): nat {
    if ks == [] then 0 else BindsKey(ks[0], t) + BindsKeys(ks[1..], t)
  }

  function BindsHs(bs: seq<Hoist>, t: Name): nat {
    if bs == [] then 0 else One(bs[0].name, t) + BindsC(bs[0].comp, t) + BindsHs(bs[1..], t)
  }

  lemma {:induction false} BindsHsAppend(a: seq<Hoist>, b: seq<Hoist>, t: Name)
    ensures BindsHs(a + b, t) == BindsHs(a, t) + BindsHs(b, t)
  {
    if a == [] {
      assert a + b == b;
    } else {
      BindsHsAppend(a[1..], b, t);
      assert (a + b)[1..] == a[1..] + b;
    }
  }

  lemma {:induction false} BindsKeysAppend(a: seq<Key>, b: seq<Key>, t: Name)
    ensures BindsKeys(a + b, t) == BindsKeys(a, t) + BindsKeys(b, t)
  {
    if a == [] {
      assert a + b == b;
    } else {
      BindsKeysAppend(a[1..], b, t);
      assert (a + b)[1..] == a[1..] + b;
    }
  }

  lemma {:induction false} WrapBindsAll(bs: seq<Hoist>, c: Comp, t: Name)
    ensures BindsC(WrapBinds(bs, c), t) == BindsHs(bs, t) + BindsC(c, t)
  {
    if bs != [] { WrapBindsAll(bs[1..], c, t); }
  }

  lemma {:induction false} SlotsBind(vs: seq<Val>, t: Name)
    ensures BindsSlots(Slots(vs), t) == BindsVs(vs, t)
  {
    if vs != [] {
      SlotsBind(vs[1..], t);
      assert Slots(vs)[1..] == Slots(vs[1..]);
    }
  }

  lemma {:induction false} LamsBind(ps: seq<Name>, c: Comp, t: Name)
    requires forall i | 0 <= i < |ps| :: ps[i] != t
    ensures BindsC(Lams(ps, c), t) == BindsC(c, t)
  {
    if ps != [] { LamsBind(ps[1..], c, t); }
  }

  // ── Each temporary once ──────────────────────────────────────────────────

  /** One for a temporary made after the `lo`-th and no later than the `hi`-th. */
  function Made(lo: nat, j: nat, hi: nat): nat { if lo < j <= hi then 1 else 0 }

  lemma HoistBinds(l: Lowered, lo: nat, j: nat)
    requires lo <= l.next && BindsC(l.comp, Temp(j)) + BindsHs(l.binds, Temp(j)) == Made(lo, j, l.next)
    ensures var r := HoistVal(l); BindsV(r.v, Temp(j)) + BindsHs(r.binds, Temp(j)) == Made(lo, j, r.next)
  {
    if !l.comp.Return? {
      var h := Hoist(Temp(l.next + 1), l.comp);
      BindsHsAppend(l.binds, [h], Temp(j));
      assert [h][1..] == [];
      if Temp(l.next + 1) == Temp(j) { TempInjective(l.next + 1, j); }
    }
  }

  lemma {:induction false} ReadsBind(target: Val, keys: seq<Key>, n: nat, j: nat)
    requires keys != []
    ensures var l := LowerIndex(target, keys, n);
            BindsC(l.comp, Temp(j)) + BindsHs(l.binds, Temp(j)) == BindsV(target, Temp(j)) + BindsKeys(keys, Temp(j)) + Made(n, j, l.next)
    decreases |keys|
  {
    var read := Primitive(Index(target, keys[0]));
    assert BindsC(read, Temp(j)) == BindsPrim(read.prim, Temp(j));
    if |keys| > 1 {
      var more := LowerIndex(Variable(Temp(n + 1)), keys[1..], n + 1);
      ReadsBind(Variable(Temp(n + 1)), keys[1..], n + 1, j);
      BindsHsAppend([Hoist(Temp(n + 1), read)], more.binds, Temp(j));
      assert [Hoist(Temp(n + 1), read)][1..] == [];
      if Temp(n + 1) == Temp(j) { TempInjective(n + 1, j); }
    } else {
      assert keys[1..] == [];
    }
  }

  lemma {:induction false} OperandBinds(e: Ast, bound: set<Name>, n: nat, j: nat)
    requires Admitted(e, bound)
    ensures var a := HoistVal(Elab(e, bound, n)); BindsV(a.v, Temp(j)) + BindsHs(a.binds, Temp(j)) == Made(n, j, a.next)
    decreases e, 3
  {
    ExprBinds(e, bound, n, j);
    HoistBinds(Elab(e, bound, n), n, j);
  }

  lemma {:induction false} ValsBind(es: seq<Ast>, bound: set<Name>, n: nat, j: nat)
    requires AdmittedAll(es, bound)
    ensures var l := ElabVals(es, bound, n); BindsVs(l.vs, Temp(j)) + BindsHs(l.binds, Temp(j)) == Made(n, j, l.next)
    decreases es, 0
  {
    if es != [] {
      OperandBinds(es[0], bound, n, j);
      var a := HoistVal(Elab(es[0], bound, n));
      ValsBind(es[1..], bound, a.next, j);
      var b := ElabVals(es[1..], bound, a.next);
      BindsHsAppend(a.binds, b.binds, Temp(j));
      assert ([a.v] + b.vs)[1..] == b.vs;
    }
  }

  lemma {:induction false} KeyBinds(k: KeyAst, bound: set<Name>, n: nat, j: nat)
    requires k.KData? ==> Admitted(k.e, bound)
    ensures var l := ElabKey(k, bound, n); BindsKeys(l.keys, Temp(j)) + BindsHs(l.binds, Temp(j)) == Made(n, j, l.next)
    decreases k, 0
  {
    if k.KData? { OperandBinds(k.e, bound, n, j); }
  }

  lemma {:induction false} KeysBind(ks: seq<KeyAst>, bound: set<Name>, n: nat, j: nat)
    requires AdmittedKeys(ks, bound)
    ensures var l := ElabKeys(ks, bound, n); BindsKeys(l.keys, Temp(j)) + BindsHs(l.binds, Temp(j)) == Made(n, j, l.next)
    decreases ks, 0
  {
    if ks != [] {
      if ks[0].KData? { assert ks[0].e < ks[0]; }
      KeyBinds(ks[0], bound, n, j);
      var a := ElabKey(ks[0], bound, n);
      KeysBind(ks[1..], bound, a.next, j);
      var b := ElabKeys(ks[1..], bound, a.next);
      BindsHsAppend(a.binds, b.binds, Temp(j));
      BindsKeysAppend(a.keys, b.keys, Temp(j));
    }
  }

  lemma {:induction false} ArmBinds(a: ArmAst, bound: set<Name>, n: nat, j: nat)
    requires AdmittedArm(a, bound)
    ensures var l := ElabArm(a, bound, n); BindsV(l.v, Temp(j)) == Made(n, j, l.next)
    decreases a, 0
  {
    if a.ArmBlock? { StmtsBind(a.body, bound, n, j); }
  }

  lemma NothingBinds(t: Name)
    ensures BindsV(ThunkVal(Return(Unit)), t) == 0
  {
    assert BindsC(Return(Unit), t) == BindsV(Unit, t);
  }

  lemma {:induction false} ChainBinds(r: Chain, bound: set<Name>, n: nat, j: nat)
    requires AdmittedChain(r, bound)
    ensures var l := ElabChain(r, bound, n); BindsV(l.v, Temp(j)) == Made(n, j, l.next)
    decreases r, 0
  {
    hide BindsC, BindsV, BindsHs, Elab, WrapBinds;
    match r
    case NoElse => NothingBinds(Temp(j));
    case Else(a) => ArmBinds(a, bound, n, j);
    case ElseIf(c, a, r1) =>
      ChainBinds(r1, bound, n, j);
      var els := ElabChain(r1, bound, n);
      OperandBinds(c, bound, els.next, j);
      var cond := HoistVal(Elab(c, bound, els.next));
      ArmBinds(a, bound, cond.next, j);
      var branch := If(cond.v, ElabArm(a, bound, cond.next).v, els.v);
      IfBindsEach(cond.v, ElabArm(a, bound, cond.next).v, els.v, Temp(j));
      WrapBindsAll(cond.binds, branch, Temp(j));
      ThunkBinds(WrapBinds(cond.binds, branch), Temp(j));
  }

  lemma UnitArmBinds(v: Val, t: Name)
    ensures BindsV(UnitArm(v), t) == BindsV(v, t)
  {
    var c := if v.Thunk? then v.thunk.shape else Force(v);
    assert BindsC(c, t) == BindsV(v, t) && BindsC(Return(Unit), t) == BindsV(Unit, t) == 0;
    assert BindsC(Seq(c, Return(Unit)), t) == BindsC(c, t);
  }

  lemma ThunkBinds(c: Comp, t: Name)
    ensures BindsV(ThunkVal(c), t) == BindsC(c, t) && BindsC(Return(ThunkVal(c)), t) == BindsC(c, t)
  {
  }

  lemma IfBindsEach(cond: Val, thn: Val, els: Val, t: Name)
    ensures BindsC(If(cond, thn, els), t) == BindsV(cond, t) + BindsV(thn, t) + BindsV(els, t)
  {
  }

  lemma JoinBinds(or: bool, left: Val, b: Lowered, t: Name)
    ensures BindsC(Join(or, left, b), t) == BindsV(left, t) + BindsHs(b.binds, t) + BindsC(b.comp, t)
  {
    var rhs, short := WrapBinds(b.binds, b.comp), Return(Bool(or));
    WrapBindsAll(b.binds, b.comp, t);
    ThunkBinds(rhs, t);
    ThunkBinds(short, t);
    assert BindsC(short, t) == BindsV(Bool(or), t) == 0;
    if or { IfBindsEach(left, ThunkVal(short), ThunkVal(rhs), t); } else { IfBindsEach(left, ThunkVal(rhs), ThunkVal(short), t); }
  }

  lemma {:induction false} PairBinds(e: Ast, l: Ast, r: Ast, bound: set<Name>, n: nat, j: nat)
    requires l < e && r < e && Admitted(l, bound) && Admitted(r, bound)
    ensures var a := HoistVal(Elab(l, bound, n)); var b := HoistVal(Elab(r, bound, a.next));
            BindsV(a.v, Temp(j)) + BindsV(b.v, Temp(j)) + BindsHs(a.binds + b.binds, Temp(j)) == Made(n, j, b.next)
    decreases e, 0
  {
    OperandBinds(l, bound, n, j);
    var a := HoistVal(Elab(l, bound, n));
    OperandBinds(r, bound, a.next, j);
    BindsHsAppend(a.binds, HoistVal(Elab(r, bound, a.next)).binds, Temp(j));
  }

  lemma CallOfBinds(head: Val, args: seq<Val>, t: Name)
    ensures BindsC(CallOf(head, args), t) == BindsV(head, t) + BindsVs(args, t)
  {
    assert BindsC(Force(head), t) == BindsV(head, t);
  }

  lemma ExecBinds(word: CommandWord, vs: seq<Val>, t: Name)
    ensures BindsC(Exec(word, Slots(vs)), t) == BindsVs(vs, t)
  {
    SlotsBind(vs, t);
  }

  lemma NameBinds(x: Name, t: Name)
    ensures BindsV(Variable(x), t) == 0
  {
  }

  lemma {:induction false} CallBinds(e: Ast, bound: set<Name>, n: nat, j: nat)
    requires e.ACall? && Admitted(e, bound)
    ensures var l := Elab(e, bound, n); BindsC(l.comp, Temp(j)) + BindsHs(l.binds, Temp(j)) == Made(n, j, l.next)
    decreases e, 0
  {
    hide BindsC, BindsV, BindsHs, BindsVs, Slots;
    if e.head.HValue? {
      OperandBinds(e.head.e, bound, n, j);
      var f := HoistVal(Elab(e.head.e, bound, n));
      ValsBind(e.args, bound, f.next, j);
      CallOfBinds(f.v, ElabVals(e.args, bound, f.next).vs, Temp(j));
      BindsHsAppend(f.binds, ElabVals(e.args, bound, f.next).binds, Temp(j));
    } else {
      ValsBind(e.args, bound, n, j);
      var vs := ElabVals(e.args, bound, n).vs;
      CallOfBinds(Variable(e.head.x), vs, Temp(j));
      ExecBinds(Named(Bare(e.head.x)), vs, Temp(j));
      ExecBinds(External(Bare(e.head.x)), vs, Temp(j));
      NameBinds(e.head.x, Temp(j));
    }
  }

  lemma {:induction false} IndexBinds(e: Ast, bound: set<Name>, n: nat, j: nat)
    requires e.AIndex? && Admitted(e, bound)
    ensures var l := Elab(e, bound, n); BindsC(l.comp, Temp(j)) + BindsHs(l.binds, Temp(j)) == Made(n, j, l.next)
    decreases e, 0
  {
    hide BindsC, BindsV, BindsKeys, BindsHs, LowerIndex, ElabKeys;
    OperandBinds(e.target, bound, n, j);
    var a := HoistVal(Elab(e.target, bound, n));
    KeysBind(e.keys, bound, a.next, j);
    var keys := ElabKeys(e.keys, bound, a.next);
    var read := LowerIndex(a.v, keys.keys, keys.next);
    ReadsBind(a.v, keys.keys, keys.next, j);
    BindsHsAppend(a.binds, keys.binds, Temp(j));
    BindsHsAppend(a.binds + keys.binds, read.binds, Temp(j));
  }

  lemma {:induction false} JunctionBinds(e: Ast, bound: set<Name>, n: nat, j: nat)
    requires e.AJunction? && Admitted(e, bound)
    ensures var l := Elab(e, bound, n); BindsC(l.comp, Temp(j)) + BindsHs(l.binds, Temp(j)) == Made(n, j, l.next)
    decreases e, 0
  {
    hide BindsC, BindsV, BindsHs, WrapBinds, Join;
    OperandBinds(e.l, bound, n, j);
    var a := HoistVal(Elab(e.l, bound, n));
    ExprBinds(e.r, bound, a.next, j);
    JoinBinds(e.or, a.v, Elab(e.r, bound, a.next), Temp(j));
  }

  lemma {:induction false} IfBinds(e: Ast, bound: set<Name>, n: nat, j: nat)
    requires e.AIf? && Admitted(e, bound)
    ensures var l := Elab(e, bound, n); BindsC(l.comp, Temp(j)) + BindsHs(l.binds, Temp(j)) == Made(n, j, l.next)
    decreases e, 0
  {
    hide BindsC, BindsV, BindsHs, UnitArm, ElabChain, ElabArm;
    ChainBinds(e.rest, bound, n, j);
    var els := ElabChain(e.rest, bound, n);
    OperandBinds(e.cond, bound, els.next, j);
    var cond := HoistVal(Elab(e.cond, bound, els.next));
    var thn := ElabArm(e.arm, bound, cond.next).v;
    ArmBinds(e.arm, bound, cond.next, j);
    UnitArmBinds(thn, Temp(j));
    IfBindsEach(cond.v, if e.rest.NoElse? then UnitArm(thn) else thn, els.v, Temp(j));
  }

  lemma {:induction false} CodeBinds(ps: seq<Name>, body: seq<Stmt>, bound: set<Name>, n: nat, j: nat)
    requires AdmittedStmts(body, bound + Params(ps)) && forall i | 0 <= i < |ps| :: !Synthetic(ps[i])
    ensures var b := ElabStmts(body, bound + Params(ps), n); BindsC(Lams(ps, b.comp), Temp(j)) == Made(n, j, b.next)
    decreases body, 2
  {
    StmtsBind(body, bound + Params(ps), n, j);
    assert Synthetic(Temp(j));
    LamsBind(ps, ElabStmts(body, bound + Params(ps), n).comp, Temp(j));
  }

  /** Every temporary an expression makes is bound once, in its code or in a binding
      it leaves pending, and no other temporary is. */
  lemma {:induction false} ExprBinds(e: Ast, bound: set<Name>, n: nat, j: nat)
    requires Admitted(e, bound)
    ensures var l := Elab(e, bound, n); BindsC(l.comp, Temp(j)) + BindsHs(l.binds, Temp(j)) == Made(n, j, l.next)
    decreases e, 2
  {
    hide ElabStmts, WrapBinds, Lams;
    match e
    case ACall(_, _) => CallBinds(e, bound, n, j);
    case AIndex(_, _) => IndexBinds(e, bound, n, j);
    case AJunction(_, _, _) => JunctionBinds(e, bound, n, j);
    case AIf(_, _, _) => IfBinds(e, bound, n, j);
    case _ => FormBinds(e, bound, n, j);
  }

  lemma UnaryEach(v: Val, t: Name)
    ensures BindsC(Return(v), t) == BindsV(v, t) && BindsC(Force(v), t) == BindsV(v, t) && BindsC(Primitive(Not(v)), t) == BindsV(v, t)
  {
    assert BindsPrim(Not(v), t) == BindsV(v, t);
  }

  lemma PairEach(op: BinaryOp, a: Val, b: Val, t: Name)
    ensures BindsC(Primitive(Binary(op, a, b)), t) == BindsV(a, t) + BindsV(b, t) && BindsC(Try(a, b), t) == BindsV(a, t) + BindsV(b, t)
  {
    assert BindsPrim(Binary(op, a, b), t) == BindsV(a, t) + BindsV(b, t);
  }

  lemma ListEach(vs: seq<Val>, t: Name)
    ensures BindsV(ListVal(vs), t) == BindsVs(vs, t)
  {
  }

  lemma LeafBinds(e: Ast, bound: set<Name>, n: nat, t: Name)
    requires e.AUnit? || e.AStr? || e.AInt? || e.ABool? || e.AVar?
    ensures var l := Elab(e, bound, n); BindsC(l.comp, t) + BindsHs(l.binds, t) == 0 && l.next == n
  {
  }

  lemma {:induction false} FormBinds(e: Ast, bound: set<Name>, n: nat, j: nat)
    requires Admitted(e, bound) && !e.ACall? && !e.AIndex? && !e.AJunction? && !e.AIf?
    ensures var l := Elab(e, bound, n); BindsC(l.comp, Temp(j)) + BindsHs(l.binds, Temp(j)) == Made(n, j, l.next)
    decreases e, 1
  {
    hide ElabStmts, WrapBinds, Lams, BindsHs, BindsC, BindsV, BindsVs, ElabVals;
    assert BindsHs([], Temp(j)) == 0 by { NoneBinds(Temp(j)); }
    match e
    case ABlock(body) =>
      StmtsBind(body, bound, n, j);
      ThunkBinds(ElabStmts(body, bound, n).comp, Temp(j));
    case ALambda(ps, body) =>
      CodeBinds(ps, body, bound, n, j);
      ThunkBinds(Lams(ps, ElabStmts(body, bound + Params(ps), n).comp), Temp(j));
    case AForce(d) =>
      OperandBinds(d, bound, n, j);
      UnaryEach(HoistVal(Elab(d, bound, n)).v, Temp(j));
    case AReturn(d) =>
      OperandBinds(d, bound, n, j);
      UnaryEach(HoistVal(Elab(d, bound, n)).v, Temp(j));
    case ANot(d) =>
      OperandBinds(d, bound, n, j);
      UnaryEach(HoistVal(Elab(d, bound, n)).v, Temp(j));
    case AList(es) =>
      var vs := ElabVals(es, bound, n).vs;
      ValsBind(es, bound, n, j);
      ListEach(vs, Temp(j));
      UnaryEach(ListVal(vs), Temp(j));
    case ABinary(op, l, r) =>
      var a := HoistVal(Elab(l, bound, n));
      PairBinds(e, l, r, bound, n, j);
      PairEach(op, a.v, HoistVal(Elab(r, bound, a.next)).v, Temp(j));
    case ATry(b, h) =>
      var a := HoistVal(Elab(b, bound, n));
      PairBinds(e, b, h, bound, n, j);
      PairEach(Eq, a.v, HoistVal(Elab(h, bound, a.next)).v, Temp(j));
    case _ => LeafBinds(e, bound, n, Temp(j));
  }

  lemma NoneBinds(t: Name)
    ensures BindsHs([], t) == 0
  {
  }

  lemma {:induction false} StmtsBind(ss: seq<Stmt>, bound: set<Name>, n: nat, j: nat)
    requires AdmittedStmts(ss, bound)
    ensures var l := ElabStmts(ss, bound, n); BindsC(l.comp, Temp(j)) == Made(n, j, l.next)
    decreases ss, 1
  {
    if ss != [] {
      if ss[0].SDefs? {
        StretchBinds(ss, bound, n, j);
      } else {
        hide BindsC, WrapBinds, BindsHs, Elab, BindsV;
        assert ss[0].e < ss[0];
        ExprBinds(ss[0].e, bound, n, j);
        var a := Elab(ss[0].e, bound, n);
        StmtBinds(ss, bound, n, Temp(j));
        assert Synthetic(Temp(j));
        StmtsBind(ss[1..], if ss[0].SLet? then bound + {ss[0].x} else bound, a.next, j);
      }
    } else {
      assert BindsC(Return(Unit), Temp(j)) == BindsV(Unit, Temp(j));
    }
  }

  /** A statement's code and what follows it. */
  lemma StmtBinds(ss: seq<Stmt>, bound: set<Name>, n: nat, t: Name)
    requires ss != [] && !ss[0].SDefs? && (ss[0].SLet? ==> ss[0].x != t)
    ensures var a, all := Elab(ss[0].e, bound, n), ElabStmts(ss, bound, n);
            var rest := ElabStmts(ss[1..], if ss[0].SLet? then bound + {ss[0].x} else bound, a.next);
            BindsC(all.comp, t) == BindsC(a.comp, t) + BindsHs(a.binds, t) + BindsC(rest.comp, t) && all.next == rest.next
  {
    hide WrapBinds, BindsHs, Elab;
    var a := Elab(ss[0].e, bound, n);
    WrapBindsAll(a.binds, a.comp, t);
    if |ss| == 1 && ss[0].SDo? { assert ss[1..] == [] && BindsC(Return(Unit), t) == BindsV(Unit, t); }
  }

  lemma {:induction false} StretchBinds(ss: seq<Stmt>, bound: set<Name>, n: nat, j: nat)
    requires ss != [] && ss[0].SDefs? && AdmittedStmts(ss, bound)
    ensures var l := ElabStmts(ss, bound, n); BindsC(l.comp, Temp(j)) == Made(n, j, l.next)
    decreases ss, 0
  {
    hide WrapBinds, BindsHs, BindsC, KnotBinds, Height, ElabDefs;
    var defs, all := ss[0].defs, bound + DefNames(ss[0].defs);
    var codes := ElabDefs(defs, all, n);
    DefsBind(defs, all, n, j);
    StmtsBind(ss[1..], all, codes.next, j);
    KnotBindsAll(defs, codes.comps, j, all);
    WrapBindsAll(KnotBinds(defs, codes.comps, Height(defs)), ElabStmts(ss[1..], all, codes.next).comp, Temp(j));
  }

  // ── Stretches ────────────────────────────────────────────────────────────

  function BindsCs(cs: seq<Comp>, t: Name): nat {
    if cs == [] then 0 else BindsCs(cs[..|cs| - 1], t) + BindsC(cs[|cs| - 1], t)
  }

  lemma {:induction false} BindsCsHead(c: Comp, cs: seq<Comp>, t: Name)
    ensures BindsCs([c] + cs, t) == BindsC(c, t) + BindsCs(cs, t)
  {
    if cs == [] {
      assert [c] + cs == [c] && [c][..0] == [];
    } else {
      var m := |cs| - 1;
      assert ([c] + cs)[..m + 1] == [c] + cs[..m];
      BindsCsHead(c, cs[..m], t);
    }
  }

  lemma {:induction false} DefsBind(defs: seq<Def>, bound: set<Name>, n: nat, j: nat)
    requires AdmittedDefs(defs, bound)
    ensures var l := ElabDefs(defs, bound, n); BindsCs(l.comps, Temp(j)) == Made(n, j, l.next)
    decreases defs, 0
  {
    if defs != [] {
      var d := defs[0];
      CodeBinds(d.params, d.body, bound, n, j);
      var b := ElabStmts(d.body, bound + Params(d.params), n);
      DefsBind(defs[1..], bound, b.next, j);
      BindsCsHead(Lams(d.params, b.comp), ElabDefs(defs[1..], bound, b.next).comps, Temp(j));
    }
  }

  /** What the first `m` blocks bind, of those whose component is below `r`. */
  function Below(defs: seq<Def>, codes: seq<Comp>, r: nat, m: nat, t: Name): nat
    requires |codes| == |defs| && m <= |defs|
  {
    if m == 0 then 0 else Below(defs, codes, r, m - 1, t) + if Rank(defs, m - 1) < r then BindsC(codes[m - 1], t) else 0
  }

  lemma {:induction false} BelowAll(defs: seq<Def>, codes: seq<Comp>, m: nat, t: Name)
    requires |codes| == |defs| && m <= |defs|
    ensures Below(defs, codes, Height(defs), m, t) == BindsCs(codes[..m], t)
  {
    if m > 0 {
      BelowAll(defs, codes, m - 1, t);
      assert codes[..m][..m - 1] == codes[..m - 1];
    }
  }

  lemma {:induction false} BelowNone(defs: seq<Def>, codes: seq<Comp>, m: nat, t: Name)
    requires |codes| == |defs| && m <= |defs|
    ensures Below(defs, codes, 0, m, t) == 0
  {
    if m > 0 { BelowNone(defs, codes, m - 1, t); }
  }

  function BindsAt(codes: seq<Comp>, ms: seq<nat>, t: Name): nat
    requires forall k | 0 <= k < |ms| :: ms[k] < |codes|
  {
    if ms == [] then 0 else BindsAt(codes, ms[..|ms| - 1], t) + BindsC(codes[ms[|ms| - 1]], t)
  }

  lemma NoneBelowZero(ms: seq<nat>, m: nat)
    requires forall k | 0 <= k < |ms| :: ms[k] < m
    ensures m == 0 ==> ms == []
  {
    if ms != [] { assert ms[0] < m; }
  }

  /** One more component. */
  lemma {:induction false} BelowNext(defs: seq<Def>, codes: seq<Comp>, r: nat, m: nat, ms: seq<nat>, t: Name)
    requires |codes| == |defs| && m <= |defs|
    requires forall k | 0 <= k < |ms| :: ms[k] < m && Rank(defs, ms[k]) == r
    requires forall i: nat | i < m && Rank(defs, i) == r :: i in ms
    requires forall j, k | 0 <= j < k < |ms| :: ms[j] < ms[k]
    ensures Below(defs, codes, r + 1, m, t) == Below(defs, codes, r, m, t) + BindsAt(codes, ms, t)
    decreases m
  {
    if m > 0 {
      var l := |ms| - 1;
      if Rank(defs, m - 1) == r {
        assert m - 1 in ms;
        assert ms[l] == m - 1;
        assert forall i: nat | i in ms :: i == m - 1 || i in ms[..l] by { assert ms == ms[..l] + [ms[l]]; }
        BelowNext(defs, codes, r, m - 1, ms[..l], t);
      } else {
        BelowNext(defs, codes, r, m - 1, ms, t);
      }
    } else {
      NoneBelowZero(ms, m);
    }
  }

  lemma ComponentBindsAll(defs: seq<Def>, ms: seq<nat>, codes: seq<Comp>, t: Name)
    requires |codes| == |defs| && (forall k | 0 <= k < |ms| :: ms[k] < |defs|) && forall i | 0 <= i < |defs| :: defs[i].x != t
    ensures BindsHs(ComponentBinds(defs, ms, codes), t) == BindsAt(codes, ms, t)
  {
    if !Cyclic(defs, ms) {
      var h := Hoist(defs[ms[0]].x, Return(ThunkVal(codes[ms[0]])));
      assert [h][1..] == [] && ms[..0] == [];
      ThunkBinds(codes[ms[0]], t);
    } else {
      GroupBindsAll(defs, ms, codes, |ms|, t);
      var bs := ComponentBinds(defs, ms, codes);
      assert bs[..|ms|] == bs && ms[..|ms|] == ms;
    }
  }

  lemma {:induction false} GroupBindsAll(defs: seq<Def>, ms: seq<nat>, codes: seq<Comp>, n: nat, t: Name)
    requires |codes| == |defs| && n <= |ms| && (forall k | 0 <= k < |ms| :: ms[k] < |defs|) && Cyclic(defs, ms)
    requires forall i | 0 <= i < |defs| :: defs[i].x != t
    ensures |ComponentBinds(defs, ms, codes)| == |ms|
    ensures BindsHs(ComponentBinds(defs, ms, codes)[..n], t) == BindsAt(codes, ms[..n], t)
  {
    var bs := ComponentBinds(defs, ms, codes);
    assert |bs| == |ms| && forall k | 0 <= k < |ms| :: bs[k].name == defs[ms[k]].x;
    hide ComponentBinds, Cyclic, BindsC, BindsV, Group;
    if n > 0 {
      var h := bs[n - 1];
      GroupBindsAll(defs, ms, codes, n - 1, t);
      BindsHsAppend(bs[..n - 1], [h], t);
      assert bs[..n] == bs[..n - 1] + [h] && [h][1..] == [];
      assert ms[..n][..n - 1] == ms[..n - 1];
      MemberBinds(defs, ms, codes, n - 1, t);
    }
  }

  lemma MemberBinds(defs: seq<Def>, ms: seq<nat>, codes: seq<Comp>, k: nat, t: Name)
    requires |codes| == |defs| && k < |ms| && (forall k | 0 <= k < |ms| :: ms[k] < |defs|) && Cyclic(defs, ms)
    ensures BindsC(ComponentBinds(defs, ms, codes)[k].comp, t) == BindsC(codes[ms[k]], t)
  {
    var c := Rec(Group(defs, ms, codes), k);
    assert BindsC(c, t) == BindsC(codes[ms[k]], t);
    assert BindsV(ThunkVal(c), t) == BindsC(c, t);
  }

  lemma {:induction false} KnotBindsBelow(defs: seq<Def>, codes: seq<Comp>, r: nat, t: Name)
    requires |codes| == |defs| && forall i | 0 <= i < |defs| :: defs[i].x != t
    ensures BindsHs(KnotBinds(defs, codes, r), t) == Below(defs, codes, r, |defs|, t)
  {
    hide Rank, Component, ComponentBinds, BindsC;
    if r == 0 {
      BelowNone(defs, codes, |defs|, t);
    } else {
      var ms := Component(defs, r - 1);
      KnotBindsBelow(defs, codes, r - 1, t);
      BindsHsAppend(KnotBinds(defs, codes, r - 1), ComponentBinds(defs, ms, codes), t);
      ComponentBindsAll(defs, ms, codes, t);
      BelowNext(defs, codes, r - 1, |defs|, ms, t);
    }
  }

  /** A stretch's components between them hold every block's code once. */
  lemma KnotBindsAll(defs: seq<Def>, codes: seq<Comp>, j: nat, bound: set<Name>)
    requires |codes| == |defs| && AdmittedDefs(defs, bound)
    ensures BindsHs(KnotBinds(defs, codes, Height(defs)), Temp(j)) == BindsCs(codes, Temp(j))
  {
    forall i | 0 <= i < |defs| ensures defs[i].x != Temp(j) {
      assert Synthetic(Temp(j));
      NamedInSource(defs, bound, i);
    }
    KnotBindsBelow(defs, codes, Height(defs), Temp(j));
    BelowAll(defs, codes, |defs|, Temp(j));
    assert codes[..|defs|] == codes;
  }

  lemma {:induction false} NamedInSource(defs: seq<Def>, bound: set<Name>, i: nat)
    requires AdmittedDefs(defs, bound) && i < |defs|
    ensures !Synthetic(defs[i].x)
  {
    if i > 0 { NamedInSource(defs[1..], bound, i - 1); }
  }
}
