/** What elaboration yields: only built nodes, every name the source uses, and
    temporaries no source name can be. */
module Elaborated {
  import opened Ir
  import opened Surface
  import opened Occurrence
  import opened Elaborator

  function NamesBinds(bs: seq<Hoist>): set<Name> {
    if bs == [] then {} else NamesC(bs[0].comp) + NamesBinds(bs[1..])
  }

  ghost predicate BuiltBinds(bs: seq<Hoist>) {
    forall i | 0 <= i < |bs| :: BuiltC(bs[i].comp)
  }

  lemma {:induction false} NamesBindsAppend(a: seq<Hoist>, b: seq<Hoist>)
    ensures NamesBinds(a + b) == NamesBinds(a) + NamesBinds(b)
  {
    if a == [] {
      assert a + b == b;
    } else {
      NamesBindsAppend(a[1..], b);
      assert (a + b)[1..] == a[1..] + b;
    }
  }

  lemma {:induction false} WrapKeeps(bs: seq<Hoist>, c: Comp)
    requires BuiltBinds(bs) && BuiltC(c)
    ensures BuiltC(WrapBinds(bs, c)) && NamesC(WrapBinds(bs, c)) == NamesBinds(bs) + NamesC(c)
  {
    if bs != [] { WrapKeeps(bs[1..], c); }
  }

  lemma HoistKeeps(l: Lowered)
    requires BuiltBinds(l.binds) && BuiltC(l.comp)
    ensures BuiltBinds(HoistVal(l).binds) && BuiltV(HoistVal(l).v)
    ensures NamesC(l.comp) + NamesBinds(l.binds) <= NamesV(HoistVal(l).v) + NamesBinds(HoistVal(l).binds)
  {
    if !l.comp.Return? {
      var h := Hoist(Temp(l.next + 1), l.comp);
      NamesBindsAppend(l.binds, [h]);
      assert NamesBinds([h]) == NamesC(l.comp) + NamesBinds([]);
    }
  }

  lemma ThunkKeeps(c: Comp)
    requires BuiltC(c)
    ensures BuiltV(ThunkVal(c)) && NamesV(ThunkVal(c)) == NamesC(c)
  {
  }

  lemma {:induction false} LamsKeep(ps: seq<Name>, c: Comp)
    requires BuiltC(c)
    ensures BuiltC(Lams(ps, c)) && NamesC(Lams(ps, c)) == NamesC(c)
  {
    if ps != [] { LamsKeep(ps[1..], c); }
  }

  lemma {:induction false} SlotsKeep(vs: seq<Val>)
    requires BuiltVs(vs)
    ensures BuiltSlots(Slots(vs)) && NamesSlots(Slots(vs)) == NamesVs(vs)
  {
    if vs != [] {
      SlotsKeep(vs[1..]);
      assert Slots(vs)[1..] == Slots(vs[1..]);
    }
  }

  function NamesKeys(ks: seq<Key>): set<Name> {
    if ks == [] then {} else (if ks[0].Data? then NamesV(ks[0].v) else {}) + NamesKeys(ks[1..])
  }

  ghost predicate BuiltKeys(ks: seq<Key>) {
    forall i | 0 <= i < |ks| && ks[i].Data? :: BuiltV(ks[i].v)
  }

  lemma {:induction false} NamesKeysAppend(a: seq<Key>, b: seq<Key>)
    ensures NamesKeys(a + b) == NamesKeys(a) + NamesKeys(b)
  {
    if a == [] {
      assert a + b == b;
    } else {
      NamesKeysAppend(a[1..], b);
      assert (a + b)[1..] == a[1..] + b;
    }
  }

  lemma {:induction false} LowerIndexKeeps(target: Val, keys: seq<Key>, n: nat)
    requires keys != [] && BuiltV(target) && BuiltKeys(keys)
    ensures var l := LowerIndex(target, keys, n);
            BuiltC(l.comp) && BuiltBinds(l.binds) && NamesV(target) + NamesKeys(keys) <= NamesC(l.comp) + NamesBinds(l.binds)
    decreases |keys|
  {
    var read := Primitive(Index(target, keys[0]));
    assert BuiltC(read);
    assert NamesC(read) == NamesV(target) + (if keys[0].Data? then NamesV(keys[0].v) else {});
    if |keys| > 1 {
      LowerIndexKeeps(Variable(Temp(n + 1)), keys[1..], n + 1);
      var more := LowerIndex(Variable(Temp(n + 1)), keys[1..], n + 1);
      NamesBindsAppend([Hoist(Temp(n + 1), read)], more.binds);
      assert NamesBinds([Hoist(Temp(n + 1), read)]) == NamesC(read) + NamesBinds([]);
      assert NamesKeys(keys) <= NamesC(read) + NamesKeys(keys[1..]);
      assert forall i | 0 <= i < |keys[1..]| :: keys[1..][i] == keys[i + 1];
    } else {
      assert keys[1..] == [];
    }
  }

  lemma {:induction false} ValsKeep(es: seq<Ast>, bound: set<Name>, n: nat)
    ensures var l := ElabVals(es, bound, n);
            BuiltVs(l.vs) && BuiltBinds(l.binds) && UsesAll(es) <= NamesVs(l.vs) + NamesBinds(l.binds)
    decreases es, 0
  {
    if es != [] {
      OperandKeeps(es[0], bound, n);
      var a := HoistVal(Elab(es[0], bound, n));
      ValsKeep(es[1..], bound, a.next);
      var b := ElabVals(es[1..], bound, a.next);
      NamesBindsAppend(a.binds, b.binds);
      assert ([a.v] + b.vs)[1..] == b.vs;
    }
  }

  lemma {:induction false} OperandKeeps(e: Ast, bound: set<Name>, n: nat)
    ensures var a := HoistVal(Elab(e, bound, n));
            BuiltV(a.v) && BuiltBinds(a.binds) && Uses(e) <= NamesV(a.v) + NamesBinds(a.binds)
    decreases e, 2
  {
    ElabKeeps(e, bound, n);
    HoistKeeps(Elab(e, bound, n));
  }

  lemma {:induction false} KeyKeeps(k: KeyAst, bound: set<Name>, n: nat)
    ensures var l := ElabKey(k, bound, n);
            BuiltKeys(l.keys) && BuiltBinds(l.binds) && (k.KData? ==> Uses(k.e) <= NamesKeys(l.keys) + NamesBinds(l.binds))
    decreases k, 0
  {
    if k.KData? {
      OperandKeeps(k.e, bound, n);
      var a := HoistVal(Elab(k.e, bound, n));
      assert NamesKeys([Data(a.v)]) == NamesV(a.v) + NamesKeys([]);
    }
  }

  lemma {:induction false} KeysKeep(ks: seq<KeyAst>, bound: set<Name>, n: nat)
    ensures var l := ElabKeys(ks, bound, n);
            BuiltKeys(l.keys) && BuiltBinds(l.binds) && UsesKeys(ks) <= NamesKeys(l.keys) + NamesBinds(l.binds)
    decreases ks, 0
  {
    if ks != [] {
      KeyKeeps(ks[0], bound, n);
      var a := ElabKey(ks[0], bound, n);
      KeysKeep(ks[1..], bound, a.next);
      var b := ElabKeys(ks[1..], bound, a.next);
      NamesBindsAppend(a.binds, b.binds);
      NamesKeysAppend(a.keys, b.keys);
    }
  }

  lemma {:induction false} ArmKeeps(a: ArmAst, bound: set<Name>, n: nat)
    ensures var l := ElabArm(a, bound, n); BuiltV(l.v) && UsesArm(a) <= NamesV(l.v)
    decreases a, 0
  {
    if a.ArmBlock? {
      StmtsKeep(a.body, bound, n);
      ThunkKeeps(ElabStmts(a.body, bound, n).comp);
    }
  }

  lemma {:induction false} ChainKeeps(r: Chain, bound: set<Name>, n: nat)
    ensures var l := ElabChain(r, bound, n); BuiltV(l.v) && UsesChain(r) <= NamesV(l.v)
    decreases r, 0
  {
    match r
    case NoElse => ThunkKeeps(Return(Unit));
    case Else(a) => ArmKeeps(a, bound, n);
    case ElseIf(c, a, r1) =>
      ChainKeeps(r1, bound, n);
      var els := ElabChain(r1, bound, n);
      OperandKeeps(c, bound, els.next);
      var cond := HoistVal(Elab(c, bound, els.next));
      ArmKeeps(a, bound, cond.next);
      var thn := ElabArm(a, bound, cond.next);
      WrapKeeps(cond.binds, If(cond.v, thn.v, els.v));
      ThunkKeeps(WrapBinds(cond.binds, If(cond.v, thn.v, els.v)));
  }

  lemma UnitArmKeeps(v: Val)
    requires BuiltV(v)
    ensures BuiltV(UnitArm(v)) && NamesV(v) <= NamesV(UnitArm(v))
  {
    var body := Seq(if v.Thunk? then v.thunk.shape else Force(v), Return(Unit));
    ThunkKeeps(body);
  }

  lemma {:induction false} PairKeeps(e: Ast, l: Ast, r: Ast, bound: set<Name>, n: nat)
    requires l < e && r < e
    ensures var a := HoistVal(Elab(l, bound, n)); var b := HoistVal(Elab(r, bound, a.next));
            && BuiltV(a.v) && BuiltV(b.v) && BuiltBinds(a.binds + b.binds)
            && Uses(l) + Uses(r) <= NamesV(a.v) + NamesV(b.v) + NamesBinds(a.binds + b.binds)
    decreases e, 0
  {
    OperandKeeps(l, bound, n);
    var a := HoistVal(Elab(l, bound, n));
    OperandKeeps(r, bound, a.next);
    NamesBindsAppend(a.binds, HoistVal(Elab(r, bound, a.next)).binds);
  }

  lemma CallOfKeeps(head: Val, args: seq<Val>)
    requires BuiltV(head) && BuiltVs(args)
    ensures BuiltC(CallOf(head, args)) && NamesC(CallOf(head, args)) == NamesV(head) + NamesVs(args)
  {
    assert NamesC(Force(head)) == NamesV(head) && BuiltC(Force(head));
  }

  lemma {:induction false} CallKeeps(h: Head, es: seq<Ast>, bound: set<Name>, n: nat)
    ensures var l := Elab(ACall(h, es), bound, n);
            BuiltC(l.comp) && BuiltBinds(l.binds) && UsesHead(h) + UsesAll(es) <= NamesC(l.comp) + NamesBinds(l.binds)
    decreases ACall(h, es), 0
  {
    if h.HValue? {
      OperandKeeps(h.e, bound, n);
      var f := HoistVal(Elab(h.e, bound, n));
      ValsKeep(es, bound, f.next);
      CallOfKeeps(f.v, ElabVals(es, bound, f.next).vs);
      NamesBindsAppend(f.binds, ElabVals(es, bound, f.next).binds);
    } else {
      ValsKeep(es, bound, n);
      var vs := ElabVals(es, bound, n).vs;
      SlotsKeep(vs);
      CallOfKeeps(Variable(h.x), vs);
      assert NamesV(Variable(h.x)) == {h.x};
    }
  }

  lemma ReadKeeps(v: Val, a: seq<Hoist>, keys: LoweredKeys)
    requires BuiltV(v) && BuiltBinds(a) && BuiltBinds(keys.binds) && BuiltKeys(keys.keys) && keys.keys != []
    ensures var read := LowerIndex(v, keys.keys, keys.next);
            && BuiltC(read.comp) && BuiltBinds(a + keys.binds + read.binds)
            && NamesV(v) + NamesBinds(a) <= NamesC(read.comp) + NamesBinds(a + keys.binds + read.binds)
            && NamesKeys(keys.keys) + NamesBinds(keys.binds) <= NamesC(read.comp) + NamesBinds(a + keys.binds + read.binds)
  {
    LowerIndexKeeps(v, keys.keys, keys.next);
    var read := LowerIndex(v, keys.keys, keys.next);
    NamesBindsAppend(a, keys.binds);
    NamesBindsAppend(a + keys.binds, read.binds);
  }

  lemma {:induction false} IndexKeeps(e: Ast, bound: set<Name>, n: nat)
    requires e.AIndex?
    ensures var l := Elab(e, bound, n);
            BuiltC(l.comp) && BuiltBinds(l.binds) && Uses(e.target) + UsesKeys(e.keys) <= NamesC(l.comp) + NamesBinds(l.binds)
    decreases e, 0
  {
    OperandKeeps(e.target, bound, n);
    var a := HoistVal(Elab(e.target, bound, n));
    KeysKeep(e.keys, bound, a.next);
    var keys := ElabKeys(e.keys, bound, a.next);
    if e.keys == [] {
      assert UsesKeys(e.keys) == {} && keys.binds == [];
      NamesBindsAppend(a.binds, keys.binds);
    } else {
      ReadKeeps(a.v, a.binds, keys);
    }
  }

  lemma {:induction false} JunctionKeeps(e: Ast, bound: set<Name>, n: nat)
    requires e.AJunction?
    ensures var l := Elab(e, bound, n);
            BuiltC(l.comp) && BuiltBinds(l.binds) && Uses(e.l) + Uses(e.r) <= NamesC(l.comp) + NamesBinds(l.binds)
    decreases e, 0
  {
    OperandKeeps(e.l, bound, n);
    var a := HoistVal(Elab(e.l, bound, n));
    ElabKeeps(e.r, bound, a.next);
    JoinKeeps(e.or, a, Elab(e.r, bound, a.next), Uses(e.l), Uses(e.r));
  }

  lemma JoinKeeps(or: bool, a: LoweredVal, b: Lowered, left: set<Name>, right: set<Name>)
    requires BuiltV(a.v) && BuiltC(b.comp) && BuiltBinds(b.binds)
    requires left <= NamesV(a.v) + NamesBinds(a.binds) && right <= NamesC(b.comp) + NamesBinds(b.binds)
    ensures BuiltC(Join(or, a.v, b)) && left + right <= NamesC(Join(or, a.v, b)) + NamesBinds(a.binds)
  {
    WrapKeeps(b.binds, b.comp);
    ThunkKeeps(WrapBinds(b.binds, b.comp));
    ThunkKeeps(Return(Bool(or)));
  }

  lemma {:induction false} LambdaKeeps(ps: seq<Name>, body: seq<Stmt>, bound: set<Name>, n: nat)
    ensures var l := Elab(ALambda(ps, body), bound, n);
            BuiltC(l.comp) && BuiltBinds(l.binds) && UsesStmts(body) <= NamesC(l.comp) + NamesBinds(l.binds)
    decreases ALambda(ps, body), 0
  {
    StmtsKeep(body, bound + Params(ps), n);
    LamsKeep(ps, ElabStmts(body, bound + Params(ps), n).comp);
    ThunkKeeps(Lams(ps, ElabStmts(body, bound + Params(ps), n).comp));
  }

  lemma {:induction false} IfKeeps(e: Ast, bound: set<Name>, n: nat)
    requires e.AIf?
    ensures var l := Elab(e, bound, n);
            BuiltC(l.comp) && BuiltBinds(l.binds) && Uses(e.cond) + UsesArm(e.arm) + UsesChain(e.rest) <= NamesC(l.comp) + NamesBinds(l.binds)
    decreases e, 0
  {
    ChainKeeps(e.rest, bound, n);
    var els := ElabChain(e.rest, bound, n);
    OperandKeeps(e.cond, bound, els.next);
    var cond := HoistVal(Elab(e.cond, bound, els.next));
    ArmKeeps(e.arm, bound, cond.next);
    UnitArmKeeps(ElabArm(e.arm, bound, cond.next).v);
  }

  /** Every node elaboration makes is built, and it drops no name the source uses. */
  lemma {:induction false} ElabKeeps(e: Ast, bound: set<Name>, n: nat)
    ensures var l := Elab(e, bound, n);
            BuiltC(l.comp) && BuiltBinds(l.binds) && Uses(e) <= NamesC(l.comp) + NamesBinds(l.binds)
    decreases e, 1
  {
    match e
    case ABlock(_) => BlockKeeps(e, bound, n);
    case ALambda(ps, body) => LambdaKeeps(ps, body, bound, n);
    case AForce(_) => UnaryKeeps(e, bound, n);
    case ACall(h, es) => CallKeeps(h, es, bound, n);
    case AReturn(_) => UnaryKeeps(e, bound, n);
    case AList(es) => ValsKeep(es, bound, n);
    case AIndex(_, _) => IndexKeeps(e, bound, n);
    case ABinary(op, l, r) => PairKeeps(e, l, r, bound, n);
    case ANot(_) => UnaryKeeps(e, bound, n);
    case AJunction(_, _, _) => JunctionKeeps(e, bound, n);
    case AIf(_, _, _) => IfKeeps(e, bound, n);
    case ATry(b, h) => PairKeeps(e, b, h, bound, n);
    case _ =>
  }

  lemma {:induction false} BlockKeeps(e: Ast, bound: set<Name>, n: nat)
    requires e.ABlock?
    ensures var l := Elab(e, bound, n);
            BuiltC(l.comp) && BuiltBinds(l.binds) && Uses(e) <= NamesC(l.comp) + NamesBinds(l.binds)
    decreases e, 0
  {
    StmtsKeep(e.body, bound, n);
    ThunkKeeps(ElabStmts(e.body, bound, n).comp);
  }

  lemma {:induction false} UnaryKeeps(e: Ast, bound: set<Name>, n: nat)
    requires e.AForce? || e.AReturn? || e.ANot?
    ensures var l := Elab(e, bound, n);
            BuiltC(l.comp) && BuiltBinds(l.binds) && Uses(e) <= NamesC(l.comp) + NamesBinds(l.binds)
    decreases e, 0
  {
    OperandKeeps(e.e, bound, n);
  }

  lemma {:induction false} StmtsKeep(ss: seq<Stmt>, bound: set<Name>, n: nat)
    ensures var l := ElabStmts(ss, bound, n); BuiltC(l.comp) && UsesStmts(ss) <= NamesC(l.comp)
    decreases ss, 1
  {
    if ss != [] {
      if ss[0].SDefs? {
        StretchKeeps(ss, bound, n);
      } else {
        assert ss[0].e < ss[0];
        ElabKeeps(ss[0].e, bound, n);
        var a := Elab(ss[0].e, bound, n);
        WrapKeeps(a.binds, a.comp);
        StmtsKeep(ss[1..], if ss[0].SLet? then bound + {ss[0].x} else bound, a.next);
      }
    }
  }

  lemma {:induction false} StretchKeeps(ss: seq<Stmt>, bound: set<Name>, n: nat)
    requires ss != [] && ss[0].SDefs?
    ensures var l := ElabStmts(ss, bound, n); BuiltC(l.comp) && UsesStmts(ss) <= NamesC(l.comp)
    decreases ss, 0
  {
    hide BuiltC, CodesKeep, Elab, Height, KnotBinds, BuiltBinds;
    var defs, all := ss[0].defs, bound + DefNames(ss[0].defs);
    var codes := ElabDefs(defs, all, n);
    DefsKeep(defs, all, n);
    StmtsKeep(ss[1..], all, codes.next);
    KnotKeeps(defs, codes.comps, Height(defs));
    UsesOfDefs(defs, codes.comps, NamesBinds(KnotBinds(defs, codes.comps, Height(defs))));
    WrapKeeps(KnotBinds(defs, codes.comps, Height(defs)), ElabStmts(ss[1..], all, codes.next).comp);
  }

  ghost predicate CodesKeep(defs: seq<Def>, codes: seq<Comp>)
    requires |codes| == |defs|
  {
    forall i | 0 <= i < |defs| :: BuiltC(codes[i]) && UsesDef(defs[i]) <= NamesC(codes[i])
  }

  lemma {:induction false} DefsKeep(defs: seq<Def>, bound: set<Name>, n: nat)
    ensures CodesKeep(defs, ElabDefs(defs, bound, n).comps)
    decreases defs, 0
  {
    if defs != [] {
      var d := defs[0];
      var b := ElabStmts(d.body, bound + Params(d.params), n);
      StmtsKeep(d.body, bound + Params(d.params), n);
      LamsKeep(d.params, b.comp);
      DefsKeep(defs[1..], bound, b.next);
    }
  }

  lemma {:induction false} UsesOfDefs(defs: seq<Def>, codes: seq<Comp>, names: set<Name>)
    requires |codes| == |defs| && CodesKeep(defs, codes) && forall i | 0 <= i < |defs| :: NamesC(codes[i]) <= names
    ensures UsesDefs(defs) <= names
    decreases |defs|
  {
    if defs != [] {
      assert CodesKeep(defs[1..], codes[1..]);
      UsesOfDefs(defs[1..], codes[1..], names);
    }
  }

  /** A stretch's bindings are built, and between them keep every code's names. */
  lemma {:induction false} KnotKeeps(defs: seq<Def>, codes: seq<Comp>, r: nat)
    requires |codes| == |defs| && CodesKeep(defs, codes)
    ensures BuiltBinds(KnotBinds(defs, codes, r))
    ensures forall i | 0 <= i < |defs| && Rank(defs, i) < r :: NamesC(codes[i]) <= NamesBinds(KnotBinds(defs, codes, r))
  {
    hide Rank, Component, ComponentBinds, BuiltC;
    if r > 0 {
      var ms := Component(defs, r - 1);
      KnotKeeps(defs, codes, r - 1);
      ComponentKeeps(defs, ms, codes);
      NamesBindsAppend(KnotBinds(defs, codes, r - 1), ComponentBinds(defs, ms, codes));
    }
  }

  lemma ComponentKeeps(defs: seq<Def>, ms: seq<nat>, codes: seq<Comp>)
    requires |codes| == |defs| && CodesKeep(defs, codes) && forall k | 0 <= k < |ms| :: ms[k] < |defs|
    ensures BuiltBinds(ComponentBinds(defs, ms, codes))
    ensures forall k | 0 <= k < |ms| :: NamesC(codes[ms[k]]) <= NamesBinds(ComponentBinds(defs, ms, codes))
  {
    var bs := ComponentBinds(defs, ms, codes);
    if !Cyclic(defs, ms) {
      ThunkKeeps(codes[ms[0]]);
      BindAt(bs, 0);
    } else {
      GroupKeeps(defs, ms, codes);
      forall k | 0 <= k < |ms| ensures BuiltC(bs[k].comp) && NamesC(codes[ms[k]]) <= NamesBinds(bs) {
        ThunkKeeps(Rec(Group(defs, ms, codes), k));
        BindAt(bs, k);
      }
    }
  }

  lemma {:induction false} BindAt(bs: seq<Hoist>, k: nat)
    requires k < |bs|
    ensures NamesC(bs[k].comp) <= NamesBinds(bs)
  {
    if k > 0 { BindAt(bs[1..], k - 1); }
  }

  lemma GroupKeeps(defs: seq<Def>, ms: seq<nat>, codes: seq<Comp>)
    requires |codes| == |defs| && CodesKeep(defs, codes) && forall k | 0 <= k < |ms| :: ms[k] < |defs|
    ensures var g := Group(defs, ms, codes);
            && BuiltMembers(g.shape) && (forall k | 0 <= k < |ms| :: NamesC(codes[ms[k]]) <= NamesMembers(g.shape))
  {
    var g := Group(defs, ms, codes);
    AllBuilt(g.shape);
    forall k | 0 <= k < |ms| ensures NamesC(codes[ms[k]]) <= NamesMembers(g.shape) { MemberNames(g.shape, k); }
  }

  lemma {:induction false} AllBuilt(ms: seq<Member>)
    requires forall k | 0 <= k < |ms| :: BuiltC(ms[k].body)
    ensures BuiltMembers(ms)
  {
    if ms != [] { AllBuilt(ms[1..]); }
  }

  lemma {:induction false} MemberNames(ms: seq<Member>, k: nat)
    requires k < |ms|
    ensures NamesC(ms[k].body) <= NamesMembers(ms)
  {
    if k > 0 { MemberNames(ms[1..], k - 1); }
  }
}
