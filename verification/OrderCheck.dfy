/** A check on the source under which a chain of reads runs as it is written:
    every key after the first is a label, a position or a value form. */
module OrderCheck {
  import opened Ir
  import opened Evaluator
  import opened Wrappers
  import opened Surface
  import opened ReadOrder

  /** A key that runs nothing: in scope, it comes to its value at once. */
  predicate Still(key: KeyAst) {
    key.KData? ==>
      var e := key.e; e.AUnit? || e.AStr? || e.AInt? || e.ABool? || e.AVar? || e.ABlock? || e.ALambda?
  }

  predicate Orderly(e: Ast)
    decreases e, 0
  {
    match e
    case ABlock(body) => OrderlyStmts(body)
    case ALambda(_, body) => OrderlyStmts(body)
    case AForce(d) => Orderly(d)
    case ACall(h, es) => (h.HValue? ==> Orderly(h.e)) && OrderlyAll(es)
    case AReturn(d) => Orderly(d)
    case AList(es) => OrderlyAll(es)
    case AIndex(t, ks) => Orderly(t) && OrderlyKeys(ks) && forall i | 1 <= i < |ks| :: Still(ks[i])
    case ABinary(_, l, r) => Orderly(l) && Orderly(r)
    case ANot(d) => Orderly(d)
    case AJunction(_, l, r) => Orderly(l) && Orderly(r)
    case AIf(c, a, r) => Orderly(c) && OrderlyArm(a) && OrderlyChain(r)
    case ATry(b, h) => Orderly(b) && Orderly(h)
    case _ => true
  }

  predicate OrderlyAll(es: seq<Ast>)
    decreases es, 0
  {
    es != [] ==> Orderly(es[0]) && OrderlyAll(es[1..])
  }

  predicate OrderlyKeys(ks: seq<KeyAst>)
    decreases ks, 0
  {
    ks != [] ==> (ks[0].KData? ==> (assert ks[0].e < ks[0]; Orderly(ks[0].e))) && OrderlyKeys(ks[1..])
  }

  predicate OrderlyArm(a: ArmAst)
    decreases a, 0
  {
    a.ArmBlock? ==> OrderlyStmts(a.body)
  }

  predicate OrderlyChain(r: Chain)
    decreases r, 0
  {
    match r
    case NoElse => true
    case Else(a) => OrderlyArm(a)
    case ElseIf(c, a, r1) => Orderly(c) && OrderlyArm(a) && OrderlyChain(r1)
  }

  predicate OrderlyStmts(ss: seq<Stmt>)
    decreases ss, 0
  {
    ss != [] ==>
      && OrderlyStmts(ss[1..])
      && match ss[0] case SDefs(defs) => OrderlyDefs(defs) case _ => assert ss[0].e < ss[0]; Orderly(ss[0].e)
  }

  predicate OrderlyDefs(defs: seq<Def>)
    decreases defs, 0
  {
    defs != [] ==> OrderlyStmts(defs[0].body) && OrderlyDefs(defs[1..])
  }

  // ── What a run of orderly code holds ─────────────────────────────────────

  function Scope(sg: set<Name>, env: SEnv, ps: seq<Name>): set<Name> {
    env.Keys + sg + Params(ps)
  }

  /** Every closure is admitted in the scope it closed over, and orderly. */
  ghost predicate Sound(sg: set<Name>, v: SVal)
    decreases v
  {
    match v
    case SList(items) => forall i | 0 <= i < |items| :: Sound(sg, items[i])
    case SRecord(_, items) => forall i | 0 <= i < |items| :: Sound(sg, items[i])
    case SVariant(_, p) => Sound(sg, p)
    case SClosure(ps, body, env) =>
      AdmittedStmts(body, Scope(sg, env, ps)) && OrderlyStmts(body) && forall x | x in env :: Sound(sg, env[x])
    case SKnot(knot, _) =>
      AdmittedDefs(knot.defs, knot.env.Keys + sg + DefNames(knot.defs)) && OrderlyDefs(knot.defs) && forall x | x in knot.env :: Sound(sg, knot.env[x])
    case _ => true
  }

  ghost predicate SoundAll(sg: set<Name>, vs: seq<SVal>) {
    forall i | 0 <= i < |vs| :: Sound(sg, vs[i])
  }

  ghost predicate SoundEnv(sg: set<Name>, env: SEnv) {
    forall x | x in env :: Sound(sg, env[x])
  }

  ghost predicate SoundKey(sg: set<Name>, key: SKey) {
    key.SData? ==> Sound(sg, key.v)
  }

  ghost predicate SoundTerminal(sg: set<Name>, t: STerminal) {
    match t
    case SPlain(v) => Sound(sg, v)
    case SPartial(ps, body, env) => AdmittedStmts(body, Scope(sg, env, ps)) && OrderlyStmts(body) && SoundEnv(sg, env)
  }

  /** Undisturbed, and whatever it leaves is sound. */
  ghost predicate Fine(sg: set<Name>, o: SOutcome) {
    !o.SDisturbed? && (o.SDone? ==> SoundTerminal(sg, o.t))
  }

  ghost predicate FineVal(sg: set<Name>, r: Ran<SVal>) {
    match r case Ran(v, _) => Sound(sg, v) case Stopped(o) => !o.SDisturbed? && !o.SDone?
  }

  ghost predicate FineVals(sg: set<Name>, r: Ran<seq<SVal>>) {
    match r case Ran(vs, _) => SoundAll(sg, vs) case Stopped(o) => !o.SDisturbed? && !o.SDone?
  }

  ghost predicate FineKey(sg: set<Name>, r: Ran<SKey>) {
    match r case Ran(key, _) => SoundKey(sg, key) case Stopped(o) => !o.SDisturbed? && !o.SDone?
  }

  /** Where a run of orderly code stands. */
  ghost predicate Here(k: SContext, env: SEnv) {
    k.order.Watched? && SoundEnv(k.sig.Keys, k.sig) && SoundEnv(k.sig.Keys, env)
  }

  lemma {:induction false} DatumSound(sg: set<Name>, d: Datum)
    ensures Sound(sg, SFromDatum(d))
    decreases d, 0
  {
    match d
    case DList(ds) => DataSound(sg, ds);
    case DRecord(_, ds) => DataSound(sg, ds);
    case DVariant(_, p) => DatumSound(sg, p);
    case _ =>
  }

  lemma {:induction false} DataSound(sg: set<Name>, ds: seq<Datum>)
    ensures SoundAll(sg, SFromData(ds))
    decreases ds, 0
  {
    if ds != [] { DatumSound(sg, ds[0]); DataSound(sg, ds[1..]); }
  }

  lemma ErrorSound(sg: set<Name>, e: Error)
    ensures Sound(sg, SErrorValue(e))
  {
    var d := Observe(ErrorValue(e));
    if d.Some? { DatumSound(sg, d.value); }
  }

  lemma OperateFine(k: SContext, word: CommandWord, vs: seq<SVal>, args: seq<SVal>, tr: Trace)
    ensures Fine(k.sig.Keys, SOperate(k, word, vs, args, tr))
  {
    var ds := SObserveAll(vs);
    if ds.Some? && k.world(tr, Event(word, ds.value)).Yields? { DatumSound(k.sig.Keys, k.world(tr, Event(word, ds.value)).d); }
  }

  // ── Keys and reads ───────────────────────────────────────────────────────

  lemma IndexSound(sg: set<Name>, v: SVal, key: SKey)
    requires Sound(sg, v)
    ensures SIndex(v, key).Formed? ==> Sound(sg, SIndex(v, key).value)
  {
  }

  /** Still keys all run, and leave no operation. */
  lemma {:induction false} StillKeys(k: SContext, fuel: nat, ks: seq<KeyAst>, env: SEnv, tr: Trace)
    requires AdmittedKeys(ks, env.Keys + k.sig.Keys) && forall i | 0 <= i < |ks| :: Still(ks[i])
    ensures SKeys(k, fuel, ks, env, tr).Ran? && SKeys(k, fuel, ks, env, tr).tr == tr
    decreases |ks|
  {
    if ks != [] {
      assert Still(ks[0]);
      StillKey(k, fuel, ks[0], env, tr);
      StillKeys(k, fuel, ks[1..], env, tr);
    }
  }

  lemma StillKey(k: SContext, fuel: nat, key: KeyAst, env: SEnv, tr: Trace)
    requires Still(key) && (key.KData? ==> Admitted(key.e, env.Keys + k.sig.Keys))
    ensures SKeyOf(k, fuel, key, env, tr).Ran? && SKeyOf(k, fuel, key, env, tr).tr == tr
  {
  }

  lemma {:induction false} ReadsFine(k: SContext, fuel: nat, v: SVal, ks: seq<KeyAst>, env: SEnv, args: seq<SVal>, tr: Trace)
    requires Here(k, env) && Sound(k.sig.Keys, v) && AdmittedKeys(ks, env.Keys + k.sig.Keys) && OrderlyKeys(ks)
    requires forall i | 1 <= i < |ks| :: Still(ks[i])
    ensures Fine(k.sig.Keys, SReads(k, fuel, v, ks, env, args, tr))
    decreases fuel, 2, ks, 1
  {
    if ks != [] {
      KeyFine(k, fuel, ks[0], env, tr);
      var r := SKeyOf(k, fuel, ks[0], env, tr);
      if r.Ran? {
        IndexSound(k.sig.Keys, v, r.value);
        assert forall i | 0 <= i < |ks[1..]| :: ks[1..][i] == ks[i + 1];
        match SIndex(v, r.value)
        case Formed(w) => ReadsFine(k, fuel, w, ks[1..], env, args, r.tr);
        case Malformed(_) => StillKeys(k, fuel, ks[1..], env, r.tr);
      }
    }
  }

  lemma {:induction false} KeyFine(k: SContext, fuel: nat, key: KeyAst, env: SEnv, tr: Trace)
    requires Here(k, env) && (key.KData? ==> Admitted(key.e, env.Keys + k.sig.Keys) && Orderly(key.e))
    ensures FineKey(k.sig.Keys, SKeyOf(k, fuel, key, env, tr))
    decreases fuel, 2, key, 0
  {
    if key.KData? { ValueFine(k, fuel, key.e, env, tr); }
  }

  // ── Closures ─────────────────────────────────────────────────────────────

  lemma {:induction false} ApplyFine(k: SContext, fuel: nat, ps: seq<Name>, body: seq<Stmt>, env: SEnv, args: seq<SVal>, tr: Trace)
    requires Here(k, env) && SoundAll(k.sig.Keys, args)
    requires AdmittedStmts(body, Scope(k.sig.Keys, env, ps)) && OrderlyStmts(body)
    ensures Fine(k.sig.Keys, SApply(k, fuel, ps, body, env, args, tr))
    decreases fuel, 3, |ps|
  {
    if ps == [] {
      assert Scope(k.sig.Keys, env, ps) == env.Keys + k.sig.Keys;
      StmtsFine(k, fuel, body, env, args, tr);
    } else if args != [] {
      var env' := env[ps[0] := args[0]];
      assert Scope(k.sig.Keys, env', ps[1..]) == Scope(k.sig.Keys, env, ps) by { assert ps == [ps[0]] + ps[1..]; }
      ApplyFine(k, fuel, ps[1..], body, env', args[1..], tr);
    }
  }

  lemma {:induction false} EnterFine(k: SContext, fuel: nat, f: SVal, args: seq<SVal>, tr: Trace)
    requires Here(k, map[]) && Sound(k.sig.Keys, f) && SoundAll(k.sig.Keys, args)
    ensures Fine(k.sig.Keys, SEnter(k, fuel, f, args, tr))
    decreases fuel, 0
  {
    if f.SClosure? && fuel > 0 {
      ApplyFine(k, fuel - 1, f.params, f.body, f.env, args, tr);
    } else if f.SKnot? && f.index < |f.knot.defs| && fuel > 0 {
      var d, env := f.knot.defs[f.index], Tie(f.knot, |f.knot.defs|);
      KnotSound(k.sig.Keys, f.knot, f.index);
      ApplyFine(k, fuel - 1, d.params, d.body, env, args, tr);
    }
  }

  /** A sound stretch's blocks are sound in the scope of all of them. */
  lemma KnotSound(sg: set<Name>, knot: Knot, i: nat)
    requires i < |knot.defs| && Sound(sg, SKnot(knot, i))
    ensures var d, env := knot.defs[i], Tie(knot, |knot.defs|);
            SoundEnv(sg, env) && AdmittedStmts(d.body, Scope(sg, env, d.params)) && OrderlyStmts(d.body)
  {
    var env := Tie(knot, |knot.defs|);
    TieKeys(knot, |knot.defs|);
    TieSound(sg, knot, |knot.defs|);
    assert knot.env.Keys + sg + DefNames(knot.defs) == env.Keys + sg;
    DefSound(knot.defs, env.Keys + sg, i);
  }

  lemma {:induction false} TieSound(sg: set<Name>, knot: Knot, n: nat)
    requires n <= |knot.defs| && SoundEnv(sg, knot.env)
    requires AdmittedDefs(knot.defs, knot.env.Keys + sg + DefNames(knot.defs)) && OrderlyDefs(knot.defs)
    ensures SoundEnv(sg, Tie(knot, n))
  {
    if n > 0 { TieSound(sg, knot, n - 1); }
  }

  lemma {:induction false} DefSound(defs: seq<Def>, bound: set<Name>, i: nat)
    requires i < |defs| && AdmittedDefs(defs, bound) && OrderlyDefs(defs)
    ensures AdmittedStmts(defs[i].body, bound + Params(defs[i].params)) && OrderlyStmts(defs[i].body)
  {
    if i > 0 { DefSound(defs[1..], bound, i - 1); }
  }

  lemma {:induction false} MeetFine(k: SContext, fuel: nat, t: STerminal, args: seq<SVal>, tr: Trace)
    requires Here(k, map[]) && SoundTerminal(k.sig.Keys, t) && SoundAll(k.sig.Keys, args)
    ensures Fine(k.sig.Keys, SMeet(k, fuel, t, args, tr))
    decreases fuel, 0
  {
    if t.SPartial? && args != [] && fuel > 0 { ApplyFine(k, fuel - 1, t.params, t.body, t.env, args, tr); }
  }

  lemma LookupSound(k: SContext, env: SEnv, x: Name)
    requires Here(k, env)
    ensures SLookup(k, env, x).Some? ==> Sound(k.sig.Keys, SLookup(k, env, x).value)
  {
  }

  lemma {:induction false} TryFine(k: SContext, fuel: nat, f: SVal, g: SVal, args: seq<SVal>, tr: Trace)
    requires Here(k, map[]) && Sound(k.sig.Keys, f) && Sound(k.sig.Keys, g) && SoundAll(k.sig.Keys, args)
    ensures Fine(k.sig.Keys, STry(k, fuel, f, g, args, tr))
    decreases fuel, 1
  {
    EnterFine(k, fuel, f, [], tr);
    match SEnter(k, fuel, f, [], tr)
    case SDone(t, tr1) => MeetFine(k, fuel, t, args, tr1);
    case SFailed(e, tr1) =>
      ErrorSound(k.sig.Keys, e);
      EnterFine(k, fuel, g, [SErrorValue(e)] + args, tr1);
    case _ =>
  }

  lemma {:induction false} CommandFine(k: SContext, fuel: nat, x: Name, external: bool, vs: seq<SVal>, env: SEnv, args: seq<SVal>, tr: Trace)
    requires Here(k, env) && SoundAll(k.sig.Keys, vs) && SoundAll(k.sig.Keys, args)
    ensures Fine(k.sig.Keys, SCall(k, fuel, x, external, vs, env, args, tr))
    decreases fuel, 1
  {
    OperateFine(k, if external then External(Bare(x)) else Named(Bare(x)), vs, args, tr);
    LookupSound(k, env, x);
    var f := SLookup(k, env, x);
    if !external && f.Some? { EnterFine(k, fuel, f.value, vs + args, tr); }
  }

  // ── Branches ─────────────────────────────────────────────────────────────

  lemma {:induction false} ArmFine(k: SContext, fuel: nat, a: ArmAst, env: SEnv, args: seq<SVal>, tr: Trace)
    requires Here(k, env) && AdmittedArm(a, env.Keys + k.sig.Keys) && OrderlyArm(a) && SoundAll(k.sig.Keys, args)
    ensures Fine(k.sig.Keys, SArm(k, fuel, a, env, args, tr))
    decreases fuel, 2, a, 0
  {
    match a
    case ArmBlock(body) => if fuel > 0 { StmtsFine(k, fuel - 1, body, env, args, tr); }
    case ArmName(x) =>
      LookupSound(k, env, x);
      var f := SLookup(k, env, x);
      if f.Some? { EnterFine(k, fuel, f.value, args, tr); }
  }

  lemma {:induction false} LoneArmFine(k: SContext, fuel: nat, a: ArmAst, env: SEnv, args: seq<SVal>, tr: Trace)
    requires Here(k, env) && AdmittedArm(a, env.Keys + k.sig.Keys) && OrderlyArm(a) && SoundAll(k.sig.Keys, args)
    ensures Fine(k.sig.Keys, SLoneArm(k, fuel, a, env, args, tr))
    decreases fuel, 2, a, 1
  {
    if fuel > 0 {
      match a
      case ArmBlock(body) => StmtsFine(k, fuel - 1, body, env, [], tr);
      case ArmName(_) => ArmFine(k, fuel - 1, a, env, [], tr);
    }
  }

  lemma {:induction false} ChainFine(k: SContext, fuel: nat, r: Chain, env: SEnv, args: seq<SVal>, tr: Trace)
    requires Here(k, env) && AdmittedChain(r, env.Keys + k.sig.Keys) && OrderlyChain(r) && SoundAll(k.sig.Keys, args)
    ensures Fine(k.sig.Keys, SChain(k, fuel, r, env, args, tr))
    decreases fuel, 2, r, 0
  {
    match r
    case NoElse =>
    case Else(a) => ArmFine(k, fuel, a, env, args, tr);
    case ElseIf(c, a, r1) =>
      if fuel > 0 {
        ValueFine(k, fuel - 1, c, env, tr);
        var s := AsValue(SEval(k, fuel - 1, c, env, [], tr));
        if s.Ran? && s.value.SBool? {
          if s.value.b { ArmFine(k, fuel - 1, a, env, args, s.tr); } else { ChainFine(k, fuel - 1, r1, env, args, s.tr); }
        }
      }
  }

  // ── Expressions ──────────────────────────────────────────────────────────

  ghost predicate Ready(k: SContext, e: Ast, env: SEnv) {
    Here(k, env) && Admitted(e, env.Keys + k.sig.Keys) && Orderly(e)
  }

  lemma {:induction false} ValueFine(k: SContext, fuel: nat, e: Ast, env: SEnv, tr: Trace)
    requires Ready(k, e, env)
    ensures FineVal(k.sig.Keys, AsValue(SEval(k, fuel, e, env, [], tr)))
    decreases fuel, 2, e, 2
  {
    EvalFine(k, fuel, e, env, [], tr);
  }

  lemma {:induction false} ValuesFine(k: SContext, fuel: nat, es: seq<Ast>, env: SEnv, tr: Trace)
    requires Here(k, env) && AdmittedAll(es, env.Keys + k.sig.Keys) && OrderlyAll(es)
    ensures FineVals(k.sig.Keys, SOperands(k, fuel, es, env, tr))
    decreases fuel, 2, es, 0
  {
    if es != [] {
      ValueFine(k, fuel, es[0], env, tr);
      var r := AsValue(SEval(k, fuel, es[0], env, [], tr));
      if r.Ran? { ValuesFine(k, fuel, es[1..], env, r.tr); }
    }
  }

  lemma {:induction false} CallFine(k: SContext, fuel: nat, e: Ast, env: SEnv, args: seq<SVal>, tr: Trace)
    requires e.ACall? && Ready(k, e, env) && SoundAll(k.sig.Keys, args)
    ensures Fine(k.sig.Keys, SEval(k, fuel, e, env, args, tr))
    decreases fuel, 2, e, 0
  {
    assert AdmittedHead(e.head, env.Keys + k.sig.Keys);
    if e.head.HValue? {
      ValueFine(k, fuel, e.head.e, env, tr);
      var f := AsValue(SEval(k, fuel, e.head.e, env, [], tr));
      if f.Ran? {
        ValuesFine(k, fuel, e.args, env, f.tr);
        var vs := SOperands(k, fuel, e.args, env, f.tr);
        if vs.Ran? { EnterFine(k, fuel, f.value, vs.value + args, vs.tr); }
      }
    } else {
      ValuesFine(k, fuel, e.args, env, tr);
      var vs := SOperands(k, fuel, e.args, env, tr);
      if vs.Ran? { CommandFine(k, fuel, e.head.x, e.head.HExternal?, vs.value, env, args, vs.tr); }
    }
  }

  lemma {:induction false} IndexFine(k: SContext, fuel: nat, e: Ast, env: SEnv, args: seq<SVal>, tr: Trace)
    requires e.AIndex? && Ready(k, e, env) && SoundAll(k.sig.Keys, args)
    ensures Fine(k.sig.Keys, SEval(k, fuel, e, env, args, tr))
    decreases fuel, 2, e, 0
  {
    ValueFine(k, fuel, e.target, env, tr);
    var v := AsValue(SEval(k, fuel, e.target, env, [], tr));
    if v.Ran? { ReadsFine(k, fuel, v.value, e.keys, env, args, v.tr); }
  }

  lemma {:induction false} BinaryFine(k: SContext, fuel: nat, e: Ast, env: SEnv, args: seq<SVal>, tr: Trace)
    requires e.ABinary? && Ready(k, e, env) && SoundAll(k.sig.Keys, args)
    ensures Fine(k.sig.Keys, SEval(k, fuel, e, env, args, tr))
    decreases fuel, 2, e, 0
  {
    ValueFine(k, fuel, e.l, env, tr);
    var a := AsValue(SEval(k, fuel, e.l, env, [], tr));
    if a.Ran? { ValueFine(k, fuel, e.r, env, a.tr); }
  }

  lemma {:induction false} JunctionFine(k: SContext, fuel: nat, e: Ast, env: SEnv, args: seq<SVal>, tr: Trace)
    requires e.AJunction? && Ready(k, e, env) && SoundAll(k.sig.Keys, args)
    ensures Fine(k.sig.Keys, SEval(k, fuel, e, env, args, tr))
    decreases fuel, 2, e, 0
  {
    ValueFine(k, fuel, e.l, env, tr);
    var a := AsValue(SEval(k, fuel, e.l, env, [], tr));
    if a.Ran? && fuel > 0 { EvalFine(k, fuel - 1, e.r, env, args, a.tr); }
  }

  lemma {:induction false} IfFine(k: SContext, fuel: nat, e: Ast, env: SEnv, args: seq<SVal>, tr: Trace)
    requires e.AIf? && Ready(k, e, env) && SoundAll(k.sig.Keys, args)
    ensures Fine(k.sig.Keys, SEval(k, fuel, e, env, args, tr))
    decreases fuel, 2, e, 0
  {
    ValueFine(k, fuel, e.cond, env, tr);
    var c := AsValue(SEval(k, fuel, e.cond, env, [], tr));
    if c.Ran? {
      ArmFine(k, fuel, e.arm, env, args, c.tr);
      LoneArmFine(k, fuel, e.arm, env, args, c.tr);
      ChainFine(k, fuel, e.rest, env, args, c.tr);
    }
  }

  lemma {:induction false} TriedFine(k: SContext, fuel: nat, e: Ast, env: SEnv, args: seq<SVal>, tr: Trace)
    requires e.ATry? && Ready(k, e, env) && SoundAll(k.sig.Keys, args)
    ensures Fine(k.sig.Keys, SEval(k, fuel, e, env, args, tr))
    decreases fuel, 2, e, 0
  {
    ValueFine(k, fuel, e.tried, env, tr);
    var f := AsValue(SEval(k, fuel, e.tried, env, [], tr));
    if f.Ran? {
      ValueFine(k, fuel, e.handler, env, f.tr);
      var g := AsValue(SEval(k, fuel, e.handler, env, [], f.tr));
      if g.Ran? { TryFine(k, fuel, f.value, g.value, args, g.tr); }
    }
  }

  lemma LeafFine(k: SContext, fuel: nat, e: Ast, env: SEnv, args: seq<SVal>, tr: Trace)
    requires e.AUnit? || e.AStr? || e.AInt? || e.ABool? || e.AVar? || e.ABlock? || e.ALambda?
    requires Ready(k, e, env)
    ensures Fine(k.sig.Keys, SEval(k, fuel, e, env, args, tr))
  {
    if e.AVar? { LookupSound(k, env, e.x); }
    if e.ABlock? { assert Scope(k.sig.Keys, env, []) == env.Keys + k.sig.Keys; }
  }

  /** Orderly code in scope is never disturbed. */
  lemma {:induction false} EvalFine(k: SContext, fuel: nat, e: Ast, env: SEnv, args: seq<SVal>, tr: Trace)
    requires Ready(k, e, env) && SoundAll(k.sig.Keys, args)
    ensures Fine(k.sig.Keys, SEval(k, fuel, e, env, args, tr))
    decreases fuel, 2, e, 1
  {
    match e
    case AForce(d) =>
      ValueFine(k, fuel, d, env, tr);
      var f := AsValue(SEval(k, fuel, d, env, [], tr));
      if f.Ran? { EnterFine(k, fuel, f.value, args, f.tr); }
    case ACall(_, _) => CallFine(k, fuel, e, env, args, tr);
    case AReturn(d) => ValueFine(k, fuel, d, env, tr);
    case AList(es) => ValuesFine(k, fuel, es, env, tr);
    case AIndex(_, _) => IndexFine(k, fuel, e, env, args, tr);
    case ABinary(_, _, _) => BinaryFine(k, fuel, e, env, args, tr);
    case ANot(d) => ValueFine(k, fuel, d, env, tr);
    case AJunction(_, _, _) => JunctionFine(k, fuel, e, env, args, tr);
    case AIf(_, _, _) => IfFine(k, fuel, e, env, args, tr);
    case ATry(_, _) => TriedFine(k, fuel, e, env, args, tr);
    case _ => LeafFine(k, fuel, e, env, args, tr);
  }

  lemma {:induction false} StmtsFine(k: SContext, fuel: nat, ss: seq<Stmt>, env: SEnv, args: seq<SVal>, tr: Trace)
    requires Here(k, env) && AdmittedStmts(ss, env.Keys + k.sig.Keys) && OrderlyStmts(ss) && SoundAll(k.sig.Keys, args)
    ensures Fine(k.sig.Keys, SStmts(k, fuel, ss, env, args, tr))
    decreases fuel, 2, ss, 0
  {
    if ss != [] && ss[0].SDefs? {
      var knot := Knot(ss[0].defs, env);
      TieKeys(knot, |knot.defs|);
      assert env.Keys + k.sig.Keys + DefNames(knot.defs) == Tie(knot, |knot.defs|).Keys + k.sig.Keys;
      TieSound(k.sig.Keys, knot, |knot.defs|);
      StmtsFine(k, fuel, ss[1..], Tie(knot, |knot.defs|), args, tr);
    } else if ss != [] {
      assert ss[0].e < ss[0];
      if |ss| == 1 && ss[0].SDo? {
        EvalFine(k, fuel, ss[0].e, env, args, tr);
      } else {
        ValueFine(k, fuel, ss[0].e, env, tr);
        var v := AsValue(SEval(k, fuel, ss[0].e, env, [], tr));
        if v.Ran? { NextFine(k, fuel, ss, v.value, env, args, v.tr); }
      }
    }
  }

  lemma {:induction false} NextFine(k: SContext, fuel: nat, ss: seq<Stmt>, v: SVal, env: SEnv, args: seq<SVal>, tr: Trace)
    requires ss != [] && !ss[0].SDefs? && Here(k, env) && AdmittedStmts(ss, env.Keys + k.sig.Keys) && OrderlyStmts(ss)
    requires Sound(k.sig.Keys, v) && SoundAll(k.sig.Keys, args)
    ensures Fine(k.sig.Keys, SStmts(k, fuel, ss[1..], if ss[0].SLet? then env[ss[0].x := v] else env, args, tr))
    decreases fuel, 2, ss[1..], 1
  {
    var env' := if ss[0].SLet? then env[ss[0].x := v] else env;
    if ss[0].SLet? { assert env.Keys + k.sig.Keys + {ss[0].x} == env'.Keys + k.sig.Keys; }
    StmtsFine(k, fuel, ss[1..], env', args, tr);
  }
}
