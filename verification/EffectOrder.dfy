/** What hoisting promises: the same effects in the same order, temporaries that
    capture nothing, and no effect of an arm the condition does not pick. */
module EffectOrder {
  import opened Ir
  import opened Evaluator
  import opened Wrappers
  import opened Surface
  import opened Elaborator
  import opened Elaborated
  import opened Denotation
  import opened Hoisting
  import opened Pending
  import opened ReadOrder
  import opened OrderCheck
  import Temporaries

  // ── Meaning ──────────────────────────────────────────────────────────────

  /** An operand's bindings, run around its value term, give the trace, failure
      and value of evaluating it with the keys of every read ahead of the read. */
  lemma HoistingRunsKeysFirst(sk: SContext, k: Context, fuel: nat, e: Ast, bound: set<Name>, n: nat, senv: SEnv, env: Env, tr: Trace)
    requires Worlds(sk, k) && Admitted(e, bound)
    requires EnvR(k.sig.Keys, Uses(e), senv, env) && InScope(k.sig.Keys, bound, Uses(e), senv)
    ensures var l := HoistVal(Elab(e, bound, n));
            OR(k.sig.Keys, SettleRan(AsValue(SEval(sk, fuel, e, senv, [], tr)), []), Eval(k, fuel, WrapBinds(l.binds, Return(l.v)), env, [], tr))
  {
    hide Eval, SEval, Elab;
    var l := HoistVal(Elab(e, bound, n));
    OperandAlike(sk, k, fuel, e, bound, n, senv, env, tr);
    WrapRuns(k, fuel, l.binds, Return(l.v), env, [], tr);
    var s, p := AsValue(SEval(sk, fuel, e, senv, [], tr)), RunBinds(k, fuel, l.binds, env, tr);
    if s.Ran? {
      DenotesForms(k, l.next, l.v, s.value, p.env);
      ReturnRuns(k, fuel, Return(l.v), p.env, [], p.tr);
    }
  }

  /** And those of evaluating it exactly as it is written, wherever no read fails
      ahead of a key that would be felt. */
  lemma HoistingPreservesMeaning(sk: SContext, k: Context, fuel: nat, e: Ast, bound: set<Name>, n: nat, senv: SEnv, env: Env, tr: Trace)
    requires Worlds(Late(sk), k) && Admitted(e, bound)
    requires EnvR(k.sig.Keys, Uses(e), senv, env) && InScope(k.sig.Keys, bound, Uses(e), senv)
    requires Undisturbed(SEval(Watch(sk), fuel, e, senv, [], tr))
    ensures var l := HoistVal(Elab(e, bound, n));
            OR(k.sig.Keys, SettleRan(AsValue(SEval(Direct(sk), fuel, e, senv, [], tr)), []), Eval(k, fuel, WrapBinds(l.binds, Return(l.v)), env, [], tr))
  {
    hide Eval, SEval, Elab, VR, EnvR, InScope;
    HoistingRunsKeysFirst(Late(sk), k, fuel, e, bound, n, senv, env, tr);
    ReadOrder.EvalAgrees(sk, fuel, e, senv, [], tr);
  }

  /** The two endings look the same from outside: one trace, one failure or exit
      code, and, where nothing is a closure, one value. */
  ghost predicate LooksAlike(s: SOutcome, o: Outcome) {
    match s
    case SDone(SPlain(v), tr) => o.Done? && o.t.Plain? && o.tr == tr && SObserve(v) == Observe(o.t.v)
    case SDone(SPartial(_, _, _), tr) => o.Done? && o.t.Lambda? && o.tr == tr
    case SFailed(e, tr) => o == Failed(e, tr)
    case SExited(code, tr) => o == Exited(code, tr)
    case SStarved(tr) => o == Starved(tr)
    case SDisturbed(_) => false
  }

  lemma RelatedLookAlike(sg: set<Name>, s: SOutcome, o: Outcome)
    requires OR(sg, s, o)
    ensures LooksAlike(s, o)
  {
    if s.SDone? && s.t.SPlain? { SeenAlike(sg, s.t.v, o.t.v); }
  }

  /** A chain of reads whose target and keys are themselves undisturbed: its code
      ends as it is written to if and only if no key after a failing read would
      be felt ahead of it. */
  lemma ReadsKeepTheirOrderIff(sk: SContext, k: Context, fuel: nat, e: Ast, bound: set<Name>, n: nat, senv: SEnv, env: Env, tr: Trace)
    requires Worlds(Late(sk), k) && e.AIndex? && Admitted(e, bound)
    requires EnvR(k.sig.Keys, Uses(e), senv, env) && InScope(k.sig.Keys, bound, Uses(e), senv)
    requires PartsUndisturbed(sk, fuel, e, senv, tr)
    ensures LooksAlike(SEval(Direct(sk), fuel, e, senv, [], tr), Eval(k, fuel, Code(e, bound, n), env, [], tr))
            <==> Undisturbed(SEval(Watch(sk), fuel, e, senv, [], tr))
  {
    WrappedAlike(Late(sk), k, fuel, e, bound, n, senv, [], env, [], tr);
    IndexAgreesIff(sk, fuel, e, senv, [], tr);
    RelatedLookAlike(k.sig.Keys, SEval(Late(sk), fuel, e, senv, [], tr), Eval(k, fuel, Code(e, bound, n), env, [], tr));
  }

  /** A whole program, from nothing, in every world, at every fuel, whether thunks
      keep all of their environment or only what they mention: it ends as the
      reading with keys first does; as it is written, unless a run is disturbed;
      and no run of an orderly program is. */
  lemma ElaboratedProgramsMeanWhatTheySay(world: (Trace, Event) -> Reply, mode: Mode, fuel: nat, program: seq<Stmt>)
    requires AdmittedStmts(program, {})
    ensures var o := Eval(Context(mode, map[], world), fuel, ElabStmts(program, {}, 0).comp, map[], [], []);
            && LooksAlike(SStmts(SContext(KeysFirst, map[], world), fuel, program, map[], [], []), o)
            && (Undisturbed(SStmts(SContext(Watched, map[], world), fuel, program, map[], [], [])) ==>
                  LooksAlike(SStmts(SContext(ReadByRead, map[], world), fuel, program, map[], [], []), o))
    ensures OrderlyStmts(program) ==> Undisturbed(SStmts(SContext(Watched, map[], world), fuel, program, map[], [], []))
  {
    var sk, k := SContext(KeysFirst, map[], world), Context(mode, map[], world);
    StmtsAlike(sk, k, fuel, program, {}, 0, map[], [], map[], [], []);
    RelatedLookAlike(k.sig.Keys, SStmts(sk, fuel, program, map[], [], []), Eval(k, fuel, ElabStmts(program, {}, 0).comp, map[], [], []));
    StmtsAgree(sk, fuel, program, map[], [], []);
    if OrderlyStmts(program) {
      var empty: SEnv := map[];
      assert empty.Keys + sk.sig.Keys == {};
      StmtsFine(Watch(sk), fuel, program, empty, [], []);
    }
  }

  // ── Guards ───────────────────────────────────────────────────────────────

  function Code(e: Ast, bound: set<Name>, n: nat): Comp {
    WrapBinds(Elab(e, bound, n).binds, Elab(e, bound, n).comp)
  }

  ghost predicate SameEffects(a: Outcome, b: Outcome) {
    && a.tr == b.tr
    && (a.Failed? <==> b.Failed?) && (a.Failed? && b.Failed? ==> a.e == b.e)
    && (a.Exited? <==> b.Exited?) && (a.Exited? && b.Exited? ==> a.code == b.code)
    && (a.Starved? <==> b.Starved?)
  }

  ghost predicate Runs(sk: SContext, k: Context, e: Ast, bound: set<Name>, senv: SEnv, env: Env) {
    Worlds(sk, k) && Admitted(e, bound) && EnvR(k.sig.Keys, Uses(e), senv, env) && InScope(k.sig.Keys, bound, Uses(e), senv)
  }

  lemma SameReading(sk: SContext, k: Context, fuel: nat, e: Ast, f: Ast, bound: set<Name>, n: nat, senv: SEnv, env: Env, tr: Trace)
    requires Runs(sk, k, e, bound, senv, env) && Runs(sk, k, f, bound, senv, env)
    requires SEval(sk, fuel, e, senv, [], tr) == SEval(sk, fuel, f, senv, [], tr)
    ensures SameEffects(Eval(k, fuel, Code(e, bound, n), env, [], tr), Eval(k, fuel, Code(f, bound, n), env, [], tr))
  {
    hide Eval, SEval, Elab;
    WrappedAlike(sk, k, fuel, e, bound, n, senv, [], env, [], tr);
    WrappedAlike(sk, k, fuel, f, bound, n, senv, [], env, [], tr);
    OneReading(k.sig.Keys, SEval(sk, fuel, e, senv, [], tr), Eval(k, fuel, Code(e, bound, n), env, [], tr), Eval(k, fuel, Code(f, bound, n), env, [], tr));
  }

  lemma OneReading(sg: set<Name>, s: SOutcome, a: Outcome, b: Outcome)
    requires OR(sg, s, a) && OR(sg, s, b)
    ensures SameEffects(a, b)
  {
  }

  /** Nothing of a branch the condition does not pick is run: the first arm, with
      or without an else part, or what follows it, may be anything, and the
      effects, the failure and the exit code stay. */
  lemma UntakenArmsAreSilent(sk: SContext, k: Context, fuel: nat, e: Ast, f: Ast, bound: set<Name>, n: nat, senv: SEnv, env: Env, tr: Trace)
    requires e.AIf? && f.AIf? && e.cond == f.cond && Runs(sk, k, e, bound, senv, env) && Runs(sk, k, f, bound, senv, env)
    requires var s := AsValue(SEval(sk, fuel, e.cond, senv, [], tr));
             s.Ran? && s.value.SBool? &&
             if s.value.b then e.arm == f.arm && !e.rest.NoElse? && !f.rest.NoElse? else e.rest == f.rest
    ensures SameEffects(Eval(k, fuel, Code(e, bound, n), env, [], tr), Eval(k, fuel, Code(f, bound, n), env, [], tr))
  {
    SameReading(sk, k, fuel, e, f, bound, n, senv, env, tr);
  }

  /** Nor of a junction's right side the left decides without. */
  lemma UndecidedSidesAreSilent(sk: SContext, k: Context, fuel: nat, e: Ast, f: Ast, bound: set<Name>, n: nat, senv: SEnv, env: Env, tr: Trace)
    requires e.AJunction? && f.AJunction? && e.or == f.or && e.l == f.l
    requires Runs(sk, k, e, bound, senv, env) && Runs(sk, k, f, bound, senv, env)
    requires AsValue(SEval(sk, fuel, e.l, senv, [], tr)).Ran? && AsValue(SEval(sk, fuel, e.l, senv, [], tr)).value == SBool(e.or)
    ensures SameEffects(Eval(k, fuel, Code(e, bound, n), env, [], tr), Eval(k, fuel, Code(f, bound, n), env, [], tr))
  {
    SameReading(sk, k, fuel, e, f, bound, n, senv, env, tr);
  }

  // ── Temporaries ──────────────────────────────────────────────────────────

  /** Strictly later temporaries in `(lo, hi]`, in order. */
  ghost predicate Fresh(bs: seq<Hoist>, lo: nat, hi: nat) {
    bs != [] ==> exists j: nat :: lo < j <= hi && bs[0].name == Temp(j) && Fresh(bs[1..], j, hi)
  }

  lemma {:induction false} FreshWider(bs: seq<Hoist>, lo: nat, hi: nat, lo': nat, hi': nat)
    requires Fresh(bs, lo, hi) && lo' <= lo && hi <= hi'
    ensures Fresh(bs, lo', hi')
  {
    if bs != [] {
      var j: nat :| lo < j <= hi && bs[0].name == Temp(j) && Fresh(bs[1..], j, hi);
      FreshWider(bs[1..], j, hi, j, hi');
    }
  }

  lemma FreshHead(bs: seq<Hoist>, lo: nat, hi: nat) returns (j: nat)
    requires bs != [] && Fresh(bs, lo, hi)
    ensures lo < j <= hi && bs[0].name == Temp(j) && Fresh(bs[1..], j, hi)
  {
    j :| lo < j <= hi && bs[0].name == Temp(j) && Fresh(bs[1..], j, hi);
  }

  lemma {:induction false} FreshAppend(a: seq<Hoist>, b: seq<Hoist>, lo: nat, mid: nat, hi: nat)
    requires Fresh(a, lo, mid) && Fresh(b, mid, hi) && lo <= mid <= hi
    ensures Fresh(a + b, lo, hi)
  {
    if a == [] {
      assert a + b == b;
      FreshWider(b, mid, hi, lo, hi);
    } else {
      var j := FreshHead(a, lo, mid);
      FreshAppend(a[1..], b, j, mid, hi);
      FreshCons(a, b, lo, j, hi);
    }
  }

  lemma FreshCons(a: seq<Hoist>, b: seq<Hoist>, lo: nat, j: nat, hi: nat)
    requires a != [] && lo < j <= hi && a[0].name == Temp(j) && Fresh(a[1..] + b, j, hi)
    ensures Fresh(a + b, lo, hi)
  {
    assert (a + b)[1..] == a[1..] + b;
  }

  lemma FreshOne(h: Hoist, lo: nat, j: nat)
    requires lo < j && h.name == Temp(j)
    ensures Fresh([h], lo, j)
  {
    assert Fresh([h][1..], j, j);
  }

  lemma {:induction false} OperandFresh(e: Ast, bound: set<Name>, n: nat)
    ensures Fresh(HoistVal(Elab(e, bound, n)).binds, n, HoistVal(Elab(e, bound, n)).next)
    decreases e, 2
  {
    var l := Elab(e, bound, n);
    ElabFresh(e, bound, n);
    if !l.comp.Return? {
      var h := Hoist(Temp(l.next + 1), l.comp);
      FreshOne(h, l.next, l.next + 1);
      FreshAppend(l.binds, [h], n, l.next, l.next + 1);
    }
  }

  lemma {:induction false} ValsFresh(es: seq<Ast>, bound: set<Name>, n: nat)
    ensures Fresh(ElabVals(es, bound, n).binds, n, ElabVals(es, bound, n).next)
    decreases es, 0
  {
    if es != [] {
      var a := HoistVal(Elab(es[0], bound, n));
      OperandFresh(es[0], bound, n);
      ValsFresh(es[1..], bound, a.next);
      var b := ElabVals(es[1..], bound, a.next);
      FreshAppend(a.binds, b.binds, n, a.next, b.next);
    }
  }

  lemma {:induction false} KeysFresh(ks: seq<KeyAst>, bound: set<Name>, n: nat)
    ensures Fresh(ElabKeys(ks, bound, n).binds, n, ElabKeys(ks, bound, n).next)
    decreases ks, 0
  {
    if ks != [] {
      var a := ElabKey(ks[0], bound, n);
      if ks[0].KData? {
        assert ks[0].e < ks[0];
        OperandFresh(ks[0].e, bound, n);
      }
      KeysFresh(ks[1..], bound, a.next);
      var b := ElabKeys(ks[1..], bound, a.next);
      FreshAppend(a.binds, b.binds, n, a.next, b.next);
    }
  }

  lemma {:induction false} ReadsFresh(target: Val, keys: seq<Key>, n: nat)
    requires keys != []
    ensures Fresh(LowerIndex(target, keys, n).binds, n, LowerIndex(target, keys, n).next)
    decreases |keys|
  {
    if |keys| > 1 {
      var h := Hoist(Temp(n + 1), Primitive(Index(target, keys[0])));
      var more := LowerIndex(Variable(Temp(n + 1)), keys[1..], n + 1);
      ReadsFresh(Variable(Temp(n + 1)), keys[1..], n + 1);
      FreshOne(h, n, n + 1);
      FreshAppend([h], more.binds, n, n + 1, more.next);
    }
  }

  lemma {:induction false} PairFresh(e: Ast, l: Ast, r: Ast, bound: set<Name>, n: nat)
    requires l < e && r < e
    ensures var a := HoistVal(Elab(l, bound, n)); var b := HoistVal(Elab(r, bound, a.next));
            Fresh(a.binds + b.binds, n, b.next)
    decreases e, 0
  {
    var a := HoistVal(Elab(l, bound, n));
    var b := HoistVal(Elab(r, bound, a.next));
    OperandFresh(l, bound, n);
    OperandFresh(r, bound, a.next);
    FreshAppend(a.binds, b.binds, n, a.next, b.next);
  }

  lemma {:induction false} CallFresh(e: Ast, bound: set<Name>, n: nat)
    requires e.ACall?
    ensures var l := Elab(e, bound, n); Fresh(l.binds, n, l.next)
    decreases e, 0
  {
    if e.head.HValue? {
      var f := HoistVal(Elab(e.head.e, bound, n));
      var vs := ElabVals(e.args, bound, f.next);
      OperandFresh(e.head.e, bound, n);
      ValsFresh(e.args, bound, f.next);
      FreshAppend(f.binds, vs.binds, n, f.next, vs.next);
    } else {
      ValsFresh(e.args, bound, n);
    }
  }

  lemma {:induction false} IndexFresh(e: Ast, bound: set<Name>, n: nat)
    requires e.AIndex?
    ensures var l := Elab(e, bound, n); Fresh(l.binds, n, l.next)
    decreases e, 0
  {
    var a := HoistVal(Elab(e.target, bound, n));
    var keys := ElabKeys(e.keys, bound, a.next);
    OperandFresh(e.target, bound, n);
    KeysFresh(e.keys, bound, a.next);
    if e.keys == [] {
      FreshAppend(a.binds, keys.binds, n, a.next, keys.next);
    } else {
      JoinedFresh(a.binds, keys.binds, a.v, keys.keys, n, a.next, keys.next);
    }
  }

  lemma JoinedFresh(a: seq<Hoist>, b: seq<Hoist>, target: Val, keys: seq<Key>, lo: nat, mid: nat, hi: nat)
    requires Fresh(a, lo, mid) && Fresh(b, mid, hi) && keys != [] && lo <= mid <= hi
    ensures var read := LowerIndex(target, keys, hi); Fresh(a + b + read.binds, lo, read.next)
  {
    var read := LowerIndex(target, keys, hi);
    ReadsFresh(target, keys, hi);
    FreshAppend(a, b, lo, mid, hi);
    FreshAppend(a + b, read.binds, lo, hi, read.next);
  }

  /** The bindings an expression leaves pending are named by strictly increasing
      temporaries made while it was elaborated, and by none inside its guards. */
  lemma {:induction false} ElabFresh(e: Ast, bound: set<Name>, n: nat)
    ensures Fresh(Elab(e, bound, n).binds, n, Elab(e, bound, n).next)
    decreases e, 1
  {
    match e
    case AForce(d) => OperandFresh(d, bound, n);
    case ACall(_, _) => CallFresh(e, bound, n);
    case AReturn(d) => OperandFresh(d, bound, n);
    case AList(es) => ValsFresh(es, bound, n);
    case AIndex(_, _) => IndexFresh(e, bound, n);
    case ABinary(_, l, r) => PairFresh(e, l, r, bound, n);
    case ANot(d) => OperandFresh(d, bound, n);
    case AJunction(_, l, r) =>
      OperandFresh(l, bound, n);
      var a := HoistVal(Elab(l, bound, n));
      FreshWider(a.binds, n, a.next, n, Elab(r, bound, a.next).next);
    case AIf(c, arm, r) =>
      var els := ElabChain(r, bound, n);
      var cond := HoistVal(Elab(c, bound, els.next));
      OperandFresh(c, bound, els.next);
      FreshWider(cond.binds, els.next, cond.next, n, ElabArm(arm, bound, cond.next).next);
    case ATry(b, h) => PairFresh(e, b, h, bound, n);
    case _ =>
  }

  lemma {:induction false} FreshNames(bs: seq<Hoist>, lo: nat, hi: nat)
    requires Fresh(bs, lo, hi)
    ensures forall i | 0 <= i < |bs| :: Synthetic(bs[i].name) && Old(bs[i].name, hi) && forall j: nat | j <= lo :: bs[i].name != Temp(j)
    ensures forall i, j | 0 <= i < j < |bs| :: bs[i].name != bs[j].name
  {
    if bs != [] {
      var m: nat :| lo < m <= hi && bs[0].name == Temp(m) && Fresh(bs[1..], m, hi);
      FreshNames(bs[1..], m, hi);
      TempsAreOld(m, hi);
      forall j: nat | j <= lo ensures bs[0].name != Temp(j) { if Temp(m) == Temp(j) { TempInjective(m, j); } }
      forall i | 0 <= i < |bs|
        ensures Synthetic(bs[i].name) && Old(bs[i].name, hi) && (forall j: nat | j <= lo :: bs[i].name != Temp(j))
        ensures i > 0 ==> bs[0].name != bs[i].name
      {
        if i > 0 { assert bs[i] == bs[1..][i - 1]; }
      }
      forall i, j | 0 <= i < j < |bs| ensures bs[i].name != bs[j].name {
        if i > 0 { assert bs[i] == bs[1..][i - 1] && bs[j] == bs[1..][j - 1]; }
      }
    }
  }

  /** Every temporary an expression makes is bound exactly once, whether in a binding
      left pending or folded inside an arm, a block or a group, and none made before
      or after is; those left pending are made in order, and none is spelt as a name
      of the source is. */
  lemma TemporariesCaptureNothing(e: Ast, bound: set<Name>, n: nat)
    requires Admitted(e, bound)
    ensures var l := Elab(e, bound, n);
            && (forall j: nat :: Temporaries.BindsC(l.comp, Temp(j)) + Temporaries.BindsHs(l.binds, Temp(j)) == if n < j <= l.next then 1 else 0)
            && Fresh(l.binds, n, l.next)
            && (forall i | 0 <= i < |l.binds| :: Synthetic(l.binds[i].name) && l.binds[i].name !in Uses(e))
            && (forall i, j | 0 <= i < j < |l.binds| :: l.binds[i].name != l.binds[j].name)
  {
    forall j: nat ensures Temporaries.BindsC(Elab(e, bound, n).comp, Temp(j)) + Temporaries.BindsHs(Elab(e, bound, n).binds, Temp(j))
                          == if n < j <= Elab(e, bound, n).next then 1 else 0 {
      Temporaries.ExprBinds(e, bound, n, j);
    }
    ElabFresh(e, bound, n);
    FreshNames(Elab(e, bound, n).binds, n, Elab(e, bound, n).next);
    SourceNames(e, bound);
  }

  /** A checked program spells no name only the compiler writes. */
  lemma {:induction false} SourceNames(e: Ast, bound: set<Name>)
    requires Admitted(e, bound)
    ensures forall x | x in Uses(e) :: !Synthetic(x)
    decreases e, 0
  {
    match e
    case ABlock(body) => SourceStmts(body, bound);
    case ALambda(ps, body) => SourceStmts(body, bound + Params(ps));
    case AForce(d) => SourceNames(d, bound);
    case ACall(h, es) =>
      if h.HValue? { SourceNames(h.e, bound); }
      SourceAll(es, bound);
    case AReturn(d) => SourceNames(d, bound);
    case AList(es) => SourceAll(es, bound);
    case AIndex(t, ks) => SourceNames(t, bound); SourceKeys(ks, bound);
    case ABinary(_, l, r) => SourceNames(l, bound); SourceNames(r, bound);
    case ANot(d) => SourceNames(d, bound);
    case AJunction(_, l, r) => SourceNames(l, bound); SourceNames(r, bound);
    case AIf(c, a, r) => SourceNames(c, bound); SourceArm(a, bound); SourceChain(r, bound);
    case ATry(b, h) => SourceNames(b, bound); SourceNames(h, bound);
    case _ =>
  }

  lemma {:induction false} SourceAll(es: seq<Ast>, bound: set<Name>)
    requires AdmittedAll(es, bound)
    ensures forall x | x in UsesAll(es) :: !Synthetic(x)
    decreases es, 0
  {
    if es != [] { SourceNames(es[0], bound); SourceAll(es[1..], bound); }
  }

  lemma {:induction false} SourceKeys(ks: seq<KeyAst>, bound: set<Name>)
    requires AdmittedKeys(ks, bound)
    ensures forall x | x in UsesKeys(ks) :: !Synthetic(x)
    decreases ks, 0
  {
    if ks != [] {
      if ks[0].KData? { assert ks[0].e < ks[0]; SourceNames(ks[0].e, bound); }
      SourceKeys(ks[1..], bound);
    }
  }

  lemma {:induction false} SourceArm(a: ArmAst, bound: set<Name>)
    requires AdmittedArm(a, bound)
    ensures forall x | x in UsesArm(a) :: !Synthetic(x)
    decreases a, 0
  {
    if a.ArmBlock? { SourceStmts(a.body, bound); }
  }

  lemma {:induction false} SourceChain(r: Chain, bound: set<Name>)
    requires AdmittedChain(r, bound)
    ensures forall x | x in UsesChain(r) :: !Synthetic(x)
    decreases r, 0
  {
    match r
    case NoElse =>
    case Else(a) => SourceArm(a, bound);
    case ElseIf(c, a, r1) => SourceNames(c, bound); SourceArm(a, bound); SourceChain(r1, bound);
  }

  lemma {:induction false} SourceStmts(ss: seq<Stmt>, bound: set<Name>)
    requires AdmittedStmts(ss, bound)
    ensures forall x | x in UsesStmts(ss) :: !Synthetic(x)
    decreases ss, 0
  {
    if ss != [] {
      if ss[0].SDefs? {
        SourceDefs(ss[0].defs, bound + DefNames(ss[0].defs));
        SourceStmts(ss[1..], bound + DefNames(ss[0].defs));
      } else {
        assert ss[0].e < ss[0];
        SourceNames(ss[0].e, bound);
        SourceStmts(ss[1..], if ss[0].SLet? then bound + {ss[0].x} else bound);
      }
    }
  }

  lemma {:induction false} SourceDefs(defs: seq<Def>, bound: set<Name>)
    requires AdmittedDefs(defs, bound)
    ensures forall x | x in UsesDefs(defs) :: !Synthetic(x)
    decreases defs, 0
  {
    if defs != [] {
      SourceStmts(defs[0].body, bound + Params(defs[0].params));
      SourceDefs(defs[1..], bound);
    }
  }

  // ── Why the scope check is needed ────────────────────────────────────────

  /** `[$x, ^c]`. */
  function Mixed(): Ast {
    AList([AVar("x"), ACall(HExternal("c"), [])])
  }

  const CALLED := Event(External(Bare("c")), [])

  const HELD := Hoist(Temp(1), Exec(External(Bare("c")), []))

  lemma CallHoists()
    ensures ElabVals([ACall(HExternal("c"), [])], {}, 0) == LoweredVals([Variable(Temp(1))], [HELD], 1)
  {
    var call := ACall(HExternal("c"), []);
    assert Elab(call, {}, 0) == Lowered(HELD.comp, [], 0) by { assert Slots([]) == []; }
    assert [call][1..] == [];
    assert [] + [HELD] == [HELD] && [HELD] + [] == [HELD];
  }

  lemma MixedVals()
    ensures ElabVals(Mixed().elems, {}, 0) == LoweredVals([Variable("x"), Variable(Temp(1))], [HELD], 1)
  {
    CallHoists();
    var es := Mixed().elems;
    assert es[0] == AVar("x") && es[1..] == [ACall(HExternal("c"), [])];
    assert [Variable("x")] + [Variable(Temp(1))] == [Variable("x"), Variable(Temp(1))];
  }

  lemma MixedCode()
    ensures Code(Mixed(), {}, 0) ==
            Bind(Exec(External(Bare("c")), []), Binder(Temp(1)), Return(ListVal([Variable("x"), Variable(Temp(1))])))
  {
    MixedVals();
    assert [HELD][1..] == [];
  }

  lemma MixedDirect(k: SContext, fuel: nat)
    requires k.sig == map[]
    ensures !Admitted(Mixed(), {}) && SEval(k, fuel, Mixed(), map[], [], []) == SFailed(Undefined("x"), [])
  {
    var es := Mixed().elems;
    assert es[0] == AVar("x");
    assert !Admitted(es[0], {});
    assert SEval(k, fuel, es[0], map[], [], []) == SFailed(Undefined("x"), []);
  }

  lemma MixedCall(k: Context, fuel: nat)
    requires k.world([], CALLED) == Yields(DUnit)
    ensures Eval(k, fuel, Exec(External(Bare("c")), []), map[], [], []) == Done(Plain(VUnit), [CALLED])
  {
    assert ObserveAll([]) == Some([]) && [] + [CALLED] == [CALLED];
  }

  lemma MixedRun(k: Context, fuel: nat, env: Env)
    requires k.sig == map[] && "x" !in env
    ensures Eval(k, fuel, Return(ListVal([Variable("x"), Variable(Temp(1))])), env, [], [CALLED]) == Failed(Undefined("x"), [CALLED])
  {
    var vs := [Variable("x"), Variable(Temp(1))];
    assert vs[0] == Variable("x");
    assert !AllNamesBound(vs, env) && FormAll(k, vs, env) == Malformed(Undefined("x"));
  }

  /** `[$x, ^c]` with `x` unbound: read where it stands, the name fails before
      `c` runs; elaborated, `c` is hoisted and runs before the list is formed.
      A program with an unbound name is refused before it is run. */
  lemma AnUnboundNameMovesPastAnEffect(world: (Trace, Event) -> Reply, mode: Mode, fuel: nat)
    requires world([], CALLED) == Yields(DUnit)
    ensures !Admitted(Mixed(), {})
    ensures SEval(SContext(KeysFirst, map[], world), fuel, Mixed(), map[], [], []) == SFailed(Undefined("x"), [])
    ensures Eval(Context(mode, map[], world), fuel, Code(Mixed(), {}, 0), map[], [], []) == Failed(Undefined("x"), [CALLED])
  {
    MixedDirect(SContext(KeysFirst, map[], world), fuel);
    MixedCode();
    var k := Context(mode, map[], world);
    MixedCall(k, fuel);
    var env: Env := map[Temp(1) := VUnit];
    assert "x" !in env by { assert Temp(1)[0] == '%'; }
    MixedRun(k, fuel, env);
  }

  // ── Why keys are checked ─────────────────────────────────────────────────

  /** `!{^c}`. */
  function Calling(): Ast {
    AForce(ABlock([SDo(ACall(HExternal("c"), []))]))
  }

  /** `$xs[9][!{^c}]`. */
  function Chained(): Ast {
    AIndex(AVar("xs"), [KPosition(9), KData(Calling())])
  }

  const XS: SEnv := map["xs" := SList([])]

  lemma CallingRuns(k: SContext, fuel: nat)
    requires fuel > 0 && k.world([], CALLED) == Yields(DUnit)
    ensures SEval(k, fuel, Calling(), XS, [], []) == SDone(SPlain(SUnit), [CALLED])
  {
    var call := ACall(HExternal("c"), []);
    assert SObserveAll([]) == Some([]) && [] + [CALLED] == [CALLED];
    assert SOperands(k, fuel - 1, [], XS, []) == Ran([], []);
    assert SEval(k, fuel - 1, call, XS, [], []) == SDone(SPlain(SUnit), [CALLED]);
    var body := [SDo(call)];
    assert SStmts(k, fuel - 1, body, XS, [], []) == SDone(SPlain(SUnit), [CALLED]);
    assert SApply(k, fuel - 1, [], body, XS, [], []) == SDone(SPlain(SUnit), [CALLED]);
    assert SEval(k, fuel, ABlock(body), XS, [], []) == SDone(SPlain(SClosure([], body, XS)), []);
    assert SEnter(k, fuel, SClosure([], body, XS), [], []) == SDone(SPlain(SUnit), [CALLED]);
  }

  lemma ChainedReadings(k: SContext, fuel: nat)
    requires fuel > 0 && k.world([], CALLED) == Yields(DUnit)
    ensures SEval(Direct(k), fuel, Chained(), XS, [], []) == SFailed(OutOfBounds(9, 0), [])
    ensures SEval(Late(k), fuel, Chained(), XS, [], []) == SFailed(OutOfBounds(9, 0), [CALLED])
  {
    var ks := Chained().keys;
    var rest := [KData(Calling())];
    assert ks[1..] == rest && rest[1..] == [];
    LateStep(Late(k), fuel, SList([]), ks, XS, [], []);
    assert SEval(Direct(k), fuel, AVar("xs"), XS, [], []) == SDone(SPlain(SList([])), []);
    assert SKeyOf(Direct(k), fuel, ks[0], XS, []) == Ran(SPosition(9), []);
    assert SReads(Direct(k), fuel, SList([]), ks, XS, [], []) == SFailed(OutOfBounds(9, 0), []);
    CallingRuns(Late(k), fuel);
    assert SKeys(Late(k), fuel, rest, XS, []) == Ran([SData(SUnit)], [CALLED]) by {
      assert SKeyOf(Late(k), fuel, rest[0], XS, []) == Ran(SData(SUnit), [CALLED]);
      assert [SData(SUnit)] + [] == [SData(SUnit)];
    }
  }

  lemma ChainedAdmitted()
    ensures Admitted(Chained(), {"xs"}) && Uses(Chained()) <= {"xs"}
  {
    var call := ACall(HExternal("c"), []);
    var ss := [SDo(call)];
    assert ss[1..] == [] && Admitted(call, {"xs"}) && AdmittedStmts(ss, {"xs"});
    assert Uses(call) == {} && UsesStmts(ss[1..]) == {};
    assert UsesStmts(ss) == Uses(call) + UsesStmts(ss[1..]);
    var ks, rest := Chained().keys, [KData(Calling())];
    assert ks[1..] == rest && rest[1..] == [] && rest[0].e == Calling();
    assert Admitted(ABlock(ss), {"xs"}) && Uses(ABlock(ss)) == {};
    assert Admitted(Calling(), {"xs"}) && Uses(Calling()) == {};
    assert AdmittedKeys(rest, {"xs"}) && UsesKeys(rest) == {};
    assert AdmittedKeys(ks, {"xs"}) && UsesKeys(ks) == {};
  }

  /** `$xs[9][!{^c}]` on an empty list: as written, the read of 9 fails and `c` is
      never run; elaborated, `c` runs first. */
  lemma AFailedReadRunsTheNextKeyFirst(world: (Trace, Event) -> Reply, mode: Mode, fuel: nat)
    requires fuel > 0 && world([], CALLED) == Yields(DUnit)
    ensures Admitted(Chained(), {"xs"})
    ensures SEval(SContext(ReadByRead, map[], world), fuel, Chained(), XS, [], []) == SFailed(OutOfBounds(9, 0), [])
    ensures Eval(Context(mode, map[], world), fuel, Code(Chained(), {"xs"}, 0), map["xs" := VBuilt([])], [], []) == Failed(OutOfBounds(9, 0), [CALLED])
  {
    hide Eval, SEval, Elab;
    var sk, k := SContext(KeysFirst, map[], world), Context(mode, map[], world);
    var env: Env := map["xs" := VBuilt([])];
    ChainedReadings(sk, fuel);
    ChainedAdmitted();
    assert VR({}, XS["xs"], env["xs"]);
    assert At(sk, k, Uses(Chained()), {"xs"}, XS, env);
    WrappedAlike(sk, k, fuel, Chained(), {"xs"}, 0, XS, [], env, [], []);
  }
}
