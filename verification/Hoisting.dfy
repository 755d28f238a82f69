/** Hoisting preserves meaning and the order of effects. */
module Hoisting {
  import opened Ir
  import opened Evaluator
  import opened Wrappers
  import opened Occurrence
  import opened Surface
  import opened Elaborator
  import opened Elaborated
  import opened Denotation
  import opened Pending
  import opened Knots

  // ── What is shown of operands and of expressions ─────────────────────────

  /** The bindings ran exactly as far as the operand did, with the same trace,
      and the value term left denotes its value. */
  ghost predicate OperandR(k: Context, n: nat, l: LoweredVal, s: Ran<SVal>, env: Env, p: Prefix) {
    match s
    case Ran(v, tr) => p.Reached? && p.tr == tr && Extends(env, p.env, n) && Denotes(k, l.next, l.v, v, p.env)
    case Stopped(o) => p.Ended? && OR(k.sig.Keys, o, p.o)
  }

  ghost predicate OperandsR(k: Context, n: nat, l: LoweredVals, s: Ran<seq<SVal>>, env: Env, p: Prefix) {
    match s
    case Ran(vs, tr) => p.Reached? && p.tr == tr && Extends(env, p.env, n) && DenotesAll(k, l.next, l.vs, vs, p.env)
    case Stopped(o) => p.Ended? && OR(k.sig.Keys, o, p.o)
  }

  ghost predicate DenotesKey(k: Context, hi: nat, key: Key, s: SKey, env: Env) {
    match key
    case Label(x) => s == SLabel(x)
    case Position(i) => s == SPosition(i)
    case Data(v) => s.SData? && Denotes(k, hi, v, s.v, env)
  }

  ghost predicate DenotesKeys(k: Context, hi: nat, keys: seq<Key>, ss: seq<SKey>, env: Env) {
    |keys| == |ss| && forall i | 0 <= i < |keys| :: DenotesKey(k, hi, keys[i], ss[i], env)
  }

  ghost predicate KeysR(k: Context, n: nat, l: LoweredKeys, s: Ran<seq<SKey>>, env: Env, p: Prefix) {
    match s
    case Ran(vs, tr) => p.Reached? && p.tr == tr && Extends(env, p.env, n) && DenotesKeys(k, l.next, l.keys, vs, p.env)
    case Stopped(o) => p.Ended? && OR(k.sig.Keys, o, p.o)
  }

  ghost predicate ExprR(k: Context, fuel: nat, n: nat, l: Lowered, s: SOutcome, env: Env, args: seq<Value>, tr: Trace) {
    var p := RunBinds(k, fuel, l.binds, env, tr);
    && (p.Reached? ==> Extends(env, p.env, n))
    && OR(k.sig.Keys, s, Finish(k, fuel, p, l.comp, args))
  }

  /** The facts every step needs of where it runs. */
  ghost predicate At(sk: SContext, k: Context, uses: set<Name>, bound: set<Name>, senv: SEnv, env: Env) {
    && Worlds(sk, k)
    && EnvR(k.sig.Keys, uses, senv, env)
    && InScope(k.sig.Keys, bound, uses, senv)
  }

  lemma AtLater(sk: SContext, k: Context, uses: set<Name>, bound: set<Name>, senv: SEnv, e: Env, f: Env, hi: nat)
    requires At(sk, k, uses, bound, senv, e) && Extends(e, f, hi)
    ensures At(sk, k, uses, bound, senv, f)
  {
    EnvRExtends(k.sig.Keys, uses, senv, e, f, hi);
  }

  // ── Calls and operations ─────────────────────────────────────────────────

  lemma SettleAlike(sg: set<Name>, s: Formed<SVal>, v: Formed<Value>, sargs: seq<SVal>, args: seq<Value>, tr: Trace)
    requires VRs(sg, sargs, args)
    requires s.Formed? ==> v.Formed? && VR(sg, s.value, v.value)
    requires s.Malformed? ==> v == Malformed(s.e)
    ensures OR(sg, SSettle(s, sargs, tr), Settle(v, args, tr))
  {
  }

  lemma OperateAlike(sk: SContext, k: Context, word: CommandWord, ss: seq<SVal>, vs: seq<Value>, sargs: seq<SVal>, args: seq<Value>, tr: Trace)
    requires Worlds(sk, k) && VRs(k.sig.Keys, ss, vs) && VRs(k.sig.Keys, sargs, args)
    ensures OR(k.sig.Keys, SOperate(sk, word, ss, sargs, tr), Operate(k, word, vs, args, tr))
  {
    SeenAllAlike(k.sig.Keys, ss, vs);
    var ds := ObserveAll(vs);
    if ds.Some? && k.world(tr, Event(word, ds.value)).Yields? {
      DatumAlike(k.sig.Keys, k.world(tr, Event(word, ds.value)).d);
    }
  }

  lemma LookupAlike(sk: SContext, k: Context, uses: set<Name>, senv: SEnv, env: Env, x: Name)
    requires Worlds(sk, k) && EnvR(k.sig.Keys, uses, senv, env) && x in uses && !Synthetic(x)
    ensures SLookup(sk, senv, x).Some? == Lookup(k, env, x).Some?
    ensures SLookup(sk, senv, x).Some? ==> VR(k.sig.Keys, SLookup(sk, senv, x).value, Lookup(k, env, x).value)
  {
  }

  lemma {:induction false} ApplyAlike(sk: SContext, k: Context, fuel: nat, ps: seq<Name>, body: seq<Stmt>, senv: SEnv, sargs: seq<SVal>,
                                      c: Comp, bound: set<Name>, n: nat, env: Env, args: seq<Value>, tr: Trace)
    requires At(sk, k, UsesCode(ps, body), bound, senv, env)
    requires IsCode(c, ps, body, bound, n) && VRs(k.sig.Keys, sargs, args)
    ensures OR(k.sig.Keys, SApply(sk, fuel, ps, body, senv, sargs, tr), Eval(k, fuel, c, env, args, tr))
    decreases fuel, 3, |ps|
  {
    if ps == [] {
      assert bound + Params(ps) == bound && UsesCode(ps, body) == UsesStmts(body);
      StmtsAlike(sk, k, fuel, body, bound, n, senv, sargs, env, args, tr);
    } else if args == [] {
      assert c.Lam? && IsCode(Lam(c.param, c.body), ps, body, bound, n);
    } else {
      var bound' := InnerCode(c, ps, body, bound, n);
      assert UsesCode(ps[1..], body) - {ps[0]} <= UsesCode(ps, body) by { assert ps == [ps[0]] + ps[1..]; }
      AtFewer(sk, k, UsesCode(ps, body), UsesCode(ps[1..], body) - {ps[0]}, bound, senv, env);
      AtBound(sk, k, UsesCode(ps[1..], body), bound, senv, env, ps[0], sargs[0], args[0]);
      ApplyAlike(sk, k, fuel, ps[1..], body, senv[ps[0] := sargs[0]], sargs[1..], c.body, bound', n, env[ps[0] := args[0]], args[1..], tr);
      LamRuns(k, fuel, c, env, args, tr);
    }
  }

  /** A lambda's code past its first parameter. */
  lemma InnerCode(c: Comp, ps: seq<Name>, body: seq<Stmt>, bound: set<Name>, n: nat) returns (inner: set<Name>)
    requires ps != [] && IsCode(c, ps, body, bound, n)
    ensures c.Lam? && c.param == ps[0] && inner == bound + {ps[0]} && IsCode(c.body, ps[1..], body, inner, n)
  {
    inner := bound + {ps[0]};
    assert inner + Params(ps[1..]) == bound + Params(ps) by { assert ps == [ps[0]] + ps[1..]; }
  }

  lemma LamRuns(k: Context, fuel: nat, c: Comp, env: Env, args: seq<Value>, tr: Trace)
    requires c.Lam? && args != []
    ensures Eval(k, fuel, c, env, args, tr) == Eval(k, fuel, c.body, env[c.param := args[0]], args[1..], tr)
  {
  }

  lemma {:induction false} CodedAlike(sk: SContext, k: Context, fuel: nat, ps: seq<Name>, body: seq<Stmt>, senv: SEnv, sargs: seq<SVal>,
                                      c: Comp, env: Env, args: seq<Value>, tr: Trace)
    requires Worlds(sk, k) && Coded(k.sig.Keys, c, ps, body, senv) && EnvR(k.sig.Keys, UsesCode(ps, body), senv, env)
    requires VRs(k.sig.Keys, sargs, args)
    ensures OR(k.sig.Keys, SApply(sk, fuel, ps, body, senv, sargs, tr), Eval(k, fuel, c, env, args, tr))
    decreases fuel, 4
  {
    var bound, n :| IsCode(c, ps, body, bound, n) && InScope(k.sig.Keys, bound, UsesCode(ps, body), senv);
    ApplyAlike(sk, k, fuel, ps, body, senv, sargs, c, bound, n, env, args, tr);
  }

  lemma {:induction false} EnterAlike(sk: SContext, k: Context, fuel: nat, s: SVal, v: Value, sargs: seq<SVal>, args: seq<Value>, tr: Trace)
    requires Worlds(sk, k) && VR(k.sig.Keys, s, v) && VRs(k.sig.Keys, sargs, args)
    ensures OR(k.sig.Keys, SEnter(sk, fuel, s, sargs, tr), Enter(k, fuel, v, args, tr))
    decreases fuel, 0
  {
    hide SApply, Eval, Surrounds, KnotCode, Coded, IsCode, InScope, Tie;
    ThunksAlike(k.sig.Keys, s, v);
    if fuel > 0 {
      if s.SClosure? {
        CodedAlike(sk, k, fuel - 1, s.params, s.body, s.env, sargs, v.comp, v.env, args, tr);
      } else if s.SKnot? {
        KnotAlike(sk, k, fuel - 1, s.knot, s.index, v, sargs, args, tr);
      }
    }
  }

  /** What can be entered on one side can be on the other. */
  lemma ThunksAlike(sg: set<Name>, s: SVal, v: Value)
    requires VR(sg, s, v)
    ensures v.VThunk? <==> s.SClosure? || (s.SKnot? && s.index < |s.knot.defs|)
    ensures s.SClosure? ==> Coded(sg, v.comp, s.params, s.body, s.env) && EnvR(sg, UsesCode(s.params, s.body), s.env, v.env)
    ensures s.SKnot? ==> s.index < |s.knot.defs| && Unrepeated(s.knot.defs) && KnotR(sg, s.knot, s.index, v)
  {
  }

  /** A block of a stretch, alone in its component or in its group. */
  lemma {:induction false} KnotAlike(sk: SContext, k: Context, fuel: nat, knot: Knot, i: nat, v: Value, sargs: seq<SVal>, args: seq<Value>, tr: Trace)
    requires Worlds(sk, k) && i < |knot.defs| && Unrepeated(knot.defs) && KnotR(k.sig.Keys, knot, i, v) && VRs(k.sig.Keys, sargs, args)
    ensures OR(k.sig.Keys, SApply(sk, fuel, knot.defs[i].params, knot.defs[i].body, Tie(knot, |knot.defs|), sargs, tr), Eval(k, fuel, v.comp, v.env, args, tr))
    decreases fuel, 5
  {
    var d := knot.defs[i];
    if Cyclic(knot.defs, Component(knot.defs, Rank(knot.defs, i))) {
      GroupEntered(k.sig.Keys, k.mode, knot, i, v);
      var g := v.comp.group;
      CodedAlike(sk, k, fuel, d.params, d.body, Tie(knot, |knot.defs|), sargs, g.shape[v.comp.index].body, Unfold(k.mode, g, v.env), args, tr);
      RecRuns(k, fuel, v.comp, v.env, args, tr);
    } else {
      LoneEntered(k.sig.Keys, knot, i, v);
      CodedAlike(sk, k, fuel, d.params, d.body, Tie(knot, |knot.defs|), sargs, v.comp, v.env, args, tr);
    }
  }

  lemma RecRuns(k: Context, fuel: nat, c: Comp, env: Env, args: seq<Value>, tr: Trace)
    requires c.Rec? && c.index < |c.group.shape|
    ensures Eval(k, fuel, c, env, args, tr) == Eval(k, fuel, c.group.shape[c.index].body, Unfold(k.mode, c.group, env), args, tr)
  {
  }

  lemma {:induction false} MeetAlike(sk: SContext, k: Context, fuel: nat, s: STerminal, t: Terminal, sargs: seq<SVal>, args: seq<Value>, tr: Trace)
    requires Worlds(sk, k) && TermR(k.sig.Keys, s, t) && VRs(k.sig.Keys, sargs, args)
    ensures OR(k.sig.Keys, SMeet(sk, fuel, s, sargs, tr), Meet(k, fuel, t, args, tr))
    decreases fuel, 0
  {
    if s.SPartial? && args != [] && fuel > 0 {
      CodedAlike(sk, k, fuel - 1, s.params, s.body, s.env, sargs, Lam(t.param, t.body), t.env, args, tr);
    }
  }

  /** Forcing a value term in hand enters what it denotes. */
  lemma {:induction false} ForceAlike(sk: SContext, k: Context, fuel: nat, hi: nat, v: Val, s: SVal, env: Env, sargs: seq<SVal>, args: seq<Value>, tr: Trace)
    requires Worlds(sk, k) && Denotes(k, hi, v, s, env) && VRs(k.sig.Keys, sargs, args)
    ensures OR(k.sig.Keys, SEnter(sk, fuel, s, sargs, tr), ForceVal(k, fuel, v, env, args, tr))
    decreases fuel, 1, 0
  {
    if v.Thunk? {
      if fuel > 0 { CodedAlike(sk, k, fuel - 1, s.params, s.body, s.env, sargs, v.thunk.shape, env, args, tr); }
    } else {
      DenotesForms(k, hi, v, s, env);
      EnterAlike(sk, k, fuel, s, Form(k, v, env).value, sargs, args, tr);
    }
  }

  lemma {:induction false} HandledAlike(sk: SContext, k: Context, fuel: nat, h: SVal, g: Value, so: SOutcome, o: Outcome, sargs: seq<SVal>, args: seq<Value>)
    requires Worlds(sk, k) && VR(k.sig.Keys, h, g) && VRs(k.sig.Keys, sargs, args) && OR(k.sig.Keys, so, o)
    ensures OR(k.sig.Keys, SAfterTry(sk, fuel, h, sargs, so), AfterTry(k, fuel, g, args, o))
    decreases fuel, 1, 1
  {
    hide VR, TermR, SMeet, Meet, SEnter, Enter, ErrorValue, SErrorValue;
    match so
    case SDone(t, tr1) => MeetAlike(sk, k, fuel, t, o.t, sargs, args, tr1);
    case SFailed(e, tr1) => CaughtAlike(sk, k, fuel, h, g, e, sargs, args, tr1);
    case _ =>
  }

  lemma {:induction false} CaughtAlike(sk: SContext, k: Context, fuel: nat, h: SVal, g: Value, e: Error, sargs: seq<SVal>, args: seq<Value>, tr: Trace)
    requires Worlds(sk, k) && VR(k.sig.Keys, h, g) && VRs(k.sig.Keys, sargs, args)
    ensures OR(k.sig.Keys, SEnter(sk, fuel, h, [SErrorValue(e)] + sargs, tr), Enter(k, fuel, g, [ErrorValue(e)] + args, tr))
    decreases fuel, 1, 0
  {
    ErrorAlike(k.sig.Keys, e);
    hide VR, OR, SEnter, Enter, ErrorValue, SErrorValue;
    EnterAlike(sk, k, fuel, h, g, [SErrorValue(e)] + sargs, [ErrorValue(e)] + args, tr);
  }

  /** What `try` does once its body has ended. */
  ghost function SAfterTry(k: SContext, fuel: nat, handler: SVal, args: seq<SVal>, o: SOutcome): SOutcome {
    match o
    case SDone(t, tr1) => SMeet(k, fuel, t, args, tr1)
    case SFailed(e, tr1) => SEnter(k, fuel, handler, [SErrorValue(e)] + args, tr1)
    case stopped => stopped
  }

  ghost function AfterTry(k: Context, fuel: nat, handler: Value, args: seq<Value>, o: Outcome): Outcome {
    match o
    case Done(t, tr1) => Meet(k, fuel, t, args, tr1)
    case Failed(e, tr1) => Enter(k, fuel, handler, [ErrorValue(e)] + args, tr1)
    case stopped => stopped
  }

  lemma {:induction false} TryAlike(sk: SContext, k: Context, fuel: nat, s: SVal, h: SVal, a: Val, b: Val, hi: nat, env: Env, sargs: seq<SVal>, args: seq<Value>, tr: Trace)
    requires Worlds(sk, k) && Denotes(k, hi, a, s, env) && Denotes(k, hi, b, h, env) && VRs(k.sig.Keys, sargs, args)
    ensures OR(k.sig.Keys, STry(sk, fuel, s, h, sargs, tr), EvalTry(k, fuel, a, b, env, args, tr))
    decreases fuel, 1, 2
  {
    assert DenotesAll(k, hi, [a, b], [s, h], env);
    hide VR, Denotes, SEnter, Enter, SMeet, Meet, FormAll, OR, TermR;
    FormAllDenotes(k, hi, [a, b], [s, h], env);
    var ws := FormAll(k, [a, b], env).value;
    EnterAlike(sk, k, fuel, s, ws[0], [], [], tr);
    var so, o := SEnter(sk, fuel, s, [], tr), Enter(k, fuel, ws[0], [], tr);
    assert STry(sk, fuel, s, h, sargs, tr) == SAfterTry(sk, fuel, h, sargs, so);
    assert EvalTry(k, fuel, a, b, env, args, tr) == AfterTry(k, fuel, ws[1], args, o);
    HandledAlike(sk, k, fuel, h, ws[1], so, o, sargs, args);
  }

  lemma ErrorAlike(sg: set<Name>, e: Error)
    ensures VR(sg, SErrorValue(e), ErrorValue(e))
  {
    var m := ErrorValue(e).fields.items[0];
    MessageAlike(sg, m);
  }

  lemma MessageAlike(sg: set<Name>, m: Value)
    requires m.VStr?
    ensures var r := VRecord(["message"], VBuilt([m]));
            Observe(r) == Some(DRecord(["message"], [DStr(m.s)])) && VR(sg, SFromDatum(DRecord(["message"], [DStr(m.s)])), r)
  {
    assert [m][1..] == [];
    assert ObserveAll([]) == Some([]);
    assert [m][0] == m && Observe(m) == Some(DStr(m.s)) && [DStr(m.s)] + [] == [DStr(m.s)];
    assert ObserveAll([m]) == Some([DStr(m.s)]);
    assert Observe(VBuilt([m])) == Some(DList([DStr(m.s)]));
    assert [DStr(m.s)][1..] == [];
    assert SFromData([DStr(m.s)]) == [SStr(m.s)];
  }

  // ── Statements ───────────────────────────────────────────────────────────

  lemma AtFewer(sk: SContext, k: Context, uses: set<Name>, fewer: set<Name>, bound: set<Name>, senv: SEnv, env: Env)
    requires At(sk, k, uses, bound, senv, env) && fewer <= uses
    ensures At(sk, k, fewer, bound, senv, env)
  {
  }

  lemma AtBound(sk: SContext, k: Context, uses: set<Name>, bound: set<Name>, senv: SEnv, env: Env, x: Name, s: SVal, v: Value)
    requires At(sk, k, uses - {x}, bound, senv, env) && VR(k.sig.Keys, s, v)
    ensures At(sk, k, uses, bound + {x}, senv[x := s], env[x := v])
  {
    hide VR;
  }

  lemma {:induction false} WrappedAlike(sk: SContext, k: Context, fuel: nat, e: Ast, bound: set<Name>, n: nat, senv: SEnv, sargs: seq<SVal>, env: Env, args: seq<Value>, tr: Trace)
    requires At(sk, k, Uses(e), bound, senv, env) && Admitted(e, bound) && VRs(k.sig.Keys, sargs, args)
    ensures var a := Elab(e, bound, n);
            OR(k.sig.Keys, SEval(sk, fuel, e, senv, sargs, tr), Eval(k, fuel, WrapBinds(a.binds, a.comp), env, args, tr))
    decreases fuel, 2, e, 4
  {
    var a := Elab(e, bound, n);
    ExprAlike(sk, k, fuel, e, bound, n, senv, sargs, env, args, tr);
    WrapRuns(k, fuel, a.binds, a.comp, env, args, tr);
  }

  lemma {:induction false} StmtsAlike(sk: SContext, k: Context, fuel: nat, ss: seq<Stmt>, bound: set<Name>, n: nat, senv: SEnv, sargs: seq<SVal>, env: Env, args: seq<Value>, tr: Trace)
    requires At(sk, k, UsesStmts(ss), bound, senv, env) && AdmittedStmts(ss, bound) && VRs(k.sig.Keys, sargs, args)
    ensures OR(k.sig.Keys, SStmts(sk, fuel, ss, senv, sargs, tr), Eval(k, fuel, ElabStmts(ss, bound, n).comp, env, args, tr))
    decreases fuel, 2, ss, 0
  {
    hide SEval, Elab;
    if ss != [] {
      if ss[0].SDefs? {
        StretchAlike(sk, k, fuel, ss, bound, n, senv, sargs, env, args, tr);
      } else {
        assert ss[0].e < ss[0];
        AtFewer(sk, k, UsesStmts(ss), Uses(ss[0].e), bound, senv, env);
        if |ss| == 1 && ss[0].SDo? {
          WrappedAlike(sk, k, fuel, ss[0].e, bound, n, senv, sargs, env, args, tr);
        } else {
          WrappedAlike(sk, k, fuel, ss[0].e, bound, n, senv, [], env, [], tr);
          var a := Elab(ss[0].e, bound, n);
          var so, o := SEval(sk, fuel, ss[0].e, senv, [], tr), Eval(k, fuel, WrapBinds(a.binds, a.comp), env, [], tr);
          if so.SDone? && so.t.SPlain? {
            RestAlike(sk, k, fuel, ss, bound, a.next, so.t.v, o.t.v, senv, sargs, env, args, so.tr);
          }
          FirstThen(sk, fuel, ss, senv, sargs, tr);
          FirstRuns(k, fuel, ss, bound, n, env, args, tr);
        }
      }
    }
  }

  /** A statement that is not the last, then the rest. */
  lemma FirstThen(sk: SContext, fuel: nat, ss: seq<Stmt>, senv: SEnv, sargs: seq<SVal>, tr: Trace)
    requires ss != [] && !ss[0].SDefs? && !(|ss| == 1 && ss[0].SDo?)
    ensures var s := SEval(sk, fuel, ss[0].e, senv, [], tr);
            SStmts(sk, fuel, ss, senv, sargs, tr) ==
            if AsValue(s).Stopped? then AsValue(s).o
            else SStmts(sk, fuel, ss[1..], if ss[0].SLet? then senv[ss[0].x := s.t.v] else senv, sargs, s.tr)
  {
    hide SEval;
  }

  lemma FirstRuns(k: Context, fuel: nat, ss: seq<Stmt>, bound: set<Name>, n: nat, env: Env, args: seq<Value>, tr: Trace)
    requires ss != [] && !ss[0].SDefs? && !(|ss| == 1 && ss[0].SDo?)
    ensures var a := Elab(ss[0].e, bound, n); var o := Eval(k, fuel, WrapBinds(a.binds, a.comp), env, [], tr);
            Eval(k, fuel, ElabStmts(ss, bound, n).comp, env, args, tr) ==
            if !o.Done? then o
            else if o.t.Lambda? then Failed(BareLambda, o.tr)
            else if ss[0].SLet? then Eval(k, fuel, ElabStmts(ss[1..], bound + {ss[0].x}, a.next).comp, env[ss[0].x := o.t.v], args, o.tr)
            else Eval(k, fuel, ElabStmts(ss[1..], bound, a.next).comp, env, args, o.tr)
  {
    hide Elab, WrapBinds, SEval;
  }

  /** The statements after the first, its value bound if it was a `let`. */
  lemma {:induction false} RestAlike(sk: SContext, k: Context, fuel: nat, ss: seq<Stmt>, bound: set<Name>, n: nat, s: SVal, v: Value,
                                     senv: SEnv, sargs: seq<SVal>, env: Env, args: seq<Value>, tr: Trace)
    requires ss != [] && At(sk, k, UsesStmts(ss), bound, senv, env) && AdmittedStmts(ss, bound) && VRs(k.sig.Keys, sargs, args)
    requires VR(k.sig.Keys, s, v) && !ss[0].SDefs?
    ensures ss[0].SLet? ==>
              OR(k.sig.Keys, SStmts(sk, fuel, ss[1..], senv[ss[0].x := s], sargs, tr),
                             Eval(k, fuel, ElabStmts(ss[1..], bound + {ss[0].x}, n).comp, env[ss[0].x := v], args, tr))
    ensures ss[0].SDo? ==>
              OR(k.sig.Keys, SStmts(sk, fuel, ss[1..], senv, sargs, tr), Eval(k, fuel, ElabStmts(ss[1..], bound, n).comp, env, args, tr))
    decreases fuel, 2, ss[1..], 1
  {
    if ss[0].SLet? {
      AtFewer(sk, k, UsesStmts(ss), UsesStmts(ss[1..]) - {ss[0].x}, bound, senv, env);
      AtBound(sk, k, UsesStmts(ss[1..]), bound, senv, env, ss[0].x, s, v);
      StmtsAlike(sk, k, fuel, ss[1..], bound + {ss[0].x}, n, senv[ss[0].x := s], sargs, env[ss[0].x := v], args, tr);
    } else {
      AtFewer(sk, k, UsesStmts(ss), UsesStmts(ss[1..]), bound, senv, env);
      StmtsAlike(sk, k, fuel, ss[1..], bound, n, senv, sargs, env, args, tr);
    }
  }

  // ── Stretches ────────────────────────────────────────────────────────────

  /** A stretch run: its blocks tied component by component, then the rest. */
  lemma {:induction false} StretchAlike(sk: SContext, k: Context, fuel: nat, ss: seq<Stmt>, bound: set<Name>, n: nat,
                                        senv: SEnv, sargs: seq<SVal>, env: Env, args: seq<Value>, tr: Trace)
    requires ss != [] && ss[0].SDefs? && At(sk, k, UsesStmts(ss), bound, senv, env) && AdmittedStmts(ss, bound) && VRs(k.sig.Keys, sargs, args)
    ensures OR(k.sig.Keys, SStmts(sk, fuel, ss, senv, sargs, tr), Eval(k, fuel, ElabStmts(ss, bound, n).comp, env, args, tr))
    decreases fuel, 2, ss[1..], 1
  {
    hide KnotR, Eval, Component, ComponentBinds;
    var defs, all := ss[0].defs, bound + DefNames(ss[0].defs);
    var knot, codes := Knot(defs, senv), ElabDefs(defs, all, n);
    var bs := KnotBinds(defs, codes.comps, Height(defs));
    StretchScope(sk, k, ss, bound, senv, env);
    DefsCoded(k.sig.Keys, knot, all, n);
    KnotRuns(k, fuel, knot, codes.comps, Height(defs), env, tr);
    var p := RunBinds(k, fuel, bs, env, tr);
    TiedAgrees(k.sig.Keys, knot, env, p.env, UsesStmts(ss[1..]));
    WrapRuns(k, fuel, bs, ElabStmts(ss[1..], all, codes.next).comp, env, args, tr);
    StmtsAlike(sk, k, fuel, ss[1..], all, codes.next, Tie(knot, |defs|), sargs, p.env, args, tr);
  }

  /** What a stretch needs of where it stands. */
  lemma StretchScope(sk: SContext, k: Context, ss: seq<Stmt>, bound: set<Name>, senv: SEnv, env: Env)
    requires ss != [] && ss[0].SDefs? && At(sk, k, UsesStmts(ss), bound, senv, env)
    ensures var defs, knot := ss[0].defs, Knot(ss[0].defs, senv);
            && Around(k.sig.Keys, knot, env)
            && EnvR(k.sig.Keys, UsesStmts(ss[1..]) - DefNames(defs), senv, env)
            && InScope(k.sig.Keys, bound + DefNames(defs), UsesDefs(defs) + UsesStmts(ss[1..]), Tie(knot, |defs|))
  {
    var defs := ss[0].defs;
    TieKeys(Knot(defs, senv), |defs|);
  }

  lemma DefsCoded(sg: set<Name>, knot: Knot, bound: set<Name>, n: nat)
    requires AdmittedDefs(knot.defs, bound) && InScope(sg, bound, UsesDefs(knot.defs), Tie(knot, |knot.defs|))
    ensures Codes(sg, knot, ElabDefs(knot.defs, bound, n).comps)
  {
    forall i | 0 <= i < |knot.defs| ensures DefCode(sg, knot, i, ElabDefs(knot.defs, bound, n).comps[i]) {
      UsedBySome(knot.defs, i);
      var m := DefIsCode(knot.defs, bound, n, i);
    }
  }

  lemma {:induction false} DefIsCode(defs: seq<Def>, bound: set<Name>, n: nat, i: nat) returns (m: nat)
    requires AdmittedDefs(defs, bound) && i < |defs|
    ensures IsCode(ElabDefs(defs, bound, n).comps[i], defs[i].params, defs[i].body, bound, m)
  {
    if i == 0 {
      m := n;
    } else {
      m := DefIsCode(defs[1..], bound, ElabStmts(defs[0].body, bound + Params(defs[0].params), n).next, i - 1);
    }
  }

  // ── Operands ─────────────────────────────────────────────────────────────

  /** The forms elaboration leaves as a value, with nothing to bind. */
  predicate ValueForm(e: Ast) {
    e.AUnit? || e.AStr? || e.AInt? || e.ABool? || e.AVar? || e.ABlock? || e.ALambda? || e.AReturn? || e.AList?
  }

  lemma OnlyValueFormsReturn(e: Ast, bound: set<Name>, n: nat)
    requires Admitted(e, bound)
    ensures Elab(e, bound, n).comp.Return? == ValueForm(e)
  {
  }

  ghost function SettleRan(s: Ran<SVal>, args: seq<SVal>): SOutcome {
    match s case Stopped(o) => o case Ran(v, tr) => SSettle(Formed(v), args, tr)
  }

  /** A value form met by arguments: its value first, then them. */
  lemma ValueFormSettles(k: SContext, fuel: nat, e: Ast, env: SEnv, args: seq<SVal>, tr: Trace)
    requires ValueForm(e)
    ensures SEval(k, fuel, e, env, args, tr) == SettleRan(AsValue(SEval(k, fuel, e, env, [], tr)), args)
  {
  }

  lemma {:induction false} OperandAlike(sk: SContext, k: Context, fuel: nat, e: Ast, bound: set<Name>, n: nat, senv: SEnv, env: Env, tr: Trace)
    requires At(sk, k, Uses(e), bound, senv, env) && Admitted(e, bound)
    ensures var l := HoistVal(Elab(e, bound, n));
            OperandR(k, n, l, AsValue(SEval(sk, fuel, e, senv, [], tr)), env, RunBinds(k, fuel, l.binds, env, tr))
    decreases fuel, 2, e, 4
  {
    hide VR, OR, Extends, Eval, SEval, Denotes, EnvR, InScope, OperandR, ExprR, Elab, HoistVal;
    OnlyValueFormsReturn(e, bound, n);
    if ValueForm(e) {
      ValueAlike(sk, k, fuel, e, bound, n, senv, env, tr);
    } else {
      ExprAlike(sk, k, fuel, e, bound, n, senv, [], env, [], tr);
      HoistedAlike(k, fuel, n, Elab(e, bound, n), SEval(sk, fuel, e, senv, [], tr), env, tr);
    }
  }

  /** Binding a computation's value to the next temporary. */
  lemma HoistedAlike(k: Context, fuel: nat, n: nat, l: Lowered, s: SOutcome, env: Env, tr: Trace)
    requires ExprR(k, fuel, n, l, s, env, [], tr) && !l.comp.Return? && n <= l.next
    ensures var r := HoistVal(l); OperandR(k, n, r, AsValue(s), env, RunBinds(k, fuel, r.binds, env, tr))
  {
    hide VR, TermR, Extends, Eval, Denotes;
    var h := Hoist(Temp(l.next + 1), l.comp);
    RunAppend(k, fuel, l.binds, [h], env, tr);
    var p := RunBinds(k, fuel, l.binds, env, tr);
    if p.Reached? {
      RunOne(k, fuel, h, p.env, p.tr);
      BoundAlike(k, n, l.next, s, Eval(k, fuel, l.comp, p.env, [], p.tr), env, p.env);
    }
  }

  lemma BoundAlike(k: Context, n: nat, m: nat, s: SOutcome, o: Outcome, e: Env, f: Env)
    requires OR(k.sig.Keys, s, o) && Extends(e, f, n) && n <= m
    ensures OperandR(k, n, LoweredVal(Variable(Temp(m + 1)), [], m + 1), AsValue(s), e, Bound(Temp(m + 1), o, f))
  {
    hide VR, EnvR, Coded, Old, Extends;
    if o.Done? && o.t.Plain? {
      TempExtends(f, n, m + 1, o.t.v);
      ExtendsTrans(e, f, f[Temp(m + 1) := o.t.v], n, n);
      TempsAreOld(m + 1, m + 1);
    }
  }

  lemma {:induction false} ValueAlike(sk: SContext, k: Context, fuel: nat, e: Ast, bound: set<Name>, n: nat, senv: SEnv, env: Env, tr: Trace)
    requires At(sk, k, Uses(e), bound, senv, env) && Admitted(e, bound) && ValueForm(e)
    ensures var l := HoistVal(Elab(e, bound, n));
            OperandR(k, n, l, AsValue(SEval(sk, fuel, e, senv, [], tr)), env, RunBinds(k, fuel, l.binds, env, tr))
    decreases fuel, 2, e, 1
  {
    hide Eval, SEval, Elab;
    match e
    case ABlock(body) => BlockAlike(sk, k, fuel, e, bound, n, senv, env, tr);
    case ALambda(ps, body) => BlockAlike(sk, k, fuel, e, bound, n, senv, env, tr);
    case AReturn(d) => ReturnAlike(sk, k, fuel, e, bound, n, senv, env, tr);
    case AList(es) => ListAlike(sk, k, fuel, e, bound, n, senv, env, tr);
    case AVar(_) => NameAlike(sk, k, fuel, e, bound, n, senv, env, tr);
    case _ => LeafAlike(sk, k, fuel, e, bound, n, senv, env, tr);
  }

  lemma LeafAlike(sk: SContext, k: Context, fuel: nat, e: Ast, bound: set<Name>, n: nat, senv: SEnv, env: Env, tr: Trace)
    requires At(sk, k, Uses(e), bound, senv, env) && Admitted(e, bound) && (e.AUnit? || e.AStr? || e.AInt? || e.ABool?)
    ensures var l := HoistVal(Elab(e, bound, n));
            OperandR(k, n, l, AsValue(SEval(sk, fuel, e, senv, [], tr)), env, RunBinds(k, fuel, l.binds, env, tr))
  {
  }

  lemma NameFound(sk: SContext, k: Context, bound: set<Name>, senv: SEnv, env: Env, x: Name)
    requires At(sk, k, {x}, bound, senv, env) && x in bound
    ensures x in senv || x in sk.sig
  {
  }

  lemma NameAlike(sk: SContext, k: Context, fuel: nat, e: Ast, bound: set<Name>, n: nat, senv: SEnv, env: Env, tr: Trace)
    requires At(sk, k, Uses(e), bound, senv, env) && Admitted(e, bound) && e.AVar?
    ensures var l := HoistVal(Elab(e, bound, n));
            OperandR(k, n, l, AsValue(SEval(sk, fuel, e, senv, [], tr)), env, RunBinds(k, fuel, l.binds, env, tr))
  {
    hide VR, EnvR, InScope, Old;
    assert e.x in senv || e.x in sk.sig by { NameFound(sk, k, bound, senv, env, e.x); }
    SourceNamesAreOld(e.x, n);
    LookupAlike(sk, k, Uses(e), senv, env, e.x);
  }

  lemma BlockAlike(sk: SContext, k: Context, fuel: nat, e: Ast, bound: set<Name>, n: nat, senv: SEnv, env: Env, tr: Trace)
    requires At(sk, k, Uses(e), bound, senv, env) && Admitted(e, bound) && (e.ABlock? || e.ALambda?)
    ensures var l := HoistVal(Elab(e, bound, n));
            OperandR(k, n, l, AsValue(SEval(sk, fuel, e, senv, [], tr)), env, RunBinds(k, fuel, l.binds, env, tr))
  {
    var ps := if e.ABlock? then [] else e.params;
    BlockLowers(e, ps, bound, n);
    BlockReads(sk, fuel, e, ps, senv, tr);
    hide SEval, Elab, VR, EnvR, InScope, AdmittedStmts, ElabStmts, Denotes, Lams;
    CodeDenotes(k, n, ElabStmts(e.body, bound + Params(ps), n).next, ps, e.body, bound, senv, env);
  }

  lemma BlockLowers(e: Ast, ps: seq<Name>, bound: set<Name>, n: nat)
    requires (e.ABlock? && ps == []) || (e.ALambda? && ps == e.params)
    requires Admitted(e, bound)
    ensures var b := ElabStmts(e.body, bound + Params(ps), n);
            HoistVal(Elab(e, bound, n)) == LoweredVal(ThunkVal(Lams(ps, b.comp)), [], b.next)
    ensures Uses(e) == UsesCode(ps, e.body) && (forall i | 0 <= i < |ps| :: !Synthetic(ps[i])) && AdmittedStmts(e.body, bound + Params(ps))
  {
    if e.ABlock? { assert bound + Params([]) == bound && UsesCode([], e.body) == UsesStmts(e.body); }
  }

  lemma BlockReads(sk: SContext, fuel: nat, e: Ast, ps: seq<Name>, senv: SEnv, tr: Trace)
    requires (e.ABlock? && ps == []) || (e.ALambda? && ps == e.params)
    ensures AsValue(SEval(sk, fuel, e, senv, [], tr)) == Ran(SClosure(ps, e.body, senv), tr)
  {
  }

  lemma {:induction false} ReturnAlike(sk: SContext, k: Context, fuel: nat, e: Ast, bound: set<Name>, n: nat, senv: SEnv, env: Env, tr: Trace)
    requires At(sk, k, Uses(e), bound, senv, env) && Admitted(e, bound) && e.AReturn?
    ensures var l := HoistVal(Elab(e, bound, n));
            OperandR(k, n, l, AsValue(SEval(sk, fuel, e, senv, [], tr)), env, RunBinds(k, fuel, l.binds, env, tr))
    decreases fuel, 2, e, 0
  {
    OperandAlike(sk, k, fuel, e.e, bound, n, senv, env, tr);
  }

  lemma {:induction false} ListAlike(sk: SContext, k: Context, fuel: nat, e: Ast, bound: set<Name>, n: nat, senv: SEnv, env: Env, tr: Trace)
    requires At(sk, k, Uses(e), bound, senv, env) && Admitted(e, bound) && e.AList?
    ensures var l := HoistVal(Elab(e, bound, n));
            OperandR(k, n, l, AsValue(SEval(sk, fuel, e, senv, [], tr)), env, RunBinds(k, fuel, l.binds, env, tr))
    decreases fuel, 2, e, 0
  {
    OperandsAlike(sk, k, fuel, e.elems, bound, n, senv, env, tr);
    var vs := ElabVals(e.elems, bound, n);
    ListOperand(k, n, vs, e.elems, bound, n, SOperands(sk, fuel, e.elems, senv, tr), env, RunBinds(k, fuel, vs.binds, env, tr));
  }

  lemma CodeDenotes(k: Context, n: nat, hi: nat, ps: seq<Name>, body: seq<Stmt>, bound: set<Name>, senv: SEnv, env: Env)
    requires EnvR(k.sig.Keys, UsesCode(ps, body), senv, env) && InScope(k.sig.Keys, bound, UsesCode(ps, body), senv)
    requires (forall i | 0 <= i < |ps| :: !Synthetic(ps[i])) && AdmittedStmts(body, bound + Params(ps))
    ensures Denotes(k, hi, ThunkVal(Lams(ps, ElabStmts(body, bound + Params(ps), n).comp)), SClosure(ps, body, senv), env)
  {
    var c := Lams(ps, ElabStmts(body, bound + Params(ps), n).comp);
    assert IsCode(c, ps, body, bound, n);
  }

  lemma ListOperand(k: Context, n: nat, l: LoweredVals, es: seq<Ast>, bound: set<Name>, m: nat, s: Ran<seq<SVal>>, env: Env, p: Prefix)
    requires OperandsR(k, n, l, s, env, p) && l == ElabVals(es, bound, m)
    ensures s.Ran? ==> p.Reached? && Denotes(k, l.next, ListVal(l.vs), SList(s.value), p.env)
  {
    ValsKeep(es, bound, m);
  }

  lemma {:induction false} OperandsAlike(sk: SContext, k: Context, fuel: nat, es: seq<Ast>, bound: set<Name>, n: nat, senv: SEnv, env: Env, tr: Trace)
    requires At(sk, k, UsesAll(es), bound, senv, env) && AdmittedAll(es, bound)
    ensures var l := ElabVals(es, bound, n);
            OperandsR(k, n, l, SOperands(sk, fuel, es, senv, tr), env, RunBinds(k, fuel, l.binds, env, tr))
    decreases fuel, 2, es, 0
  {
    hide SEval, Eval, Elab, VR, EnvR, InScope, Denotes;
    if es != [] {
      AtFewer(sk, k, UsesAll(es), Uses(es[0]), bound, senv, env);
      OperandAlike(sk, k, fuel, es[0], bound, n, senv, env, tr);
      var a := HoistVal(Elab(es[0], bound, n));
      var b := ElabVals(es[1..], bound, a.next);
      RunAppend(k, fuel, a.binds, b.binds, env, tr);
      var s, p := AsValue(SEval(sk, fuel, es[0], senv, [], tr)), RunBinds(k, fuel, a.binds, env, tr);
      if s.Ran? {
        AtFewer(sk, k, UsesAll(es), UsesAll(es[1..]), bound, senv, env);
        AtLater(sk, k, UsesAll(es[1..]), bound, senv, env, p.env, n);
        OperandsAlike(sk, k, fuel, es[1..], bound, a.next, senv, p.env, p.tr);
        ConsAlike(k, n, a, b, s.value, SOperands(sk, fuel, es[1..], senv, p.tr), env, p.env, RunBinds(k, fuel, b.binds, p.env, p.tr));
      }
    }
  }

  /** An operand already bound keeps its meaning while the later ones run. */
  lemma ConsAlike(k: Context, n: nat, a: LoweredVal, b: LoweredVals, v: SVal, rest: Ran<seq<SVal>>, e: Env, f: Env, p: Prefix)
    requires n <= a.next <= b.next && Extends(e, f, n) && Denotes(k, a.next, a.v, v, f)
    requires OperandsR(k, a.next, b, rest, f, p)
    ensures rest.Ran? ==> p.Reached? && Extends(e, p.env, n) && DenotesAll(k, b.next, [a.v] + b.vs, [v] + rest.value, p.env)
  {
    if rest.Ran? {
      ExtendsTrans(e, f, p.env, n, a.next);
      DenotesStays(k, a.next, b.next, a.v, v, f, p.env);
    }
  }

  lemma {:induction false} KeyAlike(sk: SContext, k: Context, fuel: nat, key: KeyAst, bound: set<Name>, n: nat, senv: SEnv, env: Env, tr: Trace)
    requires At(sk, k, UsesKeys([key]), bound, senv, env) && AdmittedKeys([key], bound)
    ensures var l, s := ElabKey(key, bound, n), SKeyOf(sk, fuel, key, senv, tr);
            KeysR(k, n, l, if s.Ran? then Ran([s.value], s.tr) else Stopped(s.o), env, RunBinds(k, fuel, l.binds, env, tr))
    decreases fuel, 2, key, 0
  {
    hide Eval, SEval, Elab;
    if key.KData? {
      assert [key][0].e == key.e;
      OperandAlike(sk, k, fuel, key.e, bound, n, senv, env, tr);
    }
  }

  lemma KeysFirst(ks: seq<KeyAst>)
    requires ks != []
    ensures UsesKeys([ks[0]]) <= UsesKeys(ks)
  {
    assert [ks[0]][1..] == [];
  }

  lemma {:induction false} KeysAlike(sk: SContext, k: Context, fuel: nat, ks: seq<KeyAst>, bound: set<Name>, n: nat, senv: SEnv, env: Env, tr: Trace)
    requires At(sk, k, UsesKeys(ks), bound, senv, env) && AdmittedKeys(ks, bound)
    ensures var l := ElabKeys(ks, bound, n);
            KeysR(k, n, l, SKeys(sk, fuel, ks, senv, tr), env, RunBinds(k, fuel, l.binds, env, tr))
    decreases fuel, 2, ks, 0
  {
    if ks != [] {
      KeysFirst(ks);
      assert AdmittedKeys([ks[0]], bound) by { assert [ks[0]][1..] == []; }
      AtFewer(sk, k, UsesKeys(ks), UsesKeys([ks[0]]), bound, senv, env);
      KeyAlike(sk, k, fuel, ks[0], bound, n, senv, env, tr);
      var a := ElabKey(ks[0], bound, n);
      var b := ElabKeys(ks[1..], bound, a.next);
      RunAppend(k, fuel, a.binds, b.binds, env, tr);
      var s, p := SKeyOf(sk, fuel, ks[0], senv, tr), RunBinds(k, fuel, a.binds, env, tr);
      if s.Ran? {
        AtFewer(sk, k, UsesKeys(ks), UsesKeys(ks[1..]), bound, senv, env);
        AtLater(sk, k, UsesKeys(ks[1..]), bound, senv, env, p.env, n);
        KeysAlike(sk, k, fuel, ks[1..], bound, a.next, senv, p.env, p.tr);
        ConsKeys(k, n, a, b, s.value, SKeys(sk, fuel, ks[1..], senv, p.tr), env, p.env, RunBinds(k, fuel, b.binds, p.env, p.tr));
      }
    }
  }

  lemma KeysStay(k: Context, lo: nat, hi: nat, keys: seq<Key>, ss: seq<SKey>, e: Env, f: Env)
    requires DenotesKeys(k, lo, keys, ss, e) && Extends(e, f, lo) && lo <= hi
    ensures DenotesKeys(k, hi, keys, ss, f)
  {
    forall i | 0 <= i < |keys| ensures DenotesKey(k, hi, keys[i], ss[i], f) {
      if keys[i].Data? { DenotesStays(k, lo, hi, keys[i].v, ss[i].v, e, f); }
    }
  }

  lemma ConsKeys(k: Context, n: nat, a: LoweredKeys, b: LoweredKeys, key: SKey, rest: Ran<seq<SKey>>, e: Env, f: Env, p: Prefix)
    requires n <= a.next <= b.next && Extends(e, f, n) && DenotesKeys(k, a.next, a.keys, [key], f)
    requires KeysR(k, a.next, b, rest, f, p)
    ensures rest.Ran? ==> p.Reached? && Extends(e, p.env, n) && DenotesKeys(k, b.next, a.keys + b.keys, [key] + rest.value, p.env)
  {
    if rest.Ran? {
      ExtendsTrans(e, f, p.env, n, a.next);
      KeysStay(k, a.next, b.next, a.keys, [key], f, p.env);
    }
  }

  // ── Expressions ──────────────────────────────────────────────────────────

  lemma ExtendsFewer(e: Env, f: Env, lo: nat, hi: nat)
    requires Extends(e, f, hi) && lo <= hi
    ensures Extends(e, f, lo)
  {
    assert Extends(e, e, lo);
    ExtendsTrans(e, e, f, lo, hi);
  }

  lemma {:induction false} FormAlike(sk: SContext, k: Context, fuel: nat, e: Ast, bound: set<Name>, n: nat, senv: SEnv, sargs: seq<SVal>, env: Env, args: seq<Value>, tr: Trace)
    requires At(sk, k, Uses(e), bound, senv, env) && Admitted(e, bound) && VRs(k.sig.Keys, sargs, args) && ValueForm(e)
    ensures ExprR(k, fuel, n, Elab(e, bound, n), SEval(sk, fuel, e, senv, sargs, tr), env, args, tr)
    decreases fuel, 2, e, 2
  {
    hide Eval, SEval, Elab;
    OnlyValueFormsReturn(e, bound, n);
    ValueAlike(sk, k, fuel, e, bound, n, senv, env, tr);
    ValueFormSettles(sk, fuel, e, senv, sargs, tr);
    ReturnedAlike(k, fuel, n, Elab(e, bound, n), AsValue(SEval(sk, fuel, e, senv, [], tr)), env, sargs, args, tr);
  }

  /** A value in hand, met by arguments. */
  lemma ReturnedAlike(k: Context, fuel: nat, n: nat, l: Lowered, s: Ran<SVal>, env: Env, sargs: seq<SVal>, args: seq<Value>, tr: Trace)
    requires l.comp.Return? && VRs(k.sig.Keys, sargs, args)
    requires OperandR(k, n, HoistVal(l), s, env, RunBinds(k, fuel, l.binds, env, tr))
    ensures ExprR(k, fuel, n, l, SettleRan(s, sargs), env, args, tr)
  {
    if s.Ran? {
      var p := RunBinds(k, fuel, l.binds, env, tr);
      DenotesForms(k, l.next, l.comp.v, s.value, p.env);
      ReturnRuns(k, fuel, l.comp, p.env, args, p.tr);
      SettleAlike(k.sig.Keys, Formed(s.value), Form(k, l.comp.v, p.env), sargs, args, p.tr);
    }
  }

  lemma ReturnRuns(k: Context, fuel: nat, c: Comp, env: Env, args: seq<Value>, tr: Trace)
    requires c.Return?
    ensures Eval(k, fuel, c, env, args, tr) == Settle(Form(k, c.v, env), args, tr)
  {
  }

  lemma {:induction false} ForcedAlike(sk: SContext, k: Context, fuel: nat, e: Ast, bound: set<Name>, n: nat, senv: SEnv, sargs: seq<SVal>, env: Env, args: seq<Value>, tr: Trace)
    requires At(sk, k, Uses(e), bound, senv, env) && Admitted(e, bound) && VRs(k.sig.Keys, sargs, args) && e.AForce?
    ensures ExprR(k, fuel, n, Elab(e, bound, n), SEval(sk, fuel, e, senv, sargs, tr), env, args, tr)
    decreases fuel, 2, e, 1
  {
    OperandAlike(sk, k, fuel, e.e, bound, n, senv, env, tr);
    var l, s := HoistVal(Elab(e.e, bound, n)), AsValue(SEval(sk, fuel, e.e, senv, [], tr));
    if s.Ran? { ForceAlike(sk, k, fuel, l.next, l.v, s.value, RunBinds(k, fuel, l.binds, env, tr).env, sargs, args, s.tr); }
  }

  lemma {:induction false} NotAlike(sk: SContext, k: Context, fuel: nat, e: Ast, bound: set<Name>, n: nat, senv: SEnv, sargs: seq<SVal>, env: Env, args: seq<Value>, tr: Trace)
    requires At(sk, k, Uses(e), bound, senv, env) && Admitted(e, bound) && VRs(k.sig.Keys, sargs, args) && e.ANot?
    ensures ExprR(k, fuel, n, Elab(e, bound, n), SEval(sk, fuel, e, senv, sargs, tr), env, args, tr)
    decreases fuel, 2, e, 1
  {
    OperandAlike(sk, k, fuel, e.e, bound, n, senv, env, tr);
    var l, s := HoistVal(Elab(e.e, bound, n)), AsValue(SEval(sk, fuel, e.e, senv, [], tr));
    if s.Ran? { NegatedAlike(k, fuel, l.next, l.v, s.value, RunBinds(k, fuel, l.binds, env, tr).env, sargs, args, s.tr); }
  }

  lemma NegatedAlike(k: Context, fuel: nat, hi: nat, a: Val, s: SVal, env: Env, sargs: seq<SVal>, args: seq<Value>, tr: Trace)
    requires Denotes(k, hi, a, s, env) && VRs(k.sig.Keys, sargs, args)
    ensures OR(k.sig.Keys, SSettle(if s.SBool? then Formed(SBool(!s.b)) else Malformed(NotABool), sargs, tr),
               Eval(k, fuel, Primitive(Not(a)), env, args, tr))
  {
    DenotesForms(k, hi, a, s, env);
    PrimitiveRuns(k, fuel, Not(a), env, args, tr);
    SettleAlike(k.sig.Keys, if s.SBool? then Formed(SBool(!s.b)) else Malformed(NotABool), PrimResult(k, Not(a), env), sargs, args, tr);
  }

  /** Two operands in a row: the second runs only if the first came to a value. */
  ghost predicate PairR(k: Context, n: nat, hi: nat, a: Val, b: Val, s: Ran<(SVal, SVal)>, env: Env, p: Prefix) {
    match s
    case Ran(vs, tr) =>
      p.Reached? && p.tr == tr && Extends(env, p.env, n) && Denotes(k, hi, a, vs.0, p.env) && Denotes(k, hi, b, vs.1, p.env)
    case Stopped(o) => p.Ended? && OR(k.sig.Keys, o, p.o)
  }

  ghost function Paired(v: SVal, s: Ran<SVal>): Ran<(SVal, SVal)> {
    match s case Stopped(o) => Stopped(o) case Ran(w, tr) => Ran((v, w), tr)
  }

  ghost function SPair(k: SContext, fuel: nat, l: Ast, r: Ast, env: SEnv, tr: Trace): Ran<(SVal, SVal)> {
    match AsValue(SEval(k, fuel, l, env, [], tr))
    case Stopped(o) => Stopped(o)
    case Ran(a, tr1) => Paired(a, AsValue(SEval(k, fuel, r, env, [], tr1)))
  }

  lemma {:induction false} PairAlike(sk: SContext, k: Context, fuel: nat, e: Ast, l: Ast, r: Ast, bound: set<Name>, n: nat, senv: SEnv, env: Env, tr: Trace)
    requires l < e && r < e && At(sk, k, Uses(l) + Uses(r), bound, senv, env) && Admitted(l, bound) && Admitted(r, bound)
    ensures var a := HoistVal(Elab(l, bound, n)); var b := HoistVal(Elab(r, bound, a.next));
            PairR(k, n, b.next, a.v, b.v, SPair(sk, fuel, l, r, senv, tr), env, RunBinds(k, fuel, a.binds + b.binds, env, tr))
    decreases fuel, 2, e, 1
  {
    hide Eval, SEval, Elab;
    AtFewer(sk, k, Uses(l) + Uses(r), Uses(l), bound, senv, env);
    AtFewer(sk, k, Uses(l) + Uses(r), Uses(r), bound, senv, env);
    OperandAlike(sk, k, fuel, l, bound, n, senv, env, tr);
    var a := HoistVal(Elab(l, bound, n));
    var s, p := AsValue(SEval(sk, fuel, l, senv, [], tr)), RunBinds(k, fuel, a.binds, env, tr);
    if s.Ran? {
      AtLater(sk, k, Uses(r), bound, senv, env, p.env, n);
      PairRest(sk, k, fuel, e, r, bound, n, a, s.value, senv, env, p.env, p.tr);
    }
    SecondRuns(sk, fuel, l, r, senv, tr);
    PairComposes(k, fuel, n, a, HoistVal(Elab(r, bound, a.next)), s, SPair(sk, fuel, l, r, senv, tr), env, tr);
  }

  lemma SecondRuns(sk: SContext, fuel: nat, l: Ast, r: Ast, senv: SEnv, tr: Trace)
    ensures var s := AsValue(SEval(sk, fuel, l, senv, [], tr));
            SPair(sk, fuel, l, r, senv, tr) ==
            if s.Stopped? then Stopped(s.o) else Paired(s.value, AsValue(SEval(sk, fuel, r, senv, [], s.tr)))
  {
  }

  /** The second operand's bindings after the first's. */
  lemma PairComposes(k: Context, fuel: nat, n: nat, a: LoweredVal, b: LoweredVal, s: Ran<SVal>, both: Ran<(SVal, SVal)>, env: Env, tr: Trace)
    requires OperandR(k, n, a, s, env, RunBinds(k, fuel, a.binds, env, tr))
    requires s.Stopped? ==> both == Stopped(s.o)
    requires s.Ran? ==> var p := RunBinds(k, fuel, a.binds, env, tr);
                        PairR(k, n, b.next, a.v, b.v, both, env, RunBinds(k, fuel, b.binds, p.env, p.tr))
    ensures PairR(k, n, b.next, a.v, b.v, both, env, RunBinds(k, fuel, a.binds + b.binds, env, tr))
  {
    RunAppend(k, fuel, a.binds, b.binds, env, tr);
  }

  lemma {:induction false} PairRest(sk: SContext, k: Context, fuel: nat, e: Ast, r: Ast, bound: set<Name>, n: nat, a: LoweredVal, v: SVal,
                                    senv: SEnv, env: Env, f: Env, tr: Trace)
    requires r < e && At(sk, k, Uses(r), bound, senv, f) && Admitted(r, bound)
    requires n <= a.next && Extends(env, f, n) && Denotes(k, a.next, a.v, v, f)
    ensures var b := HoistVal(Elab(r, bound, a.next));
            PairR(k, n, b.next, a.v, b.v, Paired(v, AsValue(SEval(sk, fuel, r, senv, [], tr))), env, RunBinds(k, fuel, b.binds, f, tr))
    decreases fuel, 2, e, 0
  {
    var b := HoistVal(Elab(r, bound, a.next));
    OperandAlike(sk, k, fuel, r, bound, a.next, senv, f, tr);
    SecondAlike(k, n, a, b, v, AsValue(SEval(sk, fuel, r, senv, [], tr)), env, f, RunBinds(k, fuel, b.binds, f, tr));
  }

  lemma SecondAlike(k: Context, n: nat, a: LoweredVal, b: LoweredVal, v: SVal, s: Ran<SVal>, e: Env, f: Env, p: Prefix)
    requires n <= a.next <= b.next && Extends(e, f, n) && Denotes(k, a.next, a.v, v, f) && OperandR(k, a.next, b, s, f, p)
    ensures PairR(k, n, b.next, a.v, b.v, Paired(v, s), e, p)
  {
    if s.Ran? {
      ExtendsTrans(e, f, p.env, n, a.next);
      DenotesStays(k, a.next, b.next, a.v, v, f, p.env);
    }
  }

  lemma {:induction false} BinaryAlike(sk: SContext, k: Context, fuel: nat, e: Ast, bound: set<Name>, n: nat, senv: SEnv, sargs: seq<SVal>, env: Env, args: seq<Value>, tr: Trace)
    requires At(sk, k, Uses(e), bound, senv, env) && Admitted(e, bound) && VRs(k.sig.Keys, sargs, args) && e.ABinary?
    ensures ExprR(k, fuel, n, Elab(e, bound, n), SEval(sk, fuel, e, senv, sargs, tr), env, args, tr)
    decreases fuel, 2, e, 2
  {
    PairAlike(sk, k, fuel, e, e.l, e.r, bound, n, senv, env, tr);
    var a := HoistVal(Elab(e.l, bound, n));
    var b := HoistVal(Elab(e.r, bound, a.next));
    var s, p := SPair(sk, fuel, e.l, e.r, senv, tr), RunBinds(k, fuel, a.binds + b.binds, env, tr);
    BinaryEnds(k, fuel, n, b.next, e.op, a.v, b.v, s, env, p, sargs, args);
    BinaryLowers(e, bound, n, a, b);
    BinaryPairs(sk, fuel, e, senv, sargs, tr);
  }

  lemma BinaryLowers(e: Ast, bound: set<Name>, n: nat, a: LoweredVal, b: LoweredVal)
    requires e.ABinary? && a == HoistVal(Elab(e.l, bound, n)) && b == HoistVal(Elab(e.r, bound, a.next))
    ensures Elab(e, bound, n) == Lowered(Primitive(Binary(e.op, a.v, b.v)), a.binds + b.binds, b.next)
  {
  }

  lemma BinaryPairs(sk: SContext, fuel: nat, e: Ast, senv: SEnv, sargs: seq<SVal>, tr: Trace)
    requires e.ABinary?
    ensures var s := SPair(sk, fuel, e.l, e.r, senv, tr);
            SEval(sk, fuel, e, senv, sargs, tr) == if s.Stopped? then s.o else SSettle(SBinary(e.op, s.value.0, s.value.1), sargs, s.tr)
  {
  }

  lemma PrimitiveRuns(k: Context, fuel: nat, p: Prim, env: Env, args: seq<Value>, tr: Trace)
    ensures Eval(k, fuel, Primitive(p), env, args, tr) == Settle(PrimResult(k, p, env), args, tr)
  {
  }

  lemma BinaryEnds(k: Context, fuel: nat, n: nat, hi: nat, op: BinaryOp, a: Val, b: Val, s: Ran<(SVal, SVal)>, env: Env, p: Prefix,
                   sargs: seq<SVal>, args: seq<Value>)
    requires PairR(k, n, hi, a, b, s, env, p) && VRs(k.sig.Keys, sargs, args)
    ensures p.Reached? ==> Extends(env, p.env, n)
    ensures OR(k.sig.Keys, if s.Stopped? then s.o else SSettle(SBinary(op, s.value.0, s.value.1), sargs, s.tr),
               Finish(k, fuel, p, Primitive(Binary(op, a, b)), args))
  {
    if s.Ran? {
      PrimitiveRuns(k, fuel, Binary(op, a, b), p.env, args, p.tr);
      ResultAlike(k, hi, op, a, b, s.value.0, s.value.1, p.env);
      SettleAlike(k.sig.Keys, SBinary(op, s.value.0, s.value.1), PrimResult(k, Binary(op, a, b), p.env), sargs, args, s.tr);
    }
  }

  lemma ResultAlike(k: Context, hi: nat, op: BinaryOp, a: Val, b: Val, s: SVal, t: SVal, env: Env)
    requires Denotes(k, hi, a, s, env) && Denotes(k, hi, b, t, env)
    ensures var f, g := SBinary(op, s, t), PrimResult(k, Binary(op, a, b), env);
            if f.Formed? then g.Formed? && VR(k.sig.Keys, f.value, g.value) else g == Malformed(f.e)
  {
    DenotesForms(k, hi, a, s, env);
    DenotesForms(k, hi, b, t, env);
    OperatorAlike(k.sig.Keys, op, s, t, Form(k, a, env).value, Form(k, b, env).value);
  }

  lemma OperatorAlike(sg: set<Name>, op: BinaryOp, s: SVal, t: SVal, v: Value, w: Value)
    requires VR(sg, s, v) && VR(sg, t, w)
    ensures var f, g := SBinary(op, s, t), BinaryResult(op, v, w);
            if f.Formed? then g.Formed? && VR(sg, f.value, g.value) else g == Malformed(f.e)
  {
    if op.Eq? {
      SeenAlike(sg, s, v);
      SeenAlike(sg, t, w);
    }
  }

  lemma {:induction false} TriedAlike(sk: SContext, k: Context, fuel: nat, e: Ast, bound: set<Name>, n: nat, senv: SEnv, sargs: seq<SVal>, env: Env, args: seq<Value>, tr: Trace)
    requires At(sk, k, Uses(e), bound, senv, env) && Admitted(e, bound) && VRs(k.sig.Keys, sargs, args) && e.ATry?
    ensures ExprR(k, fuel, n, Elab(e, bound, n), SEval(sk, fuel, e, senv, sargs, tr), env, args, tr)
    decreases fuel, 2, e, 2
  {
    PairAlike(sk, k, fuel, e, e.tried, e.handler, bound, n, senv, env, tr);
    var a := HoistVal(Elab(e.tried, bound, n));
    var b := HoistVal(Elab(e.handler, bound, a.next));
    var s, p := SPair(sk, fuel, e.tried, e.handler, senv, tr), RunBinds(k, fuel, a.binds + b.binds, env, tr);
    TriedEnds(sk, k, fuel, n, b.next, a.v, b.v, s, env, p, sargs, args);
    TriedLowers(e, bound, n, a, b);
    TriedPairs(sk, fuel, e, senv, sargs, tr);
  }

  lemma TriedLowers(e: Ast, bound: set<Name>, n: nat, a: LoweredVal, b: LoweredVal)
    requires e.ATry? && a == HoistVal(Elab(e.tried, bound, n)) && b == HoistVal(Elab(e.handler, bound, a.next))
    ensures Elab(e, bound, n) == Lowered(Try(a.v, b.v), a.binds + b.binds, b.next)
  {
  }

  lemma TriedPairs(sk: SContext, fuel: nat, e: Ast, senv: SEnv, sargs: seq<SVal>, tr: Trace)
    requires e.ATry?
    ensures var s := SPair(sk, fuel, e.tried, e.handler, senv, tr);
            SEval(sk, fuel, e, senv, sargs, tr) == if s.Stopped? then s.o else STry(sk, fuel, s.value.0, s.value.1, sargs, s.tr)
  {
  }

  lemma TryRuns(k: Context, fuel: nat, a: Val, b: Val, env: Env, args: seq<Value>, tr: Trace)
    ensures Eval(k, fuel, Try(a, b), env, args, tr) == EvalTry(k, fuel, a, b, env, args, tr)
  {
  }

  lemma TriedEnds(sk: SContext, k: Context, fuel: nat, n: nat, hi: nat, a: Val, b: Val, s: Ran<(SVal, SVal)>, env: Env, p: Prefix,
                  sargs: seq<SVal>, args: seq<Value>)
    requires PairR(k, n, hi, a, b, s, env, p) && VRs(k.sig.Keys, sargs, args) && Worlds(sk, k)
    ensures p.Reached? ==> Extends(env, p.env, n)
    ensures OR(k.sig.Keys, if s.Stopped? then s.o else STry(sk, fuel, s.value.0, s.value.1, sargs, s.tr),
               Finish(k, fuel, p, Try(a, b), args))
    decreases fuel, 1, 3
  {
    if s.Ran? {
      TryRuns(k, fuel, a, b, p.env, args, p.tr);
      TryAlike(sk, k, fuel, s.value.0, s.value.1, a, b, hi, p.env, sargs, args, p.tr);
    }
  }

  // ── Branches ─────────────────────────────────────────────────────────────

  lemma {:induction false} ArmAlike(sk: SContext, k: Context, fuel: nat, a: ArmAst, bound: set<Name>, n: nat, senv: SEnv, sargs: seq<SVal>, env: Env, args: seq<Value>, tr: Trace)
    requires At(sk, k, UsesArm(a), bound, senv, env) && AdmittedArm(a, bound) && VRs(k.sig.Keys, sargs, args)
    ensures OR(k.sig.Keys, SArm(sk, fuel, a, senv, sargs, tr), ForceVal(k, fuel, ElabArm(a, bound, n).v, env, args, tr))
    decreases fuel, 2, a, 0
  {
    if a.ArmBlock? {
      if fuel > 0 { StmtsAlike(sk, k, fuel - 1, a.body, bound, n, senv, sargs, env, args, tr); }
    } else {
      LookupAlike(sk, k, UsesArm(a), senv, env, a.x);
      EnterAlike(sk, k, fuel, SLookup(sk, senv, a.x).value, Lookup(k, env, a.x).value, sargs, args, tr);
    }
  }

  lemma ThenUnit(k: Context, fuel: nat, first: Comp, s: SOutcome, sargs: seq<SVal>, env: Env, args: seq<Value>, tr: Trace)
    requires OR(k.sig.Keys, s, Eval(k, fuel, first, env, [], tr)) && VRs(k.sig.Keys, sargs, args)
    ensures var r := AsValue(s);
            OR(k.sig.Keys, if r.Stopped? then r.o else SSettle(Formed(SUnit), sargs, r.tr), Eval(k, fuel, Seq(first, Return(Unit)), env, args, tr))
  {
  }

  lemma {:induction false} LoneArmAlike(sk: SContext, k: Context, fuel: nat, a: ArmAst, bound: set<Name>, n: nat, senv: SEnv, sargs: seq<SVal>, env: Env, args: seq<Value>, tr: Trace)
    requires At(sk, k, UsesArm(a), bound, senv, env) && AdmittedArm(a, bound) && VRs(k.sig.Keys, sargs, args)
    ensures OR(k.sig.Keys, SLoneArm(sk, fuel, a, senv, sargs, tr), ForceVal(k, fuel, UnitArm(ElabArm(a, bound, n).v), env, args, tr))
    decreases fuel, 2, a, 1
  {
    hide Eval, SEval, VR, EnvR, InScope, SStmts, ElabStmts;
    if fuel > 0 {
      if a.ArmBlock? {
        StmtsAlike(sk, k, fuel - 1, a.body, bound, n, senv, [], env, [], tr);
        ThenUnit(k, fuel - 1, ElabStmts(a.body, bound, n).comp, SStmts(sk, fuel - 1, a.body, senv, [], tr), sargs, env, args, tr);
      } else {
        ArmAlike(sk, k, fuel - 1, a, bound, n, senv, [], env, [], tr);
        ForceRuns(k, fuel - 1, Variable(a.x), env, [], tr);
        ThenUnit(k, fuel - 1, Force(Variable(a.x)), SArm(sk, fuel - 1, a, senv, [], tr), sargs, env, args, tr);
      }
    }
  }

  lemma ForceRuns(k: Context, fuel: nat, v: Val, env: Env, args: seq<Value>, tr: Trace)
    ensures Eval(k, fuel, Force(v), env, args, tr) == ForceVal(k, fuel, v, env, args, tr)
  {
  }

  lemma NothingAlike(sk: SContext, k: Context, fuel: nat, senv: SEnv, sargs: seq<SVal>, env: Env, args: seq<Value>, tr: Trace)
    requires VRs(k.sig.Keys, sargs, args)
    ensures OR(k.sig.Keys, SChain(sk, fuel, NoElse, senv, sargs, tr), ForceVal(k, fuel, ThunkVal(Return(Unit)), env, args, tr))
  {
    hide Surrounds, KnotR, Coded;
  }

  lemma {:induction false} ChainAlike(sk: SContext, k: Context, fuel: nat, r: Chain, bound: set<Name>, n: nat, senv: SEnv, sargs: seq<SVal>, env: Env, args: seq<Value>, tr: Trace)
    requires At(sk, k, UsesChain(r), bound, senv, env) && AdmittedChain(r, bound) && VRs(k.sig.Keys, sargs, args)
    ensures OR(k.sig.Keys, SChain(sk, fuel, r, senv, sargs, tr), ForceVal(k, fuel, ElabChain(r, bound, n).v, env, args, tr))
    decreases fuel, 2, r, 0
  {
    hide SEval, Eval, SArm, VR, EnvR, InScope, Elab, ElabArm;
    match r
    case NoElse => NothingAlike(sk, k, fuel, senv, sargs, env, args, tr);
    case Else(a) => ArmAlike(sk, k, fuel, a, bound, n, senv, sargs, env, args, tr);
    case ElseIf(c, a, r1) => if fuel > 0 { ElseIfAlike(sk, k, fuel - 1, r, bound, n, senv, sargs, env, args, tr); }
  }

  lemma {:induction false} ElseIfAlike(sk: SContext, k: Context, fuel: nat, r: Chain, bound: set<Name>, n: nat, senv: SEnv, sargs: seq<SVal>, env: Env, args: seq<Value>, tr: Trace)
    requires At(sk, k, UsesChain(r), bound, senv, env) && AdmittedChain(r, bound) && VRs(k.sig.Keys, sargs, args) && r.ElseIf?
    ensures OR(k.sig.Keys, SChain(sk, fuel + 1, r, senv, sargs, tr), ForceVal(k, fuel + 1, ElabChain(r, bound, n).v, env, args, tr))
    decreases fuel, 2, r, 1
  {
    var els := ElabChain(r.rest, bound, n);
    var cond := HoistVal(Elab(r.cond, bound, els.next));
    var thn := ElabArm(r.arm, bound, cond.next);
    var branch := If(cond.v, thn.v, els.v);
    WrapRuns(k, fuel, cond.binds, branch, env, args, tr);
    AtFewer(sk, k, UsesChain(r), Uses(r.cond), bound, senv, env);
    OperandAlike(sk, k, fuel, r.cond, bound, els.next, senv, env, tr);
    var s, p := AsValue(SEval(sk, fuel, r.cond, senv, [], tr)), RunBinds(k, fuel, cond.binds, env, tr);
    if s.Ran? {
      AtLater(sk, k, UsesChain(r), bound, senv, env, p.env, els.next);
      LaterTakenAlike(sk, k, fuel, r, bound, n, cond, s.value, senv, sargs, p.env, args, s.tr);
    }
  }

  ghost function SLaterTaken(k: SContext, fuel: nat, r: Chain, v: SVal, env: SEnv, args: seq<SVal>, tr: Trace): SOutcome
    requires r.ElseIf?
  {
    if !v.SBool? then SFailed(NotABool, tr)
    else if v.b then SArm(k, fuel, r.arm, env, args, tr)
    else SChain(k, fuel, r.rest, env, args, tr)
  }

  lemma {:induction false} LaterTakenAlike(sk: SContext, k: Context, fuel: nat, r: Chain, bound: set<Name>, n: nat, cond: LoweredVal, v: SVal,
                                           senv: SEnv, sargs: seq<SVal>, env: Env, args: seq<Value>, tr: Trace)
    requires r.ElseIf? && At(sk, k, UsesChain(r), bound, senv, env) && AdmittedChain(r, bound) && VRs(k.sig.Keys, sargs, args)
    requires Denotes(k, cond.next, cond.v, v, env)
    ensures var thn, els := ElabArm(r.arm, bound, cond.next).v, ElabChain(r.rest, bound, n).v;
            OR(k.sig.Keys, SLaterTaken(sk, fuel, r, v, senv, sargs, tr), Eval(k, fuel, If(cond.v, thn, els), env, args, tr))
    decreases fuel, 2, r, 0
  {
    hide Eval, SEval, Elab, ElabStmts, VR, EnvR, Denotes, Surrounds, KnotR;
    DenotesForms(k, cond.next, cond.v, v, env);
    BoolAlike(k.sig.Keys, v, Form(k, cond.v, env).value);
    BranchRuns(k, fuel, cond.v, ElabArm(r.arm, bound, cond.next).v, ElabChain(r.rest, bound, n).v, env, args, tr);
    if v.SBool? && v.b {
      AtFewer(sk, k, UsesChain(r), UsesArm(r.arm), bound, senv, env);
      ArmAlike(sk, k, fuel, r.arm, bound, cond.next, senv, sargs, env, args, tr);
    } else if v.SBool? {
      AtFewer(sk, k, UsesChain(r), UsesChain(r.rest), bound, senv, env);
      ChainAlike(sk, k, fuel, r.rest, bound, n, senv, sargs, env, args, tr);
    }
  }

  /** Only the arm the condition picks runs, after the condition's own bindings. */
  lemma {:induction false} IfAlike(sk: SContext, k: Context, fuel: nat, e: Ast, bound: set<Name>, n: nat, senv: SEnv, sargs: seq<SVal>, env: Env, args: seq<Value>, tr: Trace)
    requires At(sk, k, Uses(e), bound, senv, env) && Admitted(e, bound) && VRs(k.sig.Keys, sargs, args) && e.AIf?
    ensures ExprR(k, fuel, n, Elab(e, bound, n), SEval(sk, fuel, e, senv, sargs, tr), env, args, tr)
    decreases fuel, 2, e, 1
  {
    hide Eval, SEval, Elab, VR, EnvR, Denotes, Surrounds, KnotR;
    IfLowers(e, bound, n);
    IfSplits(sk, fuel, e, senv, sargs, tr);
    var els := ElabChain(e.rest, bound, n);
    var cond := HoistVal(Elab(e.cond, bound, els.next));
    AtFewer(sk, k, Uses(e), Uses(e.cond), bound, senv, env);
    OperandAlike(sk, k, fuel, e.cond, bound, els.next, senv, env, tr);
    var s, p := AsValue(SEval(sk, fuel, e.cond, senv, [], tr)), RunBinds(k, fuel, cond.binds, env, tr);
    if s.Ran? {
      ExtendsFewer(env, p.env, n, els.next);
      AtLater(sk, k, Uses(e), bound, senv, env, p.env, n);
      TakenAlike(sk, k, fuel, e, bound, n, cond, s.value, senv, sargs, p.env, args, s.tr);
    }
  }

  lemma IfLowers(e: Ast, bound: set<Name>, n: nat)
    requires e.AIf?
    ensures var els := ElabChain(e.rest, bound, n); var cond := HoistVal(Elab(e.cond, bound, els.next));
            var thn := ElabArm(e.arm, bound, cond.next).v; var l := Elab(e, bound, n);
            l.binds == cond.binds && l.comp == If(cond.v, if e.rest.NoElse? then UnitArm(thn) else thn, els.v)
  {
  }

  lemma IfSplits(k: SContext, fuel: nat, e: Ast, env: SEnv, args: seq<SVal>, tr: Trace)
    requires e.AIf?
    ensures var s := AsValue(SEval(k, fuel, e.cond, env, [], tr));
            SEval(k, fuel, e, env, args, tr) == if s.Stopped? then s.o else STaken(k, fuel, e, s.value, env, args, s.tr)
  {
  }

  ghost function STaken(k: SContext, fuel: nat, e: Ast, v: SVal, env: SEnv, args: seq<SVal>, tr: Trace): SOutcome
    requires e.AIf?
  {
    if !v.SBool? then SFailed(NotABool, tr)
    else if v.b then (if e.rest.NoElse? then SLoneArm(k, fuel, e.arm, env, args, tr) else SArm(k, fuel, e.arm, env, args, tr))
    else SChain(k, fuel, e.rest, env, args, tr)
  }

  lemma BoolAlike(sg: set<Name>, s: SVal, v: Value)
    requires VR(sg, s, v)
    ensures s.SBool? <==> v.VBool?
    ensures s.SBool? ==> v == VBool(s.b)
  {
  }

  lemma {:induction false} TakenAlike(sk: SContext, k: Context, fuel: nat, e: Ast, bound: set<Name>, n: nat, cond: LoweredVal, v: SVal,
                                      senv: SEnv, sargs: seq<SVal>, env: Env, args: seq<Value>, tr: Trace)
    requires e.AIf? && At(sk, k, Uses(e), bound, senv, env) && Admitted(e, bound) && VRs(k.sig.Keys, sargs, args)
    requires Denotes(k, cond.next, cond.v, v, env)
    ensures var thn, els := ElabArm(e.arm, bound, cond.next).v, ElabChain(e.rest, bound, n).v;
            OR(k.sig.Keys, STaken(sk, fuel, e, v, senv, sargs, tr),
               Eval(k, fuel, If(cond.v, if e.rest.NoElse? then UnitArm(thn) else thn, els), env, args, tr))
    decreases fuel, 2, e, 0
  {
    hide Eval, SEval, Elab, ElabStmts, VR, EnvR, Denotes, Surrounds, KnotR;
    DenotesForms(k, cond.next, cond.v, v, env);
    BoolAlike(k.sig.Keys, v, Form(k, cond.v, env).value);
    var thn, els := ElabArm(e.arm, bound, cond.next).v, ElabChain(e.rest, bound, n).v;
    BranchRuns(k, fuel, cond.v, if e.rest.NoElse? then UnitArm(thn) else thn, els, env, args, tr);
    if v.SBool? && v.b {
      AtFewer(sk, k, Uses(e), UsesArm(e.arm), bound, senv, env);
      if e.rest.NoElse? {
        LoneArmAlike(sk, k, fuel, e.arm, bound, cond.next, senv, sargs, env, args, tr);
      } else {
        ArmAlike(sk, k, fuel, e.arm, bound, cond.next, senv, sargs, env, args, tr);
      }
    } else if v.SBool? {
      AtFewer(sk, k, Uses(e), UsesChain(e.rest), bound, senv, env);
      ChainAlike(sk, k, fuel, e.rest, bound, n, senv, sargs, env, args, tr);
    }
  }

  lemma {:induction false} JunctionAlike(sk: SContext, k: Context, fuel: nat, e: Ast, bound: set<Name>, n: nat, senv: SEnv, sargs: seq<SVal>, env: Env, args: seq<Value>, tr: Trace)
    requires At(sk, k, Uses(e), bound, senv, env) && Admitted(e, bound) && VRs(k.sig.Keys, sargs, args) && e.AJunction?
    ensures ExprR(k, fuel, n, Elab(e, bound, n), SEval(sk, fuel, e, senv, sargs, tr), env, args, tr)
    decreases fuel, 2, e, 1
  {
    hide Eval, SEval, Elab, VR, EnvR, Denotes, Surrounds, KnotR;
    AtFewer(sk, k, Uses(e), Uses(e.l), bound, senv, env);
    OperandAlike(sk, k, fuel, e.l, bound, n, senv, env, tr);
    var a := HoistVal(Elab(e.l, bound, n));
    var s, p := AsValue(SEval(sk, fuel, e.l, senv, [], tr)), RunBinds(k, fuel, a.binds, env, tr);
    if s.Ran? {
      AtLater(sk, k, Uses(e), bound, senv, env, p.env, n);
      DecidedAlike(sk, k, fuel, e, bound, a, s.value, senv, sargs, p.env, args, s.tr);
    }
    JunctionLowers(e, bound, n);
    JunctionSplits(sk, fuel, e, senv, sargs, tr);
  }

  lemma JunctionLowers(e: Ast, bound: set<Name>, n: nat)
    requires e.AJunction?
    ensures var a := HoistVal(Elab(e.l, bound, n)); var l := Elab(e, bound, n);
            l.binds == a.binds && l.comp == Join(e.or, a.v, Elab(e.r, bound, a.next))
  {
  }

  lemma JunctionSplits(k: SContext, fuel: nat, e: Ast, env: SEnv, args: seq<SVal>, tr: Trace)
    requires e.AJunction?
    ensures var s := AsValue(SEval(k, fuel, e.l, env, [], tr));
            SEval(k, fuel, e, env, args, tr) == if s.Stopped? then s.o else SDecided(k, fuel, e, s.value, env, args, s.tr)
  {
  }

  ghost function SDecided(k: SContext, fuel: nat, e: Ast, v: SVal, env: SEnv, args: seq<SVal>, tr: Trace): SOutcome
    requires e.AJunction?
  {
    if !v.SBool? then SFailed(NotABool, tr)
    else if fuel == 0 then SStarved(tr)
    else if v.b == e.or then SSettle(Formed(SBool(e.or)), args, tr)
    else SEval(k, fuel - 1, e.r, env, args, tr)
  }

  /** The right side of a junction the left decided runs nothing. */
  lemma {:induction false} DecidedAlike(sk: SContext, k: Context, fuel: nat, e: Ast, bound: set<Name>, a: LoweredVal, v: SVal,
                                        senv: SEnv, sargs: seq<SVal>, env: Env, args: seq<Value>, tr: Trace)
    requires e.AJunction? && At(sk, k, Uses(e), bound, senv, env) && Admitted(e, bound) && VRs(k.sig.Keys, sargs, args)
    requires Denotes(k, a.next, a.v, v, env)
    ensures OR(k.sig.Keys, SDecided(sk, fuel, e, v, senv, sargs, tr), Eval(k, fuel, Join(e.or, a.v, Elab(e.r, bound, a.next)), env, args, tr))
    decreases fuel, 2, e, 0
  {
    hide Eval, SEval, Elab;
    DenotesForms(k, a.next, a.v, v, env);
    JoinRuns(k, fuel, e.or, a.v, Elab(e.r, bound, a.next), env, args, tr);
    if v.SBool? && fuel > 0 {
      if v.b == e.or {
        SettleAlike(k.sig.Keys, Formed(SBool(e.or)), Formed(VBool(e.or)), sargs, args, tr);
      } else {
        AtFewer(sk, k, Uses(e), Uses(e.r), bound, senv, env);
        WrappedAlike(sk, k, fuel - 1, e.r, bound, a.next, senv, sargs, env, args, tr);
      }
    }
  }

  /** A junction run: decided by the left, or the right side entered. */
  lemma JoinRuns(k: Context, fuel: nat, or: bool, left: Val, b: Lowered, env: Env, args: seq<Value>, tr: Trace)
    requires Form(k, left, env).Formed?
    ensures var w := Form(k, left, env).value;
            Eval(k, fuel, Join(or, left, b), env, args, tr) ==
            if !w.VBool? then Failed(NotABool, tr)
            else if fuel == 0 then Starved(tr)
            else if w.b == or then Settle(Formed(VBool(or)), args, tr)
            else Eval(k, fuel - 1, WrapBinds(b.binds, b.comp), env, args, tr)
  {
    var rhs, short := ThunkVal(WrapBinds(b.binds, b.comp)), ThunkVal(Return(Bool(or)));
    BranchRuns(k, fuel, left, if or then short else rhs, if or then rhs else short, env, args, tr);
    ShortRuns(k, fuel, or, env, args, tr);
    BlockRuns(k, fuel, WrapBinds(b.binds, b.comp), env, args, tr);
  }

  lemma BlockRuns(k: Context, fuel: nat, c: Comp, env: Env, args: seq<Value>, tr: Trace)
    ensures ForceVal(k, fuel, ThunkVal(c), env, args, tr) == if fuel == 0 then Starved(tr) else Eval(k, fuel - 1, c, env, args, tr)
  {
  }

  lemma BranchRuns(k: Context, fuel: nat, c: Val, thn: Val, els: Val, env: Env, args: seq<Value>, tr: Trace)
    requires Form(k, c, env).Formed?
    ensures var w := Form(k, c, env).value;
            Eval(k, fuel, If(c, thn, els), env, args, tr) ==
            if w.VBool? then ForceVal(k, fuel, if w.b then thn else els, env, args, tr) else Failed(NotABool, tr)
  {
  }

  lemma ShortRuns(k: Context, fuel: nat, b: bool, env: Env, args: seq<Value>, tr: Trace)
    ensures ForceVal(k, fuel, ThunkVal(Return(Bool(b))), env, args, tr) == if fuel == 0 then Starved(tr) else Settle(Formed(VBool(b)), args, tr)
  {
  }

  // ── Calls ────────────────────────────────────────────────────────────────

  /** Forcing a head and applying it to operands already values. */
  lemma {:induction false} CallOfAlike(sk: SContext, k: Context, fuel: nat, hi: nat, f: Val, s: SVal, vs: seq<Val>, ss: seq<SVal>,
                                       env: Env, sargs: seq<SVal>, args: seq<Value>, tr: Trace)
    requires Worlds(sk, k) && Denotes(k, hi, f, s, env) && DenotesAll(k, hi, vs, ss, env) && VRs(k.sig.Keys, sargs, args)
    ensures OR(k.sig.Keys, SEnter(sk, fuel, s, ss + sargs, tr), Eval(k, fuel, CallOf(f, vs), env, args, tr))
    decreases fuel, 1, 1
  {
    FormAllDenotes(k, hi, vs, ss, env);
    var ws := FormAll(k, vs, env).value;
    ForceAlike(sk, k, fuel, hi, f, s, env, ss + sargs, ws + args, tr);
    CallRuns(k, fuel, f, vs, env, args, tr);
  }

  lemma CallRuns(k: Context, fuel: nat, f: Val, vs: seq<Val>, env: Env, args: seq<Value>, tr: Trace)
    requires FormAll(k, vs, env).Formed?
    ensures Eval(k, fuel, CallOf(f, vs), env, args, tr) == ForceVal(k, fuel, f, env, FormAll(k, vs, env).value + args, tr)
  {
    var ws := FormAll(k, vs, env).value;
    if vs == [] { assert ws + args == args; }
    ForceRuns(k, fuel, f, env, ws + args, tr);
  }

  lemma ExecRuns(k: Context, fuel: nat, word: CommandWord, vs: seq<Val>, env: Env, args: seq<Value>, tr: Trace)
    requires CloseArgv(k, Slots(vs), env).Formed?
    ensures Eval(k, fuel, Exec(word, Slots(vs)), env, args, tr) == Dispatch(k, fuel, word, CloseArgv(k, Slots(vs), env).value, env, args, tr)
  {
  }

  /** A dispatched command: the environment first, then the world. */
  lemma {:induction false} DispatchAlike(sk: SContext, k: Context, fuel: nat, x: Name, external: bool, hi: nat, vs: seq<Val>, ss: seq<SVal>,
                                         uses: set<Name>, senv: SEnv, sargs: seq<SVal>, env: Env, args: seq<Value>, tr: Trace)
    requires Worlds(sk, k) && EnvR(k.sig.Keys, uses, senv, env) && (!external ==> x in uses && !Synthetic(x))
    requires DenotesAll(k, hi, vs, ss, env) && VRs(k.sig.Keys, sargs, args)
    ensures var word := if external then External(Bare(x)) else Named(Bare(x));
            OR(k.sig.Keys, SCall(sk, fuel, x, external, ss, senv, sargs, tr), Eval(k, fuel, Exec(word, Slots(vs)), env, args, tr))
    decreases fuel, 1, 1
  {
    CloseDenotes(k, hi, vs, ss, env);
    var ws := CloseArgv(k, Slots(vs), env).value;
    if !external { LookupAlike(sk, k, uses, senv, env, x); }
    var word := if external then External(Bare(x)) else Named(Bare(x));
    ExecRuns(k, fuel, word, vs, env, args, tr);
    CommandAlike(sk, k, fuel, x, external, ss, ws, senv, sargs, env, args, tr);
  }

  lemma {:induction false} CommandAlike(sk: SContext, k: Context, fuel: nat, x: Name, external: bool, ss: seq<SVal>, ws: seq<Value>,
                                        senv: SEnv, sargs: seq<SVal>, env: Env, args: seq<Value>, tr: Trace)
    requires Worlds(sk, k) && VRs(k.sig.Keys, ss, ws) && VRs(k.sig.Keys, sargs, args)
    requires !external ==> SLookup(sk, senv, x).Some? == Lookup(k, env, x).Some?
    requires !external && SLookup(sk, senv, x).Some? ==> VR(k.sig.Keys, SLookup(sk, senv, x).value, Lookup(k, env, x).value)
    ensures var word := if external then External(Bare(x)) else Named(Bare(x));
            OR(k.sig.Keys, SCall(sk, fuel, x, external, ss, senv, sargs, tr), Dispatch(k, fuel, word, ws, env, args, tr))
    decreases fuel, 1, 0
  {
    OperateAlike(sk, k, if external then External(Bare(x)) else Named(Bare(x)), ss, ws, sargs, args, tr);
    if !external && SLookup(sk, senv, x).Some? {
      EnterAlike(sk, k, fuel, SLookup(sk, senv, x).value, Lookup(k, env, x).value, ss + sargs, ws + args, tr);
    }
  }

  lemma {:induction false} NamedCallAlike(sk: SContext, k: Context, fuel: nat, e: Ast, bound: set<Name>, n: nat, senv: SEnv, sargs: seq<SVal>, env: Env, args: seq<Value>, tr: Trace)
    requires At(sk, k, Uses(e), bound, senv, env) && Admitted(e, bound) && VRs(k.sig.Keys, sargs, args) && e.ACall? && !e.head.HValue?
    ensures ExprR(k, fuel, n, Elab(e, bound, n), SEval(sk, fuel, e, senv, sargs, tr), env, args, tr)
    decreases fuel, 2, e, 1
  {
    AtFewer(sk, k, Uses(e), UsesAll(e.args), bound, senv, env);
    OperandsAlike(sk, k, fuel, e.args, bound, n, senv, env, tr);
    var vs := ElabVals(e.args, bound, n);
    var s, p := SOperands(sk, fuel, e.args, senv, tr), RunBinds(k, fuel, vs.binds, env, tr);
    if s.Ran? {
      AtLater(sk, k, Uses(e), bound, senv, env, p.env, n);
      NamedAlike(sk, k, fuel, e, bound, vs, s.value, senv, sargs, p.env, args, s.tr);
    }
  }

  lemma {:induction false} NamedAlike(sk: SContext, k: Context, fuel: nat, e: Ast, bound: set<Name>, vs: LoweredVals, ss: seq<SVal>,
                                      senv: SEnv, sargs: seq<SVal>, env: Env, args: seq<Value>, tr: Trace)
    requires e.ACall? && !e.head.HValue? && At(sk, k, Uses(e), bound, senv, env) && Admitted(e, bound)
    requires DenotesAll(k, vs.next, vs.vs, ss, env) && VRs(k.sig.Keys, sargs, args)
    ensures var x := e.head.x;
            var c := if e.head.HExternal? then Exec(External(Bare(x)), Slots(vs.vs))
                     else if x in bound then CallOf(Variable(x), vs.vs) else Exec(Named(Bare(x)), Slots(vs.vs));
            OR(k.sig.Keys, SCall(sk, fuel, x, e.head.HExternal?, ss, senv, sargs, tr), Eval(k, fuel, c, env, args, tr))
    decreases fuel, 1, 2
  {
    var x := e.head.x;
    assert e.head.HBare? ==> x in Uses(e);
    if e.head.HBare? && x in bound {
      LookupAlike(sk, k, Uses(e), senv, env, x);
      SourceNamesAreOld(x, vs.next);
      CallOfAlike(sk, k, fuel, vs.next, Variable(x), SLookup(sk, senv, x).value, vs.vs, ss, env, sargs, args, tr);
    } else {
      DispatchAlike(sk, k, fuel, x, e.head.HExternal?, vs.next, vs.vs, ss, Uses(e), senv, sargs, env, args, tr);
    }
  }

  lemma {:induction false} ValueCallAlike(sk: SContext, k: Context, fuel: nat, e: Ast, bound: set<Name>, n: nat, senv: SEnv, sargs: seq<SVal>, env: Env, args: seq<Value>, tr: Trace)
    requires At(sk, k, Uses(e), bound, senv, env) && Admitted(e, bound) && VRs(k.sig.Keys, sargs, args) && e.ACall? && e.head.HValue?
    ensures ExprR(k, fuel, n, Elab(e, bound, n), SEval(sk, fuel, e, senv, sargs, tr), env, args, tr)
    decreases fuel, 2, e, 1
  {
    var d := e.head.e;
    assert UsesHead(e.head) == Uses(d);
    AtFewer(sk, k, Uses(e), Uses(d), bound, senv, env);
    OperandAlike(sk, k, fuel, d, bound, n, senv, env, tr);
    var f := HoistVal(Elab(d, bound, n));
    var vs := ElabVals(e.args, bound, f.next);
    RunAppend(k, fuel, f.binds, vs.binds, env, tr);
    var s, p := AsValue(SEval(sk, fuel, d, senv, [], tr)), RunBinds(k, fuel, f.binds, env, tr);
    if s.Ran? {
      AtLater(sk, k, Uses(e), bound, senv, env, p.env, n);
      AtFewer(sk, k, Uses(e), UsesAll(e.args), bound, senv, p.env);
      OperandsAlike(sk, k, fuel, e.args, bound, f.next, senv, p.env, p.tr);
      var t, q := SOperands(sk, fuel, e.args, senv, p.tr), RunBinds(k, fuel, vs.binds, p.env, p.tr);
      if t.Ran? {
        ExtendsTrans(env, p.env, q.env, n, f.next);
        DenotesStays(k, f.next, vs.next, f.v, s.value, p.env, q.env);
        CallOfAlike(sk, k, fuel, vs.next, f.v, s.value, vs.vs, t.value, q.env, sargs, args, q.tr);
      }
    }
  }

  // ── Reads ────────────────────────────────────────────────────────────────

  lemma FieldAlike(sg: set<Name>, s: SVal, v: Value, key: Name)
    requires VR(sg, s, v)
    ensures var f, g := SField(s, key), FieldResult(v, key);
            if f.Formed? then g.Formed? && VR(sg, f.value, g.value) else g == Malformed(f.e)
  {
  }

  lemma ReadAlike(k: Context, hi: nat, target: Val, key: Key, s: SVal, t: SKey, env: Env)
    requires Denotes(k, hi, target, s, env) && DenotesKey(k, hi, key, t, env)
    ensures var f, g := SIndex(s, t), PrimResult(k, Index(target, key), env);
            if f.Formed? then g.Formed? && VR(k.sig.Keys, f.value, g.value) else g == Malformed(f.e)
  {
    DenotesForms(k, hi, target, s, env);
    IndexRuns(k, target, key, env);
    KeyReads(k, hi, Form(k, target, env).value, key, s, t, env);
  }

  lemma IndexRuns(k: Context, target: Val, key: Key, env: Env)
    requires Form(k, target, env).Formed?
    ensures PrimResult(k, Index(target, key), env) == IndexResult(k, Form(k, target, env).value, key, env)
  {
  }

  lemma KeyReads(k: Context, hi: nat, v: Value, key: Key, s: SVal, t: SKey, env: Env)
    requires VR(k.sig.Keys, s, v) && DenotesKey(k, hi, key, t, env)
    ensures var f, g := SIndex(s, t), IndexResult(k, v, key, env);
            if f.Formed? then g.Formed? && VR(k.sig.Keys, f.value, g.value) else g == Malformed(f.e)
  {
    hide Form, Surrounds, SField, FieldResult;
    match key
    case Label(l) => FieldAlike(k.sig.Keys, s, v, l);
    case Position(_) =>
    case Data(d) =>
      DenotesForms(k, hi, d, t.v, env);
      if t.v.SStr? { FieldAlike(k.sig.Keys, s, v, t.v.s); }
  }

  /** Each read but the last is bound, and a read that fails is the last to run. */
  lemma {:induction false} ReadsAlike(k: Context, fuel: nat, target: Val, keys: seq<Key>, n: nat, s: SVal, ts: seq<SKey>,
                                      sargs: seq<SVal>, env: Env, args: seq<Value>, tr: Trace)
    requires keys != [] && Denotes(k, n, target, s, env) && DenotesKeys(k, n, keys, ts, env) && VRs(k.sig.Keys, sargs, args)
    ensures ExprR(k, fuel, n, LowerIndex(target, keys, n), SSettle(SIndexAll(s, ts), sargs, tr), env, args, tr)
    decreases |keys|
  {
    hide VR, Denotes, SIndex, PrimResult, Eval;
    ReadAlike(k, n, target, keys[0], s, ts[0], env);
    var f, g := SIndex(s, ts[0]), PrimResult(k, Index(target, keys[0]), env);
    if |keys| == 1 {
      LastRead(k, fuel, target, keys, n, s, ts, sargs, env, args, tr);
    } else if f.Formed? {
      TempDenotes(k, n, keys[1..], f.value, ts[1..], g.value, env);
      ReadsAlike(k, fuel, Variable(Temp(n + 1)), keys[1..], n + 1, f.value, ts[1..], sargs, env[Temp(n + 1) := g.value], args, tr);
      ReadThen(k, fuel, target, keys, n, SSettle(SIndexAll(s, ts), sargs, tr), env, args, tr);
    } else {
      ReadStops(k, fuel, target, keys, n, env, args, tr);
    }
  }

  lemma LastRead(k: Context, fuel: nat, target: Val, keys: seq<Key>, n: nat, s: SVal, ts: seq<SKey>,
                 sargs: seq<SVal>, env: Env, args: seq<Value>, tr: Trace)
    requires |keys| == 1 && Denotes(k, n, target, s, env) && DenotesKeys(k, n, keys, ts, env) && VRs(k.sig.Keys, sargs, args)
    ensures ExprR(k, fuel, n, LowerIndex(target, keys, n), SSettle(SIndexAll(s, ts), sargs, tr), env, args, tr)
  {
    hide VR, Denotes, Eval;
    ReadAlike(k, n, target, keys[0], s, ts[0], env);
    assert ts[1..] == [] && SIndex(s, ts[0]) == SIndexAll(s, ts);
    PrimitiveRuns(k, fuel, Index(target, keys[0]), env, args, tr);
    SettleAlike(k.sig.Keys, SIndex(s, ts[0]), PrimResult(k, Index(target, keys[0]), env), sargs, args, tr);
  }

  lemma TempDenotes(k: Context, n: nat, keys: seq<Key>, s: SVal, ts: seq<SKey>, v: Value, env: Env)
    requires DenotesKeys(k, n, keys, ts, env) && VR(k.sig.Keys, s, v)
    ensures var env' := env[Temp(n + 1) := v];
            Denotes(k, n + 1, Variable(Temp(n + 1)), s, env') && DenotesKeys(k, n + 1, keys, ts, env')
  {
    TempExtends(env, n, n + 1, v);
    TempsAreOld(n + 1, n + 1);
    KeysStay(k, n, n + 1, keys, ts, env, env[Temp(n + 1) := v]);
  }

  lemma ReadStops(k: Context, fuel: nat, target: Val, keys: seq<Key>, n: nat, env: Env, args: seq<Value>, tr: Trace)
    requires |keys| > 1 && PrimResult(k, Index(target, keys[0]), env).Malformed?
    ensures RunBinds(k, fuel, LowerIndex(target, keys, n).binds, env, tr) == Ended(Failed(PrimResult(k, Index(target, keys[0]), env).e, tr))
  {
    assert LowerIndex(target, keys, n).binds[0].comp == Primitive(Index(target, keys[0]));
  }

  /** One read bound, the rest run under it. */
  lemma ReadThen(k: Context, fuel: nat, target: Val, keys: seq<Key>, n: nat, s: SOutcome, env: Env, args: seq<Value>, tr: Trace)
    requires |keys| > 1 && PrimResult(k, Index(target, keys[0]), env).Formed?
    requires var env' := env[Temp(n + 1) := PrimResult(k, Index(target, keys[0]), env).value];
             ExprR(k, fuel, n + 1, LowerIndex(Variable(Temp(n + 1)), keys[1..], n + 1), s, env', args, tr)
    ensures ExprR(k, fuel, n, LowerIndex(target, keys, n), s, env, args, tr)
  {
    var v := PrimResult(k, Index(target, keys[0]), env).value;
    var env' := env[Temp(n + 1) := v];
    var read := Primitive(Index(target, keys[0]));
    var more := LowerIndex(Variable(Temp(n + 1)), keys[1..], n + 1);
    var l := LowerIndex(target, keys, n);
    assert l.binds[0] == Hoist(Temp(n + 1), read) && l.binds[1..] == more.binds;
    PrimitiveRuns(k, fuel, read.prim, env, [], tr);
    TempExtends(env, n, n + 1, v);
    var p := RunBinds(k, fuel, more.binds, env', tr);
    if p.Reached? { ExtendsTrans(env, env', p.env, n, n + 1); }
  }

  lemma {:induction false} IndexedAlike(sk: SContext, k: Context, fuel: nat, e: Ast, bound: set<Name>, n: nat, senv: SEnv, sargs: seq<SVal>, env: Env, args: seq<Value>, tr: Trace)
    requires At(sk, k, Uses(e), bound, senv, env) && Admitted(e, bound) && VRs(k.sig.Keys, sargs, args) && e.AIndex?
    ensures ExprR(k, fuel, n, Elab(e, bound, n), SEval(sk, fuel, e, senv, sargs, tr), env, args, tr)
    decreases fuel, 2, e, 1
  {
    AtFewer(sk, k, Uses(e), Uses(e.target), bound, senv, env);
    OperandAlike(sk, k, fuel, e.target, bound, n, senv, env, tr);
    var a := HoistVal(Elab(e.target, bound, n));
    var b := ElabKeys(e.keys, bound, a.next);
    var read := LowerIndex(a.v, b.keys, b.next);
    RunAppend(k, fuel, a.binds, b.binds, env, tr);
    RunAppend(k, fuel, a.binds + b.binds, read.binds, env, tr);
    var s, p := AsValue(SEval(sk, fuel, e.target, senv, [], tr)), RunBinds(k, fuel, a.binds, env, tr);
    if s.Ran? {
      AtLater(sk, k, Uses(e), bound, senv, env, p.env, n);
      AtFewer(sk, k, Uses(e), UsesKeys(e.keys), bound, senv, p.env);
      KeysAlike(sk, k, fuel, e.keys, bound, a.next, senv, p.env, p.tr);
      var t, q := SKeys(sk, fuel, e.keys, senv, p.tr), RunBinds(k, fuel, b.binds, p.env, p.tr);
      if t.Ran? { KeyedAlike(k, fuel, n, a, b, s.value, t.value, sargs, env, p.env, q.env, args, q.tr); }
    }
  }

  lemma KeyedAlike(k: Context, fuel: nat, n: nat, a: LoweredVal, b: LoweredKeys, s: SVal, ts: seq<SKey>,
                   sargs: seq<SVal>, e: Env, f: Env, g: Env, args: seq<Value>, tr: Trace)
    requires b.keys != [] && n <= a.next <= b.next && VRs(k.sig.Keys, sargs, args)
    requires Extends(e, f, n) && Denotes(k, a.next, a.v, s, f) && Extends(f, g, a.next) && DenotesKeys(k, b.next, b.keys, ts, g)
    ensures var read := LowerIndex(a.v, b.keys, b.next);
            var p := RunBinds(k, fuel, read.binds, g, tr);
            && (p.Reached? ==> Extends(e, p.env, n))
            && OR(k.sig.Keys, SSettle(SIndexAll(s, ts), sargs, tr), Finish(k, fuel, p, read.comp, args))
  {
    DenotesStays(k, a.next, b.next, a.v, s, f, g);
    ReadsAlike(k, fuel, a.v, b.keys, b.next, s, ts, sargs, g, args, tr);
    ExtendsTrans(e, f, g, n, a.next);
    var p := RunBinds(k, fuel, LowerIndex(a.v, b.keys, b.next).binds, g, tr);
    if p.Reached? { ExtendsTrans(e, g, p.env, n, b.next); }
  }

  /** Every expression, with its bindings run first, ends as it does read left
      to right: same trace, same failure, related value. */
  lemma {:induction false} ExprAlike(sk: SContext, k: Context, fuel: nat, e: Ast, bound: set<Name>, n: nat, senv: SEnv, sargs: seq<SVal>, env: Env, args: seq<Value>, tr: Trace)
    requires At(sk, k, Uses(e), bound, senv, env) && Admitted(e, bound) && VRs(k.sig.Keys, sargs, args)
    ensures ExprR(k, fuel, n, Elab(e, bound, n), SEval(sk, fuel, e, senv, sargs, tr), env, args, tr)
    decreases fuel, 2, e, 3
  {
    hide SEval, Eval, VR, EnvR, InScope, Elab, OR, RunBinds, Extends, Finish;
    match e
    case AForce(_) => ForcedAlike(sk, k, fuel, e, bound, n, senv, sargs, env, args, tr);
    case ACall(h, _) =>
      if h.HValue? { ValueCallAlike(sk, k, fuel, e, bound, n, senv, sargs, env, args, tr); }
      else { NamedCallAlike(sk, k, fuel, e, bound, n, senv, sargs, env, args, tr); }
    case AIndex(_, _) => IndexedAlike(sk, k, fuel, e, bound, n, senv, sargs, env, args, tr);
    case ABinary(_, _, _) => BinaryAlike(sk, k, fuel, e, bound, n, senv, sargs, env, args, tr);
    case ANot(_) => NotAlike(sk, k, fuel, e, bound, n, senv, sargs, env, args, tr);
    case AJunction(_, _, _) => JunctionAlike(sk, k, fuel, e, bound, n, senv, sargs, env, args, tr);
    case AIf(_, _, _) => IfAlike(sk, k, fuel, e, bound, n, senv, sargs, env, args, tr);
    case ATry(_, _) => TriedAlike(sk, k, fuel, e, bound, n, senv, sargs, env, args, tr);
    case _ => FormAlike(sk, k, fuel, e, bound, n, senv, sargs, env, args, tr);
  }
}
