/** When the keys of a chain of reads run.

    Hoisting runs every computed key of `$xs[k1][k2]…` ahead of the first read.
    Read as written, a read that fails is the last thing to run.  The two agree
    exactly where no key after a failing read leaves an operation or another
    ending, and that is so of every program whose later keys are labels,
    positions and value forms. */
module ReadOrder {
  import opened Ir
  import opened Evaluator
  import opened Wrappers
  import opened Surface

  // ── Three readings of one program ────────────────────────────────────────

  function Direct(k: SContext): SContext { k.(order := ReadByRead) }

  function Late(k: SContext): SContext { k.(order := KeysFirst) }

  function Watch(k: SContext): SContext { k.(order := Watched) }

  ghost predicate Agree(w: SOutcome, d: SOutcome, l: SOutcome) {
    !w.SDisturbed? ==> d == w && l == w
  }

  /** An operand, or a row of them, under the three readings. */
  ghost predicate AgreeRan<T(!new)>(w: Ran<T>, d: Ran<T>, l: Ran<T>) {
    !(w.Stopped? && w.o.SDisturbed?) ==> d == w && l == w
  }

  lemma {:induction false} ApplyAgrees(k: SContext, fuel: nat, ps: seq<Name>, body: seq<Stmt>, env: SEnv, args: seq<SVal>, tr: Trace)
    ensures Agree(SApply(Watch(k), fuel, ps, body, env, args, tr), SApply(Direct(k), fuel, ps, body, env, args, tr),
                  SApply(Late(k), fuel, ps, body, env, args, tr))
    decreases fuel, 3, |ps|
  {
    if ps == [] {
      StmtsAgree(k, fuel, body, env, args, tr);
    } else if args != [] {
      ApplyAgrees(k, fuel, ps[1..], body, env[ps[0] := args[0]], args[1..], tr);
    }
  }

  lemma {:induction false} EnterAgrees(k: SContext, fuel: nat, f: SVal, args: seq<SVal>, tr: Trace)
    ensures Agree(SEnter(Watch(k), fuel, f, args, tr), SEnter(Direct(k), fuel, f, args, tr), SEnter(Late(k), fuel, f, args, tr))
    decreases fuel, 0
  {
    if f.SClosure? && fuel > 0 {
      ApplyAgrees(k, fuel - 1, f.params, f.body, f.env, args, tr);
    } else if f.SKnot? && f.index < |f.knot.defs| && fuel > 0 {
      ApplyAgrees(k, fuel - 1, f.knot.defs[f.index].params, f.knot.defs[f.index].body, Tie(f.knot, |f.knot.defs|), args, tr);
    }
  }

  lemma {:induction false} MeetAgrees(k: SContext, fuel: nat, t: STerminal, args: seq<SVal>, tr: Trace)
    ensures Agree(SMeet(Watch(k), fuel, t, args, tr), SMeet(Direct(k), fuel, t, args, tr), SMeet(Late(k), fuel, t, args, tr))
    decreases fuel, 0
  {
    if t.SPartial? && args != [] && fuel > 0 { ApplyAgrees(k, fuel - 1, t.params, t.body, t.env, args, tr); }
  }

  lemma {:induction false} OperandsAgree(k: SContext, fuel: nat, es: seq<Ast>, env: SEnv, tr: Trace)
    ensures AgreeRan(SOperands(Watch(k), fuel, es, env, tr), SOperands(Direct(k), fuel, es, env, tr), SOperands(Late(k), fuel, es, env, tr))
    decreases fuel, 2, es, 0
  {
    if es != [] {
      EvalAgrees(k, fuel, es[0], env, [], tr);
      var r := AsValue(SEval(Watch(k), fuel, es[0], env, [], tr));
      if r.Ran? { OperandsAgree(k, fuel, es[1..], env, r.tr); }
    }
  }

  lemma {:induction false} KeyAgrees(k: SContext, fuel: nat, key: KeyAst, env: SEnv, tr: Trace)
    ensures AgreeRan(SKeyOf(Watch(k), fuel, key, env, tr), SKeyOf(Direct(k), fuel, key, env, tr), SKeyOf(Late(k), fuel, key, env, tr))
    decreases fuel, 2, key, 0
  {
    if key.KData? { EvalAgrees(k, fuel, key.e, env, [], tr); }
  }

  lemma {:induction false} KeysAgree(k: SContext, fuel: nat, ks: seq<KeyAst>, env: SEnv, tr: Trace)
    ensures AgreeRan(SKeys(Watch(k), fuel, ks, env, tr), SKeys(Direct(k), fuel, ks, env, tr), SKeys(Late(k), fuel, ks, env, tr))
    decreases fuel, 2, ks, 0
  {
    if ks != [] {
      KeyAgrees(k, fuel, ks[0], env, tr);
      var r := SKeyOf(Watch(k), fuel, ks[0], env, tr);
      if r.Ran? { KeysAgree(k, fuel, ks[1..], env, r.tr); }
    }
  }

  lemma {:induction false} ReadsAgree(k: SContext, fuel: nat, v: SVal, ks: seq<KeyAst>, env: SEnv, args: seq<SVal>, tr: Trace)
    ensures Agree(SReads(Watch(k), fuel, v, ks, env, args, tr), SReads(Direct(k), fuel, v, ks, env, args, tr),
                  SLateReads(Late(k), fuel, v, ks, env, args, tr))
    decreases fuel, 2, ks, 1
  {
    if ks != [] {
      KeyAgrees(k, fuel, ks[0], env, tr);
      var r := SKeyOf(Watch(k), fuel, ks[0], env, tr);
      if r.Ran? {
        LateStep(Late(k), fuel, v, ks, env, args, tr);
        match SIndex(v, r.value)
        case Formed(w) => ReadsAgree(k, fuel, w, ks[1..], env, args, r.tr);
        case Malformed(_) => KeysAgree(k, fuel, ks[1..], env, r.tr);
      }
    }
  }

  /** The first key run and its read taken apart from the rest. */
  lemma LateStep(k: SContext, fuel: nat, v: SVal, ks: seq<KeyAst>, env: SEnv, args: seq<SVal>, tr: Trace)
    requires ks != []
    ensures var r := SKeyOf(k, fuel, ks[0], env, tr);
            SLateReads(k, fuel, v, ks, env, args, tr) ==
            if r.Stopped? then r.o
            else if SIndex(v, r.value).Formed? then SLateReads(k, fuel, SIndex(v, r.value).value, ks[1..], env, args, r.tr)
            else
              var rest := SKeys(k, fuel, ks[1..], env, r.tr);
              if rest.Stopped? then rest.o else SFailed(SIndex(v, r.value).e, rest.tr)
  {
    var r := SKeyOf(k, fuel, ks[0], env, tr);
    if r.Ran? {
      var rest := SKeys(k, fuel, ks[1..], env, r.tr);
      if rest.Ran? { assert ([r.value] + rest.value)[1..] == rest.value; }
    }
  }

  lemma {:induction false} ArmAgrees(k: SContext, fuel: nat, a: ArmAst, env: SEnv, args: seq<SVal>, tr: Trace)
    ensures Agree(SArm(Watch(k), fuel, a, env, args, tr), SArm(Direct(k), fuel, a, env, args, tr), SArm(Late(k), fuel, a, env, args, tr))
    decreases fuel, 2, a, 0
  {
    match a
    case ArmBlock(body) => if fuel > 0 { StmtsAgree(k, fuel - 1, body, env, args, tr); }
    case ArmName(x) =>
      var f := SLookup(k, env, x);
      if f.Some? { EnterAgrees(k, fuel, f.value, args, tr); }
  }

  lemma {:induction false} ChainAgrees(k: SContext, fuel: nat, r: Chain, env: SEnv, args: seq<SVal>, tr: Trace)
    ensures Agree(SChain(Watch(k), fuel, r, env, args, tr), SChain(Direct(k), fuel, r, env, args, tr), SChain(Late(k), fuel, r, env, args, tr))
    decreases fuel, 2, r, 0
  {
    match r
    case NoElse =>
    case Else(a) => ArmAgrees(k, fuel, a, env, args, tr);
    case ElseIf(c, a, r1) =>
      if fuel > 0 {
        EvalAgrees(k, fuel - 1, c, env, [], tr);
        var s := AsValue(SEval(Watch(k), fuel - 1, c, env, [], tr));
        if s.Ran? && s.value.SBool? {
          if s.value.b { ArmAgrees(k, fuel - 1, a, env, args, s.tr); } else { ChainAgrees(k, fuel - 1, r1, env, args, s.tr); }
        }
      }
  }

  lemma {:induction false} LoneArmAgrees(k: SContext, fuel: nat, a: ArmAst, env: SEnv, args: seq<SVal>, tr: Trace)
    ensures Agree(SLoneArm(Watch(k), fuel, a, env, args, tr), SLoneArm(Direct(k), fuel, a, env, args, tr), SLoneArm(Late(k), fuel, a, env, args, tr))
    decreases fuel, 2, a, 1
  {
    if fuel > 0 {
      match a
      case ArmBlock(body) => StmtsAgree(k, fuel - 1, body, env, [], tr);
      case ArmName(_) => ArmAgrees(k, fuel - 1, a, env, [], tr);
    }
  }

  lemma {:induction false} TryAgrees(k: SContext, fuel: nat, f: SVal, g: SVal, args: seq<SVal>, tr: Trace)
    ensures Agree(STry(Watch(k), fuel, f, g, args, tr), STry(Direct(k), fuel, f, g, args, tr), STry(Late(k), fuel, f, g, args, tr))
    decreases fuel, 1
  {
    EnterAgrees(k, fuel, f, [], tr);
    match SEnter(Watch(k), fuel, f, [], tr)
    case SDone(t, tr1) => MeetAgrees(k, fuel, t, args, tr1);
    case SFailed(e, tr1) => EnterAgrees(k, fuel, g, [SErrorValue(e)] + args, tr1);
    case _ =>
  }

  lemma {:induction false} CommandAgrees(k: SContext, fuel: nat, x: Name, external: bool, vs: seq<SVal>, env: SEnv, args: seq<SVal>, tr: Trace)
    ensures Agree(SCall(Watch(k), fuel, x, external, vs, env, args, tr), SCall(Direct(k), fuel, x, external, vs, env, args, tr),
                  SCall(Late(k), fuel, x, external, vs, env, args, tr))
    decreases fuel, 1
  {
    var f := SLookup(k, env, x);
    if !external && f.Some? { EnterAgrees(k, fuel, f.value, vs + args, tr); }
  }

  ghost predicate ExprAgrees(k: SContext, fuel: nat, e: Ast, env: SEnv, args: seq<SVal>, tr: Trace) {
    Agree(SEval(Watch(k), fuel, e, env, args, tr), SEval(Direct(k), fuel, e, env, args, tr), SEval(Late(k), fuel, e, env, args, tr))
  }

  lemma {:induction false} CallAgrees(k: SContext, fuel: nat, e: Ast, env: SEnv, args: seq<SVal>, tr: Trace)
    requires e.ACall?
    ensures ExprAgrees(k, fuel, e, env, args, tr)
    decreases fuel, 2, e, 0
  {
    if e.head.HValue? {
      EvalAgrees(k, fuel, e.head.e, env, [], tr);
      var f := AsValue(SEval(Watch(k), fuel, e.head.e, env, [], tr));
      if f.Ran? {
        OperandsAgree(k, fuel, e.args, env, f.tr);
        var vs := SOperands(Watch(k), fuel, e.args, env, f.tr);
        if vs.Ran? { EnterAgrees(k, fuel, f.value, vs.value + args, vs.tr); }
      }
    } else {
      OperandsAgree(k, fuel, e.args, env, tr);
      var vs := SOperands(Watch(k), fuel, e.args, env, tr);
      if vs.Ran? { CommandAgrees(k, fuel, e.head.x, e.head.HExternal?, vs.value, env, args, vs.tr); }
    }
  }

  lemma {:induction false} IndexAgrees(k: SContext, fuel: nat, e: Ast, env: SEnv, args: seq<SVal>, tr: Trace)
    requires e.AIndex?
    ensures ExprAgrees(k, fuel, e, env, args, tr)
    decreases fuel, 2, e, 0
  {
    EvalAgrees(k, fuel, e.target, env, [], tr);
    var v := AsValue(SEval(Watch(k), fuel, e.target, env, [], tr));
    if v.Ran? { ReadsAgree(k, fuel, v.value, e.keys, env, args, v.tr); }
  }

  lemma {:induction false} BinaryAgrees(k: SContext, fuel: nat, e: Ast, env: SEnv, args: seq<SVal>, tr: Trace)
    requires e.ABinary?
    ensures ExprAgrees(k, fuel, e, env, args, tr)
    decreases fuel, 2, e, 0
  {
    EvalAgrees(k, fuel, e.l, env, [], tr);
    var a := AsValue(SEval(Watch(k), fuel, e.l, env, [], tr));
    if a.Ran? { EvalAgrees(k, fuel, e.r, env, [], a.tr); }
  }

  lemma {:induction false} JunctionAgrees(k: SContext, fuel: nat, e: Ast, env: SEnv, args: seq<SVal>, tr: Trace)
    requires e.AJunction?
    ensures ExprAgrees(k, fuel, e, env, args, tr)
    decreases fuel, 2, e, 0
  {
    EvalAgrees(k, fuel, e.l, env, [], tr);
    var a := AsValue(SEval(Watch(k), fuel, e.l, env, [], tr));
    if a.Ran? && fuel > 0 { EvalAgrees(k, fuel - 1, e.r, env, args, a.tr); }
  }

  lemma {:induction false} IfAgrees(k: SContext, fuel: nat, e: Ast, env: SEnv, args: seq<SVal>, tr: Trace)
    requires e.AIf?
    ensures ExprAgrees(k, fuel, e, env, args, tr)
    decreases fuel, 2, e, 0
  {
    EvalAgrees(k, fuel, e.cond, env, [], tr);
    var c := AsValue(SEval(Watch(k), fuel, e.cond, env, [], tr));
    if c.Ran? {
      ArmAgrees(k, fuel, e.arm, env, args, c.tr);
      LoneArmAgrees(k, fuel, e.arm, env, args, c.tr);
      ChainAgrees(k, fuel, e.rest, env, args, c.tr);
    }
  }

  lemma {:induction false} TriedAgrees(k: SContext, fuel: nat, e: Ast, env: SEnv, args: seq<SVal>, tr: Trace)
    requires e.ATry?
    ensures ExprAgrees(k, fuel, e, env, args, tr)
    decreases fuel, 2, e, 0
  {
    EvalAgrees(k, fuel, e.tried, env, [], tr);
    var f := AsValue(SEval(Watch(k), fuel, e.tried, env, [], tr));
    if f.Ran? {
      EvalAgrees(k, fuel, e.handler, env, [], f.tr);
      var g := AsValue(SEval(Watch(k), fuel, e.handler, env, [], f.tr));
      if g.Ran? { TryAgrees(k, fuel, f.value, g.value, args, g.tr); }
    }
  }

  /** A run that is never disturbed is the run as written and the run with keys
      first. */
  lemma {:induction false} EvalAgrees(k: SContext, fuel: nat, e: Ast, env: SEnv, args: seq<SVal>, tr: Trace)
    ensures ExprAgrees(k, fuel, e, env, args, tr)
    decreases fuel, 2, e, 1
  {
    match e
    case AForce(d) =>
      EvalAgrees(k, fuel, d, env, [], tr);
      var f := AsValue(SEval(Watch(k), fuel, d, env, [], tr));
      if f.Ran? { EnterAgrees(k, fuel, f.value, args, f.tr); }
    case ACall(_, _) => CallAgrees(k, fuel, e, env, args, tr);
    case AReturn(d) => EvalAgrees(k, fuel, d, env, [], tr);
    case AList(es) => OperandsAgree(k, fuel, es, env, tr);
    case AIndex(_, _) => IndexAgrees(k, fuel, e, env, args, tr);
    case ABinary(_, _, _) => BinaryAgrees(k, fuel, e, env, args, tr);
    case ANot(d) => EvalAgrees(k, fuel, d, env, [], tr);
    case AJunction(_, _, _) => JunctionAgrees(k, fuel, e, env, args, tr);
    case AIf(_, _, _) => IfAgrees(k, fuel, e, env, args, tr);
    case ATry(_, _) => TriedAgrees(k, fuel, e, env, args, tr);
    case _ =>
  }

  lemma {:induction false} StmtsAgree(k: SContext, fuel: nat, ss: seq<Stmt>, env: SEnv, args: seq<SVal>, tr: Trace)
    ensures Agree(SStmts(Watch(k), fuel, ss, env, args, tr), SStmts(Direct(k), fuel, ss, env, args, tr), SStmts(Late(k), fuel, ss, env, args, tr))
    decreases fuel, 2, ss, 0
  {
    if ss != [] && ss[0].SDefs? {
      StmtsAgree(k, fuel, ss[1..], Tie(Knot(ss[0].defs, env), |ss[0].defs|), args, tr);
    } else if ss != [] {
      assert ss[0].e < ss[0];
      if |ss| == 1 && ss[0].SDo? {
        EvalAgrees(k, fuel, ss[0].e, env, args, tr);
      } else {
        EvalAgrees(k, fuel, ss[0].e, env, [], tr);
        var v := AsValue(SEval(Watch(k), fuel, ss[0].e, env, [], tr));
        if v.Ran? { StmtsAgree(k, fuel, ss[1..], if ss[0].SLet? then env[ss[0].x := v.value] else env, args, v.tr); }
      }
    }
  }

  // ── Exactly when they agree ──────────────────────────────────────────────

  /** A chain of reads whose parts are undisturbed reads alike both ways if and
      only if no key after a failing read is felt. */
  lemma {:induction false} ReadsAgreeIff(k: SContext, fuel: nat, v: SVal, ks: seq<KeyAst>, env: SEnv, args: seq<SVal>, tr: Trace)
    requires SKeys(Watch(k), fuel, ks, env, tr).Stopped? ==> !SKeys(Watch(k), fuel, ks, env, tr).o.SDisturbed?
    ensures var d, l := SReads(Direct(k), fuel, v, ks, env, args, tr), SLateReads(Late(k), fuel, v, ks, env, args, tr);
            && (d == l <==> !SReads(Watch(k), fuel, v, ks, env, args, tr).SDisturbed?)
            && (d != l ==> d.SFailed?)
    decreases |ks|
  {
    ReadsAgree(k, fuel, v, ks, env, args, tr);
    if ks != [] {
      KeyAgrees(k, fuel, ks[0], env, tr);
      var r := SKeyOf(Watch(k), fuel, ks[0], env, tr);
      if r.Ran? {
        LateStep(Late(k), fuel, v, ks, env, args, tr);
        match SIndex(v, r.value)
        case Formed(w) => ReadsAgreeIff(k, fuel, w, ks[1..], env, args, r.tr);
        case Malformed(_) => KeysAgree(k, fuel, ks[1..], env, r.tr);
      }
    }
  }

  ghost predicate Undisturbed(o: SOutcome) { !o.SDisturbed? }

  /** The target and the keys, each on its own, are undisturbed. */
  ghost predicate PartsUndisturbed(k: SContext, fuel: nat, e: Ast, env: SEnv, tr: Trace)
    requires e.AIndex?
  {
    match AsValue(SEval(Watch(k), fuel, e.target, env, [], tr))
    case Stopped(o) => Undisturbed(o)
    case Ran(_, tr1) =>
      match SKeys(Watch(k), fuel, e.keys, env, tr1)
      case Stopped(o) => Undisturbed(o)
      case Ran(_, _) => true
  }

  lemma IndexAgreesIff(k: SContext, fuel: nat, e: Ast, env: SEnv, args: seq<SVal>, tr: Trace)
    requires e.AIndex? && PartsUndisturbed(k, fuel, e, env, tr)
    ensures var d, l := SEval(Direct(k), fuel, e, env, args, tr), SEval(Late(k), fuel, e, env, args, tr);
            && (d == l <==> Undisturbed(SEval(Watch(k), fuel, e, env, args, tr)))
            && (d != l ==> d.SFailed?)
  {
    EvalAgrees(k, fuel, e.target, env, [], tr);
    var v := AsValue(SEval(Watch(k), fuel, e.target, env, [], tr));
    if v.Ran? { ReadsAgreeIff(k, fuel, v.value, e.keys, env, args, v.tr); }
  }
}
