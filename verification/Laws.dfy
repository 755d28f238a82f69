/** What the evaluator's forms do, each said by its outcome and by other forms. */
module Laws {
  import opened Ir
  import opened Evaluator
  import opened Surface
  import opened Wrappers

  // ── Functions, bindings, branches ────────────────────────────────────────

  /** Arguments meet parameters in order, the first the outermost. */
  lemma ArgumentsBindInOrder(k: Context, fuel: nat, x: Name, y: Name, body: Comp, a: Val, b: Val, env: Env, args: seq<Value>, tr: Trace)
    requires Form(k, a, env).Formed? && Form(k, b, env).Formed?
    ensures Eval(k, fuel, App(Lam(x, Lam(y, body)), [a, b]), env, args, tr) ==
            Eval(k, fuel, body, env[x := Form(k, a, env).value][y := Form(k, b, env).value], args, tr)
  {
    PairForms(k, a, b, env);
    hide FormAll, Form;
    var vs := [Form(k, a, env).value, Form(k, b, env).value] + args;
    assert vs[1..][0] == Form(k, b, env).value && vs[1..][1..] == args;
    assert Eval(k, fuel, App(Lam(x, Lam(y, body)), [a, b]), env, args, tr) == Eval(k, fuel, Lam(x, Lam(y, body)), env, vs, tr);
    assert Eval(k, fuel, Lam(x, Lam(y, body)), env, vs, tr) == Eval(k, fuel, Lam(y, body), env[x := vs[0]], vs[1..], tr);
  }

  /** What a returned value is bound to, and what a step goes on with. */
  lemma BoundsAreSeen(k: Context, fuel: nat, v: Val, x: Name, rest: Comp, env: Env, args: seq<Value>, tr: Trace)
    requires Form(k, v, env).Formed?
    ensures Eval(k, fuel, Bind(Return(v), Binder(x), rest), env, args, tr) == Eval(k, fuel, rest, env[x := Form(k, v, env).value], args, tr)
    ensures Eval(k, fuel, Seq(Return(v), rest), env, args, tr) == Eval(k, fuel, rest, env, args, tr)
    ensures Eval(k, fuel, Bind(Return(v), Wildcard, rest), env, args, tr) == Eval(k, fuel, Seq(Return(v), rest), env, args, tr)
  {
  }

  /** `if` forces one side, and `!` turns it over. */
  lemma IfForcesOneSide(k: Context, fuel: nat, w: bool, t: Val, e: Val, env: Env, args: seq<Value>, tr: Trace)
    ensures Eval(k, fuel, If(Bool(w), t, e), env, args, tr) == Eval(k, fuel, Force(if w then t else e), env, args, tr)
    ensures PrimResult(k, Not(Bool(w)), env) == Formed(VBool(!w))
  {
  }

  // ── Guard ────────────────────────────────────────────────────────────────

  /** A value or a failure or an exit: not starved, and no bare lambda. */
  predicate Settled(o: Outcome) {
    !o.Starved? && !(o.Done? && o.t.Lambda?)
  }

  /** Whatever its body comes to, `guard` forces the cleanup from where the body left
      off, and nothing after it; the outcome is the body's if the cleanup ends, and
      otherwise the cleanup's. */
  lemma GuardAlwaysCleansUp(k: Context, fuel: nat, b: Val, c: Val, env: Env, args: seq<Value>, tr: Trace)
    requires Form(k, b, env).Formed? && Form(k, c, env).Formed?
    ensures var body := Enter(k, fuel, Form(k, b, env).value, [], tr);
            var o := Eval(k, fuel, Guard(b, c), env, args, tr);
            Settled(body) ==>
              var clean := Enter(k, fuel, Form(k, c, env).value, [], body.tr);
              && o.tr == clean.tr
              && (!clean.Done? ==> o == clean)
              && (clean.Done? && body.Failed? ==> o == Failed(body.e, clean.tr))
              && (clean.Done? && body.Exited? ==> o == Exited(body.code, clean.tr))
              && (clean.Done? && body.Done? ==> o == if args == [] then Done(body.t, clean.tr) else Failed(NotAFunction, clean.tr))
    ensures var body := Enter(k, fuel, Form(k, b, env).value, [], tr);
            !Settled(body) ==> Eval(k, fuel, Guard(b, c), env, args, tr) == if body.Starved? then body else Failed(BareLambda, body.tr)
  {
    PairForms(k, b, c, env);
    hide FormAll, Form, Enter;
    var body := Enter(k, fuel, Form(k, b, env).value, [], tr);
    if Settled(body) && body.Done? {
      var clean := Enter(k, fuel, Form(k, c, env).value, [], body.tr);
      MetPlain(k, fuel, body.t, args, clean.tr);
    }
  }

  lemma MetPlain(k: Context, fuel: nat, t: Terminal, args: seq<Value>, tr: Trace)
    ensures t.Plain? ==> Meet(k, fuel, t, args, tr) == if args == [] then Done(t, tr) else Failed(NotAFunction, tr)
    ensures Meet(k, fuel, t, [], tr) == Done(t, tr)
  {
  }

  lemma PairForms(k: Context, a: Val, b: Val, env: Env)
    ensures FormAll(k, [a, b], env) ==
            if Form(k, a, env).Malformed? then Malformed(Form(k, a, env).e)
            else if Form(k, b, env).Malformed? then Malformed(Form(k, b, env).e)
            else Formed([Form(k, a, env).value, Form(k, b, env).value])
  {
    assert [a, b][1..] == [b] && [b][1..] == [];
    assert FormAll(k, [], env) == Formed([]);
    if Form(k, b, env).Formed? { assert [Form(k, b, env).value] + [] == [Form(k, b, env).value]; }
    assert FormAll(k, [b], env) == if Form(k, b, env).Malformed? then Malformed(Form(k, b, env).e) else Formed([Form(k, b, env).value]);
    if Form(k, a, env).Formed? && Form(k, b, env).Formed? {
      assert [Form(k, a, env).value] + [Form(k, b, env).value] == [Form(k, a, env).value, Form(k, b, env).value];
    }
  }

  lemma NameRuns(k: Context, fuel: nat, x: Name, env: Env, args: seq<Value>, tr: Trace)
    requires x in env
    ensures Form(k, Variable(x), env) == Formed(env[x])
    ensures Eval(k, fuel, Force(Variable(x)), env, args, tr) == Enter(k, fuel, env[x], args, tr)
  {
  }

  /** On a body that returns, `guard b c` is `b to x. c ⨟ return x`. */
  lemma GuardedReturn(k: Context, fuel: nat, b: Name, c: Name, x: Name, env: Env, tr: Trace)
    requires b in env && c in env && x != b && x != c
    requires Enter(k, fuel, env[b], [], tr).Done? && Enter(k, fuel, env[b], [], tr).t.Plain?
    requires var o := Enter(k, fuel, env[b], [], tr); var clean := Enter(k, fuel, env[c], [], o.tr); clean.Done? ==> clean.t.Plain?
    ensures Eval(k, fuel, Guard(Variable(b), Variable(c)), env, [], tr) ==
            Eval(k, fuel, Bind(Force(Variable(b)), Binder(x), Seq(Force(Variable(c)), Return(Variable(x)))), env, [], tr)
  {
    NameRuns(k, fuel, b, env, [], tr);
    NameRuns(k, fuel, c, env, [], tr);
    GuardAlwaysCleansUp(k, fuel, Variable(b), Variable(c), env, [], tr);
    hide Enter, EvalGuard;
    var o := Enter(k, fuel, env[b], [], tr);
    var env' := env[x := o.t.v];
    NameRuns(k, fuel, c, env', [], o.tr);
    ThenReturns(k, fuel, Force(Variable(c)), x, env', o.tr);
  }

  lemma ThenReturns(k: Context, fuel: nat, first: Comp, x: Name, env: Env, tr: Trace)
    requires x in env
    ensures var o := Eval(k, fuel, first, env, [], tr);
            Eval(k, fuel, Seq(first, Return(Variable(x))), env, [], tr) ==
            if o.Done? && o.t.Plain? then Done(Plain(env[x]), o.tr)
            else if o.Done? then Failed(BareLambda, o.tr)
            else o
  {
  }

  // ── Try ──────────────────────────────────────────────────────────────────

  /** `try` hands a failure's record to the handler from where the body failed; a
      value or an exit goes by it, the handler never entered. */
  lemma TryCatchesOnlyFailures(k: Context, fuel: nat, b: Val, h: Val, env: Env, tr: Trace)
    requires Form(k, b, env).Formed? && Form(k, h, env).Formed?
    ensures var body := Enter(k, fuel, Form(k, b, env).value, [], tr);
            Eval(k, fuel, Try(b, h), env, [], tr) ==
            if body.Failed? then Enter(k, fuel, Form(k, h, env).value, [ErrorValue(body.e)], body.tr) else body
    ensures forall e :: Observe(ErrorValue(Refused(e))) == Some(DRecord(["message"], [DStr(e)]))
  {
    PairForms(k, b, h, env);
    var body := Enter(k, fuel, Form(k, b, env).value, [], tr);
    if body.Done? { MetPlain(k, fuel, body.t, [], body.tr); }
    if body.Failed? { assert [ErrorValue(body.e)] + [] == [ErrorValue(body.e)]; }
    forall e: string ensures Observe(ErrorValue(Refused(e))) == Some(DRecord(["message"], [DStr(e)])) {
      OneSeen(VStr(e), DStr(e));
    }
  }

  lemma OneSeen(v: Value, d: Datum)
    requires Observe(v) == Some(d)
    ensures Observe(VBuilt([v])) == Some(DList([d]))
  {
    assert [v][1..] == [] && ObserveAll([]) == Some([]) && [d] + [] == [d];
    assert ObserveAll([v]) == Some([d]);
  }

  // ── Case ─────────────────────────────────────────────────────────────────

  /** `case` runs the first arm of the payload's tag, the payload pushed, and no other;
      without one it fails, and on anything but a variant. */
  lemma CaseTakesItsArm(k: Context, fuel: nat, v: Val, arms: seq<Arm>, env: Env, args: seq<Value>, tr: Trace)
    requires Form(k, v, env).Formed?
    ensures var w, o := Form(k, v, env).value, Eval(k, fuel, Case(v, arms), env, args, tr);
            && (!w.VVariant? ==> o == Failed(NotAVariant, tr))
            && (w.VVariant? && (forall j | 0 <= j < |arms| :: arms[j].tag != w.tag) ==> o == Failed(NoArm(w.tag), tr))
            && (w.VVariant? ==> forall i | 0 <= i < |arms| && arms[i].tag == w.tag && (forall j | 0 <= j < i :: arms[j].tag != w.tag) ::
                  o == ForceVal(k, fuel, arms[i].body, env, [w.payload] + args, tr))
  {
    var w := Form(k, v, env).value;
    CaseRuns(k, fuel, v, arms, env, args, tr);
    hide Form, Eval, ForceVal, EvalArm;
    if w.VVariant? { ArmTaken(k, fuel, arms, w.tag, w.payload, env, args, tr); }
  }

  lemma CaseRuns(k: Context, fuel: nat, v: Val, arms: seq<Arm>, env: Env, args: seq<Value>, tr: Trace)
    requires Form(k, v, env).Formed?
    ensures var w := Form(k, v, env).value;
            Eval(k, fuel, Case(v, arms), env, args, tr) ==
            if w.VVariant? then EvalArm(k, fuel, arms, w.tag, w.payload, env, args, tr) else Failed(NotAVariant, tr)
  {
    hide Form, ForceVal, EvalArm;
  }

  lemma {:induction false} ArmTaken(k: Context, fuel: nat, arms: seq<Arm>, tag: Name, p: Value, env: Env, args: seq<Value>, tr: Trace)
    ensures (forall j | 0 <= j < |arms| :: arms[j].tag != tag) ==> EvalArm(k, fuel, arms, tag, p, env, args, tr) == Failed(NoArm(tag), tr)
    ensures forall i | 0 <= i < |arms| && arms[i].tag == tag && (forall j | 0 <= j < i :: arms[j].tag != tag) ::
              EvalArm(k, fuel, arms, tag, p, env, args, tr) == ForceVal(k, fuel, arms[i].body, env, [p] + args, tr)
  {
    if arms != [] && arms[0].tag != tag {
      ArmTaken(k, fuel, arms[1..], tag, p, env, args, tr);
      forall i | 0 <= i < |arms| && arms[i].tag == tag && (forall j | 0 <= j < i :: arms[j].tag != tag)
        ensures EvalArm(k, fuel, arms, tag, p, env, args, tr) == ForceVal(k, fuel, arms[i].body, env, [p] + args, tr)
      {
        assert i > 0 && arms[1..][i - 1] == arms[i];
        assert forall j | 0 <= j < i - 1 :: arms[1..][j] == arms[j + 1];
      }
      if forall j | 0 <= j < |arms| :: arms[j].tag != tag {
        assert forall j | 0 <= j < |arms[1..]| :: arms[1..][j] == arms[j + 1];
      }
    }
  }

  // ── Argument lists ───────────────────────────────────────────────────────

  /** An argument list is its slots' values end to end: one value, or a spread's
      elements in their order. */
  lemma {:induction false} SlotsJoin(k: Context, a: seq<Slot>, b: seq<Slot>, env: Env)
    requires CloseArgv(k, a, env).Formed? && CloseArgv(k, b, env).Formed?
    ensures CloseArgv(k, a + b, env) == Formed(CloseArgv(k, a, env).value + CloseArgv(k, b, env).value)
    decreases |a|
  {
    if a == [] {
      assert a + b == b;
      assert [] + CloseArgv(k, b, env).value == CloseArgv(k, b, env).value;
    } else {
      hide Form;
      assert (a + b)[1..] == a[1..] + b;
      SlotsJoin(k, a[1..], b, env);
      var w := Form(k, a[0].v, env).value;
      var head := if a[0].spread then w.Items() else [w];
      var rest, more := CloseArgv(k, a[1..], env).value, CloseArgv(k, b, env).value;
      assert head + (rest + more) == head + rest + more;
    }
  }

  lemma OneSlot(k: Context, s: Slot, env: Env)
    requires Form(k, s.v, env).Formed?
    ensures var w, r := Form(k, s.v, env).value, CloseArgv(k, [s], env);
            r == if !s.spread then Formed([w]) else if w.IsList() then Formed(w.Items()) else Malformed(NotAList)
  {
    assert [s][1..] == [] && CloseArgv(k, [], env) == Formed([]);
    var w := Form(k, s.v, env).value;
    assert [w] + [] == [w];
    if w.IsList() { assert w.Items() + [] == w.Items(); }
  }

  // ── Operations ───────────────────────────────────────────────────────────

  /** A command the environment does not bind is one operation, recorded once after
      all before it and answered by the world that saw them. */
  lemma OneOperation(k: Context, fuel: nat, word: CommandWord, v: Val, d: Datum, env: Env, tr: Trace)
    requires Form(k, v, env).Formed? && Observe(Form(k, v, env).value) == Some(d)
    requires word.Named? && word.cmd.Bare? ==> word.cmd.name !in env && word.cmd.name !in k.sig
    ensures var ev := Event(word, [d]);
            Eval(k, fuel, Exec(word, [Slot(v, false)]), env, [], tr) ==
            match k.world(tr, ev)
            case Yields(r) => Done(Plain(FromDatum(r)), tr + [ev])
            case Fails(why) => Failed(Refused(why), tr + [ev])
            case Exits(code) => Exited(code, tr + [ev])
  {
    OneSlot(k, Slot(v, false), env);
    var w := Form(k, v, env).value;
    assert [w][1..] == [] && ObserveAll([]) == Some([]) && [d] + [] == [d];
    assert ObserveAll([w]) == Some([d]);
  }

  /** An external head is an operation whatever the environment binds; a bare one is
      the nearest block bound to it: the environment's, else the signature's. */
  lemma HeadsResolve(k: Context, fuel: nat, x: Name, env: Env, tr: Trace)
    requires x in env || x in k.sig
    ensures Eval(k, fuel, Exec(Named(Bare(x)), []), env, [], tr) == Enter(k, fuel, if x in env then env[x] else k.sig[x], [], tr)
    ensures Eval(k, fuel, Exec(External(Bare(x)), []), env, [], tr).tr == tr + [Event(External(Bare(x)), [])]
  {
    assert CloseArgv(k, [], env) == Formed([]) && ObserveAll([]) == Some([]);
    var vs: seq<Value> := [];
    assert vs + vs == [];
  }

  // ── Primitives ───────────────────────────────────────────────────────────

  function Alone(p: Prim, k: Context): Outcome { Eval(k, 0, Primitive(p), map[], [], []) }

  function Returned(v: Value): Outcome { Done(Plain(v), []) }

  /** Sums and differences are exact within 64 bits and fail outside them; `<` is the
      order of the integers and `==` the equality of what can be seen. */
  lemma IntegersCompute(k: Context, a: int, b: int)
    ensures Alone(Binary(Add, Int(a), Int(b)), k) ==
            if -9_223_372_036_854_775_808 <= a + b <= 9_223_372_036_854_775_807 then Returned(VInt(a + b)) else Failed(Overflow, [])
    ensures Alone(Binary(Sub, Int(a), Int(b)), k) ==
            if -9_223_372_036_854_775_808 <= a - b <= 9_223_372_036_854_775_807 then Returned(VInt(a - b)) else Failed(Overflow, [])
    ensures Alone(Binary(Lt, Int(a), Int(b)), k) == Returned(VBool(a < b))
    ensures Alone(Binary(Eq, Int(a), Int(b)), k) == Returned(VBool(a == b))
    ensures Alone(Not(Bool(a < b)), k) == Alone(Binary(Eq, Bool(a < b), Bool(false)), k)
  {
  }

  /** Data round-trips through the world: what it yields is seen as what it yielded. */
  lemma {:induction false} DataAreSeen(d: Datum)
    ensures Observe(FromDatum(d)) == Some(d)
    decreases d, 0
  {
    match d
    case DList(items) => AllDataAreSeen(items);
    case DRecord(_, items) => AllDataAreSeen(items);
    case DVariant(_, p) => DataAreSeen(p);
    case _ =>
  }

  lemma {:induction false} AllDataAreSeen(ds: seq<Datum>)
    ensures ObserveAll(FromData(ds)) == Some(ds)
    decreases ds, 0
  {
    if ds != [] {
      DataAreSeen(ds[0]);
      AllDataAreSeen(ds[1..]);
      assert FromData(ds)[1..] == FromData(ds[1..]);
      assert ds == [ds[0]] + ds[1..];
    }
  }

  /** A position reads the element there, from none on; a label the first field so named. */
  lemma ReadsFind(k: Context, x: Name, items: seq<Value>, keys: seq<Name>, n: nat, env: Env)
    requires |keys| == |items| && n < |items| && forall i | 0 <= i < n :: keys[i] != keys[n]
    requires x in env
    ensures env[x] == VBuilt(items) ==> PrimResult(k, Index(Variable(x), Position(n)), env) == Formed(items[n])
    ensures env[x] == VBuilt(items) ==> PrimResult(k, Index(Variable(x), Position(|items|)), env) == Malformed(OutOfBounds(|items|, |items|))
    ensures env[x] == VRecord(keys, VBuilt(items)) ==> PrimResult(k, Index(Variable(x), Label(keys[n])), env) == Formed(items[n])
    ensures env[x] == VRecord(keys, VBuilt(items)) ==> PrimResult(k, Index(Variable(x), Data(Str(keys[n]))), env) == Formed(items[n])
  {
    FirstField(keys, n);
  }

  lemma {:induction false} FirstField(keys: seq<Name>, n: nat)
    requires n < |keys| && forall i | 0 <= i < n :: keys[i] != keys[n]
    ensures FieldAt(keys, keys[n]) == n
  {
    if n > 0 {
      assert keys[0] != keys[n];
      FirstField(keys[1..], n - 1);
    }
  }

  // ── As it is written ─────────────────────────────────────────────────────

  /** A junction whose left decides is that value, and otherwise its right; `!` turns a
      value over. */
  lemma JunctionsDecide(k: SContext, fuel: nat, or: bool, b: bool, r: Ast, env: SEnv, tr: Trace)
    requires fuel > 0
    ensures SEval(k, fuel, AJunction(or, ABool(b), r), env, [], tr) ==
            if b == or then SDone(SPlain(SBool(b)), tr) else SEval(k, fuel - 1, r, env, [], tr)
    ensures SEval(k, fuel, ANot(ABool(b)), env, [], tr) == SDone(SPlain(SBool(!b)), tr)
  {
  }

  /** An `if` with an `else` is the side its condition picks; without one it is unit,
      once the arm has run or been passed over. */
  lemma BranchesYield(k: SContext, fuel: nat, b: bool, t: Ast, e: Ast, env: SEnv, tr: Trace)
    requires fuel > 0
    ensures SEval(k, fuel, AIf(ABool(b), ArmBlock([SDo(t)]), Else(ArmBlock([SDo(e)]))), env, [], tr) == SEval(k, fuel - 1, if b then t else e, env, [], tr)
    ensures var o := SEval(k, fuel, AIf(ABool(b), ArmBlock([SDo(t)]), NoElse), env, [], tr);
            var ran := SEval(k, fuel - 1, t, env, [], tr);
            && (!b ==> o == SDone(SPlain(SUnit), tr))
            && (b && ran.SDone? && ran.t.SPlain? ==> o == SDone(SPlain(SUnit), ran.tr))
            && (b && !ran.SDone? ==> o == ran)
  {
    OneStatement(k, fuel - 1, t, env, tr);
    OneStatement(k, fuel - 1, e, env, tr);
    hide SStmts;
    var arm: ArmAst := ArmBlock([SDo(t)]);
    assert SArm(k, fuel, arm, env, [], tr) == SStmts(k, fuel - 1, [SDo(t)], env, [], tr);
    var other: ArmAst := ArmBlock([SDo(e)]);
    assert SArm(k, fuel, other, env, [], tr) == SStmts(k, fuel - 1, [SDo(e)], env, [], tr);
    assert SChain(k, fuel, Else(other), env, [], tr) == SArm(k, fuel, other, env, [], tr);
  }

  lemma OneStatement(k: SContext, fuel: nat, e: Ast, env: SEnv, tr: Trace)
    ensures SStmts(k, fuel, [SDo(e)], env, [], tr) == SEval(k, fuel, e, env, [], tr)
  {
    hide SEval;
  }

  /** A failure a `try` takes is handed to its handler as a record of what it was. */
  lemma HandlersSeeWhy(e: string)
    ensures SErrorValue(Refused(e)) == SRecord(["message"], [SStr(e)])
  {
    OneSeen(VStr(e), DStr(e));
    assert SFromData([DStr(e)]) == [SStr(e)] by { assert [DStr(e)][1..] == [] && SFromData([]) == [] && [SStr(e)] + [] == [SStr(e)]; }
  }
}
