/** Running the bindings elaboration leaves pending. */
module Pending {
  import opened Ir
  import opened Evaluator
  import opened Elaborator

  datatype Prefix = Reached(env: Env, tr: Trace) | Ended(o: Outcome)

  /** The environment and trace the bindings leave, or how they ended. */
  function RunBinds(k: Context, fuel: nat, bs: seq<Hoist>, env: Env, tr: Trace): (p: Prefix)
    ensures p.Ended? ==> !p.o.Done?
  {
    if bs == [] then Reached(env, tr)
    else
      match Eval(k, fuel, bs[0].comp, env, [], tr)
      case Done(Plain(v), tr1) => RunBinds(k, fuel, bs[1..], env[bs[0].name := v], tr1)
      case Done(Lambda(_, _, _), tr1) => Ended(Failed(BareLambda, tr1))
      case stopped => Ended(stopped)
  }

  function Then(k: Context, fuel: nat, p: Prefix, bs: seq<Hoist>): Prefix {
    match p case Reached(env, tr) => RunBinds(k, fuel, bs, env, tr) case Ended(_) => p
  }

  function Finish(k: Context, fuel: nat, p: Prefix, c: Comp, args: seq<Value>): Outcome {
    match p case Reached(env, tr) => Eval(k, fuel, c, env, args, tr) case Ended(o) => o
  }

  lemma {:induction false} WrapRuns(k: Context, fuel: nat, bs: seq<Hoist>, c: Comp, env: Env, args: seq<Value>, tr: Trace)
    ensures Eval(k, fuel, WrapBinds(bs, c), env, args, tr) == Finish(k, fuel, RunBinds(k, fuel, bs, env, tr), c, args)
  {
    if bs != [] {
      var o := Eval(k, fuel, bs[0].comp, env, [], tr);
      if o.Done? && o.t.Plain? {
        WrapRuns(k, fuel, bs[1..], c, env[bs[0].name := o.t.v], args, o.tr);
      }
    }
  }

  lemma {:induction false} RunAppend(k: Context, fuel: nat, a: seq<Hoist>, b: seq<Hoist>, env: Env, tr: Trace)
    ensures RunBinds(k, fuel, a + b, env, tr) == Then(k, fuel, RunBinds(k, fuel, a, env, tr), b)
  {
    if a == [] {
      assert a + b == b;
    } else {
      assert (a + b)[1..] == a[1..] + b;
      var o := Eval(k, fuel, a[0].comp, env, [], tr);
      if o.Done? && o.t.Plain? {
        RunAppend(k, fuel, a[1..], b, env[a[0].name := o.t.v], o.tr);
      }
    }
  }

  lemma RunOne(k: Context, fuel: nat, h: Hoist, env: Env, tr: Trace)
    ensures RunBinds(k, fuel, [h], env, tr) == Bound(h.name, Eval(k, fuel, h.comp, env, [], tr), env)
  {
    assert [h][1..] == [];
  }

  function Bound(name: Name, o: Outcome, env: Env): Prefix {
    match o
    case Done(Plain(v), tr1) => Reached(env[name := v], tr1)
    case Done(Lambda(_, _, _), tr1) => Ended(Failed(BareLambda, tr1))
    case stopped => Ended(stopped)
  }
}
