/** Building nodes: each mention is pushed onto one shared vector, which is then
    sorted and rid of repeats. */
module Build {
  import opened Ir
  import opened Evaluator
  import opened Trimming
  import opened Occurrence

  /** The vector a `Mentions` walk pushes onto. */
  class Mentioned {
    var refs: seq<Name>

    constructor ()
      ensures refs == []
    {
      refs := [];
    }

    method Value(v: Val)
      modifies this
      ensures refs == old(refs) + RefsV(v)
      decreases v, 0
    {
      match v
      case Variable(x) => refs := refs + [x];
      case Thunk(node) => refs := refs + node.occ;
      case List(node) => refs := refs + node.occ;
      case Record(_, node) => refs := refs + node.occ;
      case Variant(_, payload) => Value(payload);
      case _ =>
    }

    method Values(vs: seq<Val>)
      modifies this
      ensures refs == old(refs) + RefsVs(vs)
    {
      for i := 0 to |vs|
        invariant refs + RefsVs(vs[i..]) == old(refs) + RefsVs(vs)
      {
        Value(vs[i]);
        assert vs[i..][1..] == vs[i + 1..];
      }
    }

    method Slots(ss: seq<Slot>)
      modifies this
      ensures refs == old(refs) + RefsSlots(ss)
    {
      for i := 0 to |ss|
        invariant refs + RefsSlots(ss[i..]) == old(refs) + RefsSlots(ss)
      {
        Value(ss[i].v);
        assert ss[i..][1..] == ss[i + 1..];
      }
    }

    method Arms(arms: seq<Arm>)
      modifies this
      ensures refs == old(refs) + RefsArms(arms)
    {
      for i := 0 to |arms|
        invariant refs + RefsArms(arms[i..]) == old(refs) + RefsArms(arms)
      {
        Value(arms[i].body);
        assert arms[i..][1..] == arms[i + 1..];
      }
    }

    method Members(ms: seq<Member>)
      modifies this
      ensures refs == old(refs) + RefsMembers(ms)
    {
      for i := 0 to |ms|
        invariant refs + RefsMembers(ms[i..]) == old(refs) + RefsMembers(ms)
      {
        Computation(ms[i].body);
        assert ms[i..][1..] == ms[i + 1..];
      }
    }

    method Computation(c: Comp)
      modifies this
      ensures refs == old(refs) + RefsC(c)
      decreases c, 0
    {
      match c
      case Return(v) => Value(v);
      case Force(v) => Value(v);
      case Lam(_, body) => Computation(body);
      case App(head, args) => Computation(head); Values(args);
      case Bind(comp, _, rest) => Computation(comp); Computation(rest);
      case Seq(first, rest) => Computation(first); Computation(rest);
      case Rec(group, _) => refs := refs + group.occ;
      case _ => OverValues(c);
    }

    /** The forms whose parts are all values. */
    method OverValues(c: Comp)
      requires c.If? || c.Case? || c.Try? || c.Guard? || c.Primitive? || c.Exec?
      modifies this
      ensures refs == old(refs) + RefsC(c)
    {
      match c
      case If(cond, thn, els) => Value(cond); Value(thn); Value(els);
      case Case(scrutinee, arms) => Value(scrutinee); Arms(arms);
      case Try(tried, handler) => Value(tried); Value(handler);
      case Guard(tried, cleanup) => Value(tried); Value(cleanup);
      case Primitive(prim) => Values(Operands(prim));
      case Exec(word, argv) => refs := refs + RefsWord(word); Slots(argv);
    }
  }

  method ThunkOf(shape: Comp) returns (node: ThunkNode)
    requires BuiltC(shape)
    ensures node.shape == shape && BuiltV(Thunk(node))
  {
    var out := new Mentioned();
    out.Computation(shape);
    assert out.refs == RefsC(shape);
    var occ := IndexOf(out.refs);
    node := ThunkNode(shape, occ);
  }

  method ListOfValues(shape: seq<Val>) returns (node: ListNode)
    requires BuiltVs(shape)
    ensures node.shape == shape && BuiltV(List(node))
  {
    var out := new Mentioned();
    out.Values(shape);
    assert out.refs == RefsVs(shape);
    var occ := IndexOf(out.refs);
    node := ListNode(shape, occ);
  }

  method GroupOf(shape: seq<Member>) returns (node: GroupNode)
    requires BuiltMembers(shape)
    ensures node.shape == shape && forall i: nat :: BuiltC(Rec(node, i))
  {
    var out := new Mentioned();
    out.Members(shape);
    assert out.refs == RefsMembers(shape);
    var occ := IndexOf(out.refs);
    node := GroupNode(shape, occ);
  }

  /** Every program made of built nodes runs the same trimmed and whole. */
  lemma BuiltProgramsTrimSafely(sig: Env, world: (Trace, Event) -> Reply, fuel: nat, c: Comp, env: Env, tr: Trace)
    requires BuiltC(c)
    requires Agree(NamesC(c), env, env)
    requires forall x | x in sig :: Same(sig[x], sig[x])
    ensures See(Eval(Context(Trim, sig, world), fuel, c, env, [], tr)) == See(Eval(Context(Whole, sig, world), fuel, c, env, [], tr))
  {
    WalkC(c);
    TrimmingPreservesMeaning(sig, world, fuel, c, env, [], tr);
  }
}
