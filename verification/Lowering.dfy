/** The elaborator as the pass it is: one counter, a stack of lexical frames, and
    accumulators of pending bindings pushed onto in place. */
module Lowering {
  import opened Ir
  import opened Surface
  import opened Elaborator
  import opened Stretches
  import Components

  function Union(frames: seq<set<Name>>): set<Name> {
    if frames == [] then {} else frames[0] + Union(frames[1..])
  }

  lemma {:induction false} UnionAppend(a: seq<set<Name>>, b: seq<set<Name>>)
    ensures Union(a + b) == Union(a) + Union(b)
  {
    if a == [] {
      assert a + b == b;
    } else {
      UnionAppend(a[1..], b);
      assert (a + b)[1..] == a[1..] + b;
    }
  }

  lemma UnionPush(frames: seq<set<Name>>, top: set<Name>)
    ensures Union(frames + [top]) == Union(frames) + top
  {
    UnionAppend(frames, [top]);
    assert [top][1..] == [];
    assert Union([]) == {};
  }

  /** Binding a name in the innermost frame brings it into scope. */
  lemma UnionBind(frames: seq<set<Name>>, names: set<Name>)
    requires frames != []
    ensures var i := |frames| - 1; Union(frames[i := frames[i] + names]) == Union(frames) + names
  {
    var i := |frames| - 1;
    UnionPush(frames[..i], frames[i]);
    UnionPush(frames[..i], frames[i] + names);
    assert frames == frames[..i] + [frames[i]];
    assert frames[i := frames[i] + names] == frames[..i] + [frames[i] + names];
  }

  /** The first binding ends up outermost. */
  method Wrap(binds: seq<Hoist>, inner: Comp) returns (c: Comp)
    ensures c == WrapBinds(binds, inner)
  {
    c := inner;
    var i := |binds|;
    while i > 0
      invariant 0 <= i <= |binds|
      invariant c == WrapBinds(binds[i..], inner)
    {
      i := i - 1;
      assert binds[i..][1..] == binds[i + 1..];
      c := Bind(binds[i].comp, Binder(binds[i].name), c);
    }
  }

  lemma Assoc(a: seq<Hoist>, b: seq<Hoist>, c: seq<Hoist>)
    ensures a + b + c == a + (b + c)
  {
  }

  /** Pending bindings, in the order they were pushed. */
  class Binds {
    var items: seq<Hoist>

    constructor ()
      ensures items == []
    {
      items := [];
    }
  }

  class Pass {
    var counter: nat
    var frames: seq<set<Name>>
    var stretches: seq<Stretch>

    /** Every stretch being elaborated binds into a frame below the top one. */
    ghost predicate Inside()
      reads this
    {
      frames != [] && Open(stretches, |frames| - 1)
    }

    /** Frames for the caller's names and for the top-level statements' own. */
    constructor (caller: set<Name>)
      ensures counter == 0 && frames == [caller, {}] && Union(frames) == caller && stretches == [] && Inside()
    {
      counter := 0;
      frames := [caller, {}];
      stretches := [];
      new;
      UnionPush([caller], {});
      UnionPush([], caller);
      assert [caller, {}] == [caller] + [{}] && [caller] == [] + [caller];
    }

    method Gensym() returns (x: Name)
      modifies this`counter
      ensures counter == old(counter) + 1 && x == Temp(counter)
    {
      counter := counter + 1;
      x := Temp(counter);
    }

    /** Whether any frame, innermost first, holds the name. */
    method IsBound(x: Name) returns (found: bool)
      ensures found <==> x in Union(frames)
    {
      var i := |frames|;
      assert frames[..i] == frames;
      while i > 0
        invariant 0 <= i <= |frames|
        invariant x in Union(frames) <==> x in Union(frames[..i])
      {
        i := i - 1;
        UnionPush(frames[..i], frames[i]);
        assert frames[..i + 1] == frames[..i] + [frames[i]];
        if x in frames[i] { return true; }
      }
      return false;
    }

    /** Note a reference: an edge, if the innermost frame that holds the name is a
        stretch's and the name one of its members. */
    method Refer(x: Name)
      requires Inside()
      modifies this`stretches
      ensures Inside() && Noted(frames, old(stretches), {x}, stretches)
    {
      var k, t := |frames|, |stretches|;
      while k > 0 && x !in frames[k - 1]
        invariant 0 <= k <= |frames| && forall j | k <= j < |frames| :: x !in frames[j]
      {
        k := k - 1;
      }
      while t > 0 && (k == 0 || stretches[t - 1].frame != k - 1)
        invariant 0 <= t <= |stretches| && forall u | t <= u < |stretches| :: k == 0 || stretches[u].frame != k - 1
      {
        t := t - 1;
      }
      ReferNotes(frames, stretches, x, t);
      if t > 0 && x in stretches[t - 1].members {
        var s := stretches[t - 1];
        stretches := stretches[t - 1 := Pushed(s, s.members[x])];
      }
    }

    method Bind(names: set<Name>)
      requires frames != []
      modifies this`frames
      ensures frames == old(frames)[|old(frames)| - 1 := old(frames)[|old(frames)| - 1] + names]
      ensures Union(frames) == Union(old(frames)) + names
    {
      UnionBind(frames, names);
      frames := frames[|frames| - 1 := frames[|frames| - 1] + names];
    }

    method Hoisted(c: Comp, binds: Binds) returns (v: Val)
      modifies this`counter, binds
      ensures var r := HoistVal(Lowered(c, old(binds.items), old(counter)));
              v == r.v && binds.items == r.binds && counter == r.next
    {
      if c.Return? {
        v := c.v;
      } else {
        var x := Gensym();
        binds.items := binds.items + [Hoist(x, c)];
        v := Variable(x);
      }
    }

    method ToVal(e: Ast, binds: Binds) returns (v: Val)
      requires Inside()
      modifies this, binds
      ensures Inside() && frames == old(frames) && Noted(frames, old(stretches), Uses(e), stretches)
      ensures var l := HoistVal(Elab(e, Union(old(frames)), old(counter)));
              v == l.v && binds.items == old(binds.items) + l.binds && counter == l.next
      decreases e, 3
    {
      ghost var l := Elab(e, Union(frames), counter);
      var c := Expr(e, binds);
      v := Hoisted(c, binds);
      assert binds.items == old(binds.items) + HoistVal(l).binds;
    }

    method Vals(es: seq<Ast>, binds: Binds) returns (vs: seq<Val>)
      requires Inside()
      modifies this, binds
      ensures Inside() && frames == old(frames) && Noted(frames, old(stretches), UsesAll(es), stretches)
      ensures var l := ElabVals(es, Union(old(frames)), old(counter));
              vs == l.vs && binds.items == old(binds.items) + l.binds && counter == l.next
      decreases es, 0
    {
      if es == [] {
        NotedNone(frames, stretches);
        return [];
      }
      ghost var a := HoistVal(Elab(es[0], Union(frames), counter));
      var v := ToVal(es[0], binds);
      ghost var b, mid := ElabVals(es[1..], Union(frames), counter), stretches;
      var rest := Vals(es[1..], binds);
      NotedThen(frames, old(stretches), Uses(es[0]), mid, UsesAll(es[1..]), stretches, UsesAll(es));
      Assoc(old(binds.items), a.binds, b.binds);
      vs := [v] + rest;
    }

    method Keys(ks: seq<KeyAst>, binds: Binds) returns (keys: seq<Key>)
      requires Inside()
      modifies this, binds
      ensures Inside() && frames == old(frames) && Noted(frames, old(stretches), UsesKeys(ks), stretches)
      ensures var l := ElabKeys(ks, Union(old(frames)), old(counter));
              keys == l.keys && binds.items == old(binds.items) + l.binds && counter == l.next
      decreases ks, 0
    {
      NotedNone(frames, stretches);
      if ks == [] { return []; }
      ghost var a := ElabKey(ks[0], Union(frames), counter);
      var key: Key;
      match ks[0] {
        case KLabel(x) => key := Label(x);
        case KPosition(i) => key := Position(i);
        case KData(e) =>
          assert ks[0].e < ks[0];
          var v := ToVal(e, binds);
          key := Data(v);
      }
      ghost var b, mid := ElabKeys(ks[1..], Union(frames), counter), stretches;
      var rest := Keys(ks[1..], binds);
      NotedThen(frames, old(stretches), if ks[0].KData? then Uses(ks[0].e) else {}, mid, UsesKeys(ks[1..]), stretches, UsesKeys(ks));
      Assoc(old(binds.items), a.binds, b.binds);
      keys := [key] + rest;
    }

    /** Read through the keys in turn, hoisting every read but the last. */
    method Reads(target: Val, keys: seq<Key>, binds: Binds) returns (c: Comp)
      requires keys != []
      modifies this`counter, binds
      ensures var l := LowerIndex(target, keys, old(counter));
              c == l.comp && binds.items == old(binds.items) + l.binds && counter == l.next
      decreases |keys|
    {
      c := Primitive(Index(target, keys[0]));
      if |keys| > 1 {
        var v := Hoisted(c, binds);
        ghost var more := LowerIndex(v, keys[1..], counter);
        ghost var h := Hoist(v.name, c);
        c := Reads(v, keys[1..], binds);
        Assoc(old(binds.items), [h], more.binds);
      }
    }

    /** A list of statements in a frame of its own, which is gone afterwards. */
    method Block(ss: seq<Stmt>, params: set<Name>) returns (c: Comp)
      requires frames != [] && Open(stretches, |frames|)
      modifies this
      ensures frames == old(frames) && Noted(frames, old(stretches), UsesStmts(ss) - params, stretches)
      ensures old(Inside()) ==> Inside()
      ensures var l := ElabStmts(ss, Union(old(frames)) + params, old(counter)); c == l.comp && counter == l.next
      decreases ss, 2
    {
      UnionPush(frames, params);
      frames := frames + [params];
      c := Stmts(ss);
      frames := frames[..|frames| - 1];
      assert frames == old(frames);
      NotedPushed(frames, params, old(stretches), UsesStmts(ss), stretches);
      if old(Inside()) { NotedOpen(frames, old(stretches), UsesStmts(ss) - params, stretches, |frames| - 1); }
    }

    /** An expression over an accumulator of its own, folded around it. */
    method Statement(e: Ast) returns (c: Comp)
      requires Inside()
      modifies this
      ensures Inside() && frames == old(frames) && Noted(frames, old(stretches), Uses(e), stretches)
      ensures var l := Elab(e, Union(old(frames)), old(counter)); c == WrapBinds(l.binds, l.comp) && counter == l.next
      decreases e, 3
    {
      ghost var l := Elab(e, Union(frames), counter);
      var binds := new Binds();
      var inner := Expr(e, binds);
      assert binds.items == l.binds;
      c := Wrap(binds.items, inner);
    }

    /** Each statement's bindings are folded around that statement alone; a `let`
        comes into scope after its own right side, a stretch's names before. */
    method Stmts(ss: seq<Stmt>) returns (c: Comp)
      requires Inside()
      modifies this
      ensures |frames| == |old(frames)| && frames[..|frames| - 1] == old(frames)[..|frames| - 1]
      ensures Inside() && Noted(old(frames), old(stretches), UsesStmts(ss), stretches)
      ensures var l := ElabStmts(ss, Union(old(frames)), old(counter)); c == l.comp && counter == l.next
      decreases ss, 1
    {
      if ss == [] {
        NotedNone(frames, stretches);
        return Return(Unit);
      }
      if ss[0].SDefs? {
        c := Tied(ss);
        return;
      }
      assert ss[0].e < ss[0];
      var first := Statement(ss[0].e);
      if |ss| == 1 && ss[0].SDo? {
        assert UsesStmts(ss[1..]) == {} && UsesStmts(ss) == Uses(ss[0].e);
        return first;
      }
      if ss[0].SDo? {
        assert frames[|frames| - 1] + {} == frames[|frames| - 1];
        assert frames == frames[|frames| - 1 := frames[|frames| - 1]];
        var rest := Rest(ss, {}, Uses(ss[0].e), old(frames), old(stretches));
        c := Seq(first, rest);
      } else {
        Bind({ss[0].x});
        var rest := Rest(ss, {ss[0].x}, Uses(ss[0].e), old(frames), old(stretches));
        c := Ir.Bind(first, Binder(ss[0].x), rest);
      }
    }

    /** A stretch's bindings around the statements after it. */
    method Tied(ss: seq<Stmt>) returns (c: Comp)
      requires Inside() && ss != [] && ss[0].SDefs?
      modifies this
      ensures |frames| == |old(frames)| && frames[..|frames| - 1] == old(frames)[..|frames| - 1]
      ensures Inside() && Noted(old(frames), old(stretches), UsesStmts(ss), stretches)
      ensures var l := ElabStmts(ss, Union(old(frames)), old(counter)); c == l.comp && counter == l.next
      decreases ss, 0
    {
      hide Noted, Open, Union, WrapBinds, KnotBinds, ElabDefs;
      var defs := ss[0].defs;
      var binds := Stretch(defs);
      assert UsesStmts(ss) == UsesDefs(defs) - DefNames(defs) + (UsesStmts(ss[1..]) - DefNames(defs));
      var rest := Rest(ss, DefNames(defs), UsesDefs(defs) - DefNames(defs), old(frames), old(stretches));
      c := Wrap(binds, rest);
    }

    /** The statements after the first, the names it binds in scope. */
    method Rest(ss: seq<Stmt>, ghost held: set<Name>, ghost names: set<Name>, ghost was: seq<set<Name>>, ghost from: seq<Stretch>) returns (c: Comp)
      requires ss != [] && was != [] && Inside() && frames == was[|was| - 1 := was[|was| - 1] + held]
      requires Noted(was, from, names, stretches) && UsesStmts(ss) == names + (UsesStmts(ss[1..]) - held)
      modifies this
      ensures |frames| == |was| && frames[..|frames| - 1] == was[..|frames| - 1]
      ensures Inside() && Noted(was, from, UsesStmts(ss), stretches)
      ensures var l := ElabStmts(ss[1..], Union(old(frames)), old(counter)); c == l.comp && counter == l.next
      decreases ss[1..], 2
    {
      c := Stmts(ss[1..]);
      NotedBound(was, held, old(stretches), UsesStmts(ss[1..]), stretches);
      NotedThen(was, from, names, old(stretches), UsesStmts(ss[1..]) - held, stretches, UsesStmts(ss));
    }

    /** The code of each block of a stretch, each elaborated as its current member. */
    method Members(defs: seq<Def>) returns (codes: seq<Comp>)
      requires defs != [] && frames != [] && Open(stretches, |frames|) && stretches != []
      requires var s := stretches[|stretches| - 1]; Current(frames, s, defs, 0) && ReferredUpTo(defs, s.edges, 0)
      modifies this
      ensures frames == old(frames) && |stretches| == |old(stretches)| && |codes| == |defs|
      ensures var l := ElabDefs(defs, Union(old(frames)), old(counter)); codes == l.comps && counter == l.next
      ensures Noted(frames, old(stretches)[..|stretches| - 1], UsesDefs(defs), stretches[..|stretches| - 1])
      ensures ReferredUpTo(defs, stretches[|stretches| - 1].edges, |defs|)
      decreases defs, 1
    {
      hide Current, ReferredUpTo, Referred, Noted, UsesDefs, UsesDef, ElabStmts, Turned, Turning, Open, Union;
      ghost var all := Union(frames);
      ghost var l := ElabDefs(defs, all, counter);
      codes := [];
      var i := 0;
      TurningBegins(frames, stretches, defs);
      assert defs[0..] == defs;
      while i < |defs|
        invariant 0 <= i <= |defs| == |l.comps| && frames == old(frames) && |stretches| == |old(stretches)| && Open(stretches, |frames|)
        invariant var rest := ElabDefs(defs[i..], all, counter); l.comps == codes + rest.comps && l.next == rest.next
        invariant Turning(frames, old(stretches), defs, i, stretches)
      {
        ghost var mid := stretches;
        TurningReady(frames, old(stretches), defs, i, mid);
        var code := Member(defs, i);
        codes := codes + [code];
        TurningNext(frames, old(stretches), defs, i, mid, stretches);
        assert defs[i..][1..] == defs[i + 1..];
        i := i + 1;
      }
      TurningEnds(frames, old(stretches), defs, stretches);
    }

    /** One member: what it refers to is noted under its own index. */
    method Member(defs: seq<Def>, i: nat) returns (code: Comp)
      requires i < |defs| && frames != [] && Open(stretches, |frames|) && stretches != []
      requires var s := stretches[|stretches| - 1].(current := i); Current(frames, s, defs, i) && ReferredUpTo(defs, s.edges, i)
      modifies this
      ensures frames == old(frames) && |stretches| == |old(stretches)| && Open(stretches, |frames|)
      ensures var d := defs[i]; var b := ElabStmts(d.body, Union(old(frames)) + Params(d.params), old(counter));
              code == Lams(d.params, b.comp) && counter == b.next
      ensures Turned(frames, old(stretches), defs, i, stretches)
      decreases defs, 0
    {
      var top := |stretches| - 1;
      stretches := stretches[top := stretches[top].(current := i)];
      ghost var was := stretches;
      assert was[..top] == old(stretches)[..top];
      var body := Block(defs[i].body, Params(defs[i].params));
      code := Lams(defs[i].params, body);
      NotedPrefix(frames, was, UsesDef(defs[i]), stretches, top);
      NotedOpen(frames, was, UsesDef(defs[i]), stretches, |frames|);
      MemberNoted(frames, was[top], defs, i, stretches[top]);
    }

    /** A stretch: its names bound before any member is elaborated, then its
        components, each a lone binding or one group. */
    method Stretch(defs: seq<Def>) returns (binds: seq<Hoist>)
      requires Inside()
      modifies this
      ensures frames == old(frames)[|old(frames)| - 1 := old(frames)[|old(frames)| - 1] + DefNames(defs)]
      ensures Union(frames) == Union(old(frames)) + DefNames(defs)
      ensures Inside() && Noted(old(frames), old(stretches), UsesDefs(defs) - DefNames(defs), stretches)
      ensures var l := ElabDefs(defs, Union(old(frames)) + DefNames(defs), old(counter));
              binds == KnotBinds(defs, l.comps, Height(defs)) && counter == l.next
      decreases defs, 3
    {
      hide ReferredUpTo, Noted, UsesDefs, ElabDefs, Open, Union, DefNames, KnotBinds, Height;
      Bind(DefNames(defs));
      if defs == [] {
        EmptyStretch(old(frames), stretches, defs, Union(frames), counter);
        return [];
      }
      var codes, edges := Codes(defs);
      NotedBound(old(frames), DefNames(defs), old(stretches), UsesDefs(defs), stretches);
      NotedOpen(old(frames), old(stretches), UsesDefs(defs) - DefNames(defs), stretches, |frames| - 1);
      binds := Grouped(defs, codes, edges);
    }

    /** The members' code and edges, the stretch open while they are elaborated. */
    method Codes(defs: seq<Def>) returns (codes: seq<Comp>, edges: seq<seq<nat>>)
      requires Inside() && defs != [] && DefNames(defs) <= frames[|frames| - 1]
      modifies this
      ensures frames == old(frames) && Noted(frames, old(stretches), UsesDefs(defs), stretches)
      ensures |codes| == |defs| && ReferredUpTo(defs, edges, |defs|)
      ensures var l := ElabDefs(defs, Union(frames), old(counter)); codes == l.comps && counter == l.next
      decreases defs, 2
    {
      hide Current, ReferredUpTo, Noted, UsesDefs, ElabDefs, Begun, Open, Union, DefNames;
      BegunIsCurrent(frames, defs);
      BegunIsOpen(frames, stretches, defs);
      stretches := stretches + [Begun(frames, defs)];
      codes := Members(defs);
      edges := stretches[|stretches| - 1].edges;
      stretches := stretches[..|stretches| - 1];
    }

    /** The components of the edges noted, in order, each as its bindings. */
    method Grouped(defs: seq<Def>, codes: seq<Comp>, edges: seq<seq<nat>>) returns (binds: seq<Hoist>)
      requires |codes| == |defs| && ReferredUpTo(defs, edges, |defs|)
      ensures binds == KnotBinds(defs, codes, Height(defs))
    {
      hide Components.Sccs, Components.Ascending, ReferredUpTo, Components.Exact, References, Rank, ComponentBinds;
      assert |edges| == |defs| by { EdgesCount(defs, edges); }
      var refs := seq(|edges|, i requires 0 <= i < |edges| => Components.Ascending(edges[i], |defs|));
      EdgesAre(defs, edges, refs);
      var out := Components.Find(refs);
      binds := [];
      for r := 0 to |out|
        invariant binds == KnotBinds(defs, codes, r)
      {
        RankedAlike(defs, r);
        var bs := Component(defs, out[r], codes, refs);
        binds := binds + bs;
      }
    }

    /** A lone block as it is; a cyclic component as one group. */
    method Component(defs: seq<Def>, ms: seq<nat>, codes: seq<Comp>, refs: seq<seq<nat>>) returns (binds: seq<Hoist>)
      requires |codes| == |defs| && refs == References(defs) && forall k | 0 <= k < |ms| :: ms[k] < |defs|
      ensures binds == ComponentBinds(defs, ms, codes)
    {
      hide References;
      if |ms| == 1 && ms[0] !in refs[ms[0]] {
        binds := [Hoist(defs[ms[0]].x, Return(ThunkVal(codes[ms[0]])))];
      } else {
        var group := Group(defs, ms, codes);
        binds := seq(|ms|, k requires 0 <= k < |ms| => Hoist(defs[ms[k]].x, Return(ThunkVal(Rec(group, k)))));
      }
    }

    method Arm(a: ArmAst) returns (v: Val)
      requires Inside()
      modifies this
      ensures Inside() && frames == old(frames) && Noted(frames, old(stretches), UsesArm(a), stretches)
      ensures var l := ElabArm(a, Union(old(frames)), old(counter)); v == l.v && counter == l.next
      decreases a, 0
    {
      match a {
        case ArmName(x) =>
          Refer(x);
          v := Variable(x);
        case ArmBlock(body) =>
          assert UsesStmts(body) - {} == UsesStmts(body);
          var c := Block(body, {});
          assert Union(old(frames)) + {} == Union(old(frames));
          v := ThunkVal(c);
      }
    }

    /** What follows the first branch; a later condition gets an accumulator of
        its own. */
    method Chained(r: Chain) returns (v: Val)
      requires Inside()
      modifies this
      ensures Inside() && frames == old(frames) && Noted(frames, old(stretches), UsesChain(r), stretches)
      ensures var l := ElabChain(r, Union(old(frames)), old(counter)); v == l.v && counter == l.next
      decreases r, 0
    {
      match r {
        case NoElse =>
          NotedNone(frames, stretches);
          v := ThunkVal(Return(Unit));
        case Else(a) => v := Arm(a);
        case ElseIf(c, a, r1) =>
          var els := Chained(r1);
          var binds := new Binds();
          ghost var l, mid := HoistVal(Elab(c, Union(frames), counter)), stretches;
          var cond := ToVal(c, binds);
          assert binds.items == l.binds;
          ghost var late := stretches;
          NotedThen(frames, old(stretches), UsesChain(r1), mid, Uses(c), late, UsesChain(r1) + Uses(c));
          var thn := Arm(a);
          NotedThen(frames, old(stretches), UsesChain(r1) + Uses(c), late, UsesArm(a), stretches, UsesChain(r));
          var body := Wrap(binds.items, If(cond, thn, els));
          v := ThunkVal(body);
      }
    }

    method Call(e: Ast, binds: Binds) returns (c: Comp)
      requires Inside() && e.ACall?
      modifies this, binds
      ensures Inside() && frames == old(frames) && Noted(frames, old(stretches), Uses(e), stretches)
      ensures var l := Elab(e, Union(old(frames)), old(counter));
              c == l.comp && binds.items == old(binds.items) + l.binds && counter == l.next
      decreases e, 0
    {
      match e.head {
        case HValue(d) =>
          ghost var f := HoistVal(Elab(d, Union(frames), counter));
          var head := ToVal(d, binds);
          ghost var l, mid := ElabVals(e.args, Union(frames), counter), stretches;
          var vs := Vals(e.args, binds);
          assert UsesHead(e.head) == Uses(d);
          NotedThen(frames, old(stretches), Uses(d), mid, UsesAll(e.args), stretches, Uses(e));
          Assoc(old(binds.items), f.binds, l.binds);
          c := CallOf(head, vs);
        case HBare(x) =>
          var vs := Vals(e.args, binds);
          ghost var mid := stretches;
          Refer(x);
          assert UsesHead(e.head) == {x};
          NotedThen(frames, old(stretches), UsesAll(e.args), mid, {x}, stretches, Uses(e));
          var bound := IsBound(x);
          c := if bound then CallOf(Variable(x), vs) else Exec(Named(Bare(x)), Slots(vs));
        case HExternal(x) =>
          assert Uses(e) == UsesAll(e.args);
          var vs := Vals(e.args, binds);
          c := Exec(External(Bare(x)), Slots(vs));
      }
    }

    method Indexed(e: Ast, binds: Binds) returns (c: Comp)
      requires Inside() && e.AIndex?
      modifies this, binds
      ensures Inside() && frames == old(frames) && Noted(frames, old(stretches), Uses(e), stretches)
      ensures var l := Elab(e, Union(old(frames)), old(counter));
              c == l.comp && binds.items == old(binds.items) + l.binds && counter == l.next
      decreases e, 1
    {
      var target, keys := Target(e, binds);
      ghost var a := HoistVal(Elab(e.target, Union(old(frames)), old(counter)));
      ghost var b := ElabKeys(e.keys, Union(old(frames)), a.next);
      if keys == [] {
        c := Return(target);
      } else {
        ghost var read := LowerIndex(target, keys, counter);
        c := Reads(target, keys, binds);
        Assoc(old(binds.items), a.binds + b.binds, read.binds);
      }
    }

    method Target(e: Ast, binds: Binds) returns (v: Val, keys: seq<Key>)
      requires Inside() && e.AIndex?
      modifies this, binds
      ensures Inside() && frames == old(frames) && Noted(frames, old(stretches), Uses(e), stretches)
      ensures var a := HoistVal(Elab(e.target, Union(old(frames)), old(counter))); var b := ElabKeys(e.keys, Union(old(frames)), a.next);
              v == a.v && keys == b.keys && binds.items == old(binds.items) + (a.binds + b.binds) && counter == b.next
      decreases e, 0
    {
      ghost var a := HoistVal(Elab(e.target, Union(frames), counter));
      v := ToVal(e.target, binds);
      ghost var b, mid := ElabKeys(e.keys, Union(frames), counter), stretches;
      keys := Keys(e.keys, binds);
      NotedThen(frames, old(stretches), Uses(e.target), mid, UsesKeys(e.keys), stretches, Uses(e));
      Assoc(old(binds.items), a.binds, b.binds);
    }

    method Both(l: Ast, r: Ast, binds: Binds, ghost e: Ast) returns (a: Val, b: Val)
      requires Inside() && l < e && r < e
      modifies this, binds
      ensures Inside() && frames == old(frames) && Noted(frames, old(stretches), Uses(l) + Uses(r), stretches)
      ensures var x := HoistVal(Elab(l, Union(old(frames)), old(counter))); var y := HoistVal(Elab(r, Union(old(frames)), x.next));
              a == x.v && b == y.v && binds.items == old(binds.items) + (x.binds + y.binds) && counter == y.next
      decreases e, 0
    {
      ghost var x := HoistVal(Elab(l, Union(frames), counter));
      a := ToVal(l, binds);
      ghost var y, mid := HoistVal(Elab(r, Union(frames), counter)), stretches;
      b := ToVal(r, binds);
      NotedThen(frames, old(stretches), Uses(l), mid, Uses(r), stretches, Uses(l) + Uses(r));
      Assoc(old(binds.items), x.binds, y.binds);
    }

    /** The right side of a junction runs only if the left did not decide it: its
        bindings go to an accumulator of their own. */
    method Junction(e: Ast, binds: Binds) returns (c: Comp)
      requires Inside() && e.AJunction?
      modifies this, binds
      ensures Inside() && frames == old(frames) && Noted(frames, old(stretches), Uses(e), stretches)
      ensures var m := Elab(e, Union(old(frames)), old(counter));
              c == m.comp && binds.items == old(binds.items) + m.binds && counter == m.next
      decreases e, 0
    {
      ghost var a := HoistVal(Elab(e.l, Union(frames), counter));
      var left := ToVal(e.l, binds);
      ghost var b, mid := Elab(e.r, Union(frames), counter), stretches;
      var body := Statement(e.r);
      NotedThen(frames, old(stretches), Uses(e.l), mid, Uses(e.r), stretches, Uses(e));
      var rhs, short := ThunkVal(body), ThunkVal(Return(Bool(e.or)));
      c := if e.or then If(left, short, rhs) else If(left, rhs, short);
      assert c == Join(e.or, a.v, b);
    }

    method Branch(e: Ast, binds: Binds) returns (c: Comp)
      requires Inside() && e.AIf?
      modifies this, binds
      ensures Inside() && frames == old(frames) && Noted(frames, old(stretches), Uses(e), stretches)
      ensures var m := Elab(e, Union(old(frames)), old(counter));
              c == m.comp && binds.items == old(binds.items) + m.binds && counter == m.next
      decreases e, 0
    {
      var els := Chained(e.rest);
      ghost var mid := stretches;
      var v := ToVal(e.cond, binds);
      ghost var late := stretches;
      NotedThen(frames, old(stretches), UsesChain(e.rest), mid, Uses(e.cond), late, UsesChain(e.rest) + Uses(e.cond));
      var thn := Arm(e.arm);
      NotedThen(frames, old(stretches), UsesChain(e.rest) + Uses(e.cond), late, UsesArm(e.arm), stretches, Uses(e));
      c := If(v, if e.rest.NoElse? then UnitArm(thn) else thn, els);
    }

    /** A block or a lambda, a thunk of its code. */
    method Literal(ps: seq<Name>, body: seq<Stmt>) returns (c: Comp)
      requires Inside()
      modifies this
      ensures Inside() && frames == old(frames) && Noted(frames, old(stretches), UsesStmts(body) - Params(ps), stretches)
      ensures ps == [] ==> UsesStmts(body) - Params(ps) == UsesStmts(body) && Union(old(frames)) + Params(ps) == Union(old(frames))
      ensures var b := ElabStmts(body, Union(old(frames)) + Params(ps), old(counter)); c == Return(ThunkVal(Lams(ps, b.comp))) && counter == b.next
      decreases body, 3
    {
      var b := Block(body, Params(ps));
      c := Return(ThunkVal(Lams(ps, b)));
    }

    /** One expression: its computation, with the bindings it needs first pushed
        onto the accumulator it was handed. */
    method Expr(e: Ast, binds: Binds) returns (c: Comp)
      requires Inside()
      modifies this, binds
      ensures Inside() && frames == old(frames) && Noted(frames, old(stretches), Uses(e), stretches)
      ensures var l := Elab(e, Union(old(frames)), old(counter));
              c == l.comp && binds.items == old(binds.items) + l.binds && counter == l.next
      decreases e, 2
    {
      hide Noted, Union, ElabStmts, ElabVals;
      NotedNone(frames, stretches);
      match e {
        case AUnit => c := Return(Unit);
        case AStr(s) => c := Return(Str(s));
        case AInt(i) => c := Return(Int(i));
        case ABool(b) => c := Return(Bool(b));
        case AVar(x) =>
          Refer(x);
          c := Return(Variable(x));
        case ABlock(body) => c := Literal([], body);
        case ALambda(ps, body) => c := Literal(ps, body);
        case AForce(d) =>
          var v := ToVal(d, binds);
          c := Force(v);
        case ACall(_, _) => c := Call(e, binds);
        case AReturn(d) =>
          var v := ToVal(d, binds);
          c := Return(v);
        case AList(es) =>
          var vs := Vals(es, binds);
          c := Return(ListVal(vs));
        case AIndex(_, _) => c := Indexed(e, binds);
        case ABinary(op, l, r) =>
          var a, b := Both(l, r, binds, e);
          c := Primitive(Binary(op, a, b));
        case ANot(d) =>
          var v := ToVal(d, binds);
          c := Primitive(Not(v));
        case AJunction(_, _, _) => c := Junction(e, binds);
        case AIf(_, _, _) => c := Branch(e, binds);
        case ATry(b, h) =>
          var f, g := Both(b, h, binds, e);
          c := Try(f, g);
      }
    }
  }
}
