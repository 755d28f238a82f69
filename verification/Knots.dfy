/** Stretches of block definitions: the knot a stretch ties, and the groups it is
    elaborated into, component by component. */
module Knots {
  import opened Ir
  import opened Evaluator
  import opened Wrappers
  import opened Occurrence
  import opened Surface
  import opened Elaborator
  import opened Elaborated
  import opened Denotation
  import opened Pending

  // ── The knot ─────────────────────────────────────────────────────────────

  lemma {:induction false} TieAt(knot: Knot, n: nat, j: nat)
    requires Unrepeated(knot.defs) && j < n <= |knot.defs|
    ensures knot.defs[j].x in Tie(knot, n) && Tie(knot, n)[knot.defs[j].x] == SKnot(knot, j)
  {
    if j < n - 1 { TieAt(knot, n - 1, j); }
  }

  lemma {:induction false} TieOther(knot: Knot, n: nat, x: Name)
    requires n <= |knot.defs| && x !in DefNames(knot.defs)
    ensures x in Tie(knot, n) <==> x in knot.env
    ensures x in knot.env ==> Tie(knot, n)[x] == knot.env[x]
  {
    if n > 0 { TieOther(knot, n - 1, x); }
  }

  /** A component that is not cyclic is one definition. */
  lemma Lone(defs: seq<Def>, i: nat)
    requires Unrepeated(defs) && i < |defs| && !Cyclic(defs, Component(defs, Rank(defs, i)))
    ensures Component(defs, Rank(defs, i)) == [i] && defs[i].x !in UsesDef(defs[i])
  {
    var ms := Component(defs, Rank(defs, i));
    assert i in ms && |ms| == 1;
  }

  // ── Surroundings ─────────────────────────────────────────────────────────

  lemma SurroundsKept(sg: set<Name>, knot: Knot, r: nat, e: Env, f: Env)
    requires Surrounds(sg, knot, r, e)
    requires forall x | Outside(knot.defs, r, x) :: x in e <==> x in f
    requires forall x | Outside(knot.defs, r, x) && x in e && x in f :: e[x] == f[x]
    ensures Surrounds(sg, knot, r, f)
  {
  }

  /** A name a block uses is its component's own, an earlier block's, or from
      outside the stretch. */
  lemma UsedWhere(defs: seq<Def>, i: nat, x: Name)
    requires Unrepeated(defs) && i < |defs| && x in UsesDef(defs[i]) && !Synthetic(x)
    ensures Outside(defs, Rank(defs, i), x) || exists j :: 0 <= j < |defs| && Rank(defs, j) == Rank(defs, i) && defs[j].x == x
    ensures x in DefNames(defs) && Outside(defs, Rank(defs, i), x) ==> exists j :: 0 <= j < |defs| && Rank(defs, j) < Rank(defs, i) && defs[j].x == x
  {
    forall j | 0 <= j < |defs| && defs[j].x == x ensures Rank(defs, j) <= Rank(defs, i) { DependenciesFirst(defs, i, j); }
  }

  /** One name of a block's code, in the knot and in an environment that surrounds
      its component and binds the component's own. */
  lemma UsedAlike(sg: set<Name>, knot: Knot, i: nat, e: Env, x: Name)
    requires Unrepeated(knot.defs) && i < |knot.defs| && x in UsesDef(knot.defs[i]) && !Synthetic(x)
    requires Surrounds(sg, knot, Rank(knot.defs, i), e)
    requires forall j | 0 <= j < |knot.defs| && Rank(knot.defs, j) == Rank(knot.defs, i) && knot.defs[j].x in UsesDef(knot.defs[i]) ::
               knot.defs[j].x in e && KnotR(sg, knot, j, e[knot.defs[j].x])
    ensures var s := Tie(knot, |knot.defs|);
            (x in s <==> x in e) && (x in s && x in e ==> VR(sg, s[x], e[x]))
  {
    var defs, n := knot.defs, |knot.defs|;
    UsedWhere(defs, i, x);
    if x in DefNames(defs) {
      var j :| 0 <= j < n && defs[j].x == x;
      TieAt(knot, n, j);
      if Outside(defs, Rank(defs, i), x) {
        var m :| 0 <= m < n && Rank(defs, m) < Rank(defs, i) && defs[m].x == x;
        assert m == j;
      } else {
        var m :| 0 <= m < n && Rank(defs, m) == Rank(defs, i) && defs[m].x == x;
        assert m == j;
      }
    } else {
      TieOther(knot, n, x);
    }
  }

  // ── Entering a block ─────────────────────────────────────────────────────

  lemma LoneEntered(sg: set<Name>, knot: Knot, i: nat, v: Value)
    requires i < |knot.defs| && Unrepeated(knot.defs) && KnotR(sg, knot, i, v)
    requires !Cyclic(knot.defs, Component(knot.defs, Rank(knot.defs, i)))
    ensures DefCode(sg, knot, i, v.comp) && EnvR(sg, UsesDef(knot.defs[i]), Tie(knot, |knot.defs|), v.env)
  {
    Lone(knot.defs, i);
    Entered(sg, knot, i, v.env);
  }

  lemma {:induction false} ExtendAt(group: GroupNode, kept: Env, n: nat)
    requires n <= |group.shape| && forall j, k | 0 <= j < k < |group.shape| :: group.shape[j].name != group.shape[k].name
    ensures var e := ExtendMembers(group, kept, kept, n);
            && (forall k | 0 <= k < n :: group.shape[k].name in e && e[group.shape[k].name] == VThunk(Rec(group, k), kept))
            && (forall x | (forall k | 0 <= k < n :: group.shape[k].name != x) :: (x in e <==> x in kept) && (x in kept ==> e[x] == kept[x]))
  {
    if n > 0 { ExtendAt(group, kept, n - 1); }
  }

  /** A group's index lists every name its blocks use. */
  lemma GroupLists(sg: set<Name>, knot: Knot, i: nat, c: Comp, x: Name)
    requires i < |knot.defs| && KnotCode(sg, knot, i, c) && Outside(knot.defs, Rank(knot.defs, i), x)
    requires Cyclic(knot.defs, Component(knot.defs, Rank(knot.defs, i)))
    ensures x in NamesMembers(c.group.shape) && BuiltMembers(c.group.shape) && x in c.group.occ
  {
    hide Rank, References, Coded;
    var defs := knot.defs;
    var ms := Component(defs, Rank(defs, i));
    forall k | 0 <= k < |ms| ensures BuiltC(c.group.shape[k].body) && UsesDef(defs[ms[k]]) <= NamesC(c.group.shape[k].body) {
      CodedMentions(sg, c.group.shape[k].body, defs[ms[k]].params, defs[ms[k]].body, Tie(knot, |defs|));
    }
    AllBuilt(c.group.shape);
    var m :| 0 <= m < |defs| && Rank(defs, m) == Rank(defs, i) && x in UsesDef(defs[m]);
    var k :| 0 <= k < |ms| && ms[k] == m;
    MemberNames(c.group.shape, k);
    WalkMembers(c.group.shape);
    ListsIndex(RefsMembers(c.group.shape), NamesMembers(c.group.shape));
  }

  lemma CodedMentions(sg: set<Name>, c: Comp, ps: seq<Name>, body: seq<Stmt>, senv: SEnv)
    requires Coded(sg, c, ps, body, senv)
    ensures BuiltC(c) && UsesCode(ps, body) <= NamesC(c)
  {
    var bound, n :| IsCode(c, ps, body, bound, n) && InScope(sg, bound, UsesCode(ps, body), senv);
    CodeMentions(c, ps, body, bound, n);
  }

  /** A group's blocks, under what the group kept. */
  lemma GroupEntered(sg: set<Name>, mode: Mode, knot: Knot, i: nat, v: Value)
    requires i < |knot.defs| && Unrepeated(knot.defs) && KnotR(sg, knot, i, v)
    requires Cyclic(knot.defs, Component(knot.defs, Rank(knot.defs, i)))
    ensures var c := v.comp;
            c.Rec? && c.index < |c.group.shape| && DefCode(sg, knot, i, c.group.shape[c.index].body)
            && EnvR(sg, UsesDef(knot.defs[i]), Tie(knot, |knot.defs|), Unfold(mode, c.group, v.env))
  {
    GroupUnfolds(sg, mode, knot, i, v);
    Entered(sg, knot, i, Unfold(mode, v.comp.group, v.env));
  }

  /** An environment that surrounds a component and binds its own blocks is one to
      run any of them in. */
  lemma Entered(sg: set<Name>, knot: Knot, i: nat, e: Env)
    requires i < |knot.defs| && Unrepeated(knot.defs) && Surrounds(sg, knot, Rank(knot.defs, i), e)
    requires forall j | 0 <= j < |knot.defs| && Rank(knot.defs, j) == Rank(knot.defs, i) && knot.defs[j].x in UsesDef(knot.defs[i]) ::
               knot.defs[j].x in e && KnotR(sg, knot, j, e[knot.defs[j].x])
    ensures EnvR(sg, UsesDef(knot.defs[i]), Tie(knot, |knot.defs|), e)
  {
    hide KnotR, Surrounds;
    forall x | x in UsesDef(knot.defs[i]) && !Synthetic(x)
      ensures var s := Tie(knot, |knot.defs|); (x in s <==> x in e) && (x in s && x in e ==> VR(sg, s[x], e[x]))
    {
      UsedAlike(sg, knot, i, e, x);
    }
  }

  lemma GroupUnfolds(sg: set<Name>, mode: Mode, knot: Knot, i: nat, v: Value)
    requires i < |knot.defs| && Unrepeated(knot.defs) && KnotR(sg, knot, i, v)
    requires Cyclic(knot.defs, Component(knot.defs, Rank(knot.defs, i)))
    ensures v.comp.Rec?
    ensures var e := Unfold(mode, v.comp.group, v.env);
            && Surrounds(sg, knot, Rank(knot.defs, i), e)
            && forall j | 0 <= j < |knot.defs| && Rank(knot.defs, j) == Rank(knot.defs, i) :: knot.defs[j].x in e && KnotR(sg, knot, j, e[knot.defs[j].x])
  {
    GroupKept(sg, mode, knot, i, v);
    var c := v.comp;
    hide KnotR, Surrounds;
    GroupExtends(sg, knot, i, c, Capture(mode, v.env, c.group.occ));
  }

  lemma GroupExtends(sg: set<Name>, knot: Knot, i: nat, c: Comp, kept: Env)
    requires i < |knot.defs| && Unrepeated(knot.defs) && KnotCode(sg, knot, i, c) && Surrounds(sg, knot, Rank(knot.defs, i), kept)
    requires Cyclic(knot.defs, Component(knot.defs, Rank(knot.defs, i)))
    ensures c.Rec?
    ensures var e := ExtendMembers(c.group, kept, kept, |c.group.shape|);
            && Surrounds(sg, knot, Rank(knot.defs, i), e)
            && forall j | 0 <= j < |knot.defs| && Rank(knot.defs, j) == Rank(knot.defs, i) :: knot.defs[j].x in e && KnotR(sg, knot, j, e[knot.defs[j].x])
  {
    GroupNames(sg, knot, i, c);
    hide *;
    var defs, g := knot.defs, c.group;
    var ms := Component(defs, Rank(defs, i));
    var e := ExtendMembers(g, kept, kept, |g.shape|);
    ExtendAt(g, kept, |g.shape|);
    GroupSurrounds(sg, knot, Rank(defs, i), ms, g, kept, e);
    forall j | 0 <= j < |defs| && Rank(defs, j) == Rank(defs, i) ensures defs[j].x in e && KnotR(sg, knot, j, e[defs[j].x]) {
      var k :| 0 <= k < |ms| && ms[k] == j;
      InGroup(sg, knot, i, j, c, k, kept);
    }
  }

  lemma GroupSurrounds(sg: set<Name>, knot: Knot, r: nat, ms: seq<nat>, g: GroupNode, kept: Env, e: Env)
    requires Surrounds(sg, knot, r, kept) && |g.shape| == |ms|
    requires forall k | 0 <= k < |ms| :: ms[k] < |knot.defs| && Rank(knot.defs, ms[k]) == r && g.shape[k].name == knot.defs[ms[k]].x
    requires forall x | (forall k | 0 <= k < |g.shape| :: g.shape[k].name != x) :: (x in e <==> x in kept) && (x in kept ==> e[x] == kept[x])
    ensures Surrounds(sg, knot, r, e)
  {
    hide *;
    forall x | Outside(knot.defs, r, x) ensures (x in kept <==> x in e) && (x in kept ==> kept[x] == e[x]) {
      OutsideNames(knot.defs, r, x);
      assert forall k | 0 <= k < |g.shape| :: g.shape[k].name != x;
    }
    SurroundsKept(sg, knot, r, kept, e);
  }

  lemma OutsideNames(defs: seq<Def>, r: nat, x: Name)
    requires Outside(defs, r, x)
    ensures forall j | 0 <= j < |defs| && Rank(defs, j) == r :: defs[j].x != x
  {
  }

  /** A group's members are its component's, under distinct names. */
  lemma GroupNames(sg: set<Name>, knot: Knot, i: nat, c: Comp)
    requires i < |knot.defs| && Unrepeated(knot.defs) && KnotCode(sg, knot, i, c)
    requires Cyclic(knot.defs, Component(knot.defs, Rank(knot.defs, i)))
    ensures var ms := Component(knot.defs, Rank(knot.defs, i));
            c.Rec? && |c.group.shape| == |ms| && forall k | 0 <= k < |ms| :: c.group.shape[k].name == knot.defs[ms[k]].x
    ensures forall j, k | 0 <= j < k < |c.group.shape| :: c.group.shape[j].name != c.group.shape[k].name
  {
  }

  /** Any block of a group, over what surrounds the group. */
  lemma InGroup(sg: set<Name>, knot: Knot, i: nat, j: nat, c: Comp, k: nat, e: Env)
    requires i < |knot.defs| && j < |knot.defs| && Rank(knot.defs, i) == Rank(knot.defs, j) && KnotCode(sg, knot, i, c)
    requires var ms := Component(knot.defs, Rank(knot.defs, i)); Cyclic(knot.defs, ms) && k < |ms| && ms[k] == j
    requires Surrounds(sg, knot, Rank(knot.defs, i), e)
    ensures KnotR(sg, knot, j, VThunk(Rec(c.group, k), e))
  {
    assert KnotCode(sg, knot, j, Rec(c.group, k));
  }

  lemma GroupKept(sg: set<Name>, mode: Mode, knot: Knot, i: nat, v: Value)
    requires i < |knot.defs| && KnotR(sg, knot, i, v)
    requires Cyclic(knot.defs, Component(knot.defs, Rank(knot.defs, i)))
    ensures Surrounds(sg, knot, Rank(knot.defs, i), Capture(mode, v.env, v.comp.group.occ))
  {
    forall x | Outside(knot.defs, Rank(knot.defs, i), x) ensures x in v.comp.group.occ { GroupLists(sg, knot, i, v.comp, x); }
    SurroundsKept(sg, knot, Rank(knot.defs, i), v.env, Capture(mode, v.env, v.comp.group.occ));
  }

  // ── Tying the knot ───────────────────────────────────────────────────────

  /** The codes are elaborations of the blocks. */
  ghost predicate Codes(sg: set<Name>, knot: Knot, codes: seq<Comp>) {
    |codes| == |knot.defs| && forall i | 0 <= i < |codes| :: DefCode(sg, knot, i, codes[i])
  }

  /** `e` is `was` with the blocks of the components below `r` bound. */
  ghost predicate Tied(sg: set<Name>, knot: Knot, r: nat, was: Env, e: Env) {
    (forall i | 0 <= i < |knot.defs| && Rank(knot.defs, i) < r :: InEnv(sg, knot, i, e)) && (forall x | Foreign(knot.defs, x) :: SameAt(was, e, x))
  }

  ghost predicate InEnv(sg: set<Name>, knot: Knot, i: nat, e: Env)
    requires i < |knot.defs|
  {
    knot.defs[i].x in e && KnotR(sg, knot, i, e[knot.defs[i].x])
  }

  ghost predicate SameAt(e: Env, f: Env, x: Name) {
    (x in e <==> x in f) && (x in e ==> e[x] == f[x])
  }

  predicate Foreign(defs: seq<Def>, x: Name) {
    x !in DefNames(defs)
  }

  lemma Distinct(defs: seq<Def>, i: nat, j: nat)
    requires Unrepeated(defs) && i < |defs| && j < |defs| && i != j
    ensures defs[i].x != defs[j].x
  {
    if i > j { Distinct(defs, j, i); }
  }

  lemma NotForeign(defs: seq<Def>, i: nat)
    requires i < |defs|
    ensures !Foreign(defs, defs[i].x)
  {
  }

  ghost predicate Around(sg: set<Name>, knot: Knot, was: Env) {
    EnvR(sg, UsesDefs(knot.defs) - DefNames(knot.defs), knot.env, was)
  }

  lemma {:induction false} UsedBySome(defs: seq<Def>, i: nat)
    requires i < |defs|
    ensures UsesDef(defs[i]) <= UsesDefs(defs)
  {
    if i > 0 { UsedBySome(defs[1..], i - 1); }
  }

  lemma TiedSurrounds(sg: set<Name>, knot: Knot, r: nat, was: Env, e: Env)
    requires Tied(sg, knot, r, was, e) && Around(sg, knot, was)
    ensures Surrounds(sg, knot, r, e)
  {
    hide KnotR;
    forall j | 0 <= j < |knot.defs| && Rank(knot.defs, j) < r ensures knot.defs[j].x in e && KnotR(sg, knot, j, e[knot.defs[j].x]) {
      assert InEnv(sg, knot, j, e);
    }
    forall x | x !in DefNames(knot.defs) && Outside(knot.defs, r, x)
      ensures (x in knot.env <==> x in e) && (x in knot.env && x in e ==> VR(sg, knot.env[x], e[x]))
    {
      UsedOutside(knot.defs, r, x);
      assert Foreign(knot.defs, x) && SameAt(was, e, x);
    }
  }

  lemma UsedOutside(defs: seq<Def>, r: nat, x: Name)
    requires Outside(defs, r, x)
    ensures x in UsesDefs(defs) && !Synthetic(x)
  {
    var i :| 0 <= i < |defs| && Rank(defs, i) == r && x in UsesDef(defs[i]);
    UsedBySome(defs, i);
  }

  lemma ThunkRuns(k: Context, fuel: nat, h: Hoist, c: Comp, env: Env, tr: Trace)
    requires h.comp == Return(ThunkVal(c))
    ensures RunBinds(k, fuel, [h], env, tr) == Reached(env[h.name := VThunk(c, Capture(k.mode, env, OccOf(RefsC(c))))], tr)
  {
    RunOne(k, fuel, h, env, tr);
  }

  /** A thunk keeps what surrounds its component. */
  lemma ThunkKept(sg: set<Name>, mode: Mode, knot: Knot, r: nat, c: Comp, e: Env)
    requires Surrounds(sg, knot, r, e) && BuiltC(c) && forall x | Outside(knot.defs, r, x) :: x in NamesC(c)
    ensures Surrounds(sg, knot, r, Capture(mode, e, OccOf(RefsC(c))))
  {
    WalkC(c);
    ListsIndex(RefsC(c), NamesC(c));
    CaptureKeeps(mode, e, OccOf(RefsC(c)), NamesC(c));
    SurroundsKept(sg, knot, r, e, Capture(mode, e, OccOf(RefsC(c))));
  }

  lemma KnotMade(sg: set<Name>, knot: Knot, i: nat, c: Comp, e: Env)
    requires i < |knot.defs| && KnotCode(sg, knot, i, c) && Surrounds(sg, knot, Rank(knot.defs, i), e)
    ensures KnotR(sg, knot, i, VThunk(c, e))
  {
  }

  /** One more block bound. */
  lemma InEnvNext(sg: set<Name>, knot: Knot, i: nat, j: nat, e: Env, v: Value)
    requires Unrepeated(knot.defs) && i < |knot.defs| && j < |knot.defs|
    requires if i == j then KnotR(sg, knot, i, v) else InEnv(sg, knot, i, e)
    ensures InEnv(sg, knot, i, e[knot.defs[j].x := v])
  {
    if i != j { Distinct(knot.defs, i, j); }
  }

  lemma LoneKnot(sg: set<Name>, mode: Mode, knot: Knot, codes: seq<Comp>, i: nat, e: Env)
    requires Unrepeated(knot.defs) && Codes(sg, knot, codes) && i < |knot.defs| && !Cyclic(knot.defs, Component(knot.defs, Rank(knot.defs, i)))
    requires Surrounds(sg, knot, Rank(knot.defs, i), e)
    ensures KnotR(sg, knot, i, VThunk(codes[i], Capture(mode, e, OccOf(RefsC(codes[i])))))
  {
    hide Surrounds;
    var defs, r, c := knot.defs, Rank(knot.defs, i), codes[i];
    Lone(defs, i);
    CodedMentions(sg, c, defs[i].params, defs[i].body, Tie(knot, |defs|));
    forall x | Outside(defs, r, x) ensures x in NamesC(c) {
      var m :| 0 <= m < |defs| && Rank(defs, m) == r && x in UsesDef(defs[m]);
      assert m in Component(defs, r);
    }
    ThunkKept(sg, mode, knot, r, c, e);
    KnotMade(sg, knot, i, c, Capture(mode, e, OccOf(RefsC(c))));
  }

  lemma LoneTied(sg: set<Name>, knot: Knot, i: nat, was: Env, e: Env, v: Value)
    requires Unrepeated(knot.defs) && i < |knot.defs| && Tied(sg, knot, Rank(knot.defs, i), was, e) && KnotR(sg, knot, i, v)
    requires forall j | 0 <= j < |knot.defs| && Rank(knot.defs, j) == Rank(knot.defs, i) :: j == i
    ensures Tied(sg, knot, Rank(knot.defs, i) + 1, was, e[knot.defs[i].x := v])
  {
    hide Unrepeated, KnotR;
    var f := e[knot.defs[i].x := v];
    forall j | 0 <= j < |knot.defs| && Rank(knot.defs, j) < Rank(knot.defs, i) + 1 ensures InEnv(sg, knot, j, f) { InEnvNext(sg, knot, j, i, e, v); }
    forall x | Foreign(knot.defs, x) ensures SameAt(was, f, x) { NotForeign(knot.defs, i); }
  }

  lemma LoneRuns(k: Context, fuel: nat, knot: Knot, codes: seq<Comp>, i: nat, was: Env, e: Env, tr: Trace)
    requires Unrepeated(knot.defs) && Codes(k.sig.Keys, knot, codes) && i < |knot.defs|
    requires !Cyclic(knot.defs, Component(knot.defs, Rank(knot.defs, i)))
    requires Tied(k.sig.Keys, knot, Rank(knot.defs, i), was, e) && Around(k.sig.Keys, knot, was)
    ensures var p := RunBinds(k, fuel, ComponentBinds(knot.defs, Component(knot.defs, Rank(knot.defs, i)), codes), e, tr);
            p.Reached? && p.tr == tr && Tied(k.sig.Keys, knot, Rank(knot.defs, i) + 1, was, p.env)
  {
    hide KnotR, Surrounds, Eval, Tied, Around, Unrepeated;
    var defs, r, c := knot.defs, Rank(knot.defs, i), codes[i];
    Lone(defs, i);
    ThunkRuns(k, fuel, Hoist(defs[i].x, Return(ThunkVal(c))), c, e, tr);
    TiedSurrounds(k.sig.Keys, knot, r, was, e);
    LoneKnot(k.sig.Keys, k.mode, knot, codes, i, e);
    forall j | 0 <= j < |defs| && Rank(defs, j) == r ensures j == i { assert j in Component(defs, r); }
    LoneTied(k.sig.Keys, knot, i, was, e, VThunk(c, Capture(k.mode, e, OccOf(RefsC(c)))));
  }

  predicate Member(defs: seq<Def>, r: nat, x: Name) {
    exists i :: 0 <= i < |defs| && Rank(defs, i) == r && defs[i].x == x
  }

  /** `f` is `e` with the first `n` of a component's blocks bound. */
  ghost predicate Binding(sg: set<Name>, knot: Knot, r: nat, ms: seq<nat>, n: nat, e: Env, f: Env)
    requires n <= |ms| && forall k | 0 <= k < |ms| :: ms[k] < |knot.defs|
  {
    (forall k | 0 <= k < n :: InEnv(sg, knot, ms[k], f)) && (forall x | !Member(knot.defs, r, x) :: SameAt(e, f, x))
  }

  lemma MemberKnot(sg: set<Name>, mode: Mode, knot: Knot, codes: seq<Comp>, r: nat, ms: seq<nat>, n: nat, e: Env)
    requires Codes(sg, knot, codes) && ms == Component(knot.defs, r) && n < |ms| && Cyclic(knot.defs, ms)
    requires Surrounds(sg, knot, r, e)
    ensures var c := Rec(Group(knot.defs, ms, codes), n); KnotR(sg, knot, ms[n], VThunk(c, Capture(mode, e, OccOf(RefsC(c)))))
  {
    hide Surrounds, KnotR;
    var i, c := ms[n], Rec(Group(knot.defs, ms, codes), n);
    assert KnotCode(sg, knot, i, c);
    GroupIsBuilt(sg, knot, codes, ms);
    forall x | Outside(knot.defs, r, x) ensures x in NamesC(c) { GroupLists(sg, knot, i, c, x); }
    ThunkKept(sg, mode, knot, r, c, e);
    KnotMade(sg, knot, i, c, Capture(mode, e, OccOf(RefsC(c))));
  }

  lemma GroupIsBuilt(sg: set<Name>, knot: Knot, codes: seq<Comp>, ms: seq<nat>)
    requires Codes(sg, knot, codes) && forall k | 0 <= k < |ms| :: ms[k] < |knot.defs|
    ensures forall k: nat | k < |ms| :: BuiltC(Rec(Group(knot.defs, ms, codes), k))
  {
    var g := Group(knot.defs, ms, codes);
    forall k | 0 <= k < |ms| ensures BuiltC(g.shape[k].body) {
      CodedMentions(sg, g.shape[k].body, knot.defs[ms[k]].params, knot.defs[ms[k]].body, Tie(knot, |knot.defs|));
    }
    AllBuilt(g.shape);
  }

  /** The `n`-th member of a component bound, over the ones before. */
  lemma BindingNext(sg: set<Name>, knot: Knot, r: nat, ms: seq<nat>, n: nat, e: Env, f: Env, v: Value)
    requires Unrepeated(knot.defs) && n < |ms| && (forall k | 0 <= k < |ms| :: ms[k] < |knot.defs| && Rank(knot.defs, ms[k]) == r)
    requires Binding(sg, knot, r, ms, n, e, f) && KnotR(sg, knot, ms[n], v)
    ensures Binding(sg, knot, r, ms, n + 1, e, f[knot.defs[ms[n]].x := v])
  {
    hide Unrepeated, KnotR, InEnv;
    forall k | 0 <= k < n + 1 ensures InEnv(sg, knot, ms[k], f[knot.defs[ms[n]].x := v]) {
      if ms[k] != ms[n] { assert InEnv(sg, knot, ms[k], f); }
      InEnvNext(sg, knot, ms[k], ms[n], f, v);
    }
    assert Member(knot.defs, r, knot.defs[ms[n]].x);
  }

  /** What surrounds a component does not change as it is bound. */
  lemma BindingSurrounds(sg: set<Name>, knot: Knot, r: nat, ms: seq<nat>, n: nat, e: Env, f: Env)
    requires n <= |ms| && forall k | 0 <= k < |ms| :: ms[k] < |knot.defs|
    requires Binding(sg, knot, r, ms, n, e, f) && Surrounds(sg, knot, r, e)
    ensures Surrounds(sg, knot, r, f)
  {
    hide Surrounds, InEnv;
    forall x | Outside(knot.defs, r, x) ensures SameAt(e, f, x) { assert !Member(knot.defs, r, x); }
    SurroundsKept(sg, knot, r, e, f);
  }

  lemma {:induction false} GroupRuns(k: Context, fuel: nat, knot: Knot, codes: seq<Comp>, r: nat, ms: seq<nat>, n: nat, e: Env, f: Env, tr: Trace)
    requires Unrepeated(knot.defs) && Codes(k.sig.Keys, knot, codes) && Surrounds(k.sig.Keys, knot, r, e)
    requires ms == Component(knot.defs, r) && n <= |ms| && Cyclic(knot.defs, ms) && Binding(k.sig.Keys, knot, r, ms, n, e, f)
    ensures var p := RunBinds(k, fuel, ComponentBinds(knot.defs, ms, codes)[n..], f, tr);
            p.Reached? && p.tr == tr && Binding(k.sig.Keys, knot, r, ms, |ms|, e, p.env)
    decreases |ms| - n
  {
    hide KnotR, Surrounds, Eval, Binding, Unrepeated, Cyclic, Component, Rank, Group, Capture;
    var bs := ComponentBinds(knot.defs, ms, codes);
    GroupBinds(knot.defs, ms, codes);
    if n < |ms| {
      var c := Rec(Group(knot.defs, ms, codes), n);
      var v := VThunk(c, Capture(k.mode, f, OccOf(RefsC(c))));
      assert bs[n..] == [bs[n]] + bs[n + 1..];
      RunAppend(k, fuel, [bs[n]], bs[n + 1..], f, tr);
      ThunkRuns(k, fuel, bs[n], c, f, tr);
      BindingSurrounds(k.sig.Keys, knot, r, ms, n, e, f);
      MemberKnot(k.sig.Keys, k.mode, knot, codes, r, ms, n, f);
      BindingNext(k.sig.Keys, knot, r, ms, n, e, f, v);
      GroupRuns(k, fuel, knot, codes, r, ms, n + 1, e, f[bs[n].name := v], tr);
    }
  }

  lemma GroupBinds(defs: seq<Def>, ms: seq<nat>, codes: seq<Comp>)
    requires |codes| == |defs| && (forall k | 0 <= k < |ms| :: ms[k] < |defs|) && Cyclic(defs, ms)
    ensures var bs := ComponentBinds(defs, ms, codes);
            |bs| == |ms| && forall k | 0 <= k < |ms| :: bs[k] == Hoist(defs[ms[k]].x, Return(ThunkVal(Rec(Group(defs, ms, codes), k))))
  {
  }

  /** One component: its blocks bound, over the earlier components'. */
  lemma ComponentRuns(k: Context, fuel: nat, knot: Knot, codes: seq<Comp>, r: nat, was: Env, e: Env, tr: Trace)
    requires Unrepeated(knot.defs) && Codes(k.sig.Keys, knot, codes)
    requires Tied(k.sig.Keys, knot, r, was, e) && Around(k.sig.Keys, knot, was)
    ensures var p := RunBinds(k, fuel, ComponentBinds(knot.defs, Component(knot.defs, r), codes), e, tr);
            p.Reached? && p.tr == tr && Tied(k.sig.Keys, knot, r + 1, was, p.env)
  {
    var ms := Component(knot.defs, r);
    hide *;
    if Cyclic(knot.defs, ms) {
      CyclicRuns(k, fuel, knot, codes, r, ms, was, e, tr);
    } else {
      OneMember(knot.defs, r, ms);
      LoneRuns(k, fuel, knot, codes, ms[0], was, e, tr);
    }
  }

  lemma OneMember(defs: seq<Def>, r: nat, ms: seq<nat>)
    requires ms == Component(defs, r) && !Cyclic(defs, ms)
    ensures |ms| == 1 && ms[0] < |defs| && Rank(defs, ms[0]) == r
  {
  }

  lemma CyclicRuns(k: Context, fuel: nat, knot: Knot, codes: seq<Comp>, r: nat, ms: seq<nat>, was: Env, e: Env, tr: Trace)
    requires Unrepeated(knot.defs) && Codes(k.sig.Keys, knot, codes) && ms == Component(knot.defs, r) && Cyclic(knot.defs, ms)
    requires Tied(k.sig.Keys, knot, r, was, e) && Around(k.sig.Keys, knot, was)
    ensures var p := RunBinds(k, fuel, ComponentBinds(knot.defs, ms, codes), e, tr);
            p.Reached? && p.tr == tr && Tied(k.sig.Keys, knot, r + 1, was, p.env)
  {
    var bs := ComponentBinds(knot.defs, ms, codes);
    assert Binding(k.sig.Keys, knot, r, ms, 0, e, e);
    hide *;
    TiedSurrounds(k.sig.Keys, knot, r, was, e);
    GroupRuns(k, fuel, knot, codes, r, ms, 0, e, e, tr);
    assert bs[0..] == bs;
    GroupTied(k.sig.Keys, knot, r, ms, was, e, RunBinds(k, fuel, bs, e, tr).env);
  }

  lemma GroupTied(sg: set<Name>, knot: Knot, r: nat, ms: seq<nat>, was: Env, e: Env, f: Env)
    requires Unrepeated(knot.defs) && Tied(sg, knot, r, was, e)
    requires ms == Component(knot.defs, r) && Binding(sg, knot, r, ms, |ms|, e, f)
    ensures Tied(sg, knot, r + 1, was, f)
  {
    hide Unrepeated, KnotR, Component;
    forall i | 0 <= i < |knot.defs| && Rank(knot.defs, i) < r + 1 ensures InEnv(sg, knot, i, f) {
      if Rank(knot.defs, i) == r {
        var k :| 0 <= k < |ms| && ms[k] == i;
      } else {
        NotMember(knot.defs, r, i);
        assert InEnv(sg, knot, i, e) && SameAt(e, f, knot.defs[i].x);
      }
    }
    forall x | Foreign(knot.defs, x) ensures SameAt(was, f, x) {
      assert !Member(knot.defs, r, x);
      assert SameAt(was, e, x) && SameAt(e, f, x);
    }
  }

  lemma NotMember(defs: seq<Def>, r: nat, i: nat)
    requires Unrepeated(defs) && i < |defs| && Rank(defs, i) != r
    ensures !Member(defs, r, defs[i].x)
  {
    forall j | 0 <= j < |defs| && Rank(defs, j) == r ensures defs[j].x != defs[i].x { Distinct(defs, i, j); }
  }

  /** The bindings of the components below `r`, run in order, do nothing the world
      sees and tie every block below `r`. */
  lemma {:induction false} KnotRuns(k: Context, fuel: nat, knot: Knot, codes: seq<Comp>, r: nat, was: Env, tr: Trace)
    requires Unrepeated(knot.defs) && Codes(k.sig.Keys, knot, codes) && Around(k.sig.Keys, knot, was)
    ensures var p := RunBinds(k, fuel, KnotBinds(knot.defs, codes, r), was, tr);
            p.Reached? && p.tr == tr && Tied(k.sig.Keys, knot, r, was, p.env)
  {
    hide KnotR, Surrounds, Eval, Unrepeated, Component, ComponentBinds, Around;
    if r > 0 {
      KnotRuns(k, fuel, knot, codes, r - 1, was, tr);
      var a, b := KnotBinds(knot.defs, codes, r - 1), ComponentBinds(knot.defs, Component(knot.defs, r - 1), codes);
      RunAppend(k, fuel, a, b, was, tr);
      ComponentRuns(k, fuel, knot, codes, r - 1, was, RunBinds(k, fuel, a, was, tr).env, tr);
    }
  }

  /** With every component bound, the environment agrees with the knot. */
  lemma TiedAgrees(sg: set<Name>, knot: Knot, was: Env, e: Env, uses: set<Name>)
    requires Unrepeated(knot.defs) && Tied(sg, knot, Height(knot.defs), was, e)
    requires EnvR(sg, uses - DefNames(knot.defs), knot.env, was)
    ensures EnvR(sg, uses, Tie(knot, |knot.defs|), e)
  {
    hide KnotR;
    var s := Tie(knot, |knot.defs|);
    forall x | x in uses && !Synthetic(x) ensures (x in s <==> x in e) && (x in s && x in e ==> VR(sg, s[x], e[x])) {
      if Foreign(knot.defs, x) {
        TieOther(knot, |knot.defs|, x);
        assert SameAt(was, e, x);
      } else {
        var j :| 0 <= j < |knot.defs| && knot.defs[j].x == x;
        TieAt(knot, |knot.defs|, j);
        assert InEnv(sg, knot, j, e);
      }
    }
  }
}
