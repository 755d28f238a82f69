/** How a surface value stands to an IR value, and a hoisted value term to the
    surface value it will form. */
module Denotation {
  import opened Ir
  import opened Evaluator
  import opened Wrappers
  import opened Occurrence
  import opened Surface
  import opened Elaborator
  import opened Elaborated

  // ── Environments that differ in temporaries ──────────────────────────────

  /** Not a temporary made after the `hi`-th. */
  ghost predicate Old(x: Name, hi: nat) {
    forall j: nat | j > hi :: x != Temp(j)
  }

  lemma SourceNamesAreOld(x: Name, hi: nat)
    requires !Synthetic(x)
    ensures Old(x, hi)
  {
    forall j: nat | j > hi ensures x != Temp(j) { assert Temp(j)[0] == '%'; }
  }

  lemma TempsAreOld(i: nat, hi: nat)
    requires i <= hi
    ensures Old(Temp(i), hi)
  {
    forall j: nat | j > hi ensures Temp(i) != Temp(j) {
      if Temp(i) == Temp(j) { TempInjective(i, j); }
    }
  }

  ghost predicate Extends(e: Env, f: Env, hi: nat) {
    && (forall x | Old(x, hi) :: x in e <==> x in f)
    && (forall x | Old(x, hi) && x in e && x in f :: e[x] == f[x])
  }

  lemma ExtendsTrans(e: Env, f: Env, g: Env, lo: nat, hi: nat)
    requires Extends(e, f, lo) && Extends(f, g, hi) && lo <= hi
    ensures Extends(e, g, lo)
  {
    forall x | Old(x, lo) ensures Old(x, hi) { }
  }

  lemma TempExtends(e: Env, lo: nat, i: nat, v: Value)
    requires lo < i
    ensures Extends(e, e[Temp(i) := v], lo)
  {
  }

  // ── Code and values ──────────────────────────────────────────────────────

  /** `c` is the elaboration of a block or lambda the checker admits. */
  ghost predicate IsCode(c: Comp, ps: seq<Name>, body: seq<Stmt>, bound: set<Name>, n: nat) {
    && c == Lams(ps, ElabStmts(body, bound + Params(ps), n).comp)
    && (forall i | 0 <= i < |ps| :: !Synthetic(ps[i]))
    && AdmittedStmts(body, bound + Params(ps))
  }

  ghost predicate InScope(sg: set<Name>, bound: set<Name>, uses: set<Name>, senv: SEnv) {
    forall x | x in bound && x in uses :: x in senv || x in sg
  }

  /** The same data, and closures over a body and over its elaboration, whose
      environments agree on the names the code uses. */
  ghost predicate VR(sg: set<Name>, s: SVal, v: Value)
    decreases s
  {
    match s
    case SUnit => v == VUnit
    case SStr(t) => v == VStr(t)
    case SInt(i) => v == VInt(i)
    case SBool(b) => v == VBool(b)
    case SList(xs) =>
      v.IsList() && |v.Items()| == |xs| && forall i | 0 <= i < |xs| :: VR(sg, xs[i], v.Items()[i])
    case SRecord(keys, xs) =>
      && v.VRecord? && v.keys == keys && v.fields.IsList() && |v.fields.Items()| == |xs|
      && forall i | 0 <= i < |xs| :: VR(sg, xs[i], v.fields.Items()[i])
    case SVariant(tag, p) => v.VVariant? && v.tag == tag && VR(sg, p, v.payload)
    case SClosure(ps, body, senv) =>
      && v.VThunk? && Coded(sg, v.comp, ps, body, senv)
      && (forall x | x in UsesCode(ps, body) && !Synthetic(x) :: x in senv <==> x in v.env)
      && (forall x | x in UsesCode(ps, body) && !Synthetic(x) && x in senv && x in v.env :: VR(sg, senv[x], v.env[x]))
    case SKnot(knot, i) => i < |knot.defs| && Unrepeated(knot.defs) && KnotR(sg, knot, i, v)
  }

  /** The code is an elaboration of the block in a scope its environment covers. */
  ghost predicate Coded(sg: set<Name>, c: Comp, ps: seq<Name>, body: seq<Stmt>, senv: SEnv) {
    exists bound, n :: IsCode(c, ps, body, bound, n) && InScope(sg, bound, UsesCode(ps, body), senv)
  }

  /** The code of a knot's block: its own, or its place in its component's group. */
  ghost predicate KnotCode(sg: set<Name>, knot: Knot, i: nat, c: Comp)
    requires i < |knot.defs|
  {
    var ms := Component(knot.defs, Rank(knot.defs, i));
    if !Cyclic(knot.defs, ms) then DefCode(sg, knot, i, c)
    else
      && c.Rec? && |c.group.shape| == |ms| && c.group.occ == OccOf(RefsMembers(c.group.shape))
      && c.index < |ms| && ms[c.index] == i
      && forall k | 0 <= k < |ms| :: c.group.shape[k].name == knot.defs[ms[k]].x && DefCode(sg, knot, ms[k], c.group.shape[k].body)
  }

  ghost predicate DefCode(sg: set<Name>, knot: Knot, i: nat, c: Comp)
    requires i < |knot.defs|
  {
    Coded(sg, c, knot.defs[i].params, knot.defs[i].body, Tie(knot, |knot.defs|))
  }

  /** What a component's code uses from outside the component. */
  ghost predicate Outside(defs: seq<Def>, r: nat, x: Name) {
    && !Synthetic(x)
    && (exists i :: 0 <= i < |defs| && Rank(defs, i) == r && x in UsesDef(defs[i]))
    && forall j | 0 <= j < |defs| && Rank(defs, j) == r :: defs[j].x != x
  }

  /** A knot's block and its value: related code, over an environment that agrees
      on what its component uses from outside, the earlier components' blocks
      among it. */
  ghost predicate KnotR(sg: set<Name>, knot: Knot, i: nat, v: Value)
    requires i < |knot.defs|
    decreases knot, Rank(knot.defs, i), 1
  {
    v.VThunk? && KnotCode(sg, knot, i, v.comp) && Surrounds(sg, knot, Rank(knot.defs, i), v.env)
  }

  ghost predicate Surrounds(sg: set<Name>, knot: Knot, r: nat, e: Env)
    decreases knot, r, 0
  {
    && (forall j | 0 <= j < |knot.defs| && Rank(knot.defs, j) < r && Outside(knot.defs, r, knot.defs[j].x) ::
          knot.defs[j].x in e && KnotR(sg, knot, j, e[knot.defs[j].x]))
    && (forall x | x !in DefNames(knot.defs) && Outside(knot.defs, r, x) :: x in knot.env <==> x in e)
    && (forall x | x !in DefNames(knot.defs) && Outside(knot.defs, r, x) && x in knot.env && x in e :: VR(sg, knot.env[x], e[x]))
  }

  ghost predicate VRs(sg: set<Name>, ss: seq<SVal>, vs: seq<Value>) {
    |ss| == |vs| && forall i | 0 <= i < |ss| :: VR(sg, ss[i], vs[i])
  }

  ghost predicate EnvR(sg: set<Name>, uses: set<Name>, senv: SEnv, env: Env) {
    && (forall x | x in uses && !Synthetic(x) :: x in senv <==> x in env)
    && (forall x | x in uses && !Synthetic(x) && x in senv && x in env :: VR(sg, senv[x], env[x]))
  }

  /** The two signatures bind the same names to related values, over one world. */
  ghost predicate Worlds(sk: SContext, k: Context) {
    && sk.order.KeysFirst? && sk.world == k.world && sk.sig.Keys == k.sig.Keys
    && forall x | x in sk.sig :: VR(k.sig.Keys, sk.sig[x], k.sig[x])
  }

  ghost predicate TermR(sg: set<Name>, t: STerminal, u: Terminal) {
    match t
    case SPlain(s) => u.Plain? && VR(sg, s, u.v)
    case SPartial(ps, body, senv) =>
      && u.Lambda? && ps != []
      && Coded(sg, Lam(u.param, u.body), ps, body, senv)
      && EnvR(sg, UsesCode(ps, body), senv, u.env)
  }

  /** The same ending, at the same point of the same trace. */
  ghost predicate OR(sg: set<Name>, s: SOutcome, o: Outcome) {
    match s
    case SDone(t, tr) => o.Done? && o.tr == tr && TermR(sg, t, o.t)
    case SFailed(e, tr) => o == Failed(e, tr)
    case SExited(code, tr) => o == Exited(code, tr)
    case SStarved(tr) => o == Starved(tr)
    case SDisturbed(_) => false
  }

  lemma EnvRExtends(sg: set<Name>, uses: set<Name>, senv: SEnv, e: Env, f: Env, hi: nat)
    requires EnvR(sg, uses, senv, e) && Extends(e, f, hi)
    ensures EnvR(sg, uses, senv, f)
  {
    forall x | x in uses && !Synthetic(x) ensures (x in e <==> x in f) && (x in e && x in f ==> e[x] == f[x]) {
      SourceNamesAreOld(x, hi);
    }
  }

  // ── Value terms ──────────────────────────────────────────────────────────

  /** `v` will form a value related to `s`, now and under any later temporaries. */
  ghost predicate Denotes(k: Context, hi: nat, v: Val, s: SVal, env: Env)
    decreases v
  {
    match v
    case Unit => s == SUnit
    case Str(t) => s == SStr(t)
    case Int(i) => s == SInt(i)
    case Bool(b) => s == SBool(b)
    case Variable(x) => Old(x, hi) && Lookup(k, env, x).Some? && VR(k.sig.Keys, s, Lookup(k, env, x).value)
    case Thunk(node) =>
      && s.SClosure? && node.occ == OccOf(RefsC(node.shape))
      && Coded(k.sig.Keys, node.shape, s.params, s.body, s.env)
      && EnvR(k.sig.Keys, UsesCode(s.params, s.body), s.env, env)
    case List(node) =>
      && s.SList? && node.occ == OccOf(RefsVs(node.shape)) && |node.shape| == |s.items| && BuiltVs(node.shape)
      && forall i | 0 <= i < |node.shape| :: Denotes(k, hi, node.shape[i], s.items[i], env)
    case _ => false
  }

  ghost predicate DenotesAll(k: Context, hi: nat, vs: seq<Val>, ss: seq<SVal>, env: Env) {
    |vs| == |ss| && forall i | 0 <= i < |vs| :: Denotes(k, hi, vs[i], ss[i], env)
  }

  lemma {:induction false} DenotesStays(k: Context, lo: nat, hi: nat, v: Val, s: SVal, e: Env, f: Env)
    requires Denotes(k, lo, v, s, e) && Extends(e, f, lo) && lo <= hi
    ensures Denotes(k, hi, v, s, f)
    decreases v
  {
    match v
    case Variable(x) =>
    case Thunk(node) => EnvRExtends(k.sig.Keys, UsesCode(s.params, s.body), s.env, e, f, lo);
    case List(node) =>
      forall i | 0 <= i < |node.shape| ensures Denotes(k, hi, node.shape[i], s.items[i], f) {
        DenotesStays(k, lo, hi, node.shape[i], s.items[i], e, f);
      }
    case _ =>
  }

  lemma CodeMentions(c: Comp, ps: seq<Name>, body: seq<Stmt>, bound: set<Name>, n: nat)
    requires IsCode(c, ps, body, bound, n)
    ensures BuiltC(c) && UsesStmts(body) <= NamesC(c)
  {
    StmtsKeep(body, bound + Params(ps), n);
    LamsKeep(ps, ElabStmts(body, bound + Params(ps), n).comp);
  }

  /** What a literal block closes over keeps every name its body uses. */
  lemma ThunkDenotes(k: Context, hi: nat, node: ThunkNode, s: SVal, env: Env, kept: Env)
    requires Denotes(k, hi, Thunk(node), s, env)
    requires forall x | x in NamesC(node.shape) :: (x in env <==> x in kept)
    requires forall x | x in NamesC(node.shape) && x in env && x in kept :: env[x] == kept[x]
    ensures VR(k.sig.Keys, s, VThunk(node.shape, kept))
  {
    var bound, n :| IsCode(node.shape, s.params, s.body, bound, n) && InScope(k.sig.Keys, bound, UsesCode(s.params, s.body), s.env);
    CodeMentions(node.shape, s.params, s.body, bound, n);
  }

  lemma {:induction false} InspectDenotes(k: Context, hi: nat, v: Val, s: SVal, env: Env, kept: Env)
    requires Denotes(k, hi, v, s, env) && NamesBound(v, env)
    requires forall x | x in NamesV(v) :: (x in env <==> x in kept)
    requires forall x | x in NamesV(v) && x in env && x in kept :: env[x] == kept[x]
    ensures VR(k.sig.Keys, s, Inspect(v, kept))
    decreases v
  {
    match v
    case Thunk(node) => ThunkDenotes(k, hi, node, s, env, kept);
    case List(node) =>
      InspectAllAt(node.shape, kept);
      forall i | 0 <= i < |node.shape| ensures VR(k.sig.Keys, s.items[i], Inspect(node.shape[i], kept)) {
        NamesAt(node.shape, i);
        BoundAt(node.shape, i, env);
        InspectDenotes(k, hi, node.shape[i], s.items[i], env, kept);
      }
    case _ =>
  }

  lemma {:induction false} InspectAllAt(vs: seq<Val>, env: Env)
    ensures forall i | 0 <= i < |vs| :: InspectAll(vs, env)[i] == Inspect(vs[i], env)
  {
    if vs != [] {
      InspectAllAt(vs[1..], env);
      forall i | 0 <= i < |vs| ensures InspectAll(vs, env)[i] == Inspect(vs[i], env) {
        if i > 0 { assert vs[i] == vs[1..][i - 1]; }
      }
    }
  }

  lemma {:induction false} NamesAt(vs: seq<Val>, i: nat)
    requires i < |vs|
    ensures NamesV(vs[i]) <= NamesVs(vs)
  {
    if i > 0 { NamesAt(vs[1..], i - 1); }
  }

  lemma {:induction false} BoundAt(vs: seq<Val>, i: nat, env: Env)
    requires i < |vs| && AllNamesBound(vs, env)
    ensures NamesBound(vs[i], env)
  {
    if i > 0 { BoundAt(vs[1..], i - 1, env); }
  }

  lemma CaptureKeeps(mode: Mode, env: Env, occ: seq<Name>, names: set<Name>)
    requires forall x | x in names :: x in occ
    ensures forall x | x in names :: x in env <==> x in Capture(mode, env, occ)
    ensures forall x | x in names && x in env && x in Capture(mode, env, occ) :: env[x] == Capture(mode, env, occ)[x]
  {
  }

  lemma {:induction false} DenotesForms(k: Context, hi: nat, v: Val, s: SVal, env: Env)
    requires Denotes(k, hi, v, s, env)
    ensures Form(k, v, env).Formed? && VR(k.sig.Keys, s, Form(k, v, env).value)
    decreases v, 0
  {
    match v
    case Thunk(node) =>
      var bound, n :| IsCode(node.shape, s.params, s.body, bound, n) && InScope(k.sig.Keys, bound, UsesCode(s.params, s.body), s.env);
      CodeMentions(node.shape, s.params, s.body, bound, n);
      WalkC(node.shape);
      ListsIndex(RefsC(node.shape), NamesC(node.shape));
      CaptureKeeps(k.mode, env, node.occ, NamesC(node.shape));
      ThunkDenotes(k, hi, node, s, env, Capture(k.mode, env, node.occ));
    case List(node) =>
      if AllNamesBound(node.shape, env) {
        ListDenotes(k, hi, node, s, env);
      } else {
        FormAllDenotes(k, hi, node.shape, s.items, env);
      }
    case _ =>
  }

  lemma ListDenotes(k: Context, hi: nat, node: ListNode, s: SVal, env: Env)
    requires Denotes(k, hi, List(node), s, env) && AllNamesBound(node.shape, env)
    ensures VR(k.sig.Keys, s, VLiteral(node, Capture(k.mode, env, node.occ)))
  {
    WalkVs(node.shape);
    ListsIndex(RefsVs(node.shape), NamesVs(node.shape));
    var kept := Capture(k.mode, env, node.occ);
    CaptureKeeps(k.mode, env, node.occ, NamesVs(node.shape));
    InspectAllAt(node.shape, kept);
    forall i | 0 <= i < |node.shape| ensures VR(k.sig.Keys, s.items[i], Inspect(node.shape[i], kept)) {
      NamesAt(node.shape, i);
      BoundAt(node.shape, i, env);
      InspectDenotes(k, hi, node.shape[i], s.items[i], env, kept);
    }
  }

  lemma {:induction false} FormAllDenotes(k: Context, hi: nat, vs: seq<Val>, ss: seq<SVal>, env: Env)
    requires DenotesAll(k, hi, vs, ss, env)
    ensures FormAll(k, vs, env).Formed? && VRs(k.sig.Keys, ss, FormAll(k, vs, env).value)
    decreases vs, 0
  {
    if vs != [] {
      DenotesForms(k, hi, vs[0], ss[0], env);
      FormAllDenotes(k, hi, vs[1..], ss[1..], env);
    }
  }

  lemma {:induction false} CloseDenotes(k: Context, hi: nat, vs: seq<Val>, ss: seq<SVal>, env: Env)
    requires DenotesAll(k, hi, vs, ss, env)
    ensures CloseArgv(k, Slots(vs), env).Formed? && VRs(k.sig.Keys, ss, CloseArgv(k, Slots(vs), env).value)
  {
    if vs != [] {
      DenotesForms(k, hi, vs[0], ss[0], env);
      CloseDenotes(k, hi, vs[1..], ss[1..], env);
      assert Slots(vs)[1..] == Slots(vs[1..]);
    }
  }

  // ── Data ─────────────────────────────────────────────────────────────────

  lemma {:induction false} LiteralSeen(v: Value, w: Value, t: Val)
    requires v.VLiteral? && w.VLiteral? && v.env == w.env
    ensures ObserveVal(v, t) == ObserveVal(w, t)
    decreases t, 0
  {
    match t
    case List(node) => LiteralsSeen(v, w, node.shape);
    case Record(_, node) => LiteralsSeen(v, w, node.shape);
    case Variant(_, p) => LiteralSeen(v, w, p);
    case _ =>
  }

  lemma {:induction false} LiteralsSeen(v: Value, w: Value, ts: seq<Val>)
    requires v.VLiteral? && w.VLiteral? && v.env == w.env
    ensures ObserveVals(v, ts) == ObserveVals(w, ts)
    decreases ts, 0
  {
    if ts != [] { LiteralSeen(v, w, ts[0]); LiteralsSeen(v, w, ts[1..]); }
  }

  lemma {:induction false} SeenAsInspected(v: Value, t: Val)
    requires v.VLiteral?
    ensures ObserveVal(v, t) == Observe(Inspect(t, v.env))
    decreases t
  {
    match t
    case List(node) => LiteralsSeen(v, VLiteral(node, v.env), node.shape);
    case Record(_, node) => LiteralsSeen(v, VLiteral(node, v.env), node.shape);
    case Variant(_, p) => SeenAsInspected(v, p);
    case _ =>
  }

  lemma {:induction false} SeenAllInspected(v: Value, ts: seq<Val>)
    requires v.VLiteral?
    ensures ObserveVals(v, ts) == ObserveAll(InspectAll(ts, v.env))
  {
    if ts != [] {
      SeenAsInspected(v, ts[0]);
      SeenAllInspected(v, ts[1..]);
      assert InspectAll(ts, v.env)[1..] == InspectAll(ts[1..], v.env);
    }
  }

  function Listed(ds: Option<seq<Datum>>): Option<Datum> {
    match ds case Some(items) => Some(DList(items)) case None => None
  }

  lemma ListSeen(v: Value)
    requires v.IsList()
    ensures Observe(v) == Listed(ObserveAll(v.Items()))
  {
    if v.VLiteral? { SeenAllInspected(v, v.node.shape); }
  }

  /** Related values look the same. */
  lemma {:induction false} SeenAlike(sg: set<Name>, s: SVal, v: Value)
    requires VR(sg, s, v)
    ensures SObserve(s) == Observe(v)
    decreases s, 0
  {
    match s
    case SList(xs) => SeenAllAlike(sg, xs, v.Items()); ListSeen(v);
    case SRecord(_, xs) => SeenAllAlike(sg, xs, v.fields.Items()); ListSeen(v.fields);
    case SVariant(_, p) => SeenAlike(sg, p, v.payload);
    case _ =>
  }

  lemma {:induction false} SeenAllAlike(sg: set<Name>, ss: seq<SVal>, vs: seq<Value>)
    requires VRs(sg, ss, vs)
    ensures SObserveAll(ss) == ObserveAll(vs)
    decreases ss, 0
  {
    if ss != [] { SeenAlike(sg, ss[0], vs[0]); SeenAllAlike(sg, ss[1..], vs[1..]); }
  }

  lemma {:induction false} DatumAlike(sg: set<Name>, d: Datum)
    ensures VR(sg, SFromDatum(d), FromDatum(d))
    decreases d, 0
  {
    match d
    case DList(ds) => DataAlike(sg, ds);
    case DRecord(_, ds) => DataAlike(sg, ds);
    case DVariant(_, p) => DatumAlike(sg, p);
    case _ =>
  }

  lemma {:induction false} DataAlike(sg: set<Name>, ds: seq<Datum>)
    ensures VRs(sg, SFromData(ds), FromData(ds))
    decreases ds, 0
  {
    if ds != [] { DatumAlike(sg, ds[0]); DataAlike(sg, ds[1..]); }
  }
}
