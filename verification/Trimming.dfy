/** Trimming a closure's environment to the names its node lists never changes
    what a program does. */
module Trimming {
  import opened Ir
  import opened Evaluator
  import opened Wrappers

  // ── Code whose stored index covers what it mentions ──────────────────────

  ghost predicate CoversV(v: Val)
    decreases v, 0
  {
    match v
    case Thunk(node) => CoversC(node.shape) && forall x | x in NamesC(node.shape) :: x in node.occ
    case List(node) => CoversVs(node.shape) && forall x | x in NamesVs(node.shape) :: x in node.occ
    case Record(_, node) => CoversVs(node.shape) && forall x | x in NamesVs(node.shape) :: x in node.occ
    case Variant(_, payload) => CoversV(payload)
    case _ => true
  }

  ghost predicate CoversVs(vs: seq<Val>)
    decreases vs, 0
  {
    vs != [] ==> CoversV(vs[0]) && CoversVs(vs[1..])
  }

  ghost predicate CoversSlots(ss: seq<Slot>)
    decreases ss, 0
  {
    ss != [] ==> (assert ss[0].v < ss[0]; CoversV(ss[0].v)) && CoversSlots(ss[1..])
  }

  ghost predicate CoversArms(arms: seq<Arm>)
    decreases arms, 0
  {
    arms != [] ==> CoversV(arms[0].body) && CoversArms(arms[1..])
  }

  ghost predicate CoversMembers(ms: seq<Member>)
    decreases ms, 0
  {
    ms != [] ==> CoversC(ms[0].body) && CoversMembers(ms[1..])
  }

  ghost predicate CoversPrim(p: Prim)
    decreases p, 0
  {
    match p
    case Binary(_, l, r) => CoversV(l) && CoversV(r)
    case Not(v) => CoversV(v)
    case Index(t, k) => CoversV(t) && (k.Data? ==> CoversV(k.v))
    case ListOf(elems) => CoversSlots(elems)
  }

  ghost predicate CoversC(c: Comp)
    decreases c, 0
  {
    match c
    case Return(v) => CoversV(v)
    case Force(v) => CoversV(v)
    case Lam(_, body) => CoversC(body)
    case App(head, args) => CoversC(head) && CoversVs(args)
    case Bind(comp, _, rest) => CoversC(comp) && CoversC(rest)
    case Seq(first, rest) => CoversC(first) && CoversC(rest)
    case Rec(group, _) => CoversMembers(group.shape) && forall x | x in NamesMembers(group.shape) :: x in group.occ
    case If(cond, thn, els) => CoversV(cond) && CoversV(thn) && CoversV(els)
    case Case(scrutinee, arms) => CoversV(scrutinee) && CoversArms(arms)
    case Try(tried, handler) => CoversV(tried) && CoversV(handler)
    case Guard(tried, cleanup) => CoversV(tried) && CoversV(cleanup)
    case Primitive(prim) => CoversPrim(prim)
    case Exec(_, argv) => CoversSlots(argv)
  }

  // ── Values that differ only in what their closures captured ──────────────

  /** The same data, and closures over the same covered code whose environments
      agree on every name that code mentions. */
  ghost predicate Same(v: Value, w: Value)
    decreases v
  {
    match v
    case VThunk(c, e) =>
      && w.VThunk? && w.comp == c && CoversC(c)
      && (forall x | x in NamesC(c) :: x in e <==> x in w.env)
      && (forall x | x in NamesC(c) && x in e && x in w.env :: Same(e[x], w.env[x]))
    case VBuilt(vs) =>
      w.VBuilt? && |vs| == |w.items| && forall i | 0 <= i < |vs| :: Same(vs[i], w.items[i])
    case VLiteral(node, e) =>
      && w.VLiteral? && w.node == node && CoversVs(node.shape)
      && (forall x | x in NamesVs(node.shape) :: x in e <==> x in w.env)
      && (forall x | x in NamesVs(node.shape) && x in e && x in w.env :: Same(e[x], w.env[x]))
    case VRecord(keys, fs) =>
      w.VRecord? && keys == w.keys && Same(fs, w.fields)
    case VVariant(tag, p) =>
      w.VVariant? && tag == w.tag && Same(p, w.payload)
    case _ => v == w
  }

  ghost predicate SameAll(vs: seq<Value>, ws: seq<Value>) {
    |vs| == |ws| && forall i | 0 <= i < |vs| :: Same(vs[i], ws[i])
  }

  ghost predicate Agree(names: set<Name>, e: Env, f: Env) {
    && (forall x | x in names :: x in e <==> x in f)
    && (forall x | x in names && x in e && x in f :: Same(e[x], f[x]))
  }

  ghost predicate SameTerminal(t: Terminal, u: Terminal) {
    match t
    case Plain(v) => u.Plain? && Same(v, u.v)
    case Lambda(x, body, e) =>
      u.Lambda? && u.param == x && u.body == body && CoversC(body) && Agree(NamesC(body), e, u.env)
  }

  /** The same ending after the same operations. */
  ghost predicate SameOutcome(o: Outcome, p: Outcome) {
    match o
    case Done(t, tr) => p.Done? && p.tr == tr && SameTerminal(t, p.t)
    case _ => o == p
  }

  ghost predicate SameFormed(a: Formed<Value>, b: Formed<Value>) {
    match a
    case Formed(v) => b.Formed? && Same(v, b.value)
    case Malformed(e) => a == b
  }

  ghost predicate SameFormedAll(a: Formed<seq<Value>>, b: Formed<seq<Value>>) {
    match a
    case Formed(vs) => b.Formed? && SameAll(vs, b.value)
    case Malformed(e) => a == b
  }

  /** Two evaluators that may capture differently over one signature and world. */
  ghost predicate Peers(k: Context, l: Context) {
    k.sig == l.sig && k.world == l.world && forall x | x in k.sig :: Same(k.sig[x], k.sig[x])
  }

  lemma {:induction false} CaptureAgrees(m: Mode, n: Mode, names: set<Name>, e: Env, f: Env, occ: seq<Name>)
    requires Agree(names, e, f)
    requires forall x | x in names :: x in occ
    ensures Agree(names, Capture(m, e, occ), Capture(n, f, occ))
  {
  }

  lemma {:induction false} BoundAgreesV(v: Val, e: Env, f: Env)
    requires forall x | x in NamesV(v) :: x in e <==> x in f
    ensures NamesBound(v, e) == NamesBound(v, f)
    decreases v, 0
  {
    match v
    case List(node) => BoundAgrees(node.shape, e, f);
    case Record(_, node) => BoundAgrees(node.shape, e, f);
    case Variant(_, p) => BoundAgreesV(p, e, f);
    case _ =>
  }

  lemma {:induction false} BoundAgrees(vs: seq<Val>, e: Env, f: Env)
    requires forall x | x in NamesVs(vs) :: x in e <==> x in f
    ensures AllNamesBound(vs, e) == AllNamesBound(vs, f)
    decreases vs, 0
  {
    if vs != [] {
      BoundAgreesV(vs[0], e, f);
      BoundAgrees(vs[1..], e, f);
    }
  }

  lemma {:induction false} InspectAgrees(v: Val, e: Env, f: Env)
    requires CoversV(v) && Agree(NamesV(v), e, f)
    ensures Same(Inspect(v, e), Inspect(v, f))
  {
    if v.Variant? { InspectAgrees(v.payload, e, f); }
  }

  lemma {:induction false} InspectAllAgrees(vs: seq<Val>, e: Env, f: Env)
    requires CoversVs(vs) && Agree(NamesVs(vs), e, f)
    ensures SameAll(InspectAll(vs, e), InspectAll(vs, f))
  {
    if vs != [] {
      InspectAgrees(vs[0], e, f);
      InspectAllAgrees(vs[1..], e, f);
    }
  }

  lemma ItemsAgree(v: Value, w: Value)
    requires Same(v, w)
    ensures v.IsList() == w.IsList()
    ensures v.IsList() ==> SameAll(v.Items(), w.Items())
  {
    if v.VLiteral? { InspectAllAgrees(v.node.shape, v.env, w.env); }
  }

  lemma {:induction false} FormAgrees(k: Context, l: Context, v: Val, e: Env, f: Env)
    requires Peers(k, l) && CoversV(v) && Agree(NamesV(v), e, f)
    ensures SameFormed(Form(k, v, e), Form(l, v, f))
    decreases v, 0
  {
    match v
    case Thunk(node) => CaptureAgrees(k.mode, l.mode, NamesC(node.shape), e, f, node.occ);
    case List(node) =>
      BoundAgrees(node.shape, e, f);
      CaptureAgrees(k.mode, l.mode, NamesVs(node.shape), e, f, node.occ);
      FormAllAgrees(k, l, node.shape, e, f);
    case Record(_, node) =>
      BoundAgrees(node.shape, e, f);
      CaptureAgrees(k.mode, l.mode, NamesVs(node.shape), e, f, node.occ);
      FormAllAgrees(k, l, node.shape, e, f);
    case Variant(_, p) => FormAgrees(k, l, p, e, f);
    case _ =>
  }

  lemma {:induction false} FormAllAgrees(k: Context, l: Context, vs: seq<Val>, e: Env, f: Env)
    requires Peers(k, l) && CoversVs(vs) && Agree(NamesVs(vs), e, f)
    ensures SameFormedAll(FormAll(k, vs, e), FormAll(l, vs, f))
    decreases vs, 0
  {
    if vs != [] {
      FormAgrees(k, l, vs[0], e, f);
      FormAllAgrees(k, l, vs[1..], e, f);
    }
  }

  lemma {:induction false} CloseAgrees(k: Context, l: Context, ss: seq<Slot>, e: Env, f: Env)
    requires Peers(k, l) && CoversSlots(ss) && Agree(NamesSlots(ss), e, f)
    ensures SameFormedAll(CloseArgv(k, ss, e), CloseArgv(l, ss, f))
  {
    if ss != [] {
      FormAgrees(k, l, ss[0].v, e, f);
      CloseAgrees(k, l, ss[1..], e, f);
      JoinedAgree(Form(k, ss[0].v, e), Form(l, ss[0].v, f), ss[0].spread, CloseArgv(k, ss[1..], e), CloseArgv(l, ss[1..], f));
    }
  }

  /** One argument ahead of the rest. */
  function Joined(a: Formed<Value>, spread: bool, rest: Formed<seq<Value>>): Formed<seq<Value>> {
    match a
    case Malformed(e) => Malformed(e)
    case Formed(w) =>
      if spread && !w.IsList() then Malformed(NotAList)
      else
        match rest
        case Malformed(e) => Malformed(e)
        case Formed(ws) => Formed((if spread then w.Items() else [w]) + ws)
  }

  lemma JoinedAgree(a: Formed<Value>, b: Formed<Value>, spread: bool, xs: Formed<seq<Value>>, ys: Formed<seq<Value>>)
    requires SameFormed(a, b) && SameFormedAll(xs, ys)
    ensures SameFormedAll(Joined(a, spread, xs), Joined(b, spread, ys))
  {
    if a.Formed? { ItemsAgree(a.value, b.value); }
  }

  /** Data never shows what a closure captured. */
  lemma {:induction false} ObserveAgrees(v: Value, w: Value)
    requires Same(v, w)
    ensures Observe(v) == Observe(w)
    decreases v, 2
  {
    match v
    case VBuilt(vs) => ObserveAllAgrees(vs, w.items);
    case VLiteral(node, _) => ObserveValsAgree(v, w, node.shape);
    case VRecord(_, fs) => ObserveAgrees(fs, w.fields);
    case VVariant(_, p) => ObserveAgrees(p, w.payload);
    case _ =>
  }

  lemma {:induction false} ObserveAllAgrees(vs: seq<Value>, ws: seq<Value>)
    requires SameAll(vs, ws)
    ensures ObserveAll(vs) == ObserveAll(ws)
    decreases vs, 0
  {
    if vs != [] {
      ObserveAgrees(vs[0], ws[0]);
      ObserveAllAgrees(vs[1..], ws[1..]);
    }
  }

  lemma {:induction false} ObserveValAgrees(v: Value, w: Value, t: Val)
    requires v.VLiteral? && Same(v, w) && NamesV(t) <= NamesVs(v.node.shape)
    ensures ObserveVal(v, t) == ObserveVal(w, t)
    decreases v, 1, t, 0
  {
    match t
    case Variable(x) => if x in v.env { ObserveAgrees(v.env[x], w.env[x]); }
    case List(node) => ObserveValsAgree(v, w, node.shape);
    case Record(_, node) => ObserveValsAgree(v, w, node.shape);
    case Variant(_, p) => ObserveValAgrees(v, w, p);
    case _ =>
  }

  lemma {:induction false} ObserveValsAgree(v: Value, w: Value, ts: seq<Val>)
    requires v.VLiteral? && Same(v, w) && NamesVs(ts) <= NamesVs(v.node.shape)
    ensures ObserveVals(v, ts) == ObserveVals(w, ts)
    decreases v, 1, ts, 0
  {
    if ts != [] {
      ObserveValAgrees(v, w, ts[0]);
      ObserveValsAgree(v, w, ts[1..]);
    }
  }

  lemma {:induction false} DatumSame(d: Datum)
    ensures Same(FromDatum(d), FromDatum(d))
    decreases d, 0
  {
    match d
    case DList(ds) => DataSame(ds);
    case DRecord(_, ds) => DataSame(ds);
    case DVariant(_, p) => DatumSame(p);
    case _ =>
  }

  lemma {:induction false} DataSame(ds: seq<Datum>)
    ensures SameAll(FromData(ds), FromData(ds))
    decreases ds, 0
  {
    if ds != [] {
      DatumSame(ds[0]);
      DataSame(ds[1..]);
    }
  }

  lemma FieldAgrees(v: Value, w: Value, key: Name)
    requires Same(v, w)
    ensures SameFormed(FieldResult(v, key), FieldResult(w, key))
  {
    if v.VRecord? { ItemsAgree(v.fields, w.fields); }
  }

  lemma IndexAgrees(k: Context, l: Context, v: Value, w: Value, key: Key, e: Env, f: Env)
    requires Peers(k, l) && Same(v, w)
    requires key.Data? ==> CoversV(key.v) && Agree(NamesV(key.v), e, f)
    ensures SameFormed(IndexResult(k, v, key, e), IndexResult(l, w, key, f))
  {
    match key
    case Label(x) => FieldAgrees(v, w, x);
    case Position(n) => ItemsAgree(v, w);
    case Data(_) => ReadAgrees(k, l, v, w, key, e, f);
  }

  lemma ReadAgrees(k: Context, l: Context, v: Value, w: Value, key: Key, e: Env, f: Env)
    requires Peers(k, l) && Same(v, w) && key.Data? && CoversV(key.v) && Agree(NamesV(key.v), e, f)
    ensures SameFormed(IndexResult(k, v, key, e), IndexResult(l, w, key, f))
  {
    FormAgrees(k, l, key.v, e, f);
    var a := Form(k, key.v, e);
    if a.Formed? && a.value.VStr? { FieldAgrees(v, w, a.value.s); }
  }

  lemma BinaryAgrees(op: BinaryOp, a: Value, b: Value, c: Value, d: Value)
    requires Same(a, c) && Same(b, d)
    ensures SameFormed(BinaryResult(op, a, b), BinaryResult(op, c, d))
  {
    ObserveAgrees(a, c);
    ObserveAgrees(b, d);
  }

  lemma PrimAgrees(k: Context, l: Context, p: Prim, e: Env, f: Env)
    requires Peers(k, l) && CoversPrim(p) && Agree(NamesPrim(p), e, f)
    ensures SameFormed(PrimResult(k, p, e), PrimResult(l, p, f))
  {
    match p
    case Binary(op, a, b) =>
      FormAgrees(k, l, a, e, f);
      FormAgrees(k, l, b, e, f);
      var a1, b1 := Form(k, a, e), Form(k, b, e);
      if a1.Formed? && b1.Formed? { BinaryAgrees(op, a1.value, b1.value, Form(l, a, f).value, Form(l, b, f).value); }
    case Not(v) => FormAgrees(k, l, v, e, f);
    case Index(t, key) =>
      FormAgrees(k, l, t, e, f);
      var a := Form(k, t, e);
      if a.Formed? { IndexAgrees(k, l, a.value, Form(l, t, f).value, key, e, f); }
    case ListOf(elems) => CloseAgrees(k, l, elems, e, f);
  }

  lemma {:induction false} MemberCovered(ms: seq<Member>, i: nat)
    requires i < |ms| && CoversMembers(ms)
    ensures CoversC(ms[i].body) && NamesC(ms[i].body) <= NamesMembers(ms)
  {
    if i > 0 { MemberCovered(ms[1..], i - 1); }
  }

  /** A group's own thunks agree: each names the group, whose index covers it. */
  lemma {:induction false} ExtendAgrees(group: GroupNode, kept: Env, keptF: Env, e: Env, f: Env, n: nat)
    requires n <= |group.shape| && CoversMembers(group.shape)
    requires forall x | x in NamesMembers(group.shape) :: x in group.occ
    requires Agree(NamesMembers(group.shape), kept, keptF)
    requires Agree(NamesMembers(group.shape), e, f)
    ensures Agree(NamesMembers(group.shape), ExtendMembers(group, kept, e, n), ExtendMembers(group, keptF, f, n))
  {
    if n > 0 {
      ExtendAgrees(group, kept, keptF, e, f, n - 1);
      var c := Rec(group, n - 1);
      assert NamesC(c) == NamesMembers(group.shape) && CoversC(c);
      assert Same(VThunk(c, kept), VThunk(c, keptF));
    }
  }

  lemma UnfoldAgrees(m: Mode, n: Mode, group: GroupNode, i: nat, e: Env, f: Env)
    requires i < |group.shape| && CoversC(Rec(group, i))
    requires Agree(NamesMembers(group.shape), e, f)
    ensures CoversC(group.shape[i].body)
    ensures Agree(NamesC(group.shape[i].body), Unfold(m, group, e), Unfold(n, group, f))
  {
    MemberCovered(group.shape, i);
    CaptureAgrees(m, n, NamesMembers(group.shape), e, f, group.occ);
    ExtendAgrees(group, Capture(m, e, group.occ), Capture(n, f, group.occ),
                 Capture(m, e, group.occ), Capture(n, f, group.occ), |group.shape|);
  }

  lemma BindAgrees(names: set<Name>, p: Pattern, v: Value, w: Value, e: Env, f: Env)
    requires Agree(names, e, f) && Same(v, w)
    ensures Agree(names, BindPattern(p, v, e), BindPattern(p, w, f))
  {
  }

  lemma ErrorSame(e: Error)
    ensures Same(ErrorValue(e), ErrorValue(e))
  {
    var message := ErrorValue(e).fields;
    assert Same(message.items[0], message.items[0]);
    assert Same(message, message);
  }

  // ── The evaluator ────────────────────────────────────────────────────────

  lemma {:induction false} EnterAgrees(k: Context, l: Context, fuel: nat, v: Value, w: Value, xs: seq<Value>, ys: seq<Value>, tr: Trace)
    requires Peers(k, l) && Same(v, w) && SameAll(xs, ys)
    ensures SameOutcome(Enter(k, fuel, v, xs, tr), Enter(l, fuel, w, ys, tr))
    decreases fuel, 0
  {
    if v.VThunk? && fuel > 0 {
      EvalAgrees(k, l, fuel - 1, v.comp, v.env, w.env, xs, ys, tr);
    }
  }

  lemma {:induction false} MeetAgrees(k: Context, l: Context, fuel: nat, t: Terminal, u: Terminal, xs: seq<Value>, ys: seq<Value>, tr: Trace)
    requires Peers(k, l) && SameTerminal(t, u) && SameAll(xs, ys)
    ensures SameOutcome(Meet(k, fuel, t, xs, tr), Meet(l, fuel, u, ys, tr))
    decreases fuel, 0
  {
    if t.Lambda? && xs != [] && fuel > 0 {
      EvalAgrees(k, l, fuel - 1, t.body, t.env[t.param := xs[0]], u.env[u.param := ys[0]], xs[1..], ys[1..], tr);
    }
  }

  lemma {:induction false} ForceValAgrees(k: Context, l: Context, fuel: nat, v: Val, e: Env, f: Env, xs: seq<Value>, ys: seq<Value>, tr: Trace)
    requires Peers(k, l) && CoversV(v) && Agree(NamesV(v), e, f) && SameAll(xs, ys)
    ensures SameOutcome(ForceVal(k, fuel, v, e, xs, tr), ForceVal(l, fuel, v, f, ys, tr))
    decreases fuel, 1
  {
    if v.Thunk? {
      if fuel > 0 { EvalAgrees(k, l, fuel - 1, v.thunk.shape, e, f, xs, ys, tr); }
    } else {
      FormAgrees(k, l, v, e, f);
      var a, b := Form(k, v, e), Form(l, v, f);
      if a.Formed? { EnterAgrees(k, l, fuel, a.value, b.value, xs, ys, tr); }
    }
  }

  lemma OperateAgrees(k: Context, l: Context, word: CommandWord, vs: seq<Value>, ws: seq<Value>, xs: seq<Value>, ys: seq<Value>, tr: Trace)
    requires Peers(k, l) && SameAll(vs, ws) && SameAll(xs, ys)
    ensures SameOutcome(Operate(k, word, vs, xs, tr), Operate(l, word, ws, ys, tr))
  {
    ObserveAllAgrees(vs, ws);
    var ds := ObserveAll(vs);
    if ds.Some? && k.world(tr, Event(word, ds.value)).Yields? {
      DatumSame(k.world(tr, Event(word, ds.value)).d);
    }
  }

  lemma {:induction false} DispatchAgrees(k: Context, l: Context, fuel: nat, word: CommandWord, vs: seq<Value>, ws: seq<Value>, e: Env, f: Env, xs: seq<Value>, ys: seq<Value>, tr: Trace)
    requires Peers(k, l) && SameAll(vs, ws) && SameAll(xs, ys) && Agree(NamesWord(word), e, f)
    ensures SameOutcome(Dispatch(k, fuel, word, vs, e, xs, tr), Dispatch(l, fuel, word, ws, f, ys, tr))
    decreases fuel, 1
  {
    if word.Named? && word.cmd.Bare? && Lookup(k, e, word.cmd.name).Some? {
      EnterAgrees(k, l, fuel, Lookup(k, e, word.cmd.name).value, Lookup(l, f, word.cmd.name).value, vs + xs, ws + ys, tr);
    } else {
      OperateAgrees(k, l, word, vs, ws, xs, ys, tr);
    }
  }

  lemma {:induction false} ArmAgrees(k: Context, l: Context, fuel: nat, arms: seq<Arm>, tag: Name, p: Value, q: Value, e: Env, f: Env, xs: seq<Value>, ys: seq<Value>, tr: Trace)
    requires Peers(k, l) && CoversArms(arms) && Agree(NamesArms(arms), e, f) && Same(p, q) && SameAll(xs, ys)
    ensures SameOutcome(EvalArm(k, fuel, arms, tag, p, e, xs, tr), EvalArm(l, fuel, arms, tag, q, f, ys, tr))
    decreases fuel, 2, arms, 0
  {
    if arms != [] {
      if arms[0].tag == tag {
        ForceValAgrees(k, l, fuel, arms[0].body, e, f, [p] + xs, [q] + ys, tr);
      } else {
        ArmAgrees(k, l, fuel, arms[1..], tag, p, q, e, f, xs, ys, tr);
      }
    }
  }

  lemma {:induction false} CaseAgrees(k: Context, l: Context, fuel: nat, s: Val, arms: seq<Arm>, e: Env, f: Env, xs: seq<Value>, ys: seq<Value>, tr: Trace)
    requires Peers(k, l) && CoversV(s) && CoversArms(arms)
    requires Agree(NamesV(s), e, f) && Agree(NamesArms(arms), e, f) && SameAll(xs, ys)
    ensures SameOutcome(EvalCase(k, fuel, s, arms, e, xs, tr), EvalCase(l, fuel, s, arms, f, ys, tr))
    decreases fuel, 2, arms, 1
  {
    FormAgrees(k, l, s, e, f);
    var a, b := Form(k, s, e), Form(l, s, f);
    if a.Formed? && a.value.VVariant? {
      ArmAgrees(k, l, fuel, arms, a.value.tag, a.value.payload, b.value.payload, e, f, xs, ys, tr);
    }
  }

  lemma {:induction false} TryAgrees(k: Context, l: Context, fuel: nat, tried: Val, handler: Val, e: Env, f: Env, xs: seq<Value>, ys: seq<Value>, tr: Trace)
    requires Peers(k, l) && CoversV(tried) && CoversV(handler)
    requires Agree(NamesV(tried) + NamesV(handler), e, f) && SameAll(xs, ys)
    ensures SameOutcome(EvalTry(k, fuel, tried, handler, e, xs, tr), EvalTry(l, fuel, tried, handler, f, ys, tr))
    decreases fuel, 1
  {
    PairAgrees(k, l, tried, handler, e, f);
    var vs, ws := FormAll(k, [tried, handler], e), FormAll(l, [tried, handler], f);
    if vs.Formed? {
      EnterAgrees(k, l, fuel, vs.value[0], ws.value[0], [], [], tr);
      var o, p := Enter(k, fuel, vs.value[0], [], tr), Enter(l, fuel, ws.value[0], [], tr);
      match o
      case Done(t, tr1) => MeetAgrees(k, l, fuel, t, p.t, xs, ys, tr1);
      case Failed(err, tr1) =>
        ErrorSame(err);
        EnterAgrees(k, l, fuel, vs.value[1], ws.value[1], [ErrorValue(err)] + xs, [ErrorValue(err)] + ys, tr1);
      case _ =>
    }
  }

  lemma PairAgrees(k: Context, l: Context, a: Val, b: Val, e: Env, f: Env)
    requires Peers(k, l) && CoversV(a) && CoversV(b) && Agree(NamesV(a) + NamesV(b), e, f)
    ensures SameFormedAll(FormAll(k, [a, b], e), FormAll(l, [a, b], f))
  {
    assert [a, b][1..] == [b];
    assert NamesVs([b]) == NamesV(b);
    FormAllAgrees(k, l, [a, b], e, f);
  }

  lemma {:induction false} GuardAgrees(k: Context, l: Context, fuel: nat, tried: Val, cleanup: Val, e: Env, f: Env, xs: seq<Value>, ys: seq<Value>, tr: Trace)
    requires Peers(k, l) && CoversV(tried) && CoversV(cleanup)
    requires Agree(NamesV(tried) + NamesV(cleanup), e, f) && SameAll(xs, ys)
    ensures SameOutcome(EvalGuard(k, fuel, tried, cleanup, e, xs, tr), EvalGuard(l, fuel, tried, cleanup, f, ys, tr))
    decreases fuel, 1
  {
    PairAgrees(k, l, tried, cleanup, e, f);
    var vs, ws := FormAll(k, [tried, cleanup], e), FormAll(l, [tried, cleanup], f);
    if vs.Formed? {
      EnterAgrees(k, l, fuel, vs.value[0], ws.value[0], [], [], tr);
      var o, p := Enter(k, fuel, vs.value[0], [], tr), Enter(l, fuel, ws.value[0], [], tr);
      EnterAgrees(k, l, fuel, vs.value[1], ws.value[1], [], [], o.tr);
      var o2 := Enter(k, fuel, vs.value[1], [], o.tr);
      if o.Done? && o2.Done? { MeetAgrees(k, l, fuel, o.t, p.t, xs, ys, o2.tr); }
    }
  }

  lemma {:induction false} ThenAgrees(k: Context, l: Context, fuel: nat, c: Comp, p: Pattern, rest: Comp, e: Env, f: Env, xs: seq<Value>, ys: seq<Value>, tr: Trace)
    requires Peers(k, l) && CoversC(c) && CoversC(rest)
    requires Agree(NamesC(c) + NamesC(rest), e, f) && SameAll(xs, ys)
    ensures SameOutcome(Eval(k, fuel, Bind(c, p, rest), e, xs, tr), Eval(l, fuel, Bind(c, p, rest), f, ys, tr))
    decreases fuel, 2, Bind(c, p, rest), 0
  {
    EvalAgrees(k, l, fuel, c, e, f, [], [], tr);
    var o, q := Eval(k, fuel, c, e, [], tr), Eval(l, fuel, c, f, [], tr);
    if o.Done? && o.t.Plain? {
      BindAgrees(NamesC(rest), p, o.t.v, q.t.v, e, f);
      EvalAgrees(k, l, fuel, rest, BindPattern(p, o.t.v, e), BindPattern(p, q.t.v, f), xs, ys, o.tr);
    }
  }

  /** Whatever two peers capture, code whose indexes cover it ends alike under
      environments that agree on the names it mentions. */
  lemma {:induction false} EvalAgrees(k: Context, l: Context, fuel: nat, c: Comp, e: Env, f: Env, xs: seq<Value>, ys: seq<Value>, tr: Trace)
    requires Peers(k, l) && CoversC(c) && Agree(NamesC(c), e, f) && SameAll(xs, ys)
    ensures SameOutcome(Eval(k, fuel, c, e, xs, tr), Eval(l, fuel, c, f, ys, tr))
    decreases fuel, 2, c, 1
  {
    match c
    case Return(v) => FormAgrees(k, l, v, e, f);
    case Force(v) => ForceValAgrees(k, l, fuel, v, e, f, xs, ys, tr);
    case Lam(_, _) => LamAgrees(k, l, fuel, c, e, f, xs, ys, tr);
    case App(_, _) => AppAgrees(k, l, fuel, c, e, f, xs, ys, tr);
    case Bind(comp, p, rest) => ThenAgrees(k, l, fuel, comp, p, rest, e, f, xs, ys, tr);
    case Seq(_, _) => SeqAgrees(k, l, fuel, c, e, f, xs, ys, tr);
    case Rec(_, _) => RecAgrees(k, l, fuel, c, e, f, xs, ys, tr);
    case If(_, _, _) => IfAgrees(k, l, fuel, c, e, f, xs, ys, tr);
    case Case(s, arms) => CaseAgrees(k, l, fuel, s, arms, e, f, xs, ys, tr);
    case Try(tried, handler) => TryAgrees(k, l, fuel, tried, handler, e, f, xs, ys, tr);
    case Guard(tried, cleanup) => GuardAgrees(k, l, fuel, tried, cleanup, e, f, xs, ys, tr);
    case Primitive(p) => PrimAgrees(k, l, p, e, f);
    case Exec(_, _) => ExecAgrees(k, l, fuel, c, e, f, xs, ys, tr);
  }

  lemma {:induction false} LamAgrees(k: Context, l: Context, fuel: nat, c: Comp, e: Env, f: Env, xs: seq<Value>, ys: seq<Value>, tr: Trace)
    requires c.Lam? && Peers(k, l) && CoversC(c) && Agree(NamesC(c), e, f) && SameAll(xs, ys)
    ensures SameOutcome(Eval(k, fuel, c, e, xs, tr), Eval(l, fuel, c, f, ys, tr))
    decreases fuel, 2, c, 0
  {
    if xs != [] {
      EvalAgrees(k, l, fuel, c.body, e[c.param := xs[0]], f[c.param := ys[0]], xs[1..], ys[1..], tr);
    }
  }

  lemma {:induction false} AppAgrees(k: Context, l: Context, fuel: nat, c: Comp, e: Env, f: Env, xs: seq<Value>, ys: seq<Value>, tr: Trace)
    requires c.App? && Peers(k, l) && CoversC(c) && Agree(NamesC(c), e, f) && SameAll(xs, ys)
    ensures SameOutcome(Eval(k, fuel, c, e, xs, tr), Eval(l, fuel, c, f, ys, tr))
    decreases fuel, 2, c, 0
  {
    FormAllAgrees(k, l, c.args, e, f);
    var a, b := FormAll(k, c.args, e), FormAll(l, c.args, f);
    if a.Formed? { EvalAgrees(k, l, fuel, c.head, e, f, a.value + xs, b.value + ys, tr); }
  }

  lemma {:induction false} RecAgrees(k: Context, l: Context, fuel: nat, c: Comp, e: Env, f: Env, xs: seq<Value>, ys: seq<Value>, tr: Trace)
    requires c.Rec? && Peers(k, l) && CoversC(c) && Agree(NamesC(c), e, f) && SameAll(xs, ys)
    ensures SameOutcome(Eval(k, fuel, c, e, xs, tr), Eval(l, fuel, c, f, ys, tr))
    decreases fuel, 2, c, 0
  {
    var group, i := c.group, c.index;
    if i < |group.shape| {
      UnfoldAgrees(k.mode, l.mode, group, i, e, f);
      EvalAgrees(k, l, fuel, group.shape[i].body, Unfold(k.mode, group, e), Unfold(l.mode, group, f), xs, ys, tr);
    }
  }

  lemma {:induction false} IfAgrees(k: Context, l: Context, fuel: nat, c: Comp, e: Env, f: Env, xs: seq<Value>, ys: seq<Value>, tr: Trace)
    requires c.If? && Peers(k, l) && CoversC(c) && Agree(NamesC(c), e, f) && SameAll(xs, ys)
    ensures SameOutcome(Eval(k, fuel, c, e, xs, tr), Eval(l, fuel, c, f, ys, tr))
    decreases fuel, 2, c, 0
  {
    FormAgrees(k, l, c.cond, e, f);
    ForceValAgrees(k, l, fuel, c.thn, e, f, xs, ys, tr);
    ForceValAgrees(k, l, fuel, c.els, e, f, xs, ys, tr);
  }

  lemma {:induction false} ExecAgrees(k: Context, l: Context, fuel: nat, c: Comp, e: Env, f: Env, xs: seq<Value>, ys: seq<Value>, tr: Trace)
    requires c.Exec? && Peers(k, l) && CoversC(c) && Agree(NamesC(c), e, f) && SameAll(xs, ys)
    ensures SameOutcome(Eval(k, fuel, c, e, xs, tr), Eval(l, fuel, c, f, ys, tr))
    decreases fuel, 2, c, 0
  {
    CloseAgrees(k, l, c.argv, e, f);
    var a, b := CloseArgv(k, c.argv, e), CloseArgv(l, c.argv, f);
    if a.Formed? { DispatchAgrees(k, l, fuel, c.word, a.value, b.value, e, f, xs, ys, tr); }
  }

  lemma {:induction false} SeqAgrees(k: Context, l: Context, fuel: nat, c: Comp, e: Env, f: Env, xs: seq<Value>, ys: seq<Value>, tr: Trace)
    requires c.Seq? && Peers(k, l) && CoversC(c) && Agree(NamesC(c), e, f) && SameAll(xs, ys)
    ensures SameOutcome(Eval(k, fuel, c, e, xs, tr), Eval(l, fuel, c, f, ys, tr))
    decreases fuel, 2, c, 0
  {
    EvalAgrees(k, l, fuel, c.first, e, f, [], [], tr);
    var o := Eval(k, fuel, c.first, e, [], tr);
    if o.Done? && o.t.Plain? {
      EvalAgrees(k, l, fuel, c.rest, e, f, xs, ys, o.tr);
    }
  }

  // ── What trimming preserves ──────────────────────────────────────────────

  /** What the outside can see of an ending: the operations, and the data. */
  datatype Seen =
    | SeenValue(d: Option<Datum>, tr: Trace)
    | SeenFunction(tr: Trace)
    | SeenError(e: Error, tr: Trace)
    | SeenExit(code: int, tr: Trace)
    | SeenNothing(tr: Trace)

  function See(o: Outcome): Seen {
    match o
    case Done(Plain(v), tr) => SeenValue(Observe(v), tr)
    case Done(Lambda(_, _, _), tr) => SeenFunction(tr)
    case Failed(e, tr) => SeenError(e, tr)
    case Exited(code, tr) => SeenExit(code, tr)
    case Starved(tr) => SeenNothing(tr)
  }

  /** Keeping only what is mentioned and keeping everything end alike, with the
      same operations in the same order, for every program, environment, world
      and fuel; the results differ at most in captures no code reads. */
  lemma TrimmingPreservesMeaning(sig: Env, world: (Trace, Event) -> Reply, fuel: nat, c: Comp, env: Env, args: seq<Value>, tr: Trace)
    requires CoversC(c)
    requires Agree(NamesC(c), env, env) && SameAll(args, args)
    requires forall x | x in sig :: Same(sig[x], sig[x])
    ensures var trimmed := Eval(Context(Trim, sig, world), fuel, c, env, args, tr);
            var whole := Eval(Context(Whole, sig, world), fuel, c, env, args, tr);
            SameOutcome(trimmed, whole) && See(trimmed) == See(whole)
  {
    var k, l := Context(Trim, sig, world), Context(Whole, sig, world);
    EvalAgrees(k, l, fuel, c, env, env, args, args, tr);
    var o := Eval(k, fuel, c, env, args, tr);
    if o.Done? && o.t.Plain? { ObserveAgrees(o.t.v, Eval(l, fuel, c, env, args, tr).t.v); }
  }

  /** Bindings a program does not mention cannot be told apart. */
  lemma UnmentionedBindingsAreInvisible(k: Context, fuel: nat, c: Comp, env: Env, extra: Env, tr: Trace)
    requires CoversC(c) && Agree(NamesC(c), env, env) && Peers(k, k)
    requires extra.Keys !! NamesC(c)
    ensures See(Eval(k, fuel, c, env + extra, [], tr)) == See(Eval(k, fuel, c, env, [], tr))
  {
    EvalAgrees(k, k, fuel, c, env + extra, env, [], [], tr);
    var o := Eval(k, fuel, c, env + extra, [], tr);
    if o.Done? && o.t.Plain? { ObserveAgrees(o.t.v, Eval(k, fuel, c, env, [], tr).t.v); }
  }

  /** The cover is needed, and for a bare command head too: with an index that
      leaves the head of `f` out, the trimmed block runs the command `f` of the
      world where the whole one runs the block bound to `f`. */
  lemma ADroppedHeadIsSeen(world: (Trace, Event) -> Reply)
    ensures var call := Exec(Named(Bare("f")), []);
            var c := Bind(Return(Thunk(ThunkNode(call, []))), Binder("g"), Force(Variable("g")));
            var env := map["f" := VThunk(Return(Unit), map[])];
            && NamesC(call) == {"f"}
            && !CoversC(c)
            && See(Eval(Context(Whole, map[], world), 2, c, env, [], [])) == SeenValue(Some(DUnit), [])
            && See(Eval(Context(Trim, map[], world), 2, c, env, [], [])).tr == [Event(Named(Bare("f")), [])]
  {
    WholeKeepsTheHead(world);
    TrimDropsTheHead(world);
    var call := Exec(Named(Bare("f")), []);
    var node := ThunkNode(call, []);
    assert NamesC(call) == {"f"};
    assert !CoversV(Thunk(node)) by { assert "f" in NamesC(node.shape); }
    assert !CoversC(Return(Thunk(node)));
  }

  lemma WholeKeepsTheHead(world: (Trace, Event) -> Reply)
    ensures var node := ThunkNode(Exec(Named(Bare("f")), []), []);
            var c := Bind(Return(Thunk(node)), Binder("g"), Force(Variable("g")));
            See(Eval(Context(Whole, map[], world), 2, c, map["f" := VThunk(Return(Unit), map[])], [], [])) == SeenValue(Some(DUnit), [])
  {
    var call := Exec(Named(Bare("f")), []);
    var node := ThunkNode(call, []);
    var c := Bind(Return(Thunk(node)), Binder("g"), Force(Variable("g")));
    var env: Env := map["f" := VThunk(Return(Unit), map[])];
    var w := Context(Whole, map[], world);
    var envW := env["g" := VThunk(call, env)];
    assert Eval(w, 2, Return(Thunk(node)), env, [], []) == Done(Plain(VThunk(call, env)), []);
    assert Eval(w, 2, c, env, [], []) == Eval(w, 2, Force(Variable("g")), envW, [], []);
    assert Eval(w, 2, Force(Variable("g")), envW, [], []) == Eval(w, 1, call, env, [], []);
    assert Eval(w, 1, call, env, [], []) == Enter(w, 1, VThunk(Return(Unit), map[]), [], []);
    assert Enter(w, 1, VThunk(Return(Unit), map[]), [], []) == Eval(w, 0, Return(Unit), map[], [], []);
  }

  lemma TrimDropsTheHead(world: (Trace, Event) -> Reply)
    ensures var node := ThunkNode(Exec(Named(Bare("f")), []), []);
            var c := Bind(Return(Thunk(node)), Binder("g"), Force(Variable("g")));
            See(Eval(Context(Trim, map[], world), 2, c, map["f" := VThunk(Return(Unit), map[])], [], [])).tr == [Event(Named(Bare("f")), [])]
  {
    var call := Exec(Named(Bare("f")), []);
    var node := ThunkNode(call, []);
    var c := Bind(Return(Thunk(node)), Binder("g"), Force(Variable("g")));
    var env: Env := map["f" := VThunk(Return(Unit), map[])];
    var t := Context(Trim, map[], world);
    var envT := env["g" := VThunk(call, map[])];
    assert Capture(Trim, env, []) == map[];
    assert Eval(t, 2, Return(Thunk(node)), env, [], []) == Done(Plain(VThunk(call, map[])), []);
    assert Eval(t, 2, c, env, [], []) == Eval(t, 2, Force(Variable("g")), envT, [], []);
    assert Eval(t, 2, Force(Variable("g")), envT, [], []) == Eval(t, 1, call, map[], [], []);
    assert Eval(t, 1, call, map[], [], []) == Operate(t, Named(Bare("f")), [], [], []);
  }
}
