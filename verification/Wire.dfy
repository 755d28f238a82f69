/** The wire carries a node's shape alone; decoding computes its index again. */
module Wire {
  import opened Ir
  import opened Occurrence

  /** A term with every stored index left off. */
  function StripV(v: Val): Val
    decreases v, 0
  {
    match v
    case Thunk(node) => Thunk(ThunkNode(StripC(node.shape), []))
    case List(node) => List(ListNode(StripVs(node.shape), []))
    case Record(keys, node) => Record(keys, ListNode(StripVs(node.shape), []))
    case Variant(tag, payload) => Variant(tag, StripV(payload))
    case _ => v
  }

  function StripVs(vs: seq<Val>): seq<Val>
    decreases vs, 0
  {
    if vs == [] then [] else [StripV(vs[0])] + StripVs(vs[1..])
  }

  function StripSlots(ss: seq<Slot>): seq<Slot>
    decreases ss, 0
  {
    if ss == [] then [] else (assert ss[0].v < ss[0]; [Slot(StripV(ss[0].v), ss[0].spread)]) + StripSlots(ss[1..])
  }

  function StripArms(arms: seq<Arm>): seq<Arm>
    decreases arms, 0
  {
    if arms == [] then [] else [Arm(arms[0].tag, StripV(arms[0].body))] + StripArms(arms[1..])
  }

  function StripMembers(ms: seq<Member>): seq<Member>
    decreases ms, 0
  {
    if ms == [] then [] else [Member(ms[0].name, StripC(ms[0].body))] + StripMembers(ms[1..])
  }

  function StripKey(k: Key): Key
    decreases k, 0
  {
    match k case Data(v) => Data(StripV(v)) case _ => k
  }

  function StripPrim(p: Prim): Prim
    decreases p, 0
  {
    match p
    case Binary(op, l, r) => Binary(op, StripV(l), StripV(r))
    case Not(v) => Not(StripV(v))
    case Index(t, k) => Index(StripV(t), StripKey(k))
    case ListOf(elems) => ListOf(StripSlots(elems))
  }

  function StripC(c: Comp): Comp
    decreases c, 0
  {
    match c
    case Return(v) => Return(StripV(v))
    case Force(v) => Force(StripV(v))
    case Lam(x, body) => Lam(x, StripC(body))
    case App(head, args) => App(StripC(head), StripVs(args))
    case Bind(comp, p, rest) => Bind(StripC(comp), p, StripC(rest))
    case Seq(first, rest) => Seq(StripC(first), StripC(rest))
    case Rec(group, i) => Rec(GroupNode(StripMembers(group.shape), []), i)
    case If(cond, thn, els) => If(StripV(cond), StripV(thn), StripV(els))
    case Case(scrutinee, arms) => Case(StripV(scrutinee), StripArms(arms))
    case Try(tried, handler) => Try(StripV(tried), StripV(handler))
    case Guard(tried, cleanup) => Guard(StripV(tried), StripV(cleanup))
    case Primitive(prim) => Primitive(StripPrim(prim))
    case Exec(word, argv) => Exec(word, StripSlots(argv))
  }

  /** Decoding builds every node again, so no index is ever read off the wire. */
  function DecodeV(v: Val): Val
    decreases v, 0
  {
    match v
    case Thunk(node) => var shape := DecodeC(node.shape); Thunk(ThunkNode(shape, OccOf(RefsC(shape))))
    case List(node) => var shape := DecodeVs(node.shape); List(ListNode(shape, OccOf(RefsVs(shape))))
    case Record(keys, node) => var shape := DecodeVs(node.shape); Record(keys, ListNode(shape, OccOf(RefsVs(shape))))
    case Variant(tag, payload) => Variant(tag, DecodeV(payload))
    case _ => v
  }

  function DecodeVs(vs: seq<Val>): seq<Val>
    decreases vs, 0
  {
    if vs == [] then [] else [DecodeV(vs[0])] + DecodeVs(vs[1..])
  }

  function DecodeSlots(ss: seq<Slot>): seq<Slot>
    decreases ss, 0
  {
    if ss == [] then [] else (assert ss[0].v < ss[0]; [Slot(DecodeV(ss[0].v), ss[0].spread)]) + DecodeSlots(ss[1..])
  }

  function DecodeArms(arms: seq<Arm>): seq<Arm>
    decreases arms, 0
  {
    if arms == [] then [] else [Arm(arms[0].tag, DecodeV(arms[0].body))] + DecodeArms(arms[1..])
  }

  function DecodeMembers(ms: seq<Member>): seq<Member>
    decreases ms, 0
  {
    if ms == [] then [] else [Member(ms[0].name, DecodeC(ms[0].body))] + DecodeMembers(ms[1..])
  }

  function DecodeKey(k: Key): Key
    decreases k, 0
  {
    match k case Data(v) => Data(DecodeV(v)) case _ => k
  }

  function DecodePrim(p: Prim): Prim
    decreases p, 0
  {
    match p
    case Binary(op, l, r) => Binary(op, DecodeV(l), DecodeV(r))
    case Not(v) => Not(DecodeV(v))
    case Index(t, k) => Index(DecodeV(t), DecodeKey(k))
    case ListOf(elems) => ListOf(DecodeSlots(elems))
  }

  function DecodeC(c: Comp): Comp
    decreases c, 0
  {
    match c
    case Return(v) => Return(DecodeV(v))
    case Force(v) => Force(DecodeV(v))
    case Lam(x, body) => Lam(x, DecodeC(body))
    case App(head, args) => App(DecodeC(head), DecodeVs(args))
    case Bind(comp, p, rest) => Bind(DecodeC(comp), p, DecodeC(rest))
    case Seq(first, rest) => Seq(DecodeC(first), DecodeC(rest))
    case Rec(group, i) => var shape := DecodeMembers(group.shape); Rec(GroupNode(shape, OccOf(RefsMembers(shape))), i)
    case If(cond, thn, els) => If(DecodeV(cond), DecodeV(thn), DecodeV(els))
    case Case(scrutinee, arms) => Case(DecodeV(scrutinee), DecodeArms(arms))
    case Try(tried, handler) => Try(DecodeV(tried), DecodeV(handler))
    case Guard(tried, cleanup) => Guard(DecodeV(tried), DecodeV(cleanup))
    case Primitive(prim) => Primitive(DecodePrim(prim))
    case Exec(word, argv) => Exec(word, DecodeSlots(argv))
  }

  // ── Shape and index come back together ───────────────────────────────────

  lemma {:induction false} WireV(v: Val)
    ensures BuiltV(DecodeV(v)) && StripV(DecodeV(v)) == StripV(v) && DecodeV(StripV(v)) == DecodeV(v)
    ensures BuiltV(v) ==> DecodeV(v) == v
    decreases v, 0
  {
    match v
    case Thunk(node) => WireC(node.shape);
    case List(node) => WireVs(node.shape);
    case Record(_, node) => WireVs(node.shape);
    case Variant(_, payload) => WireV(payload);
    case _ =>
  }

  lemma {:induction false} WireVs(vs: seq<Val>)
    ensures BuiltVs(DecodeVs(vs)) && StripVs(DecodeVs(vs)) == StripVs(vs) && DecodeVs(StripVs(vs)) == DecodeVs(vs)
    ensures BuiltVs(vs) ==> DecodeVs(vs) == vs
    decreases vs, 0
  {
    if vs != [] { WireV(vs[0]); WireVs(vs[1..]); }
  }

  lemma {:induction false} WireSlots(ss: seq<Slot>)
    ensures BuiltSlots(DecodeSlots(ss)) && StripSlots(DecodeSlots(ss)) == StripSlots(ss) && DecodeSlots(StripSlots(ss)) == DecodeSlots(ss)
    ensures BuiltSlots(ss) ==> DecodeSlots(ss) == ss
    decreases ss, 0
  {
    if ss != [] { assert ss[0].v < ss[0]; WireV(ss[0].v); WireSlots(ss[1..]); }
  }

  lemma {:induction false} WireArms(arms: seq<Arm>)
    ensures BuiltArms(DecodeArms(arms)) && StripArms(DecodeArms(arms)) == StripArms(arms) && DecodeArms(StripArms(arms)) == DecodeArms(arms)
    ensures BuiltArms(arms) ==> DecodeArms(arms) == arms
    decreases arms, 0
  {
    if arms != [] { WireV(arms[0].body); WireArms(arms[1..]); }
  }

  lemma {:induction false} WireMembers(ms: seq<Member>)
    ensures BuiltMembers(DecodeMembers(ms)) && StripMembers(DecodeMembers(ms)) == StripMembers(ms) && DecodeMembers(StripMembers(ms)) == DecodeMembers(ms)
    ensures BuiltMembers(ms) ==> DecodeMembers(ms) == ms
    decreases ms, 0
  {
    if ms != [] { WireC(ms[0].body); WireMembers(ms[1..]); }
  }

  lemma {:induction false} WirePrim(p: Prim)
    ensures BuiltPrim(DecodePrim(p)) && StripPrim(DecodePrim(p)) == StripPrim(p) && DecodePrim(StripPrim(p)) == DecodePrim(p)
    ensures BuiltPrim(p) ==> DecodePrim(p) == p
    decreases p, 0
  {
    match p
    case Binary(_, l, r) => WireV(l); WireV(r);
    case Not(v) => WireV(v);
    case Index(t, k) =>
      WireV(t);
      if k.Data? { WireV(k.v); }
    case ListOf(elems) => WireSlots(elems);
  }

  /** Any term off the wire decodes to one built throughout, of the same shape. */
  lemma {:induction false} WireC(c: Comp)
    ensures BuiltC(DecodeC(c)) && StripC(DecodeC(c)) == StripC(c) && DecodeC(StripC(c)) == DecodeC(c)
    ensures BuiltC(c) ==> DecodeC(c) == c
    decreases c, 1
  {
    match c
    case Lam(_, body) => WireC(body);
    case App(head, args) => WireC(head); WireVs(args);
    case Bind(comp, _, rest) => WireC(comp); WireC(rest);
    case Seq(first, rest) => WireC(first); WireC(rest);
    case Rec(group, _) => WireMembers(group.shape);
    case _ => WireFlat(c);
  }

  /** A computation over values alone. */
  lemma {:induction false} WireFlat(c: Comp)
    requires !c.Lam? && !c.App? && !c.Bind? && !c.Seq? && !c.Rec?
    ensures BuiltC(DecodeC(c)) && StripC(DecodeC(c)) == StripC(c) && DecodeC(StripC(c)) == DecodeC(c)
    ensures BuiltC(c) ==> DecodeC(c) == c
    decreases c, 0
  {
    match c
    case Return(v) => WireV(v);
    case Force(v) => WireV(v);
    case If(cond, thn, els) => WireV(cond); WireV(thn); WireV(els);
    case Case(scrutinee, arms) => WireV(scrutinee); WireArms(arms);
    case Try(tried, handler) => WireV(tried); WireV(handler);
    case Guard(tried, cleanup) => WireV(tried); WireV(cleanup);
    case Primitive(prim) => WirePrim(prim);
    case Exec(_, argv) => WireSlots(argv);
  }

  /** Encode then decode restores shape and index together, and equality of
      shapes, all the source's `PartialEq` reads, is equality of terms. */
  lemma WireRoundTrip(c: Comp, d: Comp)
    requires BuiltC(c) && BuiltC(d)
    ensures DecodeC(StripC(c)) == c
    ensures StripC(c) == StripC(d) <==> c == d
  {
    WireC(c);
    WireC(d);
  }
}
