/** The occurrence index: what a node mentions, computed once where the node is
    built, out of the indexes its own nodes already store. */
module Occurrence {
  import opened Ir
  import opened Trimming

  // ── Names in order ───────────────────────────────────────────────────────

  /** Lexicographic order, strict. */
  predicate Before(a: Name, b: Name) {
    if a == [] then b != []
    else b != [] && (a[0] < b[0] || (a[0] == b[0] && Before(a[1..], b[1..])))
  }

  /** They first differ at `i`, where `a` has the lesser char. */
  predicate LessAt(a: Name, b: Name, i: int) {
    0 <= i < |a| && i < |b| && a[..i] == b[..i] && a[i] < b[i]
  }

  lemma LessAtShifts(a: Name, b: Name, i: nat)
    requires a != [] && b != []
    ensures LessAt(a, b, 0) <==> a[0] < b[0]
    ensures LessAt(a, b, i + 1) <==> a[0] == b[0] && LessAt(a[1..], b[1..], i)
  {
    assert a == [a[0]] + a[1..] && b == [b[0]] + b[1..] && a[..0] == b[..0];
    if i + 1 < |a| && i + 1 < |b| {
      assert a[..i + 1] == [a[0]] + a[1..][..i] && b[..i + 1] == [b[0]] + b[1..][..i];
      assert a[..i + 1][1..] == a[1..][..i] && b[..i + 1][1..] == b[1..][..i];
      assert a[..i + 1][0] == a[0] && b[..i + 1][0] == b[0];
    }
  }

  /** One name comes before another where it is a proper beginning of it, or has the
      lesser char where they first differ. */
  lemma {:induction false} BeforeIsLexicographic(a: Name, b: Name)
    ensures Before(a, b) <==> a < b || exists i :: LessAt(a, b, i)
  {
    if a != [] && b != [] {
      BeforeIsLexicographic(a[1..], b[1..]);
      assert a == [a[0]] + a[1..] && b == [b[0]] + b[1..];
      LessAtShifts(a, b, 0);
      if Before(a, b) && a[0] == b[0] && !(a < b) {
        var i: nat :| LessAt(a[1..], b[1..], i);
        LessAtShifts(a, b, i);
      }
      if exists i :: LessAt(a, b, i) {
        var i :| LessAt(a, b, i);
        if i > 0 { LessAtShifts(a, b, i - 1); }
      }
    }
  }

  lemma {:induction false} BeforeIrreflexive(a: Name)
    ensures !Before(a, a)
  {
    if a != [] { BeforeIrreflexive(a[1..]); }
  }

  lemma {:induction false} BeforeTotal(a: Name, b: Name)
    ensures a == b || Before(a, b) || Before(b, a)
  {
    if a != [] && b != [] {
      BeforeTotal(a[1..], b[1..]);
      if a[0] == b[0] && a[1..] == b[1..] { assert a == [a[0]] + a[1..] && b == [b[0]] + b[1..]; }
    }
  }

  lemma {:induction false} BeforeTransitive(a: Name, b: Name, c: Name)
    requires Before(a, b) && Before(b, c)
    ensures Before(a, c)
  {
    if a != [] && a[0] == b[0] && b[0] == c[0] { BeforeTransitive(a[1..], b[1..], c[1..]); }
  }

  ghost predicate Ascending(ns: seq<Name>) {
    forall i, j | 0 <= i < j < |ns| :: Before(ns[i], ns[j])
  }

  /** `Ascending`, but repeats are allowed and stand together. */
  ghost predicate Sorted(ns: seq<Name>) {
    forall i, j | 0 <= i < j < |ns| :: ns[i] == ns[j] || Before(ns[i], ns[j])
  }

  /** An ascending list is the only one with its names. */
  lemma {:induction false} AscendingUnique(a: seq<Name>, b: seq<Name>)
    requires Ascending(a) && Ascending(b) && (forall x :: x in a <==> x in b)
    ensures a == b
  {
    assert b != [] ==> b[0] in b;
    if a != [] {
      assert a[0] in a && a[0] in b;
      assert b[0] in b && b[0] in a;
      HeadIsLeast(a, b[0]);
      HeadIsLeast(b, a[0]);
      if a[0] != b[0] { BeforeTransitive(a[0], b[0], a[0]); BeforeIrreflexive(a[0]); }
      TailExcludesHead(a);
      TailExcludesHead(b);
      forall x ensures x in a[1..] <==> x in b[1..] {
        assert x in a <==> x == a[0] || x in a[1..];
        assert x in b <==> x == b[0] || x in b[1..];
      }
      AscendingUnique(a[1..], b[1..]);
      assert a == [a[0]] + a[1..] && b == [b[0]] + b[1..];
    }
  }

  lemma HeadIsLeast(a: seq<Name>, x: Name)
    requires Ascending(a) && x in a
    ensures x == a[0] || Before(a[0], x)
  {
    var i :| 0 <= i < |a| && a[i] == x;
  }

  lemma TailExcludesHead(a: seq<Name>)
    requires Ascending(a) && a != []
    ensures a[0] !in a[1..]
  {
    BeforeIrreflexive(a[0]);
  }

  // ── The index of a list of mentions ──────────────────────────────────────

  function InsertName(x: Name, ns: seq<Name>): seq<Name> {
    if ns == [] || Before(x, ns[0]) then [x] + ns
    else if x == ns[0] then ns
    else [ns[0]] + InsertName(x, ns[1..])
  }

  lemma {:induction false} InsertNameSorted(x: Name, ns: seq<Name>)
    requires Ascending(ns)
    ensures Ascending(InsertName(x, ns)) && forall y :: y in InsertName(x, ns) <==> y == x || y in ns
  {
    var r := InsertName(x, ns);
    if ns == [] {
    } else if Before(x, ns[0]) {
      forall j | 0 <= j < |ns| ensures Before(x, ns[j]) {
        if j > 0 { BeforeTransitive(x, ns[0], ns[j]); }
      }
    } else if x != ns[0] {
      BeforeTotal(x, ns[0]);
      InsertNameSorted(x, ns[1..]);
      var tail := InsertName(x, ns[1..]);
      forall j | 0 <= j < |tail| ensures Before(ns[0], tail[j]) {
        assert tail[j] in tail;
      }
      assert ns == [ns[0]] + ns[1..];
    }
  }

  /** Sorted and distinct. */
  function OccOf(refs: seq<Name>): seq<Name> {
    if refs == [] then [] else InsertName(refs[0], OccOf(refs[1..]))
  }

  lemma {:induction false} OccOfSorted(refs: seq<Name>)
    ensures Ascending(OccOf(refs)) && forall x :: x in OccOf(refs) <==> x in refs
  {
    if refs != [] {
      OccOfSorted(refs[1..]);
      InsertNameSorted(refs[0], OccOf(refs[1..]));
      assert refs == [refs[0]] + refs[1..];
    }
  }

  /** `Vec::dedup` on a sorted vector, as the source uses it. */
  method Dedup(refs: seq<Name>) returns (occ: seq<Name>)
    requires Sorted(refs)
    ensures occ == OccOf(refs)
  {
    occ := [];
    for i := 0 to |refs|
      invariant Ascending(occ)
      invariant forall x :: x in occ <==> x in refs[..i]
      invariant occ == [] <==> i == 0
      invariant i > 0 ==> occ[|occ| - 1] == refs[i - 1]
    {
      assert refs[..i + 1] == refs[..i] + [refs[i]];
      if occ == [] || occ[|occ| - 1] != refs[i] {
        forall j | 0 <= j < |occ| ensures Before(occ[j], refs[i]) {
          assert Before(refs[i - 1], refs[i]);
          if j < |occ| - 1 { BeforeTransitive(occ[j], occ[|occ| - 1], refs[i]); }
        }
        occ := occ + [refs[i]];
      }
    }
    assert refs[..|refs|] == refs;
    OccOfSorted(refs);
    AscendingUnique(occ, OccOf(refs));
  }

  function InsertSorted(x: Name, ns: seq<Name>): seq<Name> {
    if ns == [] || Before(x, ns[0]) then [x] + ns else [ns[0]] + InsertSorted(x, ns[1..])
  }

  /** What `sort_unstable` leaves. */
  function SortNames(refs: seq<Name>): seq<Name> {
    if refs == [] then [] else InsertSorted(refs[0], SortNames(refs[1..]))
  }

  lemma {:induction false} InsertSortedCorrect(x: Name, ns: seq<Name>)
    requires Sorted(ns)
    ensures Sorted(InsertSorted(x, ns)) && forall y :: y in InsertSorted(x, ns) <==> y == x || y in ns
  {
    if ns == [] {
    } else if Before(x, ns[0]) {
      forall j | 0 <= j < |ns| ensures Before(x, ns[j]) {
        if ns[j] != ns[0] { BeforeTransitive(x, ns[0], ns[j]); }
      }
    } else {
      BeforeTotal(x, ns[0]);
      InsertSortedCorrect(x, ns[1..]);
      var tail := InsertSorted(x, ns[1..]);
      forall j | 0 <= j < |tail| ensures ns[0] == tail[j] || Before(ns[0], tail[j]) {
        assert tail[j] in tail;
      }
      assert ns == [ns[0]] + ns[1..];
    }
  }

  lemma {:induction false} SortNamesCorrect(refs: seq<Name>)
    ensures Sorted(SortNames(refs)) && forall x :: x in SortNames(refs) <==> x in refs
  {
    if refs != [] {
      SortNamesCorrect(refs[1..]);
      InsertSortedCorrect(refs[0], SortNames(refs[1..]));
      assert refs == [refs[0]] + refs[1..];
    }
  }

  /** `Node::build`'s last step: sort, then drop repeats. */
  method IndexOf(refs: seq<Name>) returns (occ: seq<Name>)
    ensures occ == OccOf(refs)
  {
    SortNamesCorrect(refs);
    occ := Dedup(SortNames(refs));
    OccOfSorted(refs);
    OccOfSorted(SortNames(refs));
    AscendingUnique(occ, OccOf(refs));
  }

  /** Binary search decides membership. */
  method Contains(occ: seq<Name>, x: Name) returns (found: bool)
    requires Ascending(occ)
    ensures found <==> x in occ
  {
    var lo, hi := 0, |occ|;
    while lo < hi
      invariant 0 <= lo <= hi <= |occ|
      invariant forall i | 0 <= i < lo :: Before(occ[i], x)
      invariant forall i | hi <= i < |occ| :: Before(x, occ[i])
    {
      var mid := (lo + hi) / 2;
      if occ[mid] == x { return true; }
      BeforeTotal(occ[mid], x);
      if Before(occ[mid], x) {
        forall i | 0 <= i <= mid ensures Before(occ[i], x) {
          if i < mid { BeforeTransitive(occ[i], occ[mid], x); }
        }
        lo := mid + 1;
      } else {
        forall i | mid <= i < |occ| ensures Before(x, occ[i]) {
          if mid < i { BeforeTransitive(x, occ[mid], occ[i]); }
        }
        hi := mid;
      }
    }
    BeforeIrreflexive(x);
    return false;
  }

  // ── Mentions, through the stored indexes ─────────────────────────────────

  /** What `Mentions` pushes for a value: a nested node contributes its index. */
  function RefsV(v: Val): seq<Name> {
    match v
    case Variable(x) => [x]
    case Thunk(node) => node.occ
    case List(node) => node.occ
    case Record(_, node) => node.occ
    case Variant(_, payload) => RefsV(payload)
    case _ => []
  }

  function RefsVs(vs: seq<Val>): seq<Name> {
    if vs == [] then [] else RefsV(vs[0]) + RefsVs(vs[1..])
  }

  function RefsSlots(ss: seq<Slot>): seq<Name> {
    if ss == [] then [] else RefsV(ss[0].v) + RefsSlots(ss[1..])
  }

  function RefsArms(arms: seq<Arm>): seq<Name> {
    if arms == [] then [] else RefsV(arms[0].body) + RefsArms(arms[1..])
  }

  function RefsMembers(ms: seq<Member>): seq<Name> {
    if ms == [] then [] else RefsC(ms[0].body) + RefsMembers(ms[1..])
  }

  /** `Prim::operands`, in order. */
  function Operands(p: Prim): seq<Val> {
    match p
    case Binary(_, l, r) => [l, r]
    case Not(v) => [v]
    case Index(t, k) => [t] + (if k.Data? then [k.v] else [])
    case ListOf(elems) => seq(|elems|, i requires 0 <= i < |elems| => elems[i].v)
  }

  function RefsWord(w: CommandWord): seq<Name> {
    if w.cmd.Bare? then [w.cmd.name] else []
  }

  function RefsC(c: Comp): seq<Name> {
    match c
    case Return(v) => RefsV(v)
    case Force(v) => RefsV(v)
    case Lam(_, body) => RefsC(body)
    case App(head, args) => RefsC(head) + RefsVs(args)
    case Bind(comp, _, rest) => RefsC(comp) + RefsC(rest)
    case Seq(first, rest) => RefsC(first) + RefsC(rest)
    case Rec(group, _) => group.occ
    case If(cond, thn, els) => RefsV(cond) + RefsV(thn) + RefsV(els)
    case Case(scrutinee, arms) => RefsV(scrutinee) + RefsArms(arms)
    case Try(tried, handler) => RefsV(tried) + RefsV(handler)
    case Guard(tried, cleanup) => RefsV(tried) + RefsV(cleanup)
    case Primitive(prim) => RefsVs(Operands(prim))
    case Exec(word, argv) => RefsWord(word) + RefsSlots(argv)
  }

  // ── Terms made only through `Node::build` ────────────────────────────────

  ghost predicate BuiltV(v: Val)
    decreases v, 0
  {
    match v
    case Thunk(node) => BuiltC(node.shape) && node.occ == OccOf(RefsC(node.shape))
    case List(node) => BuiltVs(node.shape) && node.occ == OccOf(RefsVs(node.shape))
    case Record(_, node) => BuiltVs(node.shape) && node.occ == OccOf(RefsVs(node.shape))
    case Variant(_, payload) => BuiltV(payload)
    case _ => true
  }

  ghost predicate BuiltVs(vs: seq<Val>)
    decreases vs, 0
  {
    vs != [] ==> BuiltV(vs[0]) && BuiltVs(vs[1..])
  }

  ghost predicate BuiltSlots(ss: seq<Slot>)
    decreases ss, 0
  {
    ss != [] ==> (assert ss[0].v < ss[0]; BuiltV(ss[0].v)) && BuiltSlots(ss[1..])
  }

  ghost predicate BuiltArms(arms: seq<Arm>)
    decreases arms, 0
  {
    arms != [] ==> BuiltV(arms[0].body) && BuiltArms(arms[1..])
  }

  ghost predicate BuiltMembers(ms: seq<Member>)
    decreases ms, 0
  {
    ms != [] ==> BuiltC(ms[0].body) && BuiltMembers(ms[1..])
  }

  ghost predicate BuiltPrim(p: Prim)
    decreases p, 0
  {
    match p
    case Binary(_, l, r) => BuiltV(l) && BuiltV(r)
    case Not(v) => BuiltV(v)
    case Index(t, k) => BuiltV(t) && (k.Data? ==> BuiltV(k.v))
    case ListOf(elems) => BuiltSlots(elems)
  }

  ghost predicate BuiltC(c: Comp)
    decreases c, 0
  {
    match c
    case Return(v) => BuiltV(v)
    case Force(v) => BuiltV(v)
    case Lam(_, body) => BuiltC(body)
    case App(head, args) => BuiltC(head) && BuiltVs(args)
    case Bind(comp, _, rest) => BuiltC(comp) && BuiltC(rest)
    case Seq(first, rest) => BuiltC(first) && BuiltC(rest)
    case Rec(group, _) => BuiltMembers(group.shape) && group.occ == OccOf(RefsMembers(group.shape))
    case If(cond, thn, els) => BuiltV(cond) && BuiltV(thn) && BuiltV(els)
    case Case(scrutinee, arms) => BuiltV(scrutinee) && BuiltArms(arms)
    case Try(tried, handler) => BuiltV(tried) && BuiltV(handler)
    case Guard(tried, cleanup) => BuiltV(tried) && BuiltV(cleanup)
    case Primitive(prim) => BuiltPrim(prim)
    case Exec(_, argv) => BuiltSlots(argv)
  }

  // ── The cached index is the naive walk ───────────────────────────────────

  ghost predicate Lists(refs: seq<Name>, names: set<Name>) {
    forall x :: x in refs <==> x in names
  }

  lemma ListsIndex(refs: seq<Name>, names: set<Name>)
    requires Lists(refs, names)
    ensures Lists(OccOf(refs), names)
  {
    OccOfSorted(refs);
  }

  lemma {:induction false} WalkV(v: Val)
    requires BuiltV(v)
    ensures Lists(RefsV(v), NamesV(v)) && CoversV(v)
    decreases v, 0
  {
    match v
    case Thunk(node) => WalkC(node.shape); ListsIndex(RefsC(node.shape), NamesC(node.shape));
    case List(node) => WalkVs(node.shape); ListsIndex(RefsVs(node.shape), NamesVs(node.shape));
    case Record(_, node) => WalkVs(node.shape); ListsIndex(RefsVs(node.shape), NamesVs(node.shape));
    case Variant(_, payload) => WalkV(payload);
    case _ =>
  }

  lemma {:induction false} WalkVs(vs: seq<Val>)
    requires BuiltVs(vs)
    ensures Lists(RefsVs(vs), NamesVs(vs)) && CoversVs(vs)
    decreases vs, 0
  {
    if vs != [] { WalkV(vs[0]); WalkVs(vs[1..]); }
  }

  lemma {:induction false} WalkSlots(ss: seq<Slot>)
    requires BuiltSlots(ss)
    ensures Lists(RefsSlots(ss), NamesSlots(ss)) && CoversSlots(ss)
    decreases ss, 0
  {
    if ss != [] { assert ss[0].v < ss[0]; WalkV(ss[0].v); WalkSlots(ss[1..]); }
  }

  lemma {:induction false} WalkArms(arms: seq<Arm>)
    requires BuiltArms(arms)
    ensures Lists(RefsArms(arms), NamesArms(arms)) && CoversArms(arms)
    decreases arms, 0
  {
    if arms != [] { WalkV(arms[0].body); WalkArms(arms[1..]); }
  }

  lemma {:induction false} WalkMembers(ms: seq<Member>)
    requires BuiltMembers(ms)
    ensures Lists(RefsMembers(ms), NamesMembers(ms)) && CoversMembers(ms)
    decreases ms, 0
  {
    if ms != [] { WalkC(ms[0].body); WalkMembers(ms[1..]); }
  }

  lemma {:induction false} SlotOperands(ss: seq<Slot>)
    ensures RefsVs(seq(|ss|, i requires 0 <= i < |ss| => ss[i].v)) == RefsSlots(ss)
  {
    if ss != [] {
      SlotOperands(ss[1..]);
      var all := seq(|ss|, i requires 0 <= i < |ss| => ss[i].v);
      assert all[1..] == seq(|ss[1..]|, i requires 0 <= i < |ss[1..]| => ss[1..][i].v);
    }
  }

  lemma RefsPair(a: Val, b: Val)
    ensures RefsVs([a] + [b]) == RefsV(a) + RefsV(b) && [a] + [b] == [a, b]
  {
    assert ([a] + [b])[1..] == [b];
    assert RefsVs([b]) == RefsV(b) + RefsVs([]);
  }

  lemma {:induction false} WalkPrim(p: Prim)
    requires BuiltPrim(p)
    ensures Lists(RefsVs(Operands(p)), NamesPrim(p)) && CoversPrim(p)
    decreases p, 0
  {
    match p
    case Binary(_, l, r) =>
      WalkV(l); WalkV(r);
      RefsPair(l, r);
    case Not(v) => WalkV(v);
    case Index(t, k) =>
      WalkV(t);
      if k.Data? { WalkV(k.v); RefsPair(t, k.v); }
    case ListOf(elems) => WalkSlots(elems); SlotOperands(elems);
  }

  lemma {:induction false} WalkC(c: Comp)
    requires BuiltC(c)
    ensures Lists(RefsC(c), NamesC(c)) && CoversC(c)
    decreases c, 0
  {
    match c
    case Return(v) => WalkV(v);
    case Force(v) => WalkV(v);
    case Lam(_, body) => WalkC(body);
    case App(head, args) => WalkC(head); WalkVs(args);
    case Bind(comp, _, rest) => WalkC(comp); WalkC(rest);
    case Seq(first, rest) => WalkC(first); WalkC(rest);
    case Rec(group, _) => WalkMembers(group.shape); ListsIndex(RefsMembers(group.shape), NamesMembers(group.shape));
    case If(cond, thn, els) => WalkV(cond); WalkV(thn); WalkV(els);
    case Case(scrutinee, arms) => WalkV(scrutinee); WalkArms(arms);
    case Try(tried, handler) => WalkV(tried); WalkV(handler);
    case Guard(tried, cleanup) => WalkV(tried); WalkV(cleanup);
    case Primitive(prim) => WalkPrim(prim);
    case Exec(_, argv) => WalkSlots(argv);
  }

  /** The names once each and in order, and no others. */
  ghost predicate Exact(occ: seq<Name>, names: set<Name>) {
    Ascending(occ) && forall x :: x in occ <==> x in names
  }

  /** The index stored at a node, of a thunk, a list or a record, lists exactly the
      names found by walking its shape with no cache. */
  lemma CachedIndexIsTheNaiveWalk(v: Val)
    requires BuiltV(v)
    ensures CoversV(v)
    ensures v.Thunk? ==> Exact(v.thunk.occ, NamesC(v.thunk.shape))
    ensures v.List? ==> Exact(v.list.occ, NamesVs(v.list.shape))
    ensures v.Record? ==> Exact(v.fields.occ, NamesVs(v.fields.shape))
  {
    WalkV(v);
    if v.Thunk? { OccOfSorted(RefsC(v.thunk.shape)); }
    if v.List? { OccOfSorted(RefsVs(v.list.shape)); }
    if v.Record? { OccOfSorted(RefsVs(v.fields.shape)); }
  }

  /** And so does a recursive group's. */
  lemma GroupIndexIsTheNaiveWalk(c: Comp)
    requires BuiltC(c) && c.Rec?
    ensures CoversC(c) && Exact(c.group.occ, NamesMembers(c.group.shape))
  {
    WalkC(c);
    WalkMembers(c.group.shape);
    OccOfSorted(RefsMembers(c.group.shape));
  }
}
