/** The call-by-push-value intermediate representation: values, computations,
    and the occurrence index cached at every node that closes.

    `Val` is inert data and `Comp` is effectful.  A thunk, a list literal and a
    recursive group are nodes: each stores beside its shape the names that
    shape mentions, bound or free, sorted and distinct. */
module Ir {

  type Name = string

  /** A name only the compiler writes: no source text can spell it. */
  predicate Synthetic(x: Name) {
    |x| > 0 && x[0] == '%'
  }

  datatype ThunkNode = ThunkNode(shape: Comp, occ: seq<Name>)
  datatype ListNode = ListNode(shape: seq<Val>, occ: seq<Name>)
  datatype GroupNode = GroupNode(shape: seq<Member>, occ: seq<Name>)

  datatype Member = Member(name: Name, body: Comp)

  datatype Val =
    | Unit
    | Str(s: string)
    | Int(i: int)
    | Bool(b: bool)
    | Variable(name: Name)
    | Thunk(thunk: ThunkNode)
    | List(list: ListNode)
    | Record(keys: seq<Name>, fields: ListNode)
    | Variant(tag: Name, payload: Val)

  /** One argument or list element; a spread splices the list it names. */
  datatype Slot = Slot(v: Val, spread: bool)

  datatype Key = Label(field: Name) | Position(n: nat) | Data(v: Val)

  datatype BinaryOp = Add | Sub | Eq | Lt

  datatype Prim =
    | Binary(op: BinaryOp, lhs: Val, rhs: Val)
    | Not(v: Val)
    | Index(target: Val, key: Key)
    | ListOf(elems: seq<Slot>)

  datatype CommandName = Bare(name: Name) | Path(path: string)

  /** `Named` is resolved at run time, the environment first; `External` never
      consults it. */
  datatype CommandWord = Named(cmd: CommandName) | External(cmd: CommandName)

  datatype Pattern = Wildcard | Binder(name: Name)

  datatype Arm = Arm(tag: Name, body: Val)

  datatype Comp =
    | Return(v: Val)
    | Force(v: Val)
    | Lam(param: Name, body: Comp)
    | App(head: Comp, args: seq<Val>)
    | Bind(comp: Comp, pattern: Pattern, rest: Comp)
    | Seq(first: Comp, rest: Comp)
    | Rec(group: GroupNode, index: nat)
    | If(cond: Val, thn: Val, els: Val)
    | Case(scrutinee: Val, arms: seq<Arm>)
    | Try(tried: Val, handler: Val)
    | Guard(tried: Val, cleanup: Val)
    | Primitive(prim: Prim)
    | Exec(word: CommandWord, argv: seq<Slot>)

  // ── The naive walk ───────────────────────────────────────────────────────

  /** Every name a value mentions, found by walking it with no cache. */
  function NamesV(v: Val): set<Name>
    decreases v, 0
  {
    match v
    case Unit => {}
    case Str(_) => {}
    case Int(_) => {}
    case Bool(_) => {}
    case Variable(x) => {x}
    case Thunk(node) => NamesC(node.shape)
    case List(node) => NamesVs(node.shape)
    case Record(_, node) => NamesVs(node.shape)
    case Variant(_, payload) => NamesV(payload)
  }

  function NamesVs(vs: seq<Val>): set<Name>
    decreases vs, 0
  {
    if vs == [] then {} else NamesV(vs[0]) + NamesVs(vs[1..])
  }

  function NamesSlots(ss: seq<Slot>): set<Name>
    decreases ss, 0
  {
    if ss == [] then {} else (assert ss[0].v < ss[0]; NamesV(ss[0].v)) + NamesSlots(ss[1..])
  }

  function NamesArms(arms: seq<Arm>): set<Name>
    decreases arms, 0
  {
    if arms == [] then {} else NamesV(arms[0].body) + NamesArms(arms[1..])
  }

  function NamesMembers(ms: seq<Member>): set<Name>
    decreases ms, 0
  {
    if ms == [] then {} else NamesC(ms[0].body) + NamesMembers(ms[1..])
  }

  function NamesPrim(p: Prim): set<Name>
    decreases p, 0
  {
    match p
    case Binary(_, l, r) => NamesV(l) + NamesV(r)
    case Not(v) => NamesV(v)
    case Index(t, k) => NamesV(t) + (if k.Data? then NamesV(k.v) else {})
    case ListOf(elems) => NamesSlots(elems)
  }

  function NamesWord(w: CommandWord): set<Name> {
    if w.cmd.Bare? then {w.cmd.name} else {}
  }

  /** Every name a computation mentions: a binder's own name is not a mention,
      but its uses are, so the set over-approximates the free names. */
  function NamesC(c: Comp): set<Name>
    decreases c, 0
  {
    match c
    case Return(v) => NamesV(v)
    case Force(v) => NamesV(v)
    case Lam(_, body) => NamesC(body)
    case App(head, args) => NamesC(head) + NamesVs(args)
    case Bind(comp, _, rest) => NamesC(comp) + NamesC(rest)
    case Seq(first, rest) => NamesC(first) + NamesC(rest)
    case Rec(group, _) => NamesMembers(group.shape)
    case If(cond, thn, els) => NamesV(cond) + NamesV(thn) + NamesV(els)
    case Case(scrutinee, arms) => NamesV(scrutinee) + NamesArms(arms)
    case Try(tried, handler) => NamesV(tried) + NamesV(handler)
    case Guard(tried, cleanup) => NamesV(tried) + NamesV(cleanup)
    case Primitive(prim) => NamesPrim(prim)
    case Exec(word, argv) => NamesWord(word) + NamesSlots(argv)
  }
}
