/** A fuel-indexed evaluator for the IR that records the operations it performs.

    A computation is evaluated against an environment and the arguments pushed
    for it.  Fuel is spent wherever a block is forced or a waiting function meets
    its arguments, so the evaluator is total. */
module Evaluator {
  import opened Ir
  import opened Wrappers

  type Env = map<Name, Value>

  datatype Value =
    | VUnit
    | VStr(s: string)
    | VInt(i: int)
    | VBool(b: bool)
    | VBuilt(items: seq<Value>)
    | VLiteral(node: ListNode, env: Env)
    | VRecord(keys: seq<Name>, fields: Value)
    | VVariant(tag: Name, payload: Value)
    | VThunk(comp: Comp, env: Env)
  {
    predicate IsList() { VBuilt? || VLiteral? }

    /** A list's elements; a literal's are read out of the environment it closed over. */
    function Items(): seq<Value>
      requires IsList()
    {
      if VBuilt? then items else InspectAll(node.shape, env)
    }
  }

  /** First-order data: all that a primitive or an operation can see of a value. */
  datatype Datum =
    | DUnit
    | DStr(s: string)
    | DInt(i: int)
    | DBool(b: bool)
    | DList(items: seq<Datum>)
    | DRecord(keys: seq<Name>, items: seq<Datum>)
    | DVariant(tag: Name, payload: Datum)

  datatype Error =
    | Undefined(name: Name)
    | NotABlock
    | NotAFunction
    | BareLambda
    | NotABool
    | NotAVariant
    | NoArm(tag: Name)
    | NotAList
    | OutOfBounds(n: int, len: nat)
    | Unreadable
    | NoField(key: Name)
    | KeyNotAString
    | Incomparable
    | NotNumeric
    | Overflow
    | NotPlain
    | Refused(why: string)

  /** What the world answers an operation. */
  datatype Reply = Yields(d: Datum) | Fails(why: string) | Exits(code: int)

  datatype Event = Event(word: CommandWord, args: seq<Datum>)
  type Trace = seq<Event>

  /** What a thunk or a recursive group keeps of its environment: the names it
      mentions, or all of it. */
  datatype Mode = Trim | Whole

  /** What does not change during a run: the capture mode, the signature beneath
      every environment, and the world that answers operations, which may
      remember every operation before. */
  datatype Context = Context(mode: Mode, sig: Env, world: (Trace, Event) -> Reply)

  datatype Terminal = Plain(v: Value) | Lambda(param: Name, body: Comp, env: Env)

  datatype Outcome =
    | Done(t: Terminal, tr: Trace)
    | Failed(e: Error, tr: Trace)
    | Exited(code: int, tr: Trace)
    | Starved(tr: Trace)

  // ── Values ───────────────────────────────────────────────────────────────

  function Capture(mode: Mode, env: Env, occ: seq<Name>): Env {
    if mode.Trim? then map x | x in env && x in occ :: env[x] else env
  }

  function Lookup(k: Context, env: Env, x: Name): Option<Value> {
    if x in env then Some(env[x]) else if x in k.sig then Some(k.sig[x]) else None
  }

  datatype Formed<+T> = Formed(value: T) | Malformed(e: Error)

  /** One layer of a literal: a name is read, and a nested literal or thunk
      closes over the same environment.  A literal is only made when every name
      it reads is bound, so the default is never read. */
  function Inspect(v: Val, env: Env): Value {
    match v
    case Unit => VUnit
    case Str(s) => VStr(s)
    case Int(i) => VInt(i)
    case Bool(b) => VBool(b)
    case Variable(x) => if x in env then env[x] else VUnit
    case Thunk(node) => VThunk(node.shape, env)
    case List(node) => VLiteral(node, env)
    case Record(keys, node) => VRecord(keys, VLiteral(node, env))
    case Variant(tag, p) => VVariant(tag, Inspect(p, env))
  }

  function InspectAll(vs: seq<Val>, env: Env): (r: seq<Value>)
    ensures |r| == |vs|
  {
    if vs == [] then [] else [Inspect(vs[0], env)] + InspectAll(vs[1..], env)
  }

  /** Whether the environment itself binds every name `v` reads outside a thunk. */
  predicate NamesBound(v: Val, env: Env)
    decreases v, 0
  {
    match v
    case Variable(x) => x in env
    case List(node) => AllNamesBound(node.shape, env)
    case Record(_, node) => AllNamesBound(node.shape, env)
    case Variant(_, p) => NamesBound(p, env)
    case _ => true
  }

  predicate AllNamesBound(vs: seq<Val>, env: Env)
    decreases vs, 0
  {
    vs != [] ==> NamesBound(vs[0], env) && AllNamesBound(vs[1..], env)
  }

  /** Form a value term: a thunk keeps its environment as the mode says, and so
      does a list literal every name of which the environment binds; a list with
      a name only the signature answers is built at once. */
  function Form(k: Context, v: Val, env: Env): Formed<Value>
    decreases v, 0
  {
    match v
    case Unit => Formed(VUnit)
    case Str(s) => Formed(VStr(s))
    case Int(i) => Formed(VInt(i))
    case Bool(b) => Formed(VBool(b))
    case Variable(x) => (match Lookup(k, env, x) case Some(w) => Formed(w) case None => Malformed(Undefined(x)))
    case Thunk(node) => Formed(VThunk(node.shape, Capture(k.mode, env, node.occ)))
    case List(node) =>
      if AllNamesBound(node.shape, env) then Formed(VLiteral(node, Capture(k.mode, env, node.occ)))
      else (match FormAll(k, node.shape, env)
            case Formed(ws) => Formed(VBuilt(ws))
            case Malformed(e) => Malformed(e))
    case Record(keys, node) =>
      if AllNamesBound(node.shape, env) then Formed(VRecord(keys, VLiteral(node, Capture(k.mode, env, node.occ))))
      else (match FormAll(k, node.shape, env)
            case Formed(ws) => Formed(VRecord(keys, VBuilt(ws)))
            case Malformed(e) => Malformed(e))
    case Variant(tag, p) => (match Form(k, p, env)
                             case Formed(w) => Formed(VVariant(tag, w))
                             case Malformed(e) => Malformed(e))
  }

  function FormAll(k: Context, vs: seq<Val>, env: Env): (r: Formed<seq<Value>>)
    ensures r.Formed? ==> |r.value| == |vs|
    decreases vs, 0
  {
    if vs == [] then Formed([])
    else
      match Form(k, vs[0], env)
      case Malformed(e) => Malformed(e)
      case Formed(w) =>
        match FormAll(k, vs[1..], env)
        case Malformed(e) => Malformed(e)
        case Formed(ws) => Formed([w] + ws)
  }

  /** An argument list formed left to right, each spread spliced in place. */
  function CloseArgv(k: Context, ss: seq<Slot>, env: Env): Formed<seq<Value>> {
    if ss == [] then Formed([])
    else
      match Form(k, ss[0].v, env)
      case Malformed(e) => Malformed(e)
      case Formed(w) =>
        if ss[0].spread && !w.IsList() then Malformed(NotAList)
        else
          match CloseArgv(k, ss[1..], env)
          case Malformed(e) => Malformed(e)
          case Formed(ws) => Formed((if ss[0].spread then w.Items() else [w]) + ws)
  }

  /** What can be seen of a value: nothing of a closure. */
  function Observe(v: Value): Option<Datum>
    decreases v, 2
  {
    match v
    case VUnit => Some(DUnit)
    case VStr(s) => Some(DStr(s))
    case VInt(i) => Some(DInt(i))
    case VBool(b) => Some(DBool(b))
    case VBuilt(items) => (match ObserveAll(items) case Some(ds) => Some(DList(ds)) case None => None)
    case VLiteral(node, _) => (match ObserveVals(v, node.shape) case Some(ds) => Some(DList(ds)) case None => None)
    case VRecord(keys, fs) =>
      (match Observe(fs) case Some(DList(ds)) => Some(DRecord(keys, ds)) case _ => None)
    case VVariant(tag, p) => (match Observe(p) case Some(d) => Some(DVariant(tag, d)) case None => None)
    case VThunk(_, _) => None
  }

  function ObserveAll(vs: seq<Value>): Option<seq<Datum>>
    decreases vs, 0
  {
    if vs == [] then Some([])
    else
      match (Observe(vs[0]), ObserveAll(vs[1..]))
      case (Some(d), Some(ds)) => Some([d] + ds)
      case _ => None
  }

  /** What can be seen of `t`, read out of the environment of the literal `v`. */
  function ObserveVal(v: Value, t: Val): Option<Datum>
    requires v.VLiteral?
    decreases v, 1, t, 0
  {
    match t
    case Unit => Some(DUnit)
    case Str(s) => Some(DStr(s))
    case Int(i) => Some(DInt(i))
    case Bool(b) => Some(DBool(b))
    case Variable(x) => if x in v.env then Observe(v.env[x]) else Some(DUnit)
    case Thunk(_) => None
    case List(node) => (match ObserveVals(v, node.shape) case Some(ds) => Some(DList(ds)) case None => None)
    case Record(keys, node) =>
      (match ObserveVals(v, node.shape) case Some(ds) => Some(DRecord(keys, ds)) case None => None)
    case Variant(tag, p) => (match ObserveVal(v, p) case Some(d) => Some(DVariant(tag, d)) case None => None)
  }

  function ObserveVals(v: Value, ts: seq<Val>): Option<seq<Datum>>
    requires v.VLiteral?
    decreases v, 1, ts, 0
  {
    if ts == [] then Some([])
    else
      match (ObserveVal(v, ts[0]), ObserveVals(v, ts[1..]))
      case (Some(d), Some(ds)) => Some([d] + ds)
      case _ => None
  }

  function FromDatum(d: Datum): Value
    decreases d, 0
  {
    match d
    case DUnit => VUnit
    case DStr(s) => VStr(s)
    case DInt(i) => VInt(i)
    case DBool(b) => VBool(b)
    case DList(items) => VBuilt(FromData(items))
    case DRecord(keys, items) => VRecord(keys, VBuilt(FromData(items)))
    case DVariant(tag, p) => VVariant(tag, FromDatum(p))
  }

  function FromData(ds: seq<Datum>): seq<Value>
    decreases ds, 0
  {
    if ds == [] then [] else [FromDatum(ds[0])] + FromData(ds[1..])
  }

  /** The record a handler is given for an error. */
  function ErrorValue(e: Error): Value {
    VRecord(["message"], VBuilt([
      match e
      case Undefined(x) => VStr("undefined variable: $" + x)
      case NoArm(t) => VStr("case: no arm for variant `" + t)
      case OutOfBounds(_, _) => VStr("index out of bounds")
      case Refused(why) => VStr(why)
      case NotABlock => VStr("cannot force")
      case NotAFunction => VStr("is not a function")
      case BareLambda => VStr("bare lambda")
      case NotABool => VStr("expected Bool")
      case NotAVariant => VStr("scrutinee must be a variant")
      case NotAList => VStr("expected List")
      case Incomparable => VStr("closures refuse comparison")
      case NotNumeric => VStr("expected Int")
      case Overflow => VStr("integer overflow")
      case Unreadable => VStr("cannot read")
      case NoField(key) => VStr("'" + key + "' not found")
      case KeyNotAString => VStr("map key must be a String")
      case NotPlain => VStr("not an argument")]))
  }

  const INT_MIN: int := -0x8000_0000_0000_0000
  const INT_MAX: int := 0x7fff_ffff_ffff_ffff

  function Checked(n: int): Formed<Value> {
    if INT_MIN <= n <= INT_MAX then Formed(VInt(n)) else Malformed(Overflow)
  }

  function BinaryResult(op: BinaryOp, l: Value, r: Value): Formed<Value> {
    match op
    case Eq =>
      (match (Observe(l), Observe(r))
       case (Some(a), Some(b)) => Formed(VBool(a == b))
       case _ => Malformed(Incomparable))
    case Lt => if l.VInt? && r.VInt? then Formed(VBool(l.i < r.i)) else Malformed(Incomparable)
    case Add => if l.VInt? && r.VInt? then Checked(l.i + r.i) else Malformed(NotNumeric)
    case Sub => if l.VInt? && r.VInt? then Checked(l.i - r.i) else Malformed(NotNumeric)
  }

  function PositionResult(target: Value, n: nat): Formed<Value> {
    if !target.IsList() then Malformed(Unreadable)
    else if n < |target.Items()| then Formed(target.Items()[n])
    else Malformed(OutOfBounds(n, |target.Items()|))
  }

  /** Where `key` first stands among `keys`, or past the end. */
  function FieldAt(keys: seq<Name>, key: Name): (i: nat)
    ensures i <= |keys|
    ensures i < |keys| ==> keys[i] == key
  {
    if keys == [] || keys[0] == key then 0 else 1 + FieldAt(keys[1..], key)
  }

  function FieldResult(target: Value, key: Name): Formed<Value> {
    if !target.VRecord? || !target.fields.IsList() then Malformed(Unreadable)
    else
      var i := FieldAt(target.keys, key);
      if i < |target.fields.Items()| && i < |target.keys| then Formed(target.fields.Items()[i]) else Malformed(NoField(key))
  }

  function IndexResult(k: Context, target: Value, key: Key, env: Env): Formed<Value> {
    match key
    case Label(l) => FieldResult(target, l)
    case Position(n) => PositionResult(target, n)
    case Data(v) =>
      match Form(k, v, env)
      case Malformed(e) => Malformed(e)
      case Formed(w) => if w.VStr? then FieldResult(target, w.s) else Malformed(KeyNotAString)
  }

  function PrimResult(k: Context, p: Prim, env: Env): Formed<Value> {
    match p
    case Binary(op, lhs, rhs) =>
      (match Form(k, lhs, env)
       case Malformed(e) => Malformed(e)
       case Formed(l) =>
         match Form(k, rhs, env)
         case Malformed(e) => Malformed(e)
         case Formed(r) => BinaryResult(op, l, r))
    case Not(v) =>
      (match Form(k, v, env)
       case Malformed(e) => Malformed(e)
       case Formed(w) => if w.VBool? then Formed(VBool(!w.b)) else Malformed(NotABool))
    case Index(target, key) =>
      (match Form(k, target, env)
       case Malformed(e) => Malformed(e)
       case Formed(t) =>
         IndexResult(k, t, key, env))
    case ListOf(elems) =>
      (match CloseArgv(k, elems, env)
       case Malformed(e) => Malformed(e)
       case Formed(ws) => Formed(VBuilt(ws)))
  }

  // ── Computations ─────────────────────────────────────────────────────────

  /** The environment a member of a recursive group runs in: what the group kept,
      under a fresh thunk for every member. */
  function Unfold(mode: Mode, group: GroupNode, env: Env): Env {
    var kept := Capture(mode, env, group.occ);
    ExtendMembers(group, kept, kept, |group.shape|)
  }

  function ExtendMembers(group: GroupNode, kept: Env, env: Env, n: nat): Env
    requires n <= |group.shape|
  {
    if n == 0 then env
    else ExtendMembers(group, kept, env, n - 1)[group.shape[n - 1].name := VThunk(Rec(group, n - 1), kept)]
  }

  function BindPattern(p: Pattern, v: Value, env: Env): Env {
    match p case Wildcard => env case Binder(x) => env[x := v]
  }

  /** A value met by the arguments pushed for it. */
  function Settle(f: Formed<Value>, args: seq<Value>, tr: Trace): Outcome {
    match f
    case Malformed(e) => Failed(e, tr)
    case Formed(v) => if args == [] then Done(Plain(v), tr) else Failed(NotAFunction, tr)
  }

  /** `force f` on a closed value, with `args` pushed. */
  function Enter(k: Context, fuel: nat, f: Value, args: seq<Value>, tr: Trace): Outcome
    decreases fuel, 0
  {
    if !f.VThunk? then Failed(NotABlock, tr)
    else if fuel == 0 then Starved(tr)
    else Eval(k, fuel - 1, f.comp, f.env, args, tr)
  }

  /** A terminal met by the arguments below the frame it left. */
  function Meet(k: Context, fuel: nat, t: Terminal, args: seq<Value>, tr: Trace): Outcome
    decreases fuel, 0
  {
    match t
    case Plain(v) => Settle(Formed(v), args, tr)
    case Lambda(x, body, env) =>
      if args == [] then Done(t, tr)
      else if fuel == 0 then Starved(tr)
      else Eval(k, fuel - 1, body, env[x := args[0]], args[1..], tr)
  }

  /** `force V` on a value still syntax: a literal block runs in place, closing
      nothing. */
  function ForceVal(k: Context, fuel: nat, v: Val, env: Env, args: seq<Value>, tr: Trace): Outcome
    decreases fuel, 1
  {
    if v.Thunk? then
      if fuel == 0 then Starved(tr) else Eval(k, fuel - 1, v.thunk.shape, env, args, tr)
    else
      match Form(k, v, env)
      case Malformed(e) => Failed(e, tr)
      case Formed(f) => Enter(k, fuel, f, args, tr)
  }

  function Operate(k: Context, word: CommandWord, argv: seq<Value>, args: seq<Value>, tr: Trace): Outcome {
    match ObserveAll(argv)
    case None => Failed(NotPlain, tr)
    case Some(ds) =>
      var ev := Event(word, ds);
      var tr' := tr + [ev];
      match k.world(tr, ev)
      case Yields(d) => Settle(Formed(FromDatum(d)), args, tr')
      case Fails(why) => Failed(Refused(why), tr')
      case Exits(code) => Exited(code, tr')
  }

  function Eval(k: Context, fuel: nat, c: Comp, env: Env, args: seq<Value>, tr: Trace): Outcome
    decreases fuel, 2, c, 0
  {
    match c
    case Return(v) => Settle(Form(k, v, env), args, tr)
    case Force(v) => ForceVal(k, fuel, v, env, args, tr)
    case Lam(x, body) =>
      if args == [] then Done(Lambda(x, body, env), tr)
      else Eval(k, fuel, body, env[x := args[0]], args[1..], tr)
    case App(head, vs) =>
      (match FormAll(k, vs, env)
       case Malformed(e) => Failed(e, tr)
       case Formed(ws) => Eval(k, fuel, head, env, ws + args, tr))
    case Bind(comp, pattern, rest) =>
      (match Eval(k, fuel, comp, env, [], tr)
       case Done(Plain(v), tr1) => Eval(k, fuel, rest, BindPattern(pattern, v, env), args, tr1)
       case Done(Lambda(_, _, _), tr1) => Failed(BareLambda, tr1)
       case stopped => stopped)
    case Seq(first, rest) =>
      (match Eval(k, fuel, first, env, [], tr)
       case Done(Plain(v), tr1) => Eval(k, fuel, rest, env, args, tr1)
       case Done(Lambda(_, _, _), tr1) => Failed(BareLambda, tr1)
       case stopped => stopped)
    case Rec(group, i) =>
      if i < |group.shape| then Eval(k, fuel, group.shape[i].body, Unfold(k.mode, group, env), args, tr)
      else Failed(NotABlock, tr)
    case If(cond, thn, els) =>
      (match Form(k, cond, env)
       case Malformed(e) => Failed(e, tr)
       case Formed(w) =>
         if !w.VBool? then Failed(NotABool, tr)
         else if w.b then ForceVal(k, fuel, thn, env, args, tr)
         else ForceVal(k, fuel, els, env, args, tr))
    case Case(scrutinee, arms) => EvalCase(k, fuel, scrutinee, arms, env, args, tr)
    case Try(tried, handler) => EvalTry(k, fuel, tried, handler, env, args, tr)
    case Guard(tried, cleanup) => EvalGuard(k, fuel, tried, cleanup, env, args, tr)
    case Primitive(p) => Settle(PrimResult(k, p, env), args, tr)
    case Exec(word, argv) =>
      (match CloseArgv(k, argv, env)
       case Malformed(e) => Failed(e, tr)
       case Formed(ws) => Dispatch(k, fuel, word, ws, env, args, tr))
  }

  /** A bare head is looked up in the environment first; every other head, and a
      bare one the environment does not bind, is an operation of the world. */
  function Dispatch(k: Context, fuel: nat, word: CommandWord, argv: seq<Value>, env: Env, args: seq<Value>, tr: Trace): Outcome
    decreases fuel, 1
  {
    if word.Named? && word.cmd.Bare? && Lookup(k, env, word.cmd.name).Some? then
      Enter(k, fuel, Lookup(k, env, word.cmd.name).value, argv + args, tr)
    else
      Operate(k, word, argv, args, tr)
  }

  function EvalCase(k: Context, fuel: nat, scrutinee: Val, arms: seq<Arm>, env: Env, args: seq<Value>, tr: Trace): Outcome
    decreases fuel, 2, arms, 1
  {
    match Form(k, scrutinee, env)
    case Malformed(e) => Failed(e, tr)
    case Formed(w) =>
      if !w.VVariant? then Failed(NotAVariant, tr)
      else EvalArm(k, fuel, arms, w.tag, w.payload, env, args, tr)
  }

  function EvalArm(k: Context, fuel: nat, arms: seq<Arm>, tag: Name, payload: Value, env: Env, args: seq<Value>, tr: Trace): Outcome
    decreases fuel, 2, arms, 0
  {
    if arms == [] then Failed(NoArm(tag), tr)
    else if arms[0].tag == tag then ForceVal(k, fuel, arms[0].body, env, [payload] + args, tr)
    else EvalArm(k, fuel, arms[1..], tag, payload, env, args, tr)
  }

  function EvalTry(k: Context, fuel: nat, tried: Val, handler: Val, env: Env, args: seq<Value>, tr: Trace): Outcome
    decreases fuel, 1
  {
    match FormAll(k, [tried, handler], env)
    case Malformed(e) => Failed(e, tr)
    case Formed(ws) =>
      match Enter(k, fuel, ws[0], [], tr)
      case Done(t, tr1) => Meet(k, fuel, t, args, tr1)
      case Failed(e, tr1) => Enter(k, fuel, ws[1], [ErrorValue(e)] + args, tr1)
      case stopped => stopped
  }

  function EvalGuard(k: Context, fuel: nat, tried: Val, cleanup: Val, env: Env, args: seq<Value>, tr: Trace): Outcome
    decreases fuel, 1
  {
    match FormAll(k, [tried, cleanup], env)
    case Malformed(e) => Failed(e, tr)
    case Formed(ws) =>
      match Enter(k, fuel, ws[0], [], tr)
      case Starved(tr1) => Starved(tr1)
      case Done(Lambda(_, _, _), tr1) => Failed(BareLambda, tr1)
      case body =>
        match Enter(k, fuel, ws[1], [], body.tr)
        case Done(_, tr2) =>
          (match body
           case Done(t, _) => Meet(k, fuel, t, args, tr2)
           case Failed(e, _) => Failed(e, tr2)
           case Exited(code, _) => Exited(code, tr2)
           case Starved(_) => Starved(tr2))
        case replaced => replaced
  }
}
