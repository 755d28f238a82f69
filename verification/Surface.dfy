/** The surface language, and its direct left-to-right meaning.

    Every operand runs to a value before the form that uses it, in written
    order; a closure keeps its body as it was written.  Fuel is spent at every
    block entered and every branch taken. */
module Surface {
  import opened Ir
  import opened Evaluator
  import opened Wrappers

  datatype Ast =
    | AUnit
    | AStr(s: string)
    | AInt(i: int)
    | ABool(b: bool)
    | AVar(x: Name)
    | ABlock(body: seq<Stmt>)
    | ALambda(params: seq<Name>, body: seq<Stmt>)
    | AForce(e: Ast)
    | ACall(head: Head, args: seq<Ast>)
    | AReturn(e: Ast)
    | AList(elems: seq<Ast>)
    | AIndex(target: Ast, keys: seq<KeyAst>)
    | ABinary(op: BinaryOp, l: Ast, r: Ast)
    | ANot(e: Ast)
    | AJunction(or: bool, l: Ast, r: Ast)
    | AIf(cond: Ast, arm: ArmAst, rest: Chain)
    | ATry(tried: Ast, handler: Ast)

  datatype KeyAst = KLabel(field: Name) | KPosition(n: nat) | KData(e: Ast)

  datatype Head = HBare(x: Name) | HExternal(x: Name) | HValue(e: Ast)

  /** One branch of an `if`: a literal block, or a name holding one. */
  datatype ArmAst = ArmBlock(body: seq<Stmt>) | ArmName(x: Name)

  /** What follows the first branch: nothing, an `else`, or an `elsif`. */
  datatype Chain = NoElse | Else(arm: ArmAst) | ElseIf(cond: Ast, arm: ArmAst, rest: Chain)

  /** A named block, or a lambda with its parameters. */
  datatype Def = Def(x: Name, params: seq<Name>, body: seq<Stmt>)

  /** A `let` of a block or lambda stands in a stretch of such definitions, each of
      which sees all of them. */
  datatype Stmt = SLet(x: Name, e: Ast) | SDo(e: Ast) | SDefs(defs: seq<Def>)

  // ── Names ────────────────────────────────────────────────────────────────

  /** Every variable and bare head the source reads from outside. */
  function Uses(e: Ast): set<Name>
    decreases e, 0
  {
    match e
    case AVar(x) => {x}
    case ABlock(body) => UsesStmts(body)
    case ALambda(ps, body) => UsesStmts(body) - Params(ps)
    case AForce(d) => Uses(d)
    case ACall(h, es) => UsesHead(h) + UsesAll(es)
    case AReturn(d) => Uses(d)
    case AList(es) => UsesAll(es)
    case AIndex(t, ks) => Uses(t) + UsesKeys(ks)
    case ABinary(_, l, r) => Uses(l) + Uses(r)
    case ANot(d) => Uses(d)
    case AJunction(_, l, r) => Uses(l) + Uses(r)
    case AIf(c, a, r) => Uses(c) + UsesArm(a) + UsesChain(r)
    case ATry(b, h) => Uses(b) + Uses(h)
    case _ => {}
  }

  function UsesAll(es: seq<Ast>): set<Name>
    decreases es, 0
  {
    if es == [] then {} else Uses(es[0]) + UsesAll(es[1..])
  }

  function UsesKeys(ks: seq<KeyAst>): set<Name>
    decreases ks, 0
  {
    if ks == [] then {} else (if ks[0].KData? then assert ks[0].e < ks[0]; Uses(ks[0].e) else {}) + UsesKeys(ks[1..])
  }

  function UsesHead(h: Head): set<Name>
    decreases h, 0
  {
    match h case HBare(x) => {x} case HExternal(_) => {} case HValue(e) => Uses(e)
  }

  function UsesArm(a: ArmAst): set<Name>
    decreases a, 0
  {
    match a case ArmBlock(body) => UsesStmts(body) case ArmName(x) => {x}
  }

  function UsesChain(r: Chain): set<Name>
    decreases r, 0
  {
    match r
    case NoElse => {}
    case Else(a) => UsesArm(a)
    case ElseIf(c, a, r1) => Uses(c) + UsesArm(a) + UsesChain(r1)
  }

  function UsesStmts(ss: seq<Stmt>): set<Name>
    decreases ss, 0
  {
    if ss == [] then {}
    else
      match ss[0]
      case SLet(x, e) => (assert ss[0].e < ss[0]; Uses(e)) + (UsesStmts(ss[1..]) - {x})
      case SDo(e) => (assert ss[0].e < ss[0]; Uses(e)) + UsesStmts(ss[1..])
      case SDefs(defs) => (UsesDefs(defs) + UsesStmts(ss[1..])) - DefNames(defs)
  }

  function UsesDefs(defs: seq<Def>): set<Name>
    decreases defs, 0
  {
    if defs == [] then {} else (UsesStmts(defs[0].body) - Params(defs[0].params)) + UsesDefs(defs[1..])
  }

  /** What a closure's code reads from outside. */
  function UsesCode(ps: seq<Name>, body: seq<Stmt>): set<Name> {
    UsesStmts(body) - Params(ps)
  }

  function UsesDef(d: Def): set<Name> { UsesCode(d.params, d.body) }

  function Params(ps: seq<Name>): set<Name> {
    set p | p in ps
  }

  function DefNames(defs: seq<Def>): set<Name> {
    set i | 0 <= i < |defs| :: defs[i].x
  }

  // ── Programs the checker admits ──────────────────────────────────────────

  /** A stretch defines no name twice: a rebound one begins the next. */
  predicate Unrepeated(defs: seq<Def>) {
    forall i, j | 0 <= i < j < |defs| :: defs[i].x != defs[j].x
  }

  /** A lambda that is all of another's body is part of that one's chain of
      parameters, and is written there. */
  predicate LoneLambda(ss: seq<Stmt>) {
    |ss| == 1 && ss[0].SDo? && (ss[0].e.ALambda? || (ss[0].e.AReturn? && ss[0].e.e.ALambda?))
  }

  /** Every variable is in scope, no name is one only the compiler writes, every
      index has a key, and every block definition is in a stretch. */
  predicate Admitted(e: Ast, bound: set<Name>)
    decreases e, 0
  {
    match e
    case AVar(x) => x in bound && !Synthetic(x)
    case ABlock(body) => AdmittedStmts(body, bound)
    case ALambda(ps, body) =>
      ps != [] && !LoneLambda(body) && (forall i | 0 <= i < |ps| :: !Synthetic(ps[i])) && AdmittedStmts(body, bound + Params(ps))
    case AForce(d) => Admitted(d, bound)
    case ACall(h, es) => AdmittedHead(h, bound) && AdmittedAll(es, bound)
    case AReturn(d) => Admitted(d, bound)
    case AList(es) => AdmittedAll(es, bound)
    case AIndex(t, ks) => ks != [] && Admitted(t, bound) && AdmittedKeys(ks, bound)
    case ABinary(_, l, r) => Admitted(l, bound) && Admitted(r, bound)
    case ANot(d) => Admitted(d, bound)
    case AJunction(_, l, r) => Admitted(l, bound) && Admitted(r, bound)
    case AIf(c, a, r) => Admitted(c, bound) && AdmittedArm(a, bound) && AdmittedChain(r, bound)
    case ATry(b, h) => Admitted(b, bound) && Admitted(h, bound)
    case _ => true
  }

  predicate AdmittedAll(es: seq<Ast>, bound: set<Name>)
    decreases es, 0
  {
    es != [] ==> Admitted(es[0], bound) && AdmittedAll(es[1..], bound)
  }

  predicate AdmittedKeys(ks: seq<KeyAst>, bound: set<Name>)
    decreases ks, 0
  {
    ks != [] ==> (ks[0].KData? ==> (assert ks[0].e < ks[0]; Admitted(ks[0].e, bound))) && AdmittedKeys(ks[1..], bound)
  }

  predicate AdmittedHead(h: Head, bound: set<Name>)
    decreases h, 0
  {
    match h case HBare(x) => !Synthetic(x) case HExternal(x) => !Synthetic(x) case HValue(e) => Admitted(e, bound)
  }

  predicate AdmittedArm(a: ArmAst, bound: set<Name>)
    decreases a, 0
  {
    match a case ArmBlock(body) => AdmittedStmts(body, bound) case ArmName(x) => x in bound && !Synthetic(x)
  }

  predicate AdmittedChain(r: Chain, bound: set<Name>)
    decreases r, 0
  {
    match r
    case NoElse => true
    case Else(a) => AdmittedArm(a, bound)
    case ElseIf(c, a, r1) => Admitted(c, bound) && AdmittedArm(a, bound) && AdmittedChain(r1, bound)
  }

  predicate AdmittedStmts(ss: seq<Stmt>, bound: set<Name>)
    decreases ss, 0
  {
    ss != [] ==>
      match ss[0]
      case SLet(x, e) =>
        && !e.ABlock? && !e.ALambda? && !Synthetic(x)
        && (assert ss[0].e < ss[0]; Admitted(e, bound)) && AdmittedStmts(ss[1..], bound + {x})
      case SDo(e) => (assert ss[0].e < ss[0]; Admitted(e, bound)) && AdmittedStmts(ss[1..], bound)
      case SDefs(defs) =>
        && Unrepeated(defs)
        && (AdmittedDefs(defs, bound + DefNames(defs))) && AdmittedStmts(ss[1..], bound + DefNames(defs))
  }

  predicate AdmittedDefs(defs: seq<Def>, bound: set<Name>)
    decreases defs, 0
  {
    defs != [] ==>
      && !Synthetic(defs[0].x) && (forall i | 0 <= i < |defs[0].params| :: !Synthetic(defs[0].params[i])) && !LoneLambda(defs[0].body)
      && (AdmittedStmts(defs[0].body, bound + Params(defs[0].params)))
      && AdmittedDefs(defs[1..], bound)
  }

  // ── Direct meaning ───────────────────────────────────────────────────────

  type SEnv = map<Name, SVal>

  datatype SVal =
    | SUnit
    | SStr(s: string)
    | SInt(i: int)
    | SBool(b: bool)
    | SList(items: seq<SVal>)
    | SRecord(keys: seq<Name>, items: seq<SVal>)
    | SVariant(tag: Name, payload: SVal)
    | SClosure(params: seq<Name>, body: seq<Stmt>, env: SEnv)
    | SKnot(knot: Knot, index: nat)

  /** A stretch and what it closed over; each of its blocks also sees all the others. */
  datatype Knot = Knot(defs: seq<Def>, env: SEnv)

  /** When the keys of `$xs[k1][k2]…` run: each just before its own read, as they
      are written; or all ahead of every read, which is where hoisting puts them.
      `Watched` reads as they are written and ends at the first read whose
      failure a later key, run ahead of it, would have changed. */
  datatype ReadOrder = ReadByRead | KeysFirst | Watched

  datatype SContext = SContext(order: ReadOrder, sig: SEnv, world: (Trace, Event) -> Reply)

  /** A value, or a function still short of arguments. */
  datatype STerminal = SPlain(v: SVal) | SPartial(params: seq<Name>, body: seq<Stmt>, env: SEnv)

  datatype SOutcome =
    | SDone(t: STerminal, tr: Trace)
    | SFailed(e: Error, tr: Trace)
    | SExited(code: int, tr: Trace)
    | SStarved(tr: Trace)
    | SDisturbed(tr: Trace)

  /** What an operand, or a row of them, comes to. */
  datatype Ran<+T> = Ran(value: T, tr: Trace) | Stopped(o: SOutcome)

  function SLookup(k: SContext, env: SEnv, x: Name): Option<SVal> {
    if x in env then Some(env[x]) else if x in k.sig then Some(k.sig[x]) else None
  }

  function SObserve(v: SVal): Option<Datum>
    decreases v, 0
  {
    match v
    case SUnit => Some(DUnit)
    case SStr(s) => Some(DStr(s))
    case SInt(i) => Some(DInt(i))
    case SBool(b) => Some(DBool(b))
    case SList(items) => (match SObserveAll(items) case Some(ds) => Some(DList(ds)) case None => None)
    case SRecord(keys, items) => (match SObserveAll(items) case Some(ds) => Some(DRecord(keys, ds)) case None => None)
    case SVariant(tag, p) => (match SObserve(p) case Some(d) => Some(DVariant(tag, d)) case None => None)
    case SClosure(_, _, _) => None
    case SKnot(_, _) => None
  }

  function SObserveAll(vs: seq<SVal>): Option<seq<Datum>>
    decreases vs, 0
  {
    if vs == [] then Some([])
    else
      match (SObserve(vs[0]), SObserveAll(vs[1..]))
      case (Some(d), Some(ds)) => Some([d] + ds)
      case _ => None
  }

  function SFromDatum(d: Datum): SVal
    decreases d, 0
  {
    match d
    case DUnit => SUnit
    case DStr(s) => SStr(s)
    case DInt(i) => SInt(i)
    case DBool(b) => SBool(b)
    case DList(items) => SList(SFromData(items))
    case DRecord(keys, items) => SRecord(keys, SFromData(items))
    case DVariant(tag, p) => SVariant(tag, SFromDatum(p))
  }

  function SFromData(ds: seq<Datum>): seq<SVal>
    decreases ds, 0
  {
    if ds == [] then [] else [SFromDatum(ds[0])] + SFromData(ds[1..])
  }

  function SBinary(op: BinaryOp, l: SVal, r: SVal): Formed<SVal> {
    match op
    case Eq =>
      (match (SObserve(l), SObserve(r))
       case (Some(a), Some(b)) => Formed(SBool(a == b))
       case _ => Malformed(Incomparable))
    case Lt => if l.SInt? && r.SInt? then Formed(SBool(l.i < r.i)) else Malformed(Incomparable)
    case Add => if l.SInt? && r.SInt? then SChecked(l.i + r.i) else Malformed(NotNumeric)
    case Sub => if l.SInt? && r.SInt? then SChecked(l.i - r.i) else Malformed(NotNumeric)
  }

  function SChecked(n: int): Formed<SVal> {
    if INT_MIN <= n <= INT_MAX then Formed(SInt(n)) else Malformed(Overflow)
  }

  /** A key once its operand, if it has one, has run. */
  datatype SKey = SLabel(field: Name) | SPosition(n: nat) | SData(v: SVal)

  function SField(target: SVal, key: Name): Formed<SVal> {
    if !target.SRecord? then Malformed(Unreadable)
    else
      var i := FieldAt(target.keys, key);
      if i < |target.items| && i < |target.keys| then Formed(target.items[i]) else Malformed(NoField(key))
  }

  function SIndex(target: SVal, key: SKey): Formed<SVal> {
    match key
    case SLabel(l) => SField(target, l)
    case SPosition(n) =>
      if !target.SList? then Malformed(Unreadable)
      else if n < |target.items| then Formed(target.items[n])
      else Malformed(OutOfBounds(n, |target.items|))
    case SData(v) => if v.SStr? then SField(target, v.s) else Malformed(KeyNotAString)
  }

  /** `$xs[k1][k2]…`, the keys already values. */
  function SIndexAll(target: SVal, keys: seq<SKey>): Formed<SVal> {
    if keys == [] then Formed(target)
    else
      match SIndex(target, keys[0])
      case Malformed(e) => Malformed(e)
      case Formed(v) => SIndexAll(v, keys[1..])
  }

  function SSettle(f: Formed<SVal>, args: seq<SVal>, tr: Trace): SOutcome {
    match f
    case Malformed(e) => SFailed(e, tr)
    case Formed(v) => if args == [] then SDone(SPlain(v), tr) else SFailed(NotAFunction, tr)
  }

  function SOperate(k: SContext, word: CommandWord, argv: seq<SVal>, args: seq<SVal>, tr: Trace): SOutcome {
    match SObserveAll(argv)
    case None => SFailed(NotPlain, tr)
    case Some(ds) =>
      var ev := Event(word, ds);
      var tr' := tr + [ev];
      match k.world(tr, ev)
      case Yields(d) => SSettle(Formed(SFromDatum(d)), args, tr')
      case Fails(why) => SFailed(Refused(why), tr')
      case Exits(code) => SExited(code, tr')
  }

  /** The value a handler is given for an error. */
  function SErrorValue(e: Error): SVal {
    match Observe(ErrorValue(e))
    case Some(d) => SFromDatum(d)
    case None => SUnit
  }

  /** Bind parameters to arguments until one side runs out, then run the body. */
  function SApply(k: SContext, fuel: nat, params: seq<Name>, body: seq<Stmt>, env: SEnv, args: seq<SVal>, tr: Trace): SOutcome
    decreases fuel, 3, |params|
  {
    if params == [] then SStmts(k, fuel, body, env, args, tr)
    else if args == [] then SDone(SPartial(params, body, env), tr)
    else SApply(k, fuel, params[1..], body, env[params[0] := args[0]], args[1..], tr)
  }

  function SEnter(k: SContext, fuel: nat, f: SVal, args: seq<SVal>, tr: Trace): SOutcome
    decreases fuel, 0
  {
    match f
    case SClosure(ps, body, env) => if fuel == 0 then SStarved(tr) else SApply(k, fuel - 1, ps, body, env, args, tr)
    case SKnot(knot, i) =>
      if i >= |knot.defs| then SFailed(NotABlock, tr)
      else if fuel == 0 then SStarved(tr)
      else SApply(k, fuel - 1, knot.defs[i].params, knot.defs[i].body, Tie(knot, |knot.defs|), args, tr)
    case _ => SFailed(NotABlock, tr)
  }

  /** What a stretch closed over, under the first `n` of its own blocks. */
  function Tie(knot: Knot, n: nat): SEnv
    requires n <= |knot.defs|
  {
    if n == 0 then knot.env else Tie(knot, n - 1)[knot.defs[n - 1].x := SKnot(knot, n - 1)]
  }

  lemma {:induction false} TieKeys(knot: Knot, n: nat)
    requires n <= |knot.defs|
    ensures Tie(knot, n).Keys == knot.env.Keys + set i | 0 <= i < n :: knot.defs[i].x
  {
    if n > 0 { TieKeys(knot, n - 1); }
  }

  function SMeet(k: SContext, fuel: nat, t: STerminal, args: seq<SVal>, tr: Trace): SOutcome
    decreases fuel, 0
  {
    match t
    case SPlain(v) => SSettle(Formed(v), args, tr)
    case SPartial(params, body, env) =>
      if args == [] then SDone(t, tr)
      else if fuel == 0 then SStarved(tr)
      else SApply(k, fuel - 1, params, body, env, args, tr)
  }

  function AsValue(o: SOutcome): (r: Ran<SVal>)
    ensures r.Stopped? ==> !r.o.SDone?
  {
    match o
    case SDone(SPlain(v), tr) => Ran(v, tr)
    case SDone(SPartial(_, _, _), tr) => Stopped(SFailed(BareLambda, tr))
    case stopped => Stopped(stopped)
  }

  function SOperands(k: SContext, fuel: nat, es: seq<Ast>, env: SEnv, tr: Trace): (r: Ran<seq<SVal>>)
    ensures r.Stopped? ==> !r.o.SDone?
    decreases fuel, 2, es, 0
  {
    if es == [] then Ran([], tr)
    else
      match AsValue(SEval(k, fuel, es[0], env, [], tr))
      case Stopped(o) => Stopped(o)
      case Ran(v, tr1) =>
        match SOperands(k, fuel, es[1..], env, tr1)
        case Stopped(o) => Stopped(o)
        case Ran(vs, tr2) => Ran([v] + vs, tr2)
  }

  function SKeys(k: SContext, fuel: nat, ks: seq<KeyAst>, env: SEnv, tr: Trace): Ran<seq<SKey>>
    decreases fuel, 2, ks, 0
  {
    if ks == [] then Ran([], tr)
    else
      match SKeyOf(k, fuel, ks[0], env, tr)
      case Stopped(o) => Stopped(o)
      case Ran(key, tr1) =>
        match SKeys(k, fuel, ks[1..], env, tr1)
        case Stopped(o) => Stopped(o)
        case Ran(keys, tr2) => Ran([key] + keys, tr2)
  }

  function SKeyOf(k: SContext, fuel: nat, key: KeyAst, env: SEnv, tr: Trace): Ran<SKey>
    decreases fuel, 2, key, 0
  {
    match key
    case KLabel(l) => Ran(SLabel(l), tr)
    case KPosition(n) => Ran(SPosition(n), tr)
    case KData(e) =>
      match AsValue(SEval(k, fuel, e, env, [], tr))
      case Stopped(o) => Stopped(o)
      case Ran(v, tr1) => Ran(SData(v), tr1)
  }

  /** Every key, and only then the reads. */
  function SLateReads(k: SContext, fuel: nat, v: SVal, ks: seq<KeyAst>, env: SEnv, args: seq<SVal>, tr: Trace): SOutcome
    decreases fuel, 2, ks, 1
  {
    match SKeys(k, fuel, ks, env, tr)
    case Stopped(o) => o
    case Ran(vs, tr1) => SSettle(SIndexAll(v, vs), args, tr1)
  }

  /** Key, read, next key: a read that fails is the last thing to run. */
  function SReads(k: SContext, fuel: nat, v: SVal, ks: seq<KeyAst>, env: SEnv, args: seq<SVal>, tr: Trace): SOutcome
    decreases fuel, 2, ks, 1
  {
    if ks == [] then SSettle(Formed(v), args, tr)
    else
      match SKeyOf(k, fuel, ks[0], env, tr)
      case Stopped(o) => o
      case Ran(key, tr1) =>
        match SIndex(v, key)
        case Formed(w) => SReads(k, fuel, w, ks[1..], env, args, tr1)
        case Malformed(e) =>
          if k.order.Watched? && !Unfelt(SKeys(k, fuel, ks[1..], env, tr1), e, tr1) then SDisturbed(tr1) else SFailed(e, tr1)
  }

  /** Running the later keys ahead of a read that fails leaves no operation and
      no other ending. */
  predicate Unfelt(later: Ran<seq<SKey>>, e: Error, tr: Trace) {
    match later case Ran(_, tr1) => tr1 == tr case Stopped(o) => o == SFailed(e, tr)
  }

  function SArm(k: SContext, fuel: nat, a: ArmAst, env: SEnv, args: seq<SVal>, tr: Trace): SOutcome
    decreases fuel, 2, a, 0
  {
    match a
    case ArmBlock(body) => if fuel == 0 then SStarved(tr) else SStmts(k, fuel - 1, body, env, args, tr)
    case ArmName(x) =>
      match SLookup(k, env, x)
      case None => SFailed(Undefined(x), tr)
      case Some(f) => SEnter(k, fuel, f, args, tr)
  }

  /** The conditions after the first in turn, until one holds; only its arm runs. */
  function SChain(k: SContext, fuel: nat, r: Chain, env: SEnv, args: seq<SVal>, tr: Trace): SOutcome
    decreases fuel, 2, r, 0
  {
    match r
    case NoElse => if fuel == 0 then SStarved(tr) else SSettle(Formed(SUnit), args, tr)
    case Else(a) => SArm(k, fuel, a, env, args, tr)
    case ElseIf(c, a, r1) =>
      if fuel == 0 then SStarved(tr)
      else
        match AsValue(SEval(k, fuel - 1, c, env, [], tr))
        case Stopped(o) => o
        case Ran(v, tr1) =>
          if !v.SBool? then SFailed(NotABool, tr1)
          else if v.b then SArm(k, fuel - 1, a, env, args, tr1)
          else SChain(k, fuel - 1, r1, env, args, tr1)
  }

  /** A lone branch yields unit whatever its arm yields. */
  function SLoneArm(k: SContext, fuel: nat, a: ArmAst, env: SEnv, args: seq<SVal>, tr: Trace): SOutcome
    decreases fuel, 2, a, 1
  {
    if fuel == 0 then SStarved(tr)
    else
      match AsValue(match a
                    case ArmBlock(body) => SStmts(k, fuel - 1, body, env, [], tr)
                    case ArmName(_) => SArm(k, fuel - 1, a, env, [], tr))
      case Stopped(o) => o
      case Ran(_, tr1) => SSettle(Formed(SUnit), args, tr1)
  }

  function STry(k: SContext, fuel: nat, tried: SVal, handler: SVal, args: seq<SVal>, tr: Trace): SOutcome
    decreases fuel, 1
  {
    match SEnter(k, fuel, tried, [], tr)
    case SDone(t, tr1) => SMeet(k, fuel, t, args, tr1)
    case SFailed(e, tr1) => SEnter(k, fuel, handler, [SErrorValue(e)] + args, tr1)
    case stopped => stopped
  }

  function SCall(k: SContext, fuel: nat, x: Name, external: bool, vs: seq<SVal>, env: SEnv, args: seq<SVal>, tr: Trace): SOutcome
    decreases fuel, 1
  {
    if external then SOperate(k, External(Bare(x)), vs, args, tr)
    else
      match SLookup(k, env, x)
      case Some(f) => SEnter(k, fuel, f, vs + args, tr)
      case None => SOperate(k, Named(Bare(x)), vs, args, tr)
  }

  function SEval(k: SContext, fuel: nat, e: Ast, env: SEnv, args: seq<SVal>, tr: Trace): SOutcome
    decreases fuel, 2, e, 0
  {
    match e
    case AUnit => SSettle(Formed(SUnit), args, tr)
    case AStr(s) => SSettle(Formed(SStr(s)), args, tr)
    case AInt(i) => SSettle(Formed(SInt(i)), args, tr)
    case ABool(b) => SSettle(Formed(SBool(b)), args, tr)
    case AVar(x) =>
      (match SLookup(k, env, x)
       case None => SFailed(Undefined(x), tr)
       case Some(v) => SSettle(Formed(v), args, tr))
    case ABlock(body) => SSettle(Formed(SClosure([], body, env)), args, tr)
    case ALambda(ps, body) => SSettle(Formed(SClosure(ps, body, env)), args, tr)
    case AForce(d) =>
      (match AsValue(SEval(k, fuel, d, env, [], tr))
       case Stopped(o) => o
       case Ran(v, tr1) => SEnter(k, fuel, v, args, tr1))
    case ACall(h, es) =>
      (match h
       case HValue(d) =>
         (match AsValue(SEval(k, fuel, d, env, [], tr))
          case Stopped(o) => o
          case Ran(f, tr1) =>
            match SOperands(k, fuel, es, env, tr1)
            case Stopped(o) => o
            case Ran(vs, tr2) => SEnter(k, fuel, f, vs + args, tr2))
       case _ =>
         match SOperands(k, fuel, es, env, tr)
         case Stopped(o) => o
         case Ran(vs, tr1) => SCall(k, fuel, h.x, h.HExternal?, vs, env, args, tr1))
    case AReturn(d) =>
      (match AsValue(SEval(k, fuel, d, env, [], tr))
       case Stopped(o) => o
       case Ran(v, tr1) => SSettle(Formed(v), args, tr1))
    case AList(es) =>
      (match SOperands(k, fuel, es, env, tr)
       case Stopped(o) => o
       case Ran(vs, tr1) => SSettle(Formed(SList(vs)), args, tr1))
    case AIndex(t, ks) =>
      (match AsValue(SEval(k, fuel, t, env, [], tr))
       case Stopped(o) => o
       case Ran(v, tr1) =>
         if k.order.KeysFirst? then SLateReads(k, fuel, v, ks, env, args, tr1) else SReads(k, fuel, v, ks, env, args, tr1))
    case ABinary(op, l, r) =>
      (match AsValue(SEval(k, fuel, l, env, [], tr))
       case Stopped(o) => o
       case Ran(a, tr1) =>
         match AsValue(SEval(k, fuel, r, env, [], tr1))
         case Stopped(o) => o
         case Ran(b, tr2) => SSettle(SBinary(op, a, b), args, tr2))
    case ANot(d) =>
      (match AsValue(SEval(k, fuel, d, env, [], tr))
       case Stopped(o) => o
       case Ran(v, tr1) => SSettle(if v.SBool? then Formed(SBool(!v.b)) else Malformed(NotABool), args, tr1))
    case AJunction(or, l, r) =>
      (match AsValue(SEval(k, fuel, l, env, [], tr))
       case Stopped(o) => o
       case Ran(v, tr1) =>
         if !v.SBool? then SFailed(NotABool, tr1)
         else if fuel == 0 then SStarved(tr1)
         else if v.b == or then SSettle(Formed(SBool(or)), args, tr1)
         else SEval(k, fuel - 1, r, env, args, tr1))
    case AIf(c, a, r) =>
      (match AsValue(SEval(k, fuel, c, env, [], tr))
       case Stopped(o) => o
       case Ran(v, tr1) =>
         if !v.SBool? then SFailed(NotABool, tr1)
         else if v.b then (if r.NoElse? then SLoneArm(k, fuel, a, env, args, tr1) else SArm(k, fuel, a, env, args, tr1))
         else SChain(k, fuel, r, env, args, tr1))
    case ATry(b, h) =>
      (match AsValue(SEval(k, fuel, b, env, [], tr))
       case Stopped(o) => o
       case Ran(f, tr1) =>
         match AsValue(SEval(k, fuel, h, env, [], tr1))
         case Stopped(o) => o
         case Ran(g, tr2) => STry(k, fuel, f, g, args, tr2))
  }

  function SStmts(k: SContext, fuel: nat, ss: seq<Stmt>, env: SEnv, args: seq<SVal>, tr: Trace): SOutcome
    decreases fuel, 2, ss, 0
  {
    if ss == [] then SSettle(Formed(SUnit), args, tr)
    else
      match ss[0]
      case SDefs(defs) => SStmts(k, fuel, ss[1..], Tie(Knot(defs, env), |defs|), args, tr)
      case _ =>
        assert ss[0].e < ss[0];
        if |ss| == 1 && ss[0].SDo? then SEval(k, fuel, ss[0].e, env, args, tr)
        else
          match AsValue(SEval(k, fuel, ss[0].e, env, [], tr))
          case Stopped(o) => o
          case Ran(v, tr1) => SStmts(k, fuel, ss[1..], if ss[0].SLet? then env[ss[0].x := v] else env, args, tr1)
  }
}
