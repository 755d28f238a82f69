/** What stops an engine's runs: strikes aimed at dispatches, which may overtake
    the dispatch they name, and the ending of the session. */
module Scopes {
  import opened Wrappers

  /** Causes by severity: 0 is none, 1 a reader gone, 2 interrupted, 3 cancelled,
      4 timed out, 5 terminated, 6 aborted. */
  type Cause = c: nat | c <= 6

  const TERMINATED: Cause := 5
  const ABORTED: Cause := 6

  function Max(a: Cause, b: Cause): Cause { if a < b then b else a }

  /** A scope node: its own cause, and the node it nests under. */
  datatype Node = Node(flag: Cause, parent: Option<nat>)

  type Arena = seq<Node>

  /** Every node nests under an older one. */
  predicate Nested(arena: Arena) {
    forall i | 0 <= i < |arena| && arena[i].parent.Some? :: arena[i].parent.value < i
  }

  /** The strongest cause along the chain. */
  function CauseOf(arena: Arena, n: nat): Cause
    requires n < |arena| && Nested(arena)
  {
    if arena[n].parent.None? then arena[n].flag else Max(arena[n].flag, CauseOf(arena, arena[n].parent.value))
  }

  /** A cancel raises the node's own cause and never lowers it. */
  function Cancel(arena: Arena, n: nat, c: Cause): (r: Arena)
    requires n < |arena|
    ensures |r| == |arena|
  {
    arena[n := arena[n].(flag := Max(arena[n].flag, c))]
  }

  datatype Aimed<T> = Aimed(id: nat, what: T)

  const ROOT: nat := 0
  const DISPATCHES: nat := 1

  /** `minted` is history: the node of every dispatch opened. */
  datatype State = State(arena: Arena, current: Option<Aimed<nat>>, foretold: Option<Aimed<Cause>>, minted: map<nat, nat>)

  predicate Is<T>(slot: Option<Aimed<T>>, id: nat) {
    slot.Some? && slot.value.id == id
  }

  // ── Steps ────────────────────────────────────────────────────────────────

  /** Mint `id`'s node under the dispatches or a host scope: struck already by the
      session's end, and by the strike that foretold it. */
  function Opened(s: State, id: nat, within: Option<nat>): State
    requires Valid(s) && (within.Some? ==> within.value < |s.arena|)
  {
    var n := |s.arena|;
    var told := if Is(s.foretold, id) then s.foretold.value.what else 0;
    var wider := s.arena + [Node(0, Some(if within.Some? then within.value else DISPATCHES))];
    s.(arena := Cancel(Cancel(wider, n, CauseOf(s.arena, ROOT)), n, told),
       current := Some(Aimed(id, n)),
       foretold := if Is(s.foretold, id) then None else s.foretold,
       minted := s.minted[id := n])
  }

  function Struck(s: State, id: nat, c: Cause): State
    requires Valid(s)
  {
    if Is(s.current, id) then s.(arena := Cancel(s.arena, s.current.value.what, c))
    else if Is(s.foretold, id) then s.(foretold := Some(Aimed(id, Max(s.foretold.value.what, c))))
    else s.(foretold := Some(Aimed(id, c)))
  }

  function Ended(s: State, c: Cause): State
    requires Valid(s)
  {
    var rooted := Cancel(s.arena, ROOT, c);
    s.(arena := if s.current.Some? then Cancel(rooted, s.current.value.what, c) else rooted)
  }

  /** A host raises a scope of its own. */
  function Host(s: State, n: nat, c: Cause): State
    requires Valid(s) && n < |s.arena|
  {
    s.(arena := Cancel(s.arena, n, c))
  }

  /** A host mints a scope: free, or nested. */
  function Mint(s: State, parent: Option<nat>): State
    requires Valid(s) && (parent.Some? ==> parent.value < |s.arena|)
  {
    s.(arena := s.arena + [Node(0, parent)])
  }

  ghost predicate Valid(s: State) {
    && |s.arena| > DISPATCHES && Nested(s.arena) && s.arena[ROOT].parent.None? && s.arena[DISPATCHES].parent == Some(ROOT)
    && (forall id | id in s.minted :: DISPATCHES < s.minted[id] < |s.arena|)
    && (s.current.Some? ==> s.current.value.id in s.minted && s.minted[s.current.value.id] == s.current.value.what)
  }

  datatype Step =
    | SOpen(id: nat, within: Option<nat>)
    | SStrike(id: nat, cause: Cause)
    | SEnd(cause: Cause)
    | SHost(node: nat, cause: Cause)
    | SMint(parent: Option<nat>)

  /** Each id is opened once, and hosts touch neither the root nor a dispatch. */
  ghost predicate Possible(s: State, step: Step) {
    match step
    case SOpen(id, within) => id !in s.minted && (within.Some? ==> within.value < |s.arena|)
    case SHost(n, _) => DISPATCHES < n < |s.arena| && forall id | id in s.minted :: s.minted[id] != n
    case SMint(parent) => parent.Some? ==> parent.value < |s.arena|
    case _ => true
  }

  function Do(s: State, step: Step): State
    requires Valid(s) && Possible(s, step)
  {
    match step
    case SOpen(id, within) => Opened(s, id, within)
    case SStrike(id, c) => Struck(s, id, c)
    case SEnd(c) => Ended(s, c)
    case SHost(n, c) => Host(s, n, c)
    case SMint(parent) => Mint(s, parent)
  }

  lemma DoIsValid(s: State, step: Step)
    requires Valid(s) && Possible(s, step)
    ensures Valid(Do(s, step))
  {
  }

  ghost predicate Run(s: State, steps: seq<Step>, t: State)
    requires Valid(s)
    decreases |steps|
  {
    if steps == [] then t == s
    else Possible(s, steps[0]) && (DoIsValid(s, steps[0]); Run(Do(s, steps[0]), steps[1..], t))
  }

  ghost predicate Initial(s: State) {
    && s.arena == [Node(0, None), Node(0, Some(ROOT))] && s.current.None? && s.foretold.None?
    && s.minted == map[]
  }

  // ── Strikes hit their dispatch and no other ──────────────────────────────

  /** What every run keeps: two dispatches never share a node, nothing is foretold
      of the current dispatch, and it carries the session's end. */
  ghost predicate Kept(s: State) {
    && Valid(s)
    && (forall a, b | a in s.minted && b in s.minted && s.minted[a] == s.minted[b] :: a == b)
    && (s.current.Some? ==> !Is(s.foretold, s.current.value.id) && s.arena[ROOT].flag <= s.arena[s.current.value.what].flag)
  }

  lemma DoKeeps(s: State, step: Step)
    requires Kept(s) && Possible(s, step)
    ensures Kept(Do(s, step))
  {
    DoIsValid(s, step);
  }

  lemma {:induction false} RunsKeep(s: State, steps: seq<Step>, t: State)
    requires Kept(s) && Run(s, steps, t)
    ensures Kept(t)
    decreases |steps|
  {
    if steps != [] {
      DoKeeps(s, steps[0]);
      RunsKeep(Do(s, steps[0]), steps[1..], t);
    }
  }

  /** However the engine came to where it is, a strike on `j` changes no other
      dispatch's own cause. */
  lemma StrikesHitTheirDispatch(s: State, steps: seq<Step>, t: State, j: nat, c: Cause, i: nat)
    requires Initial(s) && Valid(s) && Run(s, steps, t) && i in t.minted && i != j
    ensures Valid(t) && Struck(t, j, c).arena[t.minted[i]] == t.arena[t.minted[i]]
  {
    RunsKeep(s, steps, t);
  }

  // ── Every strike lands unless it is overwritten ──────────────────────────

  /** The strikes on `id` among the steps, joined. */
  function On(steps: seq<Step>, id: nat): Cause {
    if steps == [] then 0
    else Max(if steps[0].SStrike? && steps[0].id == id then steps[0].cause else 0, On(steps[1..], id))
  }

  /** The endings of the session among the steps, joined. */
  function Endings(steps: seq<Step>): Cause {
    if steps == [] then 0 else Max(if steps[0].SEnd? then steps[0].cause else 0, Endings(steps[1..]))
  }

  /** The step foretells another dispatch, not the current one, while `id` is
      foretold: there is one slot. */
  predicate Overwrites(s: State, step: Step, id: nat) {
    step.SStrike? && step.id != id && Is(s.foretold, id) && !Is(s.current, step.id)
  }

  /** No step overwrites a foretelling of `id`. */
  ghost predicate Spared(s: State, steps: seq<Step>, t: State, id: nat)
    requires Valid(s) && Run(s, steps, t)
    decreases |steps|
  {
    steps != [] ==>
      !Overwrites(s, steps[0], id) && (DoIsValid(s, steps[0]); Spared(Do(s, steps[0]), steps[1..], t, id))
  }

  /** The steps after the last that overwrites a foretelling of `id`. */
  ghost function SinceLost(s: State, steps: seq<Step>, t: State, id: nat): seq<Step>
    requires Valid(s) && Run(s, steps, t)
    decreases |steps|
  {
    if Spared(s, steps, t, id) then steps
    else
      DoIsValid(s, steps[0]);
      SinceLost(Do(s, steps[0]), steps[1..], t, id)
  }

  /** What `id` carries already, or what is foretold of it. */
  function Held(s: State, id: nat): Cause
    requires Valid(s)
  {
    if Is(s.current, id) then s.arena[s.current.value.what].flag
    else if Is(s.foretold, id) then s.foretold.value.what
    else 0
  }

  /** A dispatch no longer current never is again. */
  lemma {:induction false} GoneForGood(s: State, steps: seq<Step>, t: State, id: nat)
    requires Valid(s) && Run(s, steps, t) && id in s.minted && !Is(s.current, id)
    ensures !Is(t.current, id)
    decreases |steps|
  {
    if steps != [] {
      DoIsValid(s, steps[0]);
      GoneForGood(Do(s, steps[0]), steps[1..], t, id);
    }
  }

  /** One step: what `id` holds takes in a strike on it, and only an overwriting
      loses any of it. */
  lemma StepHolds(s: State, step: Step, id: nat)
    requires Kept(s) && Possible(s, step) && (id !in s.minted || Is(s.current, id))
    requires var t := Do(s, step); id !in t.minted || Is(t.current, id)
    ensures Valid(Do(s, step))
    ensures var t, hit, end := Do(s, step), On([step], id), Endings([step]);
            && t.arena[ROOT].flag == Max(s.arena[ROOT].flag, end)
            && Max(Held(t, id), t.arena[ROOT].flag) ==
               Max(Max(if Overwrites(s, step, id) then 0 else Held(s, id), hit), t.arena[ROOT].flag)
  {
    DoIsValid(s, step);
    assert [step][1..] == [];
  }

  /** From anywhere on: what `id` held, if none of it is overwritten, and the
      strikes on it since, and the endings. */
  lemma {:induction false} Lands(s: State, steps: seq<Step>, t: State, id: nat)
    requires Kept(s) && Run(s, steps, t) && Is(t.current, id) && (id !in s.minted || Is(s.current, id))
    ensures Valid(t) && t.arena[ROOT].flag == Max(s.arena[ROOT].flag, Endings(steps))
    ensures t.arena[t.current.value.what].flag ==
            Max(Max(if Spared(s, steps, t, id) then Held(s, id) else 0, On(SinceLost(s, steps, t, id), id)), t.arena[ROOT].flag)
    decreases |steps|
  {
    if steps != [] {
      var s1 := Do(s, steps[0]);
      DoKeeps(s, steps[0]);
      if id in s1.minted && !Is(s1.current, id) { GoneForGood(s1, steps[1..], t, id); }
      Lands(s1, steps[1..], t, id);
      StepHolds(s, steps[0], id);
      assert [steps[0]][1..] == [];
    }
  }

  // ── What a dispatch hangs under ──────────────────────────────────────────

  /** The step makes a node. */
  predicate Makes(step: Step) {
    step.SOpen? || step.SMint?
  }

  /** How many nodes the steps make. */
  function Made(steps: seq<Step>): nat {
    if steps == [] then 0 else (if Makes(steps[0]) then 1 else 0) + Made(steps[1..])
  }

  /** The scope a step hangs its node under: the one it names; a dispatch that names
      none goes under the engine's dispatches, and a free scope under nothing. */
  function Under(step: Step): Option<nat>
    requires Makes(step)
  {
    match step
    case SOpen(_, within) => if within.Some? then within else Some(1)
    case SMint(parent) => parent
  }

  lemma {:induction false} RunsAreLater(s: State, steps: seq<Step>, t: State)
    requires Valid(s) && Run(s, steps, t)
    ensures Valid(t) && Later(s, t)
    decreases |steps|
  {
    if steps != [] {
      DoIsValid(s, steps[0]);
      DoIsLater(s, steps[0]);
      RunsAreLater(Do(s, steps[0]), steps[1..], t);
    }
  }

  /** The node the `k`th step makes is the next one, and hangs for good under the
      scope that step named. */
  lemma {:induction false} HangsWhereNamed(s: State, steps: seq<Step>, t: State, k: nat)
    requires Valid(s) && Run(s, steps, t) && k < |steps| && Makes(steps[k])
    ensures Valid(t)
    ensures var n := |s.arena| + Made(steps[..k]);
            && n < |t.arena| && t.arena[n].parent == Under(steps[k])
            && (steps[k].SOpen? ==> steps[k].id in t.minted && t.minted[steps[k].id] == n)
    decreases |steps|
  {
    var s1 := Do(s, steps[0]);
    DoIsValid(s, steps[0]);
    if k == 0 {
      RunsAreLater(s1, steps[1..], t);
    } else {
      assert steps[..k][0] == steps[0] && steps[..k][1..] == steps[1..][..k - 1];
      HangsWhereNamed(s1, steps[1..], t, k - 1);
    }
  }

  /** The `k`th step opens a dispatch, and none after it does. */
  predicate LastOpen(steps: seq<Step>, k: int) {
    0 <= k < |steps| && steps[k].SOpen? && forall j | k < j < |steps| :: !steps[j].SOpen?
  }

  /** The current dispatch is the last opened, or what it was where none was. */
  lemma {:induction false} CurrentIsLastOpened(s: State, steps: seq<Step>, t: State)
    requires Valid(s) && Run(s, steps, t)
    ensures Valid(t)
    ensures forall k | LastOpen(steps, k) :: t.current.Some? && t.current.value.id == steps[k].id
    ensures (forall k | 0 <= k < |steps| :: !steps[k].SOpen?) ==> t.current == s.current
    ensures (exists k | 0 <= k < |steps| :: steps[k].SOpen?) ==> exists k :: LastOpen(steps, k)
    decreases |steps|
  {
    if steps != [] {
      var s1, rest := Do(s, steps[0]), steps[1..];
      DoIsValid(s, steps[0]);
      CurrentIsLastOpened(s1, rest, t);
      forall k | LastOpen(steps, k) ensures t.current.Some? && t.current.value.id == steps[k].id {
        if k == 0 {
          assert forall j | 0 <= j < |rest| :: rest[j] == steps[j + 1];
        } else {
          assert LastOpen(rest, k - 1);
        }
      }
      if exists k | 0 <= k < |steps| :: steps[k].SOpen? {
        if exists k | 0 <= k < |rest| :: rest[k].SOpen? {
          var j :| LastOpen(rest, j);
          assert LastOpen(steps, j + 1);
        } else {
          assert forall j | 0 < j < |steps| :: steps[j] == rest[j - 1];
          assert LastOpen(steps, 0);
        }
      }
    }
  }

  // ── What reaches it from above ───────────────────────────────────────────

  /** `a` is `n`, or above it. */
  ghost predicate Above(arena: Arena, a: nat, n: nat)
    requires n < |arena| && Nested(arena)
  {
    a == n || (arena[n].parent.Some? && Above(arena, a, arena[n].parent.value))
  }

  /** A node's cause is the strongest of its own and of every node above it. */
  lemma {:induction false} CauseIsStrongest(arena: Arena, n: nat)
    requires n < |arena| && Nested(arena)
    ensures forall a | 0 <= a < |arena| && Above(arena, a, n) :: arena[a].flag <= CauseOf(arena, n)
    ensures exists a | 0 <= a < |arena| && Above(arena, a, n) :: arena[a].flag == CauseOf(arena, n)
  {
    if arena[n].parent.None? || CauseOf(arena, n) == arena[n].flag {
      assert Above(arena, n, n);
    }
    if arena[n].parent.Some? {
      var p := arena[n].parent.value;
      CauseIsStrongest(arena, p);
      var a :| 0 <= a < |arena| && Above(arena, a, p) && arena[a].flag == CauseOf(arena, p);
      assert Above(arena, a, n);
    }
  }

  /** Every strike a host made, on any scope at or above a node, has reached it,
      whichever came first. */
  lemma {:induction false} HostsReach(s: State, steps: seq<Step>, t: State, j: nat, n: nat)
    requires Valid(s) && Run(s, steps, t) && j < |steps| && steps[j].SHost?
    ensures Valid(t) && steps[j].node < |t.arena|
    ensures n < |t.arena| && Above(t.arena, steps[j].node, n) ==> CauseOf(t.arena, n) >= steps[j].cause
    decreases |steps|
  {
    var s1 := Do(s, steps[0]);
    DoIsValid(s, steps[0]);
    RunsAreLater(s1, steps[1..], t);
    if j == 0 {
      if n < |t.arena| { CauseIsStrongest(t.arena, n); }
    } else {
      HostsReach(s1, steps[1..], t, j - 1, n);
    }
  }

  /** A host's strike reaches nothing that does not hang under its scope. */
  lemma {:induction false} HostsReachNoOther(s: State, h: nat, c: Cause, n: nat)
    requires Valid(s) && h < |s.arena| && n < |s.arena| && !Above(s.arena, h, n)
    ensures var t := Host(s, h, c); Nested(t.arena) && CauseOf(t.arena, n) == CauseOf(s.arena, n)
    decreases n
  {
    if s.arena[n].parent.Some? { HostsReachNoOther(s, h, c, s.arena[n].parent.value); }
  }

  /** The strikes hosts made on `n`, joined. */
  function Hosted(steps: seq<Step>, n: nat): Cause {
    if steps == [] then 0 else Max(if steps[0].SHost? && steps[0].node == n then steps[0].cause else 0, Hosted(steps[1..], n))
  }

  /** No dispatch's node. */
  ghost predicate Own(s: State, n: nat) {
    DISPATCHES <= n && forall id | id in s.minted :: s.minted[id] != n
  }

  /** A host's scope carries what hosts struck on it and nothing else, and the
      engine's dispatches carry nothing of their own. */
  lemma {:induction false} HostsCarryTheirStrikes(s: State, steps: seq<Step>, t: State, n: nat)
    requires Valid(s) && Run(s, steps, t) && Own(t, n) && n < |t.arena|
    ensures Valid(t) && t.arena[n].flag == Max(if n < |s.arena| then s.arena[n].flag else 0, Hosted(steps, n))
    decreases |steps|
  {
    if steps != [] {
      var s1 := Do(s, steps[0]);
      DoIsValid(s, steps[0]);
      RunsAreLater(s1, steps[1..], t);
      if n >= |s.arena| && steps[0].SHost? { assert steps[0].node != n; }
      HostsCarryTheirStrikes(s1, steps[1..], t, n);
    }
  }

  /** In every run the current dispatch is the last opened and hangs under the scope
      its own opening named; every strike a host ever made at or above that scope has
      reached it; and its own cause is the join of the strikes on its id since the last
      of them that was overwritten and the session's endings. */
  lemma CurrentCause(s: State, steps: seq<Step>, t: State)
    requires Initial(s) && Valid(s) && Run(s, steps, t) && t.current.Some?
    ensures Valid(t)
    ensures exists k :: LastOpen(steps, k) && t.current.value.id == steps[k].id
                        && t.arena[t.current.value.what].parent == if steps[k].within.Some? then steps[k].within else Some(1)
    ensures var id, n := t.current.value.id, t.current.value.what;
            && t.arena[n].flag == Max(On(SinceLost(s, steps, t, id), id), Endings(steps))
            && CauseOf(t.arena, n) == Max(t.arena[n].flag, CauseOf(t.arena, t.arena[n].parent.value))
    ensures forall j | 0 <= j < |steps| && steps[j].SHost? && Above(t.arena, steps[j].node, t.current.value.what) ::
              CauseOf(t.arena, t.current.value.what) >= steps[j].cause
  {
    CurrentIsLastOpened(s, steps, t);
    var k :| LastOpen(steps, k);
    HangsWhereNamed(s, steps, t, k);
    Lands(s, steps, t, t.current.value.id);
    forall j | 0 <= j < |steps| && steps[j].SHost? && Above(t.arena, steps[j].node, t.current.value.what)
      ensures CauseOf(t.arena, t.current.value.what) >= steps[j].cause
    {
      HostsReach(s, steps, t, j, t.current.value.what);
    }
  }

  /** A host's strike on the scope a dispatch opened within interrupts its run. */
  lemma AHostStopsItsRun(c: Cause)
    ensures var s := State([Node(0, None), Node(0, Some(ROOT))], None, None, map[]);
            var steps := [SMint(None), SOpen(7, Some(2)), SHost(2, c)];
            Initial(s) && Valid(s) && exists t :: Run(s, steps, t) && Valid(t) && t.current == Some(Aimed(7, 3)) && CauseOf(t.arena, 3) == c
  {
    var s := State([Node(0, None), Node(0, Some(ROOT))], None, None, map[]);
    var steps := [SMint(None), SOpen(7, Some(2)), SHost(2, c)];
    var s1 := Do(s, steps[0]);
    var s2 := Do(s1, steps[1]);
    var s3 := Do(s2, steps[2]);
    var rest, last := steps[1..], steps[2..];
    assert rest[1..] == last && last[1..] == [] && rest[0] == steps[1] && last[0] == steps[2];
    DoIsValid(s, steps[0]);
    DoIsValid(s1, steps[1]);
    DoIsValid(s2, steps[2]);
    assert Run(s3, [], s3);
    assert Run(s2, last, s3);
    assert Run(s1, rest, s3);
    assert Run(s, steps, s3);
    assert CauseOf(s3.arena, 3) == Max(s3.arena[3].flag, CauseOf(s3.arena, 2));
  }

  /** It carries every strike aimed at it in the run, before or after it opened, if
      none foretold was overwritten; and if one was, if and only if a strike or an
      ending after the last overwriting is as strong. */
  lemma AllStrikesLandUnlessOverwritten(s: State, steps: seq<Step>, t: State)
    requires Initial(s) && Valid(s) && Run(s, steps, t) && t.current.Some?
    ensures Valid(t)
    ensures var id, n := t.current.value.id, t.current.value.what;
            Spared(s, steps, t, id) ==> t.arena[n].flag == Max(On(steps, id), Endings(steps))
    ensures var id, n := t.current.value.id, t.current.value.what;
            On(steps, id) <= t.arena[n].flag <==> On(steps, id) <= Max(On(SinceLost(s, steps, t, id), id), Endings(steps))
    ensures var id := t.current.value.id; var since := SinceLost(s, steps, t, id);
            |since| <= |steps| && since == steps[|steps| - |since|..] && (since == steps <==> Spared(s, steps, t, id))
  {
    CurrentCause(s, steps, t);
    SinceLostIsLast(s, steps, t, t.current.value.id);
  }

  /** The steps after the last overwriting are the last of the steps, all of them
      exactly if there was none. */
  lemma {:induction false} SinceLostIsLast(s: State, steps: seq<Step>, t: State, id: nat)
    requires Valid(s) && Run(s, steps, t)
    ensures var since := SinceLost(s, steps, t, id);
            && |since| <= |steps| && since == steps[|steps| - |since|..]
            && (|since| == |steps| <==> Spared(s, steps, t, id))
    decreases |steps|
  {
    if !Spared(s, steps, t, id) {
      DoIsValid(s, steps[0]);
      SinceLostIsLast(Do(s, steps[0]), steps[1..], t, id);
    }
  }

  /** What is foretold of a dispatch, or struck on the current one, is only ever
      lost to a strike for an id neither current nor foretold, which takes the
      one slot, or by another dispatch opening after it. */
  lemma OnlyOverwritingLoses(s: State, step: Step, id: nat)
    requires Kept(s) && Possible(s, step)
    ensures Valid(Do(s, step))
    ensures Held(Do(s, step), id) < Held(s, id) ==> Overwrites(s, step, id) || (Is(s.current, id) && step.SOpen?)
    ensures Overwrites(s, step, id) ==> Held(Do(s, step), id) == 0
  {
    DoIsValid(s, step);
  }

  /** Two strikes ahead of their dispatches: the first is lost, and its dispatch
      opens unstruck. */
  lemma ASecondForetellingLosesTheFirst(c: Cause)
    requires c > 0
    ensures var s := State([Node(0, None), Node(0, Some(ROOT))], None, None, map[]);
            var steps := [SStrike(7, c), SStrike(8, c), SOpen(7, None)];
            Initial(s) && Valid(s) && exists t :: Run(s, steps, t) && |t.arena| == 3 && t.current == Some(Aimed(7, 2)) && t.arena[2].flag == 0 && On(steps, 7) == c
  {
    var s := State([Node(0, None), Node(0, Some(ROOT))], None, None, map[]);
    var steps := [SStrike(7, c), SStrike(8, c), SOpen(7, None)];
    var s1 := Do(s, steps[0]);
    var s2 := Do(s1, steps[1]);
    var s3 := Do(s2, steps[2]);
    var rest, last := steps[1..], steps[2..];
    assert steps[1..][1..] == last && last[1..] == [];
    assert rest[0] == steps[1] && last[0] == steps[2];
    DoIsValid(s, steps[0]);
    DoIsValid(s1, steps[1]);
    DoIsValid(s2, steps[2]);
    assert On(last, 7) == 0 && On(rest, 7) == 0;
    assert Run(s3, [], s3);
    assert Run(s2, last, s3);
    assert Run(s1, rest, s3);
    assert Run(s, steps, s3);
  }

  // ── Ending is final ──────────────────────────────────────────────────────

  /** No cause is ever lowered, and no dispatch is moved. */
  ghost predicate Later(s: State, t: State) {
    && |s.arena| <= |t.arena|
    && (forall n | 0 <= n < |s.arena| :: s.arena[n].flag <= t.arena[n].flag && s.arena[n].parent == t.arena[n].parent)
    && (forall id | id in s.minted :: id in t.minted && t.minted[id] == s.minted[id])
  }

  lemma DoIsLater(s: State, step: Step)
    requires Valid(s) && Possible(s, step)
    ensures Later(s, Do(s, step))
  {
  }

  /** The session ended with `c`: its root carries it, and so do the dispatch that
      was current and every one opened since. */
  ghost predicate Final(s: State, before: map<nat, nat>, c: Cause)
    requires Valid(s)
  {
    && c <= s.arena[ROOT].flag
    && (s.current.Some? ==> c <= s.arena[s.current.value.what].flag)
    && forall id | id in s.minted && id !in before :: c <= s.arena[s.minted[id]].flag
  }

  lemma DoStaysEnded(s: State, step: Step, before: map<nat, nat>, c: Cause)
    requires Valid(s) && Possible(s, step) && Final(s, before, c)
    ensures Valid(Do(s, step)) && Final(Do(s, step), before, c)
  {
    DoIsValid(s, step);
    DoIsLater(s, step);
    var t := Do(s, step);
    if step.SOpen? { assert CauseOf(s.arena, ROOT) == s.arena[ROOT].flag; }
    forall id | id in t.minted && id !in before ensures c <= t.arena[t.minted[id]].flag {
      if id in s.minted { assert t.minted[id] == s.minted[id]; }
    }
  }

  lemma {:induction false} StaysEnded(s: State, steps: seq<Step>, t: State, before: map<nat, nat>, c: Cause)
    requires Valid(s) && Run(s, steps, t) && Final(s, before, c)
    ensures Valid(t) && Final(t, before, c)
    decreases |steps|
  {
    if steps != [] {
      DoStaysEnded(s, steps[0], before, c);
      StaysEnded(Do(s, steps[0]), steps[1..], t, before, c);
    }
  }

  /** After `end(c)`, in every continuation and wherever their nodes hang, the
      dispatch then current and every one opened later carry at least `c`. */
  lemma EndingIsFinal(s: State, c: Cause, steps: seq<Step>, t: State)
    requires Valid(s) && Valid(Ended(s, c)) && Run(Ended(s, c), steps, t)
    ensures Valid(t)
    ensures forall id | id in t.minted && (id !in s.minted || (s.current.Some? && s.current.value.id == id)) ::
              CauseOf(t.arena, t.minted[id]) >= c
  {
    var e := Ended(s, c);
    var before := if s.current.Some? then s.minted - {s.current.value.id} else s.minted;
    assert Final(e, before, c);
    StaysEnded(e, steps, t, before, c);
    forall id | id in t.minted && (id !in s.minted || (s.current.Some? && s.current.value.id == id)) ensures CauseOf(t.arena, t.minted[id]) >= c {
      assert id !in before;
    }
  }

  // ── In place ─────────────────────────────────────────────────────────────

  datatype Control = Strike(id: nat, cause: Cause) | Terminate | Abort

  function Applied(s: State, control: Control): State
    requires Valid(s)
  {
    match control
    case Strike(id, c) => Struck(s, id, c)
    case Terminate => Ended(s, TERMINATED)
    case Abort => Ended(s, ABORTED)
  }

  /** The slot under its lock: every method is one step. */
  class Strikes {
    var arena: Arena
    var current: Option<Aimed<nat>>
    var foretold: Option<Aimed<Cause>>
    ghost var minted: map<nat, nat>

    ghost function View(): State
      reads this
    {
      State(arena, current, foretold, minted)
    }

    constructor ()
      ensures Initial(View()) && Valid(View())
    {
      arena, current, foretold := [Node(0, None), Node(0, Some(ROOT))], None, None;
      minted := map[];
    }

    method CancelNode(n: nat, c: Cause)
      requires n < |arena|
      modifies this`arena
      ensures arena == Cancel(old(arena), n, c)
    {
      if arena[n].flag < c {
        arena := arena[n := arena[n].(flag := c)];
      }
    }

    method Open(id: nat, within: Option<nat>) returns (n: nat)
      requires Valid(View()) && Possible(View(), SOpen(id, within))
      modifies this
      ensures View() == Opened(old(View()), id, within) && n == |old(arena)|
      ensures current == Some(Aimed(id, n)) && arena[n].parent == if within.Some? then within else Some(1)
    {
      n := |arena|;
      arena := arena + [Node(0, Some(if within.Some? then within.value else DISPATCHES))];
      var cause := arena[ROOT].flag;
      if cause > 0 { CancelNode(n, cause); }
      if foretold.Some? && foretold.value.id == id {
        CancelNode(n, foretold.value.what);
        foretold := None;
      }
      current := Some(Aimed(id, n));
      minted := minted[id := n];
    }

    method Apply(control: Control)
      requires Valid(View())
      modifies this
      ensures View() == Applied(old(View()), control)
      ensures control.Terminate? ==> arena[ROOT].flag == Max(old(arena[ROOT].flag), 5)
      ensures control.Abort? ==> arena[ROOT].flag == Max(old(arena[ROOT].flag), 6)
    {
      match control {
        case Strike(id, cause) => Aim(id, cause);
        case Terminate => End(TERMINATED);
        case Abort => End(ABORTED);
      }
    }

    method Aim(id: nat, c: Cause)
      requires Valid(View())
      modifies this
      ensures View() == Struck(old(View()), id, c)
    {
      if current.Some? && current.value.id == id {
        CancelNode(current.value.what, c);
      } else {
        var cause := c;
        if foretold.Some? && foretold.value.id == id { cause := Max(foretold.value.what, c); }
        foretold := Some(Aimed(id, cause));
      }
    }

    method End(c: Cause)
      requires Valid(View())
      modifies this
      ensures View() == Ended(old(View()), c)
    {
      CancelNode(ROOT, c);
      if current.Some? { CancelNode(current.value.what, c); }
    }
  }
}
