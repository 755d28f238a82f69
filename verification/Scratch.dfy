/** Scratch directories under advisory locks, shared by any number of processes.

    A process makes a lock file under a fresh name, takes it, makes the directory
    beside it, sweeps the scratches whose locks it can take, lives, and drops what
    it made.  Every step is one file-system call; between any two, any other
    process may run or die. */
module Scratch {
  import opened Wrappers

  type Name = nat

  /** Where a sweep stands: at an entry, it opens the lock, tries it, releases it,
      deletes the scratch, and deletes the lock. */
  datatype Sweep =
    | Pending
    | Listing(todo: set<Name>)
    | Opened(x: Name, todo: set<Name>)
    | Tried(x: Name, todo: set<Name>)
    | Released(x: Name, todo: set<Name>)
    | Cleared(x: Name, todo: set<Name>)
    | Over

  datatype Phase =
    | Idle
    | Trying(tries: nat)
    | Made(name: Name, tries: nat)
    | Held(name: Name)
    | Live(name: Name, sweep: Sweep)
    | Emptied(name: Name)
    | Freed(name: Name)

  /** `holder` says which process holds each lock taken. */
  datatype State = State(procs: seq<Phase>, next: Name, files: set<Name>, dirs: set<Name>, holder: map<Name, nat>)

  datatype Step =
    | Create(p: nat)
    | Take(p: nat)
    | MakeDir(p: nat)
    | List(p: nat)
    | Open(p: nat, x: Name)
    | Try(p: nat, same: bool)
    | Release(p: nat)
    | RemoveScratch(p: nat)
    | RemoveLock(p: nat)
    | Finish(p: nat)
    | DropDir(p: nat)
    | DropLock(p: nat)
    | DropFile(p: nat)
    | Crash(p: nat)

  const ATTEMPTS := 3

  predicate CanDo(s: State, step: Step) {
    && step.p < |s.procs|
    && var f := s.procs[step.p];
       match step
       case Create(_) => f.Idle? || (f.Trying? && f.tries < ATTEMPTS)
       case Take(_) => f.Made?
       case MakeDir(_) => f.Held?
       case List(_) => f.Live? && f.sweep.Pending?
       case Open(_, x) => f.Live? && f.sweep.Listing? && x in f.sweep.todo
       case Try(_, _) => f.Live? && f.sweep.Opened?
       case Release(_) => f.Live? && f.sweep.Tried?
       case RemoveScratch(_) => f.Live? && f.sweep.Released?
       case RemoveLock(_) => f.Live? && f.sweep.Cleared?
       case Finish(_) => f.Live? && f.sweep.Listing? && f.sweep.todo == {}
       case DropDir(_) => f.Held? || (f.Live? && f.sweep.Over?)
       case DropLock(_) => f.Emptied?
       case DropFile(_) => f.Freed?
       case Crash(_) => true
  }

  /** The locks a process's end releases. */
  function Without(holder: map<Name, nat>, p: nat): map<Name, nat> {
    map x | x in holder && holder[x] != p :: holder[x]
  }

  function Do(s: State, step: Step): State
    requires CanDo(s, step)
  {
    var p, f := step.p, s.procs[step.p];
    match step
    case Create(_) =>
      s.(procs := s.procs[p := Made(s.next, (if f.Trying? then f.tries else 0) + 1)], files := s.files + {s.next}, next := s.next + 1)
    case Take(_) =>
      if f.name !in s.holder then s.(procs := s.procs[p := Held(f.name)], holder := s.holder[f.name := p])
      else s.(procs := s.procs[p := Trying(f.tries)])
    case MakeDir(_) => s.(procs := s.procs[p := Live(f.name, Pending)], dirs := s.dirs + {f.name})
    case List(_) => s.(procs := s.procs[p := Live(f.name, Listing(s.files - {f.name}))])
    case Open(_, x) =>
      s.(procs := s.procs[p := Live(f.name, if x in s.files then Opened(x, f.sweep.todo - {x}) else Listing(f.sweep.todo - {x}))])
    case Try(_, same) =>
      var x := f.sweep.x;
      if x !in s.holder || (same && s.holder[x] == p) then
        s.(procs := s.procs[p := Live(f.name, Tried(x, f.sweep.todo))], holder := s.holder[x := p])
      else s.(procs := s.procs[p := Live(f.name, Listing(f.sweep.todo))])
    case Release(_) => s.(procs := s.procs[p := Live(f.name, Released(f.sweep.x, f.sweep.todo))], holder := s.holder - {f.sweep.x})
    case RemoveScratch(_) => s.(procs := s.procs[p := Live(f.name, Cleared(f.sweep.x, f.sweep.todo))], dirs := s.dirs - {f.sweep.x})
    case RemoveLock(_) => s.(procs := s.procs[p := Live(f.name, Listing(f.sweep.todo))], files := s.files - {f.sweep.x})
    case Finish(_) => s.(procs := s.procs[p := Live(f.name, Over)])
    case DropDir(_) => s.(procs := s.procs[p := Emptied(f.name)], dirs := s.dirs - {f.name})
    case DropLock(_) => s.(procs := s.procs[p := Freed(f.name)], holder := s.holder - {f.name})
    case DropFile(_) => s.(procs := s.procs[p := Idle], files := s.files - {f.name})
    case Crash(_) => s.(procs := s.procs[p := Idle], holder := Without(s.holder, p))
  }

  ghost predicate Run(s: State, steps: seq<Step>, t: State)
    decreases |steps|
  {
    if steps == [] then t == s else CanDo(s, steps[0]) && Run(Do(s, steps[0]), steps[1..], t)
  }

  /** Any leftovers of dead processes, and nobody running. */
  ghost predicate Initial(s: State) {
    && (forall p: nat | p < |s.procs| :: s.procs[p].Idle?)
    && s.holder == map[] && (forall x: Name | x in s.files :: x < s.next) && (forall x: Name | x in s.dirs :: x < s.next)
  }

  // ── Safety ───────────────────────────────────────────────────────────────

  /** A live session holds its lock and has its directory. */
  ghost predicate Safe(s: State) {
    forall p: nat | p < |s.procs| && s.procs[p].Live? :: s.procs[p].name in s.dirs && Holds(s, p, s.procs[p].name)
  }

  predicate Holds(s: State, p: nat, x: Name) {
    x in s.holder && s.holder[x] == p
  }

  /** The name a process made and still has. */
  predicate Owns(f: Phase, x: Name) {
    !f.Idle? && !f.Trying? && f.name == x
  }

  /** It has taken its own lock and not released it. */
  predicate Keeps(f: Phase, x: Name) {
    (f.Held? || f.Live? || f.Emptied?) && f.name == x
  }

  /** Its sweep has found `x` unheld and has yet to delete that scratch. */
  predicate Reaps(f: Phase, x: Name) {
    f.Live? && (f.sweep.Tried? || f.sweep.Released?) && f.sweep.x == x
  }

  ghost predicate Names(s: State) {
    && (forall p: nat, x: Name | p < |s.procs| && Owns(s.procs[p], x) :: x < s.next)
    && (forall p: nat, q: nat, x: Name | p < |s.procs| && q < |s.procs| && Owns(s.procs[p], x) && Owns(s.procs[q], x) :: p == q)
    && (forall x: Name | x in s.files :: x < s.next) && (forall x: Name | x in s.holder :: x < s.next)
  }

  /** The entries a sweep has yet to finish: older names, and never its own. */
  ghost predicate Entries(s: State) {
    && (forall p: nat, x: Name | p < |s.procs| && Todo(s.procs[p], x) :: x < s.next && x != s.procs[p].name)
    && (forall p: nat, x: Name | p < |s.procs| && Reaps(s.procs[p], x) :: x < s.next && x != s.procs[p].name)
  }

  predicate Todo(f: Phase, x: Name) {
    f.Live? && !f.sweep.Pending? && !f.sweep.Over? && (x in f.sweep.todo || (f.sweep.Opened? && f.sweep.x == x))
  }

  ghost predicate Locks(s: State) {
    Kept(s) && Known(s) && Tested(s)
  }

  ghost predicate Kept(s: State) {
    forall p: nat, x: Name | p < |s.procs| && Keeps(s.procs[p], x) :: Holds(s, p, x)
  }

  /** Only its maker or a sweep testing it holds a lock. */
  ghost predicate Known(s: State) {
    forall x: Name | x in s.holder :: s.holder[x] < |s.procs| && (Keeps(s.procs[s.holder[x]], x) || Tests(s.procs[s.holder[x]], x))
  }

  ghost predicate Tested(s: State) {
    forall p: nat, x: Name | p < |s.procs| && Tests(s.procs[p], x) :: Holds(s, p, x)
  }

  predicate Tests(f: Phase, x: Name) {
    f.Live? && f.sweep.Tried? && f.sweep.x == x
  }

  /** What a sweep deletes belongs to nobody living. */
  ghost predicate Apart(s: State) {
    forall p: nat, q: nat, x: Name | p < |s.procs| && q < |s.procs| && Reaps(s.procs[p], x) :: !Keeps(s.procs[q], x)
  }

  ghost predicate Dirs(s: State) {
    forall p: nat | p < |s.procs| && s.procs[p].Live? :: s.procs[p].name in s.dirs
  }

  ghost predicate Inv(s: State) {
    Names(s) && Entries(s) && Locks(s) && Apart(s) && Dirs(s)
  }

  /** No sweep is between finding the lock unheld and deleting the scratch. */
  ghost predicate Untouched(s: State, x: Name) {
    forall q: nat | q < |s.procs| :: !Reaps(s.procs[q], x)
  }

  /** A lock that can be taken is taken only while no sweep is reaping it. */
  ghost predicate Guarded(s: State, step: Step)
    requires CanDo(s, step)
  {
    step.Take? && s.procs[step.p].name !in s.holder ==> Untouched(s, s.procs[step.p].name)
  }

  lemma InvIsSafe(s: State)
    requires Inv(s)
    ensures Safe(s)
  {
    forall p: nat | p < |s.procs| && s.procs[p].Live? ensures Holds(s, p, s.procs[p].name) {
      assert Keeps(s.procs[p], s.procs[p].name);
    }
  }

  /** Nobody else moves, and what the process itself stands to. */
  lemma Standing(s: State, step: Step)
    requires CanDo(s, step)
    ensures var t, f := Do(s, step), s.procs[step.p];
            && |t.procs| == |s.procs|
            && (forall q: nat | q < |s.procs| && q != step.p :: t.procs[q] == s.procs[q])
            && (!f.Idle? && !f.Trying? ==> Owns(f, f.name))
            && (f.Held? || f.Live? || f.Emptied? ==> Keeps(f, f.name))
            && (f.Live? && f.sweep.Opened? ==> Todo(f, f.sweep.x))
            && (f.Live? && (f.sweep.Tried? || f.sweep.Released?) ==> Reaps(f, f.sweep.x))
            && (f.Live? && f.sweep.Tried? ==> Tests(f, f.sweep.x))
  {
  }

  lemma NamesKept(s: State, step: Step)
    requires Inv(s) && CanDo(s, step)
    ensures Names(Do(s, step))
  {
    Standing(s, step);
  }

  /** What the process that moves then has to do it had before, or has just listed. */
  lemma TodoKept(s: State, step: Step, x: Name)
    requires Inv(s) && CanDo(s, step)
    ensures var f, g := s.procs[step.p], Do(s, step).procs[step.p];
            && (Todo(g, x) || Reaps(g, x) ==> x < s.next && x != g.name)
            && s.next <= Do(s, step).next
  {
    hide Locks, Apart, Dirs;
    Standing(s, step);
    var f := s.procs[step.p];
    if step.Open? { assert Todo(f, step.x); }
    assert f.Live? && Todo(f, x) ==> x < s.next && x != f.name;
    assert f.Live? && Reaps(f, x) ==> x < s.next && x != f.name;
  }

  lemma EntriesKept(s: State, step: Step)
    requires Inv(s) && CanDo(s, step)
    ensures Entries(Do(s, step))
  {
    hide Locks, Apart, Dirs, Names, Do;
    Standing(s, step);
    var t := Do(s, step);
    forall p: nat, x: Name | p < |t.procs| && (Todo(t.procs[p], x) || Reaps(t.procs[p], x)) ensures x < t.next && x != t.procs[p].name {
      TodoKept(s, step, x);
      if p != step.p { assert t.procs[p] == s.procs[p]; }
    }
  }

  lemma LocksHeld(s: State, step: Step)
    requires Inv(s) && CanDo(s, step)
    ensures Kept(Do(s, step))
  {
    Standing(s, step);
  }

  lemma LocksKnown(s: State, step: Step)
    requires Inv(s) && CanDo(s, step)
    ensures Known(Do(s, step))
  {
    Standing(s, step);
  }

  lemma LocksTested(s: State, step: Step)
    requires Inv(s) && CanDo(s, step)
    ensures Tested(Do(s, step))
  {
    Standing(s, step);
  }

  lemma ApartKept(s: State, step: Step)
    requires Inv(s) && CanDo(s, step) && Guarded(s, step)
    ensures Apart(Do(s, step))
  {
    Standing(s, step);
  }

  lemma DirsKept(s: State, step: Step)
    requires Inv(s) && CanDo(s, step)
    ensures Dirs(Do(s, step))
  {
    Standing(s, step);
  }

  lemma StepKeeps(s: State, step: Step)
    requires Inv(s) && CanDo(s, step) && Guarded(s, step)
    ensures Inv(Do(s, step))
  {
    NamesKept(s, step);
    EntriesKept(s, step);
    LocksHeld(s, step);
    LocksKnown(s, step);
    LocksTested(s, step);
    ApartKept(s, step);
    DirsKept(s, step);
  }

  ghost predicate GuardedRun(s: State, steps: seq<Step>, t: State)
    decreases |steps|
  {
    if steps == [] then t == s
    else CanDo(s, steps[0]) && Guarded(s, steps[0]) && GuardedRun(Do(s, steps[0]), steps[1..], t)
  }

  lemma {:induction false} RunsKeep(s: State, steps: seq<Step>, t: State)
    requires Inv(s) && GuardedRun(s, steps, t)
    ensures Inv(t) && Safe(t)
    decreases |steps|
  {
    if steps == [] {
      InvIsSafe(s);
    } else {
      StepKeeps(s, steps[0]);
      RunsKeep(Do(s, steps[0]), steps[1..], t);
    }
  }

  lemma InitialHolds(s: State)
    requires Initial(s)
    ensures Inv(s)
  {
  }

  /** In every interleaving of any number of sessions starting, sweeping, ending
      and dying, no sweep removes the directory of a session that holds its lock,
      provided no lock is taken while a sweep is reaping it. */
  lemma SweepsSpareTheLiving(s: State, steps: seq<Step>, t: State)
    requires Initial(s) && GuardedRun(s, steps, t)
    ensures Safe(t)
  {
    InitialHolds(s);
    RunsKeep(s, steps, t);
  }

  /** Making and taking as one step is enough: no sweep has met a name just made. */
  lemma MadeAndTakenAtOnce(s: State, p: nat)
    requires Inv(s) && CanDo(s, Create(p))
    ensures var t := Do(s, Create(p)); CanDo(t, Take(p)) && Guarded(t, Take(p)) && Do(t, Take(p)).procs[p] == Held(s.next)
  {
    var t := Do(s, Create(p));
    forall q: nat | q < |t.procs| ensures !Reaps(t.procs[q], s.next) {
      if q != p { assert t.procs[q] == s.procs[q]; }
    }
  }

  /** And the condition is needed: once a lock is taken that a sweep found unheld
      and has released, its session's directory is that sweep's next deletion. */
  lemma TakenWhileReapedIsDoomed(s: State, p: nat, q: nat)
    requires Inv(s) && CanDo(s, Take(p)) && q < |s.procs|
    requires Reaps(s.procs[q], s.procs[p].name) && s.procs[p].name !in s.holder
    ensures exists t :: GuardedRun(Do(s, Take(p)), [MakeDir(p)] + ([RemoveScratch(q)] + []), t) && !Safe(t)
  {
    assert Tests(s.procs[q], s.procs[p].name) <==> s.procs[q].sweep.Tried?;
    var t1 := Do(s, Take(p));
    var t2 := Do(t1, MakeDir(p));
    var t3 := Do(t2, RemoveScratch(q));
    assert t2.procs[q] == s.procs[q];
    ThenGuarded(t2, RemoveScratch(q), [], t3);
    ThenGuarded(t1, MakeDir(p), [RemoveScratch(q)] + [], t3);
    assert t3.procs[p].Live? && t3.procs[p].name !in t3.dirs;
  }

  lemma ThenGuarded(s: State, step: Step, rest: seq<Step>, t: State)
    requires CanDo(s, step) && Guarded(s, step) && GuardedRun(Do(s, step), rest, t)
    ensures GuardedRun(s, [step] + rest, t)
  {
    assert ([step] + rest)[1..] == rest;
  }

  ghost predicate AlwaysSafe(s: State) {
    forall steps, t :: GuardedRun(s, steps, t) ==> Safe(t)
  }

  /** Taking a lock leaves every later interleaving safe, its other takings
      guarded, if and only if no sweep stands between finding it unheld and
      deleting the scratch beside it. */
  lemma TakingIsSafeIffUntouched(s: State, p: nat)
    requires Inv(s) && CanDo(s, Take(p))
    ensures AlwaysSafe(Do(s, Take(p))) <==> Guarded(s, Take(p))
  {
    if Guarded(s, Take(p)) {
      StepKeeps(s, Take(p));
      forall steps, t | GuardedRun(Do(s, Take(p)), steps, t) ensures Safe(t) {
        RunsKeep(Do(s, Take(p)), steps, t);
      }
    } else {
      var q: nat :| q < |s.procs| && Reaps(s.procs[q], s.procs[p].name);
      TakenWhileReapedIsDoomed(s, p, q);
    }
  }

  /** A session that dies leaves its directory and its lock file, and holds nothing:
      the next undisturbed sweep to come to them deletes both. */
  lemma TheDeadAreReaped(s: State, p: nat, q: nat, todo: set<Name>)
    requires Inv(s) && p < |s.procs| && q < |s.procs| && q != p && s.procs[p].Live? && s.procs[q].Live?
    requires s.procs[q].sweep == Listing(todo) && s.procs[p].name in todo && s.procs[p].name in s.files
    ensures var t, x := Do(s, Crash(p)), s.procs[p].name;
            && x in t.dirs && x in t.files && (forall y | y in t.holder :: t.holder[y] != p)
            && CanDo(t, Open(q, x)) && x !in Reaped(t, q, x).dirs && x !in Reaped(t, q, x).files
            && Reaped(t, q, x).procs[q] == Live(s.procs[q].name, Listing(todo - {x}))
  {
    assert Keeps(s.procs[p], s.procs[p].name);
  }

  /** Two processes: the first has swept past the lock the second has just made. */
  const SWEPT := State([Live(0, Released(1, {})), Made(1, 1)], 2, {0, 1}, {0}, map[0 := 0])

  const LISTED := State([Live(0, Listing({1})), Made(1, 1)], 2, {0, 1}, {0}, map[0 := 0])

  const BARE := State([Idle, Idle], 0, {}, {}, map[])

  lemma BareToListed()
    ensures Run(BARE, [Create(0)] + ([Take(0)] + ([MakeDir(0)] + ([Create(1)] + ([List(0)] + [])))), LISTED)
  {
    var s1 := Do(BARE, Create(0));
    var s2 := Do(s1, Take(0));
    var s3 := Do(s2, MakeDir(0));
    var s4 := Do(s3, Create(1));
    assert s4.files == {0, 1} && s4.files - {0} == {1} && s4.holder == map[0 := 0];
    assert Do(s4, List(0)) == LISTED;
    Then(s4, List(0), [], LISTED);
    Then(s3, Create(1), [List(0)] + [], LISTED);
    Then(s2, MakeDir(0), [Create(1)] + ([List(0)] + []), LISTED);
    Then(s1, Take(0), [MakeDir(0)] + ([Create(1)] + ([List(0)] + [])), LISTED);
    Then(BARE, Create(0), [Take(0)] + ([MakeDir(0)] + ([Create(1)] + ([List(0)] + []))), LISTED);
  }

  lemma ListedToSwept()
    ensures Run(LISTED, [Open(0, 1)] + ([Try(0, false)] + ([Release(0)] + [])), SWEPT)
  {
    var s1 := Do(LISTED, Open(0, 1));
    assert {1} - {1} == {};
    var s2 := Do(s1, Try(0, false));
    assert s2.holder - {1} == map[0 := 0];
    assert Do(s2, Release(0)) == SWEPT;
    Then(s2, Release(0), [], SWEPT);
    Then(s1, Try(0, false), [Release(0)] + [], SWEPT);
    Then(LISTED, Open(0, 1), [Try(0, false)] + ([Release(0)] + []), SWEPT);
  }

  lemma {:induction false} RunAppend(s: State, a: seq<Step>, m: State, b: seq<Step>, t: State)
    requires Run(s, a, m) && Run(m, b, t)
    ensures Run(s, a + b, t)
    decreases |a|
  {
    if a == [] {
      assert a + b == b;
    } else {
      RunAppend(Do(s, a[0]), a[1..], m, b, t);
      assert (a + b)[1..] == a[1..] + b;
    }
  }

  /** From nothing: the second process makes its lock, the first sweeps past it, the
      second takes it, and the first deletes the directory of a session that holds
      its lock. */
  lemma ASweepCanDeleteALiveScratch()
    ensures Initial(BARE) && exists steps, t :: Run(BARE, steps, t) && !Safe(t)
  {
    var a := BareToSwept();
    var b, t := SweptToUnsafe();
    RunAppend(BARE, a, SWEPT, b, t);
  }

  lemma BareToSwept() returns (steps: seq<Step>)
    ensures Run(BARE, steps, SWEPT)
  {
    BareToListed();
    ListedToSwept();
    var a := [Create(0)] + ([Take(0)] + ([MakeDir(0)] + ([Create(1)] + ([List(0)] + []))));
    var b := [Open(0, 1)] + ([Try(0, false)] + ([Release(0)] + []));
    RunAppend(BARE, a, LISTED, b, SWEPT);
    steps := a + b;
  }

  lemma SweptToUnsafe() returns (steps: seq<Step>, t: State)
    ensures Run(SWEPT, steps, t) && !Safe(t)
  {
    SweptHolds();
    TakenWhileReapedIsDoomed(SWEPT, 1, 0);
    var c := [MakeDir(1)] + ([RemoveScratch(0)] + []);
    t :| GuardedRun(Do(SWEPT, Take(1)), c, t) && !Safe(t);
    GuardedRuns(Do(SWEPT, Take(1)), c, t);
    Then(SWEPT, Take(1), c, t);
    steps := [Take(1)] + c;
  }

  lemma {:induction false} GuardedRuns(s: State, steps: seq<Step>, t: State)
    requires GuardedRun(s, steps, t)
    ensures Run(s, steps, t)
    decreases |steps|
  {
    if steps != [] { GuardedRuns(Do(s, steps[0]), steps[1..], t); }
  }

  lemma SweptHolds()
    ensures Inv(SWEPT)
  {
  }

  lemma Then(s: State, step: Step, rest: seq<Step>, t: State)
    requires CanDo(s, step) && Run(Do(s, step), rest, t)
    ensures Run(s, [step] + rest, t)
  {
    assert ([step] + rest)[1..] == rest;
  }

  // ── One process's calls, in place ────────────────────────────────────────

  /** Steps of other processes, each possible where it is taken. */
  ghost predicate Playable(s: State, steps: seq<Step>, p: nat)
    decreases |steps|
  {
    steps != [] ==> CanDo(s, steps[0]) && steps[0].p != p && Playable(Do(s, steps[0]), steps[1..], p)
  }

  function Play(s: State, steps: seq<Step>, ghost p: nat): State
    requires Playable(s, steps, p)
    decreases |steps|
  {
    if steps == [] then s else Play(Do(s, steps[0]), steps[1..], p)
  }

  lemma {:induction false} PlayRuns(s: State, steps: seq<Step>, p: nat)
    requires Playable(s, steps, p) && p < |s.procs|
    ensures Run(s, steps, Play(s, steps, p))
    ensures |Play(s, steps, p).procs| == |s.procs| && Play(s, steps, p).procs[p] == s.procs[p]
    decreases |steps|
  {
    if steps != [] {
      Standing(s, steps[0]);
      PlayRuns(Do(s, steps[0]), steps[1..], p);
    }
  }

  lemma Alone(s: State, step: Step)
    requires CanDo(s, step)
    ensures Run(s, [step], Do(s, step))
  {
    assert [step][1..] == [];
  }

  /** One attempt at a fresh lock: made, whatever others do next, taken or not. */
  lemma AttemptRuns(s: State, p: nat, steps: seq<Step>)
    requires CanDo(s, Create(p)) && Playable(Do(s, Create(p)), steps, p)
    ensures var t := Play(Do(s, Create(p)), steps, p);
            |t.procs| == |s.procs| && CanDo(t, Take(p)) && t.procs[p] == Do(s, Create(p)).procs[p] &&
            Run(s, [Create(p)] + steps + [Take(p)], Do(t, Take(p)))
  {
    var s1 := Do(s, Create(p));
    PlayRuns(s1, steps, p);
    var t := Play(s1, steps, p);
    Alone(s, Create(p));
    Alone(t, Take(p));
    RunAppend(s, [Create(p)], s1, steps, t);
    RunAppend(s, [Create(p)] + steps, t, [Take(p)], Do(t, Take(p)));
  }

  /** One entry of an undisturbed sweep: left if its lock is held, else deleted. */
  function Reaped(s: State, p: nat, x: Name): State
    requires CanDo(s, Open(p, x))
  {
    var f := s.procs[p];
    var procs := s.procs[p := Live(f.name, Listing(f.sweep.todo - {x}))];
    if x in s.files && x !in s.holder then s.(procs := procs, files := s.files - {x}, dirs := s.dirs - {x}) else s.(procs := procs)
  }

  lemma {:induction false} ReapRuns(s: State, p: nat, x: Name) returns (steps: seq<Step>)
    requires CanDo(s, Open(p, x))
    ensures Run(s, steps, Reaped(s, p, x))
  {
    var a := Do(s, Open(p, x));
    Alone(s, Open(p, x));
    steps := [Open(p, x)];
    if x in s.files {
      var b := Do(a, Try(p, false));
      Alone(a, Try(p, false));
      RunAppend(s, steps, a, [Try(p, false)], b);
      steps := steps + [Try(p, false)];
      if x !in s.holder {
        var rest := DeleteRuns(b, p);
        var f := s.procs[p];
        assert b.holder - {x} == s.holder && b.procs[p := Live(f.name, Listing(f.sweep.todo - {x}))] == Reaped(s, p, x).procs;
        RunAppend(s, steps, b, rest, Reaped(s, p, x));
        steps := steps + rest;
      }
    }
  }

  lemma DeleteRuns(s: State, p: nat) returns (steps: seq<Step>)
    requires CanDo(s, Release(p))
    ensures var f := s.procs[p]; var x := f.sweep.x;
            Run(s, steps, s.(procs := s.procs[p := Live(f.name, Listing(f.sweep.todo))], holder := s.holder - {x}, dirs := s.dirs - {x}, files := s.files - {x}))
  {
    var a := Do(s, Release(p));
    var b := Do(a, RemoveScratch(p));
    var c := Do(b, RemoveLock(p));
    Alone(s, Release(p));
    Alone(a, RemoveScratch(p));
    Alone(b, RemoveLock(p));
    RunAppend(s, [Release(p)], a, [RemoveScratch(p)], b);
    steps := [Release(p)] + [RemoveScratch(p)];
    RunAppend(s, steps, b, [RemoveLock(p)], c);
    assert c.procs == s.procs[p := Live(s.procs[p].name, Listing(s.procs[p].sweep.todo))];
    steps := steps + [RemoveLock(p)];
  }

  /** The directory the scratches share, and the processes that share it. */
  class Root {
    var procs: seq<Phase>
    var next: Name
    var files: set<Name>
    var dirs: set<Name>
    var holder: map<Name, nat>

    function View(): State
      reads this
    {
      State(procs, next, files, dirs, holder)
    }

    constructor (n: nat)
      ensures Initial(View()) && |procs| == n
    {
      procs, next, files, dirs, holder := seq(n, _ => Idle), 0, {}, {}, map[];
    }

    /** Others run between two calls of this process. */
    method Yield(p: nat, steps: seq<Step>)
      requires Playable(View(), steps, p)
      modifies this
      ensures View() == Play(old(View()), steps, p)
    {
      var t := Play(View(), steps, p);
      procs, next, files, dirs, holder := t.procs, t.next, t.files, t.dirs, t.holder;
    }

    /** Make a name, let others run, and take it unless one of them holds it. */
    method Attempt(p: nat, others: State -> seq<Step>) returns (name: Option<Name>, ghost trace: seq<Step>)
      requires CanDo(View(), Create(p))
      requires forall s :: Playable(s, others(s), p)
      modifies this
      ensures Run(old(View()), trace, View()) && |procs| == |old(procs)|
      ensures name.Some? ==> procs[p] == Held(name.value) && Holds(View(), p, name.value)
      ensures name.None? ==> old(next) in holder && procs[p] == Trying((if old(procs)[p].Trying? then old(procs)[p].tries else 0) + 1)
    {
      ghost var s := View();
      var made, tries := next, (if procs[p].Trying? then procs[p].tries else 0) + 1;
      next, files, procs := next + 1, files + {made}, procs[p := Made(made, tries)];
      var steps := others(View());
      AttemptRuns(s, p, steps);
      Yield(p, steps);
      trace := [Create(p)] + steps + [Take(p)];
      if made !in holder {
        holder := holder[made := p];
        procs := procs[p := Held(made)];
        name := Some(made);
      } else {
        procs := procs[p := Trying(tries)];
        name := None;
      }
    }

    /** A fresh name made and held, in at most three attempts, whatever others do
        between a making and its taking: it is a run of the protocol, and refused
        only where another held each of the three when it came to take it. */
    method FreshLock(p: nat, others: nat -> State -> seq<Step>) returns (name: Option<Name>, ghost trace: seq<Step>)
      requires p < |procs| && procs[p].Idle?
      requires forall i, s :: Playable(s, others(i)(s), p)
      modifies this
      ensures Run(old(View()), trace, View())
      ensures name.Some? ==> p < |procs| && procs[p] == Held(name.value) && Holds(View(), p, name.value)
      ensures name.None? ==> p < |procs| && procs[p] == Trying(3)
    {
      trace, name := [], None;
      var i := 0;
      while i < ATTEMPTS
        invariant 0 <= i <= ATTEMPTS && p < |procs| && name.None?
        invariant procs[p] == if i == 0 then Idle else Trying(i)
        invariant Run(old(View()), trace, View())
      {
        ghost var s, attempt := View(), [];
        name, attempt := Attempt(p, others(i));
        RunAppend(old(View()), trace, s, attempt, View());
        trace := trace + attempt;
        if name.Some? { return; }
        i := i + 1;
      }
    }

    /** An undisturbed sweep is a run of the protocol, and deletes exactly the
        scratches whose locks nobody holds, its own aside, and their locks. */
    method ReapUnheld(p: nat, entries: seq<Name>) returns (ghost trace: seq<Step>)
      requires p < |procs| && procs[p].Live? && procs[p].sweep.Pending?
      requires (forall x :: x in entries <==> x in files) && forall i, j | 0 <= i < j < |entries| :: entries[i] != entries[j]
      modifies this`procs, this`files, this`dirs
      ensures Run(old(View()), trace, View())
      ensures procs == old(procs)[p := Live(old(procs)[p].name, Over)]
      ensures forall x :: x in dirs <==> x in old(dirs) && !(x in old(files) && x != old(procs)[p].name && x !in holder)
      ensures forall x :: x in files <==> x in old(files) && !(x != old(procs)[p].name && x !in holder)
    {
      var mine := procs[p].name;
      Alone(View(), List(p));
      trace := [List(p)];
      ghost var todo := files - {mine};
      procs := procs[p := Live(mine, Listing(files - {mine}))];
      for i := 0 to |entries|
        invariant Run(old(View()), trace, View())
        invariant procs == old(procs)[p := Live(mine, Listing(todo))]
        invariant forall x :: x in todo <==> x in entries[i..] && x != mine
        invariant forall x :: x in dirs <==> x in old(dirs) && !(x in entries[..i] && x != mine && x !in holder)
        invariant forall x :: x in files <==> x in old(files) && !(x in entries[..i] && x != mine && x !in holder)
      {
        var x := entries[i];
        assert entries[..i + 1] == entries[..i] + [x] && entries[i..] == [x] + entries[i + 1..];
        if x == mine { continue; }
        ghost var s := View();
        ghost var steps := ReapRuns(s, p, x);
        if x in files && x !in holder { dirs, files := dirs - {x}, files - {x}; }
        procs := procs[p := Live(mine, Listing(procs[p].sweep.todo - {x}))];
        todo := todo - {x};
        assert View() == Reaped(s, p, x);
        RunAppend(old(View()), trace, s, steps, View());
        trace := trace + steps;
      }
      assert entries[..|entries|] == entries && entries[|entries|..] == [];
      ghost var s := View();
      Alone(s, Finish(p));
      procs := procs[p := Live(mine, Over)];
      RunAppend(old(View()), trace, s, [Finish(p)], View());
      trace := trace + [Finish(p)];
    }

    /** The directory, then the lock, then the lock's file. */
    method End(p: nat)
      requires CanDo(View(), DropDir(p))
      modifies this`procs, this`files, this`dirs, this`holder
      ensures View() == Do(Do(Do(old(View()), DropDir(p)), DropLock(p)), DropFile(p))
      ensures procs[p].Idle? && old(procs)[p].name !in files && old(procs)[p].name !in dirs && old(procs)[p].name !in holder
      ensures forall x | x != old(procs)[p].name ::
                (x in files <==> x in old(files)) && (x in dirs <==> x in old(dirs)) && (x in holder <==> x in old(holder))
    {
      var name := procs[p].name;
      dirs := dirs - {name};
      holder := holder - {name};
      files := files - {name};
      procs := procs[p := Idle];
    }
  }
}
