/** Booked wakeups and the timers made from them, as steps on one agent's state.

    A booking is journalled; a timer is not.  A timer's deadline rings the label
    and id it was armed with, and rings may be stale, early, repeated or overlap
    a wakeup still queued. */
module Booking {
  import opened Wrappers
  import opened Occurrence
  import opened Calendar
  import Cron

  // ── Clocks ───────────────────────────────────────────────────────────────

  /** What a clock reads, in UTC. */
  type Instant = t: Cron.DateTime | Cron.ValidDateTime(t) && t.date.year <= MAX_YEAR
    witness Cron.DateTime(Date(1970, 1, 1), 0, 0, 0, 0)

  const EPOCH_MS := 60_000 * Cron.Minutes(Cron.Civil(Date(1970, 1, 1), 0, 0))

  /** The last nanosecond a timestamp holds. */
  const LAST_NANO := 60_000_000_000 * Cron.Minutes(Cron.LAST) + 999_999_999

  /** Milliseconds since 1970, which nothing precedes. */
  function SinceEpoch(ms: int): nat {
    if ms < EPOCH_MS then 0 else ms - EPOCH_MS
  }

  function Ms(t: Instant): nat {
    SinceEpoch(Cron.Nanos(t) / 1_000_000)
  }

  function BoundaryMs(c: Cron.Civil): nat
    requires Cron.ValidCivil(c)
  {
    SinceEpoch(60_000 * Cron.Minutes(c))
  }

  // ── Triggers ─────────────────────────────────────────────────────────────

  /** What makes a wakeup fire; `delay` is in nanoseconds. */
  datatype Trigger =
    | Recurring(shown: string, schedule: Cron.Schedule)
    | After(shown: string, delay: nat)
    | At(shown: string, instant: Instant)

  /** The boundary the search for a next occurrence answers. */
  ghost function NextBoundary(s: Cron.Schedule, now: Instant): Option<Cron.Civil> {
    if exists c :: Cron.Least(s, now, c) then
      var c :| Cron.Least(s, now, c);
      Some(c)
    else None
  }

  lemma BoundaryIsNext(s: Cron.Schedule, now: Instant, r: Option<Cron.Civil>)
    requires r.Some? ==> Cron.Least(s, now, r.value)
    requires r.None? ==> Cron.NoBoundary(s, now)
    ensures r == NextBoundary(s, now)
  {
    var b := NextBoundary(s, now);
    if b.Some? && r.Some? { Cron.MinutesOrder(b.value, r.value); }
  }

  ghost function NextAfter(t: Trigger, now: Instant): Option<nat> {
    match t
    case Recurring(_, schedule) =>
      (match NextBoundary(schedule, now) case Some(c) => Some(BoundaryMs(c)) case None => None)
    case After(_, d) => if Cron.Nanos(now) + d <= LAST_NANO then Some(SinceEpoch((Cron.Nanos(now) + d) / 1_000_000)) else None
    case At(_, i) => Some(Ms(i))
  }

  /** A recurrence is at least a second after the clock it is asked from; only
      before 1970 do both read nothing. */
  lemma RecurrencesAdvance(t: Trigger, now: Instant)
    requires t.Recurring? && NextAfter(t, now).Some?
    ensures NextAfter(t, now).value >= Ms(now) + 1000 || NextAfter(t, now).value == Ms(now) == 0
  {
    var c := NextBoundary(t.schedule, now).value;
    Cron.NearBoundary(now, c);
    assert 60_000 * Cron.Minutes(c) >= Cron.Nanos(now) / 1_000_000 + 1000;
    assert EPOCH_MS == 60_000 * Cron.Minutes(Cron.Civil(Date(1970, 1, 1), 0, 0));
  }

  /** A delay ends as many nanoseconds on, as though that instant had been asked for,
      and never where that is past the last instant a timestamp holds. */
  lemma DelaysEndAtTheirInstant(shown: string, d: nat, now: Instant, end: Instant)
    requires Cron.Nanos(end) == Cron.Nanos(now) + d
    ensures var last := Cron.DateTime(Date(9999, 12, 30), 22, 0, 0, 999_999_999);
            NextAfter(After(shown, d), now) == if Cron.Nanos(end) <= Cron.Nanos(last) then NextAfter(At(shown, end), now) else None
  {
  }

  /** Milliseconds are counted from the start of 1970, and nothing precedes it. */
  lemma ClocksCountFrom1970(t: Instant)
    ensures t.date == Date(1970, 1, 1) ==> Ms(t) == 3_600_000 * t.hour + 60_000 * t.minute + 1000 * t.second + t.nano / 1_000_000
    ensures t.date.year < 1970 ==> Ms(t) == 0
  {
    var epoch := Cron.Civil(Date(1970, 1, 1), 0, 0);
    var c := Cron.Civil(t.date, t.hour, t.minute);
    if t.date.year < 1970 {
      assert Earlier(t.date, epoch.date);
      OrdinalsOrder(t.date, epoch.date);
      Cron.MinutesOrder(c, epoch);
      assert Cron.Minutes(c) + 1 <= Cron.Minutes(epoch);
    }
    var seconds := 60 * Cron.Minutes(c) + t.second;
    assert Cron.Nanos(t) == 1_000_000 * (1000 * seconds) + t.nano;
    DivUnique(Cron.Nanos(t), 1_000_000, 1000 * seconds + t.nano / 1_000_000, t.nano % 1_000_000);
  }

  datatype Wake = Wake(prompt: string, trigger: string, next: nat, fires: nat)

  /** `armed`: its deadline is pending. */
  datatype Timer = Timer(id: nat, trigger: Trigger, armed: bool)

  datatype Item = Wakeup(id: nat, text: string) | Notice | Human

  datatype Ring = Ring(name: string, id: nat)

  /** A wakeup posted: the id rung, the id its booking was made under, the clock
      then, the instant it was due, and the instant it was re-armed for. */
  datatype Post = Post(name: string, id: nat, booked: nat, at: nat, due: nat, next: Option<nat>, oneShot: bool)

  datatype Birth = Birth(name: string, trigger: Trigger)

  /** The last four fields are history: the id each live booking was made under,
      what every id was given to, every wakeup posted, and whether a fire's
      journal write ever failed. */
  datatype State = State(
    nextId: nat,
    timers: map<string, Timer>,
    bookings: map<string, Wake>,
    queue: seq<Item>,
    rung: seq<Ring>,
    live: bool,
    owner: map<string, nat>,
    born: map<nat, Birth>,
    log: seq<Post>,
    broken: bool)

  // ── Steps ────────────────────────────────────────────────────────────────

  predicate Queued(queue: seq<Item>, id: nat) {
    exists i :: 0 <= i < |queue| && queue[i].Wakeup? && queue[i].id == id
  }

  /** Book a wakeup: refused where it never fires, where the label is borne, or
      where the journal refuses. */
  ghost function Book(s: State, name: string, prompt: string, t: Trigger, now: Instant, ok: bool): State {
    if NextAfter(t, now).None? || name in s.bookings || !ok then s
    else
      s.(nextId := s.nextId + 1,
         timers := s.timers[name := Timer(s.nextId, t, true)],
         bookings := s.bookings[name := Wake(prompt, t.shown, NextAfter(t, now).value, 0)],
         owner := s.owner[name := s.nextId],
         born := s.born[s.nextId := Birth(name, t)])
  }

  function Unbook(s: State, name: string, ok: bool): State {
    if name !in s.bookings then s.(timers := s.timers - {name})
    else if !ok then s
    else s.(timers := s.timers - {name}, bookings := s.bookings - {name})
  }

  function Kept(queue: seq<Item>): seq<Item> {
    if queue == [] then [] else (if queue[0].Human? then [queue[0]] else []) + Kept(queue[1..])
  }

  /** The conversation is cleared: wakeups queued and bookings both go. */
  function Retire(s: State, ok: bool): State {
    if !ok then s else s.(queue := Kept(s.queue), bookings := map[])
  }

  function Clear(s: State): State {
    s.(timers := map[])
  }

  /** A ring for a label waits until the owner fires; of two, the later id stays. */
  function Insert(rung: seq<Ring>, r: Ring): seq<Ring> {
    if rung == [] then [r]
    else if rung[0].name == r.name then [Ring(r.name, if rung[0].id < r.id then r.id else rung[0].id)] + rung[1..]
    else if Before(r.name, rung[0].name) then [r] + rung
    else [rung[0]] + Insert(rung[1..], r)
  }

  /** A deadline armed for `name` under `id` elapses; its timer may be gone. */
  function Elapse(s: State, name: string, id: nat): State {
    var s1 := if name in s.timers && s.timers[name].id == id then s.(timers := s.timers[name := s.timers[name].(armed := false)]) else s;
    if s.live then s1.(rung := Insert(s.rung, Ring(name, id))) else s1
  }

  function Take(s: State, i: nat): State {
    if i < |s.queue| then s.(queue := s.queue[..i] + s.queue[i + 1..]) else s
  }

  function Text(name: string, w: Wake): string {
    "[scheduled '" + name + "' · " + w.trigger + "] " + w.prompt
  }

  /** One ring answered; `false` where the journal refused and the fire stops. */
  ghost function FireOne(s: State, r: Ring, now: Instant, ok: bool): (State, bool) {
    if r.name !in s.timers || s.timers[r.name].id != r.id then (s, true)
    else if r.name !in s.bookings then (s.(timers := s.timers - {r.name}), true)
    else if Ms(now) < s.bookings[r.name].next then (s.(timers := s.timers[r.name := s.timers[r.name].(armed := true)]), true)
    else if !ok then (s.(broken := true), false)
    else (Fired(s, r, now), true)
  }

  ghost function Fired(s: State, r: Ring, now: Instant): State
    requires r.name in s.timers && r.name in s.bookings
  {
    var t := s.timers[r.name].trigger;
    Answered(s, r, Ms(now), if t.Recurring? then NextAfter(t, now) else None)
  }

  /** A wakeup posted unless one is queued under the id, and the booking moved to
      its next instant or gone. */
  function Answered(s: State, r: Ring, at: nat, next: Option<nat>): State
    requires r.name in s.timers && r.name in s.bookings
  {
    var t, w := s.timers[r.name], s.bookings[r.name];
    var posted := !Queued(s.queue, r.id);
    var s1 := if !posted then s else
      s.(queue := s.queue + [Wakeup(r.id, Text(r.name, w))],
         log := s.log + [Post(r.name, r.id, if r.name in s.owner then s.owner[r.name] else 0, at, w.next, next, !t.trigger.Recurring?)]);
    match next
    case Some(n) =>
      s1.(bookings := s.bookings[r.name := w.(next := n, fires := w.fires + if posted then 1 else 0)],
          timers := s.timers[r.name := t.(armed := true)])
    case None =>
      s1.(bookings := s.bookings - {r.name}, timers := s.timers - {r.name})
  }

  /** The rings in label order, until the journal refuses one. */
  ghost function FireAll(s: State, rs: seq<Ring>, now: Instant, ok: string -> bool): State
    decreases |rs|
  {
    if rs == [] then s
    else
      var (s1, on) := FireOne(s, rs[0], now, ok(rs[0].name));
      if on then FireAll(s1, rs[1..], now, ok) else s1
  }

  ghost function Fire(s: State, now: Instant, ok: string -> bool): State {
    FireAll(s.(rung := []), s.rung, now, ok)
  }

  datatype Step =
    | SBook(name: string, prompt: string, trigger: Trigger, now: Instant, ok: bool)
    | SUnbook(name: string, ok: bool)
    | SRetire(ok: bool)
    | SClear
    | SElapse(name: string, id: nat)
    | STake(i: nat)
    | SFire(now: Instant, commits: string -> bool)
    | SEnd

  ghost function Do(s: State, step: Step): State {
    match step
    case SBook(name, prompt, t, now, ok) => Book(s, name, prompt, t, now, ok)
    case SUnbook(name, ok) => Unbook(s, name, ok)
    case SRetire(ok) => Retire(s, ok)
    case SClear => Clear(s)
    case SElapse(name, id) => Elapse(s, name, id)
    case STake(i) => Take(s, i)
    case SFire(now, ok) => Fire(s, now, ok)
    case SEnd => s.(live := false)
  }

  /** A deadline rings only what it was armed with. */
  ghost predicate Possible(s: State, step: Step) {
    step.SElapse? ==> step.id in s.born && s.born[step.id].name == step.name
  }

  ghost predicate Run(s: State, steps: seq<Step>, t: State)
    decreases |steps|
  {
    if steps == [] then t == s
    else Possible(s, steps[0]) && Run(Do(s, steps[0]), steps[1..], t)
  }

  /** A session as resumed: bookings from the journal, and no timer yet. */
  ghost predicate Initial(s: State) {
    s.nextId == 0 && s.timers == map[] && s.owner == map[] && s.born == map[] && s.log == [] && s.rung == [] && !s.broken
    && forall i | 0 <= i < |s.queue| :: !s.queue[i].Wakeup?
  }

  // ── What every run keeps ─────────────────────────────────────────────────

  /** Ids are given once, in order, and a timer is the latest of its label. */
  ghost predicate Ids(s: State) {
    && (forall id | id in s.born :: id < s.nextId)
    && (forall l | l in s.timers :: s.timers[l].id in s.born && s.born[s.timers[l].id] == Birth(l, s.timers[l].trigger))
    && (forall l, id | l in s.timers && id in s.born && s.born[id].name == l :: id <= s.timers[l].id)
    && (forall l | l in s.owner :: s.owner[l] in s.born && s.born[s.owner[l]].name == l)
  }

  /** A timer beside a booking is that booking's. */
  ghost predicate Owned(s: State) {
    forall l | l in s.timers && l in s.bookings :: l in s.owner && s.owner[l] == s.timers[l].id
  }

  /** At most one wakeup queued per id, each of them logged. */
  ghost predicate QueuedOnce(s: State) {
    && (forall i, j | 0 <= i < j < |s.queue| && s.queue[i].Wakeup? && s.queue[j].Wakeup? :: s.queue[i].id != s.queue[j].id)
    && (forall i | 0 <= i < |s.queue| && s.queue[i].Wakeup? :: exists k :: 0 <= k < |s.log| && s.log[k].id == s.queue[i].id)
  }

  /** A post is for the booking made under the id rung, not before its instant,
      and re-armed only for an instant still to come; a clock before 1970 and an
      instant before it both read 0. */
  ghost predicate Rightful(s: State, p: Post) {
    && p.id in s.born && s.born[p.id].name == p.name && p.booked == p.id
    && p.due <= p.at
    && p.oneShot == !s.born[p.id].trigger.Recurring?
    && (p.next.Some? ==> !p.oneShot && (p.next.value >= p.at + 1000 || p.next.value == p.at == 0))
  }

  /** A one-shot that has posted has neither timer nor booking, now or ever again. */
  ghost predicate Spent(s: State) {
    && (forall k | 0 <= k < |s.log| && s.log[k].oneShot :: NoTimer(s, s.log[k].id) && NoBooking(s, s.log[k].id))
    && (forall j, k | 0 <= j < k < |s.log| && s.log[j].id == s.log[k].id :: !s.log[j].oneShot)
  }

  /** No live booking was made under `id`. */
  ghost predicate NoBooking(s: State, id: nat) {
    forall l | l in s.bookings && l in s.owner :: s.owner[l] != id
  }

  ghost predicate NoTimer(s: State, id: nat) {
    forall l | l in s.timers :: s.timers[l].id != id
  }

  ghost predicate AllRightful(s: State) {
    forall k | 0 <= k < |s.log| :: Rightful(s, s.log[k])
  }

  ghost predicate Safe(s: State) {
    Ids(s) && Owned(s) && QueuedOnce(s) && AllRightful(s) && Spent(s)
  }

  lemma InitialIsSafe(s: State)
    requires Initial(s)
    ensures Safe(s)
  {
  }

  lemma BookIsSafe(s: State, name: string, prompt: string, t: Trigger, now: Instant, ok: bool)
    requires Safe(s)
    ensures Safe(Book(s, name, prompt, t, now, ok))
  {
    var b := Book(s, name, prompt, t, now, ok);
    if b != s {
      BookedIds(s, name, t, b);
      BookedPosts(s, name, t, b);
    }
  }

  lemma BookedIds(s: State, name: string, t: Trigger, b: State)
    requires Ids(s) && Owned(s) && b.nextId == s.nextId + 1
    requires b.timers == s.timers[name := Timer(s.nextId, t, true)] && b.born == s.born[s.nextId := Birth(name, t)]
    requires b.owner == s.owner[name := s.nextId] && b.bookings.Keys == s.bookings.Keys + {name}
    ensures Ids(b) && Owned(b)
  {
    assert s.nextId !in s.born;
  }

  lemma BookedPosts(s: State, name: string, t: Trigger, b: State)
    requires Ids(s) && AllRightful(s) && Spent(s) && QueuedOnce(s)
    requires b.log == s.log && b.queue == s.queue
    requires b.bookings.Keys == s.bookings.Keys + {name} && b.owner == s.owner[name := s.nextId]
    requires b.timers == s.timers[name := Timer(s.nextId, t, true)] && b.born == s.born[s.nextId := Birth(name, t)]
    ensures AllRightful(b) && Spent(b) && QueuedOnce(b)
  {
    forall k | 0 <= k < |b.log|
      ensures Rightful(b, b.log[k]) && (b.log[k].oneShot ==> NoTimer(b, b.log[k].id) && NoBooking(b, b.log[k].id))
    {
      assert Rightful(s, s.log[k]);
      assert s.log[k].id < s.nextId;
    }
  }

  /** Every human's item stays, and nothing else. */
  lemma {:induction false} KeptFrom(queue: seq<Item>)
    ensures forall i | 0 <= i < |Kept(queue)| :: Kept(queue)[i].Human?
    ensures multiset(Kept(queue))[Human] == multiset(queue)[Human]
  {
    if queue != [] {
      KeptFrom(queue[1..]);
      assert queue == [queue[0]] + queue[1..];
    }
  }

  /** Dropping timers and bookings, or disarming, breaks nothing. */
  lemma Fewer(s: State, t: State)
    requires Safe(s) && QueuedOnce(t)
    requires t.nextId == s.nextId && t.born == s.born && t.log == s.log && t.owner == s.owner
    requires forall l | l in t.timers :: l in s.timers && t.timers[l].id == s.timers[l].id && t.timers[l].trigger == s.timers[l].trigger
    requires t.bookings.Keys <= s.bookings.Keys
    ensures Safe(t)
  {
    forall k | 0 <= k < |t.log| ensures Rightful(t, t.log[k]) && (t.log[k].oneShot ==> NoTimer(t, t.log[k].id) && NoBooking(t, t.log[k].id)) {
      assert Rightful(s, s.log[k]);
    }
  }

  lemma UnbookIsSafe(s: State, name: string, ok: bool)
    requires Safe(s)
    ensures Safe(Unbook(s, name, ok))
  {
    Fewer(s, Unbook(s, name, ok));
  }

  lemma ClearIsSafe(s: State)
    requires Safe(s)
    ensures Safe(Clear(s))
  {
    Fewer(s, Clear(s));
  }

  /** Clearing leaves no booking and no wakeup queued, and every human's item. */
  lemma RetireIsSafe(s: State, ok: bool)
    requires Safe(s)
    ensures Safe(Retire(s, ok))
    ensures ok ==> Retire(s, ok).bookings == map[] && (forall id :: !Queued(Retire(s, ok).queue, id))
                   && multiset(Retire(s, ok).queue)[Human] == multiset(s.queue)[Human]
  {
    KeptFrom(s.queue);
    Fewer(s, Retire(s, ok));
  }

  /** Taking removes the one item. */
  lemma TakeIsSafe(s: State, i: nat)
    requires Safe(s)
    ensures Safe(Take(s, i))
    ensures i < |s.queue| ==> multiset(Take(s, i).queue) == multiset(s.queue) - multiset{s.queue[i]}
  {
    if i < |s.queue| {
      var q := Take(s, i).queue;
      forall j | 0 <= j < |q| ensures q[j] == s.queue[if j < i then j else j + 1] { }
      Fewer(s, Take(s, i));
      assert s.queue == s.queue[..i] + [s.queue[i]] + s.queue[i + 1..];
    }
  }

  lemma ElapseIsSafe(s: State, name: string, id: nat)
    requires Safe(s)
    ensures Safe(Elapse(s, name, id))
  {
    Fewer(s, Elapse(s, name, id));
  }

  /** What a fire may re-arm for: nothing, or, of a recurring trigger, a later
      instant. */
  ghost predicate Advances(t: Trigger, at: nat, next: Option<nat>) {
    next.Some? ==> t.Recurring? && (next.value >= at + 1000 || next.value == at == 0)
  }

  lemma PostIsSafe(s: State, r: Ring, at: nat, next: Option<nat>)
    requires Safe(s) && r.name in s.timers && s.timers[r.name].id == r.id && r.name in s.bookings && at >= s.bookings[r.name].next
    requires Advances(s.timers[r.name].trigger, at, next)
    ensures Safe(Answered(s, r, at, next))
  {
    var t := Answered(s, r, at, next);
    AnsweredTimers(s, r, at, next);
    if Queued(s.queue, r.id) {
      forall k | 0 <= k < |t.log| ensures Rightful(t, t.log[k]) && (t.log[k].oneShot ==> NoTimer(t, t.log[k].id) && NoBooking(t, t.log[k].id)) {
        assert Rightful(s, s.log[k]);
      }
    } else {
      AnsweredPost(s, r, at, next);
      QueueGrows(s, t, r);
      LogGrows(s, t, r);
    }
  }

  lemma AnsweredTimers(s: State, r: Ring, at: nat, next: Option<nat>)
    requires Ids(s) && Owned(s) && r.name in s.timers && r.name in s.bookings && Advances(s.timers[r.name].trigger, at, next)
    ensures var t := Answered(s, r, at, next);
            && Ids(t) && Owned(t)
            && (forall l | l in t.timers :: l in s.timers && t.timers[l].id == s.timers[l].id)
            && (!s.timers[r.name].trigger.Recurring? ==> r.name !in t.timers && r.name !in t.bookings)
            && (Queued(s.queue, r.id) ==> t.queue == s.queue && t.log == s.log)
            && t.born == s.born && t.owner == s.owner && t.bookings.Keys <= s.bookings.Keys
  {
  }

  lemma AnsweredPost(s: State, r: Ring, at: nat, next: Option<nat>)
    requires Ids(s) && Owned(s) && r.name in s.timers && s.timers[r.name].id == r.id && r.name in s.bookings && at >= s.bookings[r.name].next
    requires !Queued(s.queue, r.id) && Advances(s.timers[r.name].trigger, at, next)
    ensures var t := Answered(s, r, at, next);
            && |t.log| == |s.log| + 1 && t.log[..|s.log|] == s.log && t.log[|s.log|].id == r.id && Rightful(t, t.log[|s.log|])
            && |t.queue| == |s.queue| + 1 && t.queue[..|s.queue|] == s.queue && t.queue[|s.queue|].Wakeup? && t.queue[|s.queue|].id == r.id
            && t.log[|s.log|].oneShot == !s.timers[r.name].trigger.Recurring?
  {
    assert r.id in s.born && s.born[r.id].trigger == s.timers[r.name].trigger && s.owner[r.name] == r.id;
  }

  lemma QueueGrows(s: State, t: State, r: Ring)
    requires QueuedOnce(s) && !Queued(s.queue, r.id)
    requires |t.queue| == |s.queue| + 1 && t.queue[..|s.queue|] == s.queue && t.queue[|s.queue|].Wakeup? && t.queue[|s.queue|].id == r.id
    requires |t.log| == |s.log| + 1 && t.log[..|s.log|] == s.log && t.log[|s.log|].id == r.id
    ensures QueuedOnce(t)
  {
    forall i | 0 <= i < |t.queue| && t.queue[i].Wakeup? ensures exists k :: 0 <= k < |t.log| && t.log[k].id == t.queue[i].id {
      if i < |s.queue| {
        assert s.queue[i] == t.queue[i];
        var k :| 0 <= k < |s.log| && s.log[k].id == s.queue[i].id;
        assert t.log[k] == s.log[k];
      } else {
        assert t.log[|s.log|].id == t.queue[i].id;
      }
    }
    forall i, j | 0 <= i < j < |t.queue| && t.queue[i].Wakeup? && t.queue[j].Wakeup? ensures t.queue[i].id != t.queue[j].id {
      assert t.queue[i] == s.queue[i];
      if j < |s.queue| { assert t.queue[j] == s.queue[j]; }
    }
  }

  lemma LogGrows(s: State, t: State, r: Ring)
    requires AllRightful(s) && Spent(s) && Ids(s) && r.name in s.timers && s.timers[r.name].id == r.id && t.born == s.born
    requires |t.log| == |s.log| + 1 && t.log[..|s.log|] == s.log && Rightful(t, t.log[|s.log|]) && t.log[|s.log|].id == r.id
    requires forall l | l in t.timers :: l in s.timers && t.timers[l].id == s.timers[l].id
    requires t.owner == s.owner && t.bookings.Keys <= s.bookings.Keys
    requires t.log[|s.log|].oneShot ==> r.name !in t.timers && r.name !in t.bookings
    ensures AllRightful(t) && Spent(t)
  {
    forall k | 0 <= k < |t.log| ensures Rightful(t, t.log[k]) && (t.log[k].oneShot ==> NoTimer(t, t.log[k].id) && NoBooking(t, t.log[k].id)) {
      if k < |s.log| {
        assert t.log[k] == s.log[k] && Rightful(s, s.log[k]);
      } else {
        forall l | l in t.timers && s.timers[l].id == r.id ensures l == r.name { }
        forall l | l in t.bookings && l in t.owner && t.owner[l] == r.id ensures l == r.name { }
      }
    }
    forall j, k | 0 <= j < k < |t.log| && t.log[j].id == t.log[k].id ensures !t.log[j].oneShot {
      assert t.log[j] == s.log[j];
      if k < |s.log| { assert t.log[k] == s.log[k]; } else { assert !NoTimer(s, r.id); }
    }
  }

  lemma FireOneIsSafe(s: State, r: Ring, now: Instant, ok: bool)
    requires Safe(s)
    ensures Safe(FireOne(s, r, now, ok).0)
  {
    if r.name in s.timers && s.timers[r.name].id == r.id {
      if r.name in s.bookings && Ms(now) >= s.bookings[r.name].next {
        if ok { FiredIsSafe(s, r, now); }
      } else {
        Fewer(s, FireOne(s, r, now, ok).0);
      }
    }
  }

  lemma FiredIsSafe(s: State, r: Ring, now: Instant)
    requires Safe(s) && r.name in s.timers && s.timers[r.name].id == r.id && r.name in s.bookings && Ms(now) >= s.bookings[r.name].next
    ensures Safe(Fired(s, r, now))
  {
    var t := s.timers[r.name].trigger;
    var next := if t.Recurring? then NextAfter(t, now) else None;
    if next.Some? { RecurrencesAdvance(t, now); }
    PostIsSafe(s, r, Ms(now), next);
  }

  lemma {:induction false} FireAllIsSafe(s: State, rs: seq<Ring>, now: Instant, ok: string -> bool)
    requires Safe(s)
    ensures Safe(FireAll(s, rs, now, ok))
    decreases |rs|
  {
    if rs != [] {
      FireOneIsSafe(s, rs[0], now, ok(rs[0].name));
      var (s1, on) := FireOne(s, rs[0], now, ok(rs[0].name));
      if on { FireAllIsSafe(s1, rs[1..], now, ok); }
    }
  }

  lemma DoIsSafe(s: State, step: Step)
    requires Safe(s) && Possible(s, step)
    ensures Safe(Do(s, step))
  {
    match step
    case SBook(name, prompt, t, now, ok) => BookIsSafe(s, name, prompt, t, now, ok);
    case SUnbook(name, ok) => UnbookIsSafe(s, name, ok);
    case SRetire(ok) => RetireIsSafe(s, ok);
    case SClear => ClearIsSafe(s);
    case SElapse(name, id) => ElapseIsSafe(s, name, id);
    case STake(i) => TakeIsSafe(s, i);
    case SFire(now, ok) => FireAllIsSafe(s.(rung := []), s.rung, now, ok);
    case SEnd =>
  }

  /** Over every run: each wakeup was posted for the booking made under the id
      rung, never before its instant, at most one is queued per id, a one-shot
      posts once and keeps no timer, and a recurrence is re-armed for later. */
  lemma RunsAreSafe(s: State, steps: seq<Step>, t: State)
    requires Initial(s) && Run(s, steps, t)
    ensures Safe(t)
  {
    InitialIsSafe(s);
    StaysSafe(s, steps, t);
  }

  lemma {:induction false} StaysSafe(s: State, steps: seq<Step>, t: State)
    requires Safe(s) && Run(s, steps, t)
    ensures Safe(t)
    decreases |steps|
  {
    if steps != [] {
      DoIsSafe(s, steps[0]);
      StaysSafe(Do(s, steps[0]), steps[1..], t);
    }
  }

  // ── No wakeup is lost ────────────────────────────────────────────────────

  ghost predicate Rings(rs: seq<Ring>, name: string, id: nat) {
    exists i :: 0 <= i < |rs| && rs[i] == Ring(name, id)
  }

  /** Every timer has a deadline pending or a ring waiting. */
  ghost predicate Pending(s: State, rs: seq<Ring>) {
    forall l | l in s.timers :: s.timers[l].armed || Rings(rs, l, s.timers[l].id)
  }

  /** Every ring is of an id given to its label. */
  ghost predicate Genuine(s: State, rs: seq<Ring>) {
    forall i | 0 <= i < |rs| :: rs[i].id in s.born && s.born[rs[i].id].name == rs[i].name
  }

  ghost predicate Live(s: State) {
    Genuine(s, s.rung) && (s.live && !s.broken ==> Pending(s, s.rung))
  }

  lemma {:induction false} InsertRings(rung: seq<Ring>, r: Ring, name: string, id: nat)
    requires Rings(rung, name, id) || r == Ring(name, id)
    requires forall i | 0 <= i < |rung| && rung[i].name == name :: rung[i].id <= id
    requires r.name == name ==> r.id <= id
    ensures Rings(Insert(rung, r), name, id)
  {
    var out := Insert(rung, r);
    if rung == [] {
      assert out[0] == r;
    } else if rung[0].name == r.name {
      if Rings(rung, name, id) {
        var i :| 0 <= i < |rung| && rung[i] == Ring(name, id);
        assert out[i] == Ring(name, id);
      } else {
        assert out[0] == Ring(name, id);
      }
    } else if Before(r.name, rung[0].name) {
      if Rings(rung, name, id) {
        var i :| 0 <= i < |rung| && rung[i] == Ring(name, id);
        assert out[i + 1] == Ring(name, id);
      } else {
        assert out[0] == r;
      }
    } else if rung[0] == Ring(name, id) {
      assert out[0] == rung[0];
    } else {
      if Rings(rung, name, id) {
        var i :| 0 <= i < |rung| && rung[i] == Ring(name, id);
        assert rung[1..][i - 1] == Ring(name, id);
      }
      InsertRings(rung[1..], r, name, id);
      var j :| 0 <= j < |Insert(rung[1..], r)| && Insert(rung[1..], r)[j] == Ring(name, id);
      assert out[j + 1] == Ring(name, id);
    }
  }

  lemma {:induction false} InsertGenuine(s: State, rung: seq<Ring>, r: Ring)
    requires Genuine(s, rung) && r.id in s.born && s.born[r.id].name == r.name
    ensures Genuine(s, Insert(rung, r))
  {
    if rung != [] && rung[0].name != r.name && !Before(r.name, rung[0].name) {
      InsertGenuine(s, rung[1..], r);
    }
  }

  lemma ElapseIsLive(s: State, name: string, id: nat)
    requires Ids(s) && Live(s) && id in s.born && s.born[id].name == name
    ensures Live(Elapse(s, name, id))
  {
    var t := Elapse(s, name, id);
    if s.live {
      InsertGenuine(s, s.rung, Ring(name, id));
      if !s.broken {
        forall l | l in t.timers && !t.timers[l].armed ensures Rings(t.rung, l, t.timers[l].id) {
          InsertRings(s.rung, Ring(name, id), l, s.timers[l].id);
        }
      }
    }
  }

  lemma FireOnePending(s: State, rs: seq<Ring>, now: Instant, ok: bool)
    requires rs != [] && Pending(s, rs) && !s.broken
    ensures var fired := FireOne(s, rs[0], now, ok);
            if fired.1 then Pending(fired.0, rs[1..]) && !fired.0.broken else fired.0.broken
  {
    var (t, on) := FireOne(s, rs[0], now, ok);
    if on {
      forall l | l in t.timers && !t.timers[l].armed ensures Rings(rs[1..], l, t.timers[l].id) {
        assert l in s.timers && t.timers[l] == s.timers[l] && rs[0] != Ring(l, s.timers[l].id);
        var i :| 0 <= i < |rs| && rs[i] == Ring(l, s.timers[l].id);
        assert rs[1..][i - 1] == rs[i];
      }
    }
  }

  lemma {:induction false} FireAllPending(s: State, rs: seq<Ring>, now: Instant, ok: string -> bool)
    requires Pending(s, rs) && !s.broken
    ensures var t := FireAll(s, rs, now, ok); t.broken || Pending(t, [])
    decreases |rs|
  {
    if rs != [] {
      FireOnePending(s, rs, now, ok(rs[0].name));
      var (t, on) := FireOne(s, rs[0], now, ok(rs[0].name));
      if on { FireAllPending(t, rs[1..], now, ok); }
    }
  }

  lemma AnsweredKeeps(s: State, r: Ring, at: nat, next: Option<nat>)
    requires r.name in s.timers && r.name in s.bookings
    ensures var t := Answered(s, r, at, next);
            t.rung == s.rung && t.live == s.live && t.born == s.born && t.broken == s.broken && s.queue <= t.queue
  {
  }

  lemma FireOneKeeps(s: State, r: Ring, now: Instant, ok: bool)
    ensures var t := FireOne(s, r, now, ok).0;
            t.rung == s.rung && t.live == s.live && t.born == s.born && (s.broken ==> t.broken) && s.queue <= t.queue
  {
    if r.name in s.timers && r.name in s.bookings {
      var t := s.timers[r.name].trigger;
      AnsweredKeeps(s, r, Ms(now), if t.Recurring? then NextAfter(t, now) else None);
    }
  }

  lemma {:induction false} FireAllKeeps(s: State, rs: seq<Ring>, now: Instant, ok: string -> bool)
    ensures var t := FireAll(s, rs, now, ok);
            t.rung == s.rung && t.live == s.live && t.born == s.born && (s.broken ==> t.broken) && s.queue <= t.queue
    decreases |rs|
  {
    if rs != [] {
      FireOneKeeps(s, rs[0], now, ok(rs[0].name));
      var (t, on) := FireOne(s, rs[0], now, ok(rs[0].name));
      if on { FireAllKeeps(t, rs[1..], now, ok); }
    }
  }

  lemma FireIsLive(s: State, now: Instant, ok: string -> bool)
    requires Live(s)
    ensures Live(Fire(s, now, ok))
  {
    var s1 := s.(rung := []);
    FireAllKeeps(s1, s.rung, now, ok);
    if s.live && !s.broken { FireAllPending(s1, s.rung, now, ok); }
  }

  lemma DoIsLive(s: State, step: Step)
    requires Ids(s) && Live(s) && Possible(s, step)
    ensures Live(Do(s, step))
  {
    match step
    case SElapse(name, id) => ElapseIsLive(s, name, id);
    case SFire(now, ok) => FireIsLive(s, now, ok);
    case SBook(_, _, _, _, _) => assert s.nextId !in s.born;
    case _ =>
  }

  /** In every run, while the agent lives and no fire's journal write has failed,
      no timer is forgotten: each has its deadline pending or its ring waiting. */
  lemma NoTimerIsForgotten(s: State, steps: seq<Step>, t: State)
    requires Initial(s) && Run(s, steps, t)
    ensures t.live && !t.broken ==> Pending(t, t.rung)
  {
    InitialIsSafe(s);
    StaysLive(s, steps, t);
  }

  lemma {:induction false} StaysLive(s: State, steps: seq<Step>, t: State)
    requires Safe(s) && Live(s) && Run(s, steps, t)
    ensures Live(t)
    decreases |steps|
  {
    if steps != [] {
      DoIsSafe(s, steps[0]);
      DoIsLive(s, steps[0]);
      StaysLive(Do(s, steps[0]), steps[1..], t);
    }
  }

  // ── What a fire does ─────────────────────────────────────────────────────

  /** `name`'s booking is due and its own id has no wakeup queued. */
  ghost predicate Due(s: State, name: string, now: Instant) {
    && name in s.timers && name in s.bookings && s.bookings[name].next <= Ms(now) && !Queued(s.queue, s.timers[name].id)
  }

  lemma OthersLeaveDue(s: State, r: Ring, now: Instant, name: string)
    requires Safe(s) && Due(s, name, now) && r != Ring(name, s.timers[name].id)
    ensures var t := FireOne(s, r, now, true).0; Due(t, name, now) && t.timers[name] == s.timers[name] && t.bookings[name] == s.bookings[name]
  {
    if r.name in s.timers && s.timers[r.name].id == r.id && r.name in s.bookings && Ms(now) >= s.bookings[r.name].next {
      var t := s.timers[r.name].trigger;
      OtherAnswered(s, r, Ms(now), if t.Recurring? then NextAfter(t, now) else None, now, name);
    }
  }

  /** Posting for another label queues another id. */
  lemma OtherAnswered(s: State, r: Ring, at: nat, next: Option<nat>, now: Instant, name: string)
    requires Ids(s) && Due(s, name, now) && r.name != name && r.name in s.timers && s.timers[r.name].id == r.id && r.name in s.bookings
    ensures var t := Answered(s, r, at, next); Due(t, name, now) && t.timers[name] == s.timers[name] && t.bookings[name] == s.bookings[name]
  {
    var id := s.timers[name].id;
    assert id != r.id;
    assert !Queued(Answered(s, r, at, next).queue, id);
  }

  /** Its own ring posts it. */
  lemma OwnRingPosts(s: State, r: Ring, now: Instant)
    requires Due(s, r.name, now) && r.id == s.timers[r.name].id
    ensures var t := FireOne(s, r, now, true).0;
            |t.queue| == |s.queue| + 1 && t.queue[|s.queue|] == Wakeup(r.id, Text(r.name, s.bookings[r.name])) && FireOne(s, r, now, true).1
  {
    hide NextAfter, Text;
  }

  lemma RingsLater(rs: seq<Ring>, name: string, id: nat)
    requires Rings(rs, name, id) && rs[0] != Ring(name, id)
    ensures Rings(rs[1..], name, id)
  {
    var i :| 0 <= i < |rs| && rs[i] == Ring(name, id);
    assert rs[1..][i - 1] == rs[i];
  }

  lemma NeverRefused(s: State, r: Ring, now: Instant)
    ensures FireOne(s, r, now, true).1
  {
    hide NextAfter, Answered;
  }

  /** A due booking whose own id has rung is posted, whatever else rang. */
  lemma {:induction false} DueIsPosted(s: State, rs: seq<Ring>, now: Instant, ok: string -> bool, name: string)
    requires Safe(s) && Due(s, name, now) && Rings(rs, name, s.timers[name].id) && forall l :: ok(l)
    ensures Wakeup(s.timers[name].id, "[scheduled '" + name + "' · " + s.bookings[name].trigger + "] " + s.bookings[name].prompt)
              in FireAll(s, rs, now, ok).queue
    decreases |rs|
  {
    hide Safe, FireOne, Queued;
    var t := FireOne(s, rs[0], now, true).0;
    assert ok(rs[0].name);
    NeverRefused(s, rs[0], now);
    if rs[0] == Ring(name, s.timers[name].id) {
      OwnRingPosts(s, rs[0], now);
      FireAllKeeps(t, rs[1..], now, ok);
      var q := FireAll(t, rs[1..], now, ok).queue;
      assert q[|s.queue|] == t.queue[|s.queue|];
    } else {
      FireOneIsSafe(s, rs[0], now, true);
      OthersLeaveDue(s, rs[0], now, name);
      RingsLater(rs, name, s.timers[name].id);
      DueIsPosted(t, rs[1..], now, ok, name);
    }
  }

  // ── What a whole fire leaves ─────────────────────────────────────────────

  /** Rings wait one a label, in label order. */
  ghost predicate Ordered(rs: seq<Ring>) {
    forall i, j | 0 <= i < j < |rs| :: Before(rs[i].name, rs[j].name)
  }

  /** The id waiting under a label. */
  function Waiting(rs: seq<Ring>, name: string): Option<nat> {
    if rs == [] then None else if rs[0].name == name then Some(rs[0].id) else Waiting(rs[1..], name)
  }

  lemma {:induction false} NoneWaits(rs: seq<Ring>, name: string)
    requires forall i | 0 <= i < |rs| :: rs[i].name != name
    ensures Waiting(rs, name) == None
  {
    if rs != [] { NoneWaits(rs[1..], name); }
  }

  lemma BeforeDiffers(a: string, b: string)
    requires Before(a, b)
    ensures a != b
  {
    BeforeIrreflexive(a);
  }

  /** A ring inserted waits in label order. */
  lemma {:induction false} InsertOrders(rs: seq<Ring>, r: Ring)
    requires Ordered(rs)
    ensures Ordered(Insert(rs, r))
    ensures forall i | 0 <= i < |Insert(rs, r)| :: Insert(rs, r)[i].name == r.name || exists j :: 0 <= j < |rs| && rs[j].name == Insert(rs, r)[i].name
  {
    var out := Insert(rs, r);
    if rs != [] && rs[0].name != r.name {
      if Before(r.name, rs[0].name) {
        forall j | 0 <= j < |rs| ensures Before(r.name, rs[j].name) {
          if j > 0 { BeforeTransitive(r.name, rs[0].name, rs[j].name); }
        }
        forall i | 0 < i < |out| ensures exists j :: 0 <= j < |rs| && rs[j].name == out[i].name { assert rs[i - 1].name == out[i].name; }
      } else {
        BeforeTotal(r.name, rs[0].name);
        InsertOrders(rs[1..], r);
        forall i | 0 < i < |out| ensures Before(out[0].name, out[i].name) && (out[i].name == r.name || exists j :: 0 <= j < |rs| && rs[j].name == out[i].name) {
          assert out[i] == out[1..][i - 1];
          if out[i].name != r.name {
            var m :| 0 <= m < |rs[1..]| && rs[1..][m].name == out[1..][i - 1].name;
            assert rs[m + 1] == rs[1..][m];
          }
        }
        forall i, j | 0 < i < j < |out| ensures Before(out[i].name, out[j].name) { assert out[i] == out[1..][i - 1] && out[j] == out[1..][j - 1]; }
        assert rs[0].name == out[0].name;
      }
    }
  }

  /** Of two rings under a label the later id waits, and no other label's is touched. */
  lemma {:induction false} InsertHolds(rs: seq<Ring>, r: Ring, name: string)
    requires Ordered(rs)
    ensures Waiting(Insert(rs, r), name) ==
              if name != r.name then Waiting(rs, name)
              else if Waiting(rs, name).Some? && Waiting(rs, name).value > r.id then Waiting(rs, name)
              else Some(r.id)
  {
    var out := Insert(rs, r);
    if rs == [] {
      assert [r][1..] == [];
    } else if rs[0].name == r.name {
      assert out[1..] == rs[1..];
    } else if Before(r.name, rs[0].name) {
      assert out[1..] == rs;
      forall j | 0 <= j < |rs| ensures r.name != rs[j].name {
        if j > 0 { BeforeTransitive(r.name, rs[0].name, rs[j].name); }
        BeforeDiffers(r.name, rs[j].name);
      }
      NoneWaits(rs, r.name);
    } else {
      InsertHolds(rs[1..], r, name);
      assert out[1..] == Insert(rs[1..], r);
    }
  }

  /** A deadline that elapses leaves its own timer, if that still stands, unarmed, and
      touches no booking; while the agent lives its ring waits, or a later one of its
      label, and no other label's ring is touched. */
  lemma ElapsedRings(s: State, name: string, id: nat, l: string)
    requires Ordered(s.rung)
    ensures var t := Elapse(s, name, id);
            && t.bookings == s.bookings && t.queue == s.queue && t.timers.Keys == s.timers.Keys
            && (name in s.timers && s.timers[name].id == id ==> !t.timers[name].armed)
            && (l in s.timers && (l != name || s.timers[l].id != id) ==> t.timers[l] == s.timers[l])
            && (!s.live || l != name ==> Waiting(t.rung, l) == Waiting(s.rung, l))
            && (s.live ==> Waiting(t.rung, name).Some? && Waiting(t.rung, name).value >= id
                           && (Waiting(t.rung, name).value == id || Waiting(t.rung, name) == Waiting(s.rung, name)))
  {
    InsertHolds(s.rung, Ring(name, id), l);
    InsertHolds(s.rung, Ring(name, id), name);
  }

  /** What a fire at `now` makes of a label whose own ring it takes: a timer with no
      booking goes; an early one is armed again; a due one is moved to its trigger's
      next instant, one more fire counted unless its last wakeup still waits, or
      gone where there is no next. */
  ghost predicate Settled(s: State, t: State, l: string, now: Instant)
    requires l in s.timers
  {
    var timer := s.timers[l];
    if l !in s.bookings then l !in t.timers && l !in t.bookings
    else
      var w := s.bookings[l];
      if Ms(now) < w.next then Bears(t, l, timer.(armed := true), w)
      else if timer.trigger.Recurring? && NextAfter(timer.trigger, now).Some? then
        Bears(t, l, timer.(armed := true), w.(next := NextAfter(timer.trigger, now).value, fires := if Queued(s.queue, timer.id) then w.fires else w.fires + 1))
      else l !in t.timers && l !in t.bookings
  }

  ghost predicate Bears(t: State, l: string, timer: Timer, w: Wake) {
    l in t.timers && t.timers[l] == timer && l in t.bookings && t.bookings[l] == w
  }

  ghost predicate Untouched(s: State, t: State, l: string) {
    && (l in t.timers <==> l in s.timers) && (l in s.timers && l in t.timers ==> t.timers[l] == s.timers[l])
    && (l in t.bookings <==> l in s.bookings) && (l in s.bookings && l in t.bookings ==> t.bookings[l] == s.bookings[l])
  }

  /** Booking or dropping one label touches no other. */
  lemma BookingsAreApart(s: State, name: string, prompt: string, t: Trigger, now: Instant, ok: bool, l: string)
    requires l != name
    ensures Untouched(s, Book(s, name, prompt, t, now, ok), l) && Untouched(s, Unbook(s, name, ok), l)
  {
    hide NextAfter;
  }

  lemma OneSettles(s: State, r: Ring, now: Instant)
    requires Safe(s)
    ensures var t := FireOne(s, r, now, true).0;
            FireOne(s, r, now, true).1 && if r.name in s.timers && s.timers[r.name].id == r.id then Settled(s, t, r.name, now) else t == s
  {
    hide NextAfter, Safe;
  }

  /** One label's ring leaves every other label as it was, its queued wakeups among it. */
  lemma OneLeavesOthers(s: State, r: Ring, now: Instant, l: string)
    requires Safe(s) && l != r.name
    ensures var t := FireOne(s, r, now, true).0;
            Untouched(s, t, l) && (l in s.timers ==> (Queued(t.queue, s.timers[l].id) <==> Queued(s.queue, s.timers[l].id)))
  {
    hide NextAfter, Text, Ms, Owned, QueuedOnce, AllRightful, Spent;
    var t := FireOne(s, r, now, true).0;
    if r.name in s.timers && s.timers[r.name].id == r.id && r.name in s.bookings && Ms(now) >= s.bookings[r.name].next && l in s.timers {
      assert s.timers[l].id != r.id;
      if !Queued(s.queue, r.id) {
        assert t.queue == s.queue + [Wakeup(r.id, Text(r.name, s.bookings[r.name]))];
        var id := s.timers[l].id;
        if Queued(s.queue, id) {
          var i :| 0 <= i < |s.queue| && s.queue[i].Wakeup? && s.queue[i].id == id;
          assert t.queue[i] == s.queue[i];
        }
      }
    }
  }

  lemma SettledBefore(s: State, m: State, t: State, l: string, now: Instant)
    requires l in s.timers && Untouched(s, m, l) && (Queued(m.queue, s.timers[l].id) <==> Queued(s.queue, s.timers[l].id))
    requires Settled(m, t, l, now)
    ensures Settled(s, t, l, now)
  {
  }

  lemma SettledAfter(s: State, m: State, t: State, l: string, now: Instant)
    requires l in s.timers && Settled(s, m, l, now) && Untouched(m, t, l)
    ensures Settled(s, t, l, now)
  {
  }

  /** A fire with every commit taken: each label whose own ring waits is settled, as
      though it alone had rung, and every other is left as it was. */
  lemma {:induction false} FireSettles(s: State, rs: seq<Ring>, now: Instant, ok: string -> bool, l: string)
    requires Safe(s) && Ordered(rs) && forall name :: ok(name)
    ensures var t := FireAll(s, rs, now, ok);
            if l in s.timers && Waiting(rs, l) == Some(s.timers[l].id) then Settled(s, t, l, now) else Untouched(s, t, l)
    decreases |rs|
  {
    hide Safe, Settled, Untouched, FireOne, Queued;
    if rs == [] {
      UntouchedSelf(s, l);
    } else {
      var m := FireOne(s, rs[0], now, true).0;
      var t := FireAll(m, rs[1..], now, ok);
      FireOneIsSafe(s, rs[0], now, true);
      OneSettles(s, rs[0], now);
      FireSettles(m, rs[1..], now, ok, l);
      if rs[0].name == l {
        forall i | 0 <= i < |rs[1..]| ensures rs[1..][i].name != l { BeforeDiffers(rs[0].name, rs[i + 1].name); }
        NoneWaits(rs[1..], l);
        if l in s.timers && s.timers[l].id == rs[0].id { SettledAfter(s, m, t, l, now); }
      } else {
        OneLeavesOthers(s, rs[0], now, l);
        UntouchedTwice(s, m, t, l);
        if l in s.timers && Waiting(rs, l) == Some(s.timers[l].id) {
          SameTimer(s, m, l);
          SettledBefore(s, m, t, l, now);
        } else if Untouched(m, t, l) {
        } else {
          SameTimer(s, m, l);
        }
      }
    }
  }

  lemma UntouchedSelf(s: State, l: string)
    ensures Untouched(s, s, l)
  {
  }

  lemma SameTimer(s: State, m: State, l: string)
    requires Untouched(s, m, l)
    ensures l in s.timers <==> l in m.timers
    ensures l in s.timers ==> m.timers[l] == s.timers[l]
  {
  }

  lemma UntouchedTwice(s: State, m: State, t: State, l: string)
    ensures Untouched(s, m, l) && Untouched(m, t, l) ==> Untouched(s, t, l)
  {
  }

  /** Every ring but one the journal refused is answered as though it had not been. */
  lemma RefusedOrTaken(s: State, r: Ring, now: Instant, ok: bool)
    ensures if FireOne(s, r, now, ok).1 then FireOne(s, r, now, ok) == FireOne(s, r, now, true)
            else FireOne(s, r, now, ok).0 == s.(broken := true)
  {
    hide NextAfter, Answered, Ms;
  }

  /** A fire stops where the journal first refuses: a due label refused keeps its
      timer and its booking, and so does every label after it. */
  lemma {:induction false} ARefusalStops(s: State, rs: seq<Ring>, now: Instant, ok: string -> bool, l: string, m: string)
    requires Safe(s) && Ordered(rs) && l in s.timers && l in s.bookings && Waiting(rs, l) == Some(s.timers[l].id)
    requires s.bookings[l].next <= Ms(now) && !ok(l) && (m == l || Before(l, m))
    ensures var t := FireAll(s, rs, now, ok); t.broken && Untouched(s, t, m)
    decreases |rs|
  {
    hide Safe, Ms, Answered;
    var r := rs[0];
    var (s1, on) := FireOne(s, r, now, ok(r.name));
    RefusedOrTaken(s, r, now, ok(r.name));
    if r.name != l && on {
      WaitsAfter(rs, l);
      if m != l { BeforeTransitive(r.name, l, m); }
      BeforeDiffers(r.name, l);
      BeforeDiffers(r.name, m);
      FireOneIsSafe(s, r, now, true);
      OneLeavesOthers(s, r, now, l);
      OneLeavesOthers(s, r, now, m);
      ARefusalStops(s1, rs[1..], now, ok, l, m);
      UntouchedTwice(s, s1, FireAll(s1, rs[1..], now, ok), m);
    }
  }

  lemma {:induction false} WaitsAfter(rs: seq<Ring>, l: string)
    requires Ordered(rs) && Waiting(rs, l).Some? && rs[0].name != l
    ensures Before(rs[0].name, l) && Waiting(rs[1..], l) == Waiting(rs, l) && Ordered(rs[1..])
  {
    if forall i | 0 <= i < |rs| :: rs[i].name != l { NoneWaits(rs, l); }
  }

  lemma {:induction false} StaysEnded(s: State, steps: seq<Step>, t: State)
    requires !s.live && Run(s, steps, t)
    ensures !t.live && (t.rung == s.rung || t.rung == [])
    decreases |steps|
  {
    hide FireOne;
    if steps != [] {
      if steps[0].SFire? { FireAllKeeps(s.(rung := []), s.rung, steps[0].now, steps[0].commits); }
      StaysEnded(Do(s, steps[0]), steps[1..], t);
    }
  }

  /** Once the agent has ended no run brings it back, and no deadline rings again. */
  lemma TheEndedHearNothing(s: State, steps: seq<Step>, t: State)
    requires Run(Do(s, SEnd), steps, t)
    ensures !t.live && (t.rung == s.rung || t.rung == [])
  {
    StaysEnded(Do(s, SEnd), steps, t);
  }

  // ── Recurrences are spaced ───────────────────────────────────────────────

  /** How often an id has posted. */
  function Posts(log: seq<Post>, id: nat): nat {
    if log == [] then 0 else Posts(log[..|log| - 1], id) + if log[|log| - 1].id == id then 1 else 0
  }

  /** The post left its booking armed, for an instant no later than `at`. */
  predicate ArmedBy(p: Post, at: nat) {
    p.next.Some? && p.next.value <= at
  }

  /** An id posts again only from the instant its last post re-armed it for on, and
      its live booking is at that instant or past it, and has counted its posts. */
  ghost predicate Spaced(s: State) {
    && (forall j, k | 0 <= j < k < |s.log| && s.log[j].id == s.log[k].id :: ArmedBy(s.log[j], s.log[k].at))
    && (forall l, k | l in s.timers && l in s.bookings && 0 <= k < |s.log| && s.log[k].id == s.timers[l].id ::
          ArmedBy(s.log[k], s.bookings[l].next))
    && (forall l | l in s.timers && l in s.bookings :: s.bookings[l].fires == Posts(s.log, s.timers[l].id))
  }

  /** What `Safe` keeps, and rings in label order. */
  ghost predicate Tidy(s: State) {
    Safe(s) && Spaced(s) && Ordered(s.rung)
  }

  lemma {:induction false} NonePosts(log: seq<Post>, id: nat)
    requires forall k | 0 <= k < |log| :: log[k].id != id
    ensures Posts(log, id) == 0
  {
    if log != [] { NonePosts(log[..|log| - 1], id); }
  }

  /** Dropping timers or bookings spaces as before. */
  lemma FewerSpaced(s: State, t: State)
    requires Spaced(s) && t.log == s.log
    requires forall l | l in t.timers && l in t.bookings ::
               l in s.timers && l in s.bookings && t.timers[l].id == s.timers[l].id && t.bookings[l] == s.bookings[l]
    ensures Spaced(t)
  {
  }

  lemma BookSpaced(s: State, name: string, prompt: string, t: Trigger, now: Instant, ok: bool)
    requires Safe(s) && Spaced(s)
    ensures Spaced(Book(s, name, prompt, t, now, ok))
  {
    hide NextAfter;
    var b := Book(s, name, prompt, t, now, ok);
    if b != s {
      forall k | 0 <= k < |s.log| ensures s.log[k].id != s.nextId { assert Rightful(s, s.log[k]); }
      NonePosts(s.log, s.nextId);
    }
  }

  lemma AnsweredPosts(s: State, r: Ring, at: nat, next: Option<nat>)
    requires r.name in s.timers && r.name in s.bookings
    ensures var t := Answered(s, r, at, next);
            if Queued(s.queue, r.id) then t.log == s.log
            else |t.log| == |s.log| + 1 && t.log[..|s.log|] == s.log
                 && t.log[|s.log|].id == r.id && t.log[|s.log|].at == at && t.log[|s.log|].next == next
  {
  }

  /** What a post spaces: the log, whatever becomes of its booking. */
  lemma LogSpaced(s: State, t: State, r: Ring, at: nat)
    requires Spaced(s) && r.name in s.timers && s.timers[r.name].id == r.id && r.name in s.bookings && at >= s.bookings[r.name].next
    requires |t.log| == |s.log| + 1 && t.log[..|s.log|] == s.log && t.log[|s.log|].id == r.id && t.log[|s.log|].at == at
    ensures forall j, k | 0 <= j < k < |t.log| && t.log[j].id == t.log[k].id :: ArmedBy(t.log[j], t.log[k].at)
    ensures forall id :: Posts(t.log, id) == Posts(s.log, id) + if id == r.id then 1 else 0
  {
    forall j, k | 0 <= j < k < |t.log| && t.log[j].id == t.log[k].id ensures ArmedBy(t.log[j], t.log[k].at) {
      assert t.log[j] == s.log[j];
      if k < |s.log| { assert t.log[k] == s.log[k]; } else { assert ArmedBy(s.log[j], s.bookings[r.name].next); }
    }
  }

  lemma OthersKeepTheirIds(s: State, r: Ring, l: string)
    requires Ids(s) && r.name in s.timers && s.timers[r.name].id == r.id && l in s.timers && l != r.name
    ensures s.timers[l].id != r.id
  {
  }

  /** What answering leaves a label with. */
  lemma AnsweredLeaves(s: State, r: Ring, at: nat, next: Option<nat>, l: string)
    requires r.name in s.timers && r.name in s.bookings
    ensures var t := Answered(s, r, at, next);
            l in t.timers && l in t.bookings ==>
              && l in s.timers && l in s.bookings && t.timers[l].id == s.timers[l].id
              && (l != r.name ==> t.bookings[l] == s.bookings[l])
              && (l == r.name ==> next.Some? && t.bookings[l].next == next.value
                                  && t.bookings[l].fires == s.bookings[l].fires + if Queued(s.queue, r.id) then 0 else 1)
  {
  }

  lemma AnsweredSpaced(s: State, r: Ring, at: nat, next: Option<nat>)
    requires Ids(s) && Spaced(s) && r.name in s.timers && s.timers[r.name].id == r.id && r.name in s.bookings && at >= s.bookings[r.name].next
    requires next.Some? ==> next.value >= at
    ensures Spaced(Answered(s, r, at, next))
  {
    hide Answered, Ids, Queued;
    var t, n := Answered(s, r, at, next), |s.log|;
    AnsweredPosts(s, r, at, next);
    if !Queued(s.queue, r.id) { LogSpaced(s, t, r, at); }
    forall l | l in t.timers && l in t.bookings ensures t.bookings[l].fires == Posts(t.log, t.timers[l].id) {
      AnsweredLeaves(s, r, at, next, l);
      if l != r.name { OthersKeepTheirIds(s, r, l); }
    }
    forall l, k | l in t.timers && l in t.bookings && 0 <= k < |t.log| && t.log[k].id == t.timers[l].id
      ensures ArmedBy(t.log[k], t.bookings[l].next)
    {
      AnsweredLeaves(s, r, at, next, l);
      if l != r.name { OthersKeepTheirIds(s, r, l); }
      if k < n {
        assert t.log[k] == s.log[k];
        assert ArmedBy(s.log[k], s.bookings[l].next);
      }
    }
  }

  lemma FireOneSpaced(s: State, r: Ring, now: Instant, ok: bool)
    requires Safe(s) && Spaced(s)
    ensures Spaced(FireOne(s, r, now, ok).0)
  {
    if r.name in s.timers && s.timers[r.name].id == r.id {
      if r.name in s.bookings && Ms(now) >= s.bookings[r.name].next && ok {
        var t := s.timers[r.name].trigger;
        var next := if t.Recurring? then NextAfter(t, now) else None;
        if next.Some? { RecurrencesAdvance(t, now); }
        AnsweredSpaced(s, r, Ms(now), next);
      } else {
        FewerSpaced(s, FireOne(s, r, now, ok).0);
      }
    }
  }

  lemma {:induction false} FireAllSpaced(s: State, rs: seq<Ring>, now: Instant, ok: string -> bool)
    requires Safe(s) && Spaced(s)
    ensures Spaced(FireAll(s, rs, now, ok))
    decreases |rs|
  {
    hide Safe, Spaced, FireOne;
    if rs != [] {
      FireOneIsSafe(s, rs[0], now, ok(rs[0].name));
      FireOneSpaced(s, rs[0], now, ok(rs[0].name));
      var (s1, on) := FireOne(s, rs[0], now, ok(rs[0].name));
      if on { FireAllSpaced(s1, rs[1..], now, ok); }
    }
  }

  lemma DoSpaced(s: State, step: Step)
    requires Safe(s) && Spaced(s)
    ensures Spaced(Do(s, step))
  {
    hide Safe, Spaced;
    match step
    case SBook(name, prompt, t, now, ok) => BookSpaced(s, name, prompt, t, now, ok);
    case SFire(now, ok) =>
      var s1 := s.(rung := []);
      EmptiedTidy(s);
      FireAllSpaced(s1, s.rung, now, ok);
    case _ => FewerSpaced(s, Do(s, step));
  }

  lemma EmptiedTidy(s: State)
    requires Safe(s) && Spaced(s)
    ensures Safe(s.(rung := [])) && Spaced(s.(rung := []))
  {
  }

  lemma NoneOrdered()
    ensures Ordered([])
  {
  }

  lemma DoOrders(s: State, step: Step)
    requires Ordered(s.rung)
    ensures Ordered(Do(s, step).rung)
  {
    hide Ordered, FireOne;
    match step
    case SElapse(name, id) => InsertOrders(s.rung, Ring(name, id));
    case SFire(now, ok) =>
      FireAllKeeps(s.(rung := []), s.rung, now, ok);
      NoneOrdered();
    case _ =>
  }

  lemma {:induction false} StaysTidy(s: State, steps: seq<Step>, t: State)
    requires Tidy(s) && Run(s, steps, t)
    ensures Tidy(t)
    decreases |steps|
  {
    hide Safe, Spaced, Ordered, Do;
    if steps != [] {
      DoIsSafe(s, steps[0]);
      DoSpaced(s, steps[0]);
      DoOrders(s, steps[0]);
      StaysTidy(Do(s, steps[0]), steps[1..], t);
    }
  }

  lemma RunsAreTidy(s: State, steps: seq<Step>, t: State)
    requires Initial(s) && Run(s, steps, t)
    ensures Tidy(t)
  {
    InitialIsSafe(s);
    StaysTidy(s, steps, t);
  }

  /** In every run, whatever rings are stale or repeated: no id posts twice at clocks
      below the instant its earlier post re-armed its booking for, which the live
      booking has reached; and the booking has counted every post under its id. */
  lemma RecurrencesAreSpaced(s: State, steps: seq<Step>, t: State)
    requires Initial(s) && Run(s, steps, t)
    ensures forall j, k | 0 <= j < k < |t.log| && t.log[j].id == t.log[k].id ::
              t.log[j].next.Some? && t.log[j].next.value <= t.log[k].at
    ensures forall l, k | l in t.timers && l in t.bookings && 0 <= k < |t.log| && t.log[k].id == t.timers[l].id ::
              t.log[k].next.Some? && t.log[k].next.value <= t.bookings[l].next
    ensures forall l | l in t.timers && l in t.bookings :: t.bookings[l].fires == Posts(t.log, t.timers[l].id)
  {
    RunsAreTidy(s, steps, t);
  }

  /** From `s` to `t` the queue grew by wakeups, each logged under its id and clock. */
  ghost predicate Grew(s: State, t: State, at: nat) {
    && s.queue <= t.queue && s.log <= t.log && |t.queue| - |s.queue| == |t.log| - |s.log|
    && forall i | |s.queue| <= i < |t.queue| ::
         var p := t.log[i - |s.queue| + |s.log|];
         t.queue[i].Wakeup? && t.queue[i].id == p.id && p.at == at
  }

  lemma FireOneGrows(s: State, r: Ring, now: Instant, ok: bool)
    ensures Grew(s, FireOne(s, r, now, ok).0, Ms(now))
  {
    hide NextAfter, Ms, Text;
  }

  lemma GrewTwice(s: State, m: State, t: State, at: nat)
    requires Grew(s, m, at) && Grew(m, t, at)
    ensures Grew(s, t, at)
  {
    forall i | |s.queue| <= i < |t.queue|
      ensures var p := t.log[i - |s.queue| + |s.log|]; t.queue[i].Wakeup? && t.queue[i].id == p.id && p.at == at
    {
      var k := i - |s.queue| + |s.log|;
      if i < |m.queue| {
        assert t.queue[i] == m.queue[i] && t.log[k] == m.log[k];
      } else {
        assert k == i - |m.queue| + |m.log|;
      }
    }
  }

  /** The posts a fire logs are the wakeups it queues, at its clock. */
  lemma {:induction false} FireLogsWhatItQueues(s: State, rs: seq<Ring>, now: Instant, ok: string -> bool)
    ensures Grew(s, FireAll(s, rs, now, ok), Ms(now))
    decreases |rs|
  {
    hide FireOne, Grew, Ms;
    if rs == [] {
      NoneGrew(s, Ms(now));
    } else {
      var (m, on) := FireOne(s, rs[0], now, ok(rs[0].name));
      FireOneGrows(s, rs[0], now, ok(rs[0].name));
      if on {
        FireLogsWhatItQueues(m, rs[1..], now, ok);
        GrewTwice(s, m, FireAll(m, rs[1..], now, ok), Ms(now));
      }
    }
  }

  lemma NoneGrew(s: State, at: nat)
    ensures Grew(s, s, at)
  {
  }

  /** In every run, after a fire at `now`: a recurring label that was due and rang is
      booked for its next instant, at least a second on, and armed for it. */
  lemma RearmedForLater(start: State, steps: seq<Step>, s: State, now: Instant, ok: string -> bool, l: string)
    requires Initial(start) && Run(start, steps, s)
    requires (forall name :: ok(name)) && l in s.timers && l in s.bookings && s.timers[l].trigger.Recurring?
    requires Waiting(s.rung, l) == Some(s.timers[l].id) && s.bookings[l].next <= Ms(now)
    ensures var t, next := Fire(s, now, ok), NextAfter(s.timers[l].trigger, now);
            && (l in t.bookings <==> next.Some?) && (l in t.timers <==> next.Some?)
            && (next.Some? ==> t.bookings[l].next == next.value && t.timers[l].armed
                               && (t.bookings[l].next >= Ms(now) + 1000 || t.bookings[l].next == Ms(now) == 0))
  {
    hide NextAfter, Run;
    RunsAreTidy(start, steps, s);
    var s1 := s.(rung := []);
    assert Safe(s1);
    FireSettles(s1, s.rung, now, ok, l);
    if NextAfter(s.timers[l].trigger, now).Some? { RecurrencesAdvance(s.timers[l].trigger, now); }
  }
}
