/** The next occurrence of a cron schedule, in UTC. */
module Cron {
  import opened Calendar
  import opened Wrappers

  /** One set of allowed values per field, and whether each day field was `*`. */
  datatype Schedule = Schedule(
    minute: set<int>, hour: set<int>, dom: set<int>, month: set<int>, dow: set<int>,
    domStar: bool, dowStar: bool)

  predicate Inhabited(s: set<int>) {
    exists v :: v in s
  }

  /** What a parsed schedule's fields hold. */
  predicate Parsed(s: Schedule) {
    && Inhabited(s.minute) && Inhabited(s.hour) && Inhabited(s.dom) && Inhabited(s.month) && Inhabited(s.dow)
    && (forall v | v in s.minute :: 0 <= v <= 59) && (forall v | v in s.hour :: 0 <= v <= 23)
    && (forall v | v in s.dom :: 1 <= v <= 31) && (forall v | v in s.month :: 1 <= v <= 12)
    && (forall v | v in s.dow :: 0 <= v <= 6)
  }

  datatype DateTime = DateTime(date: Date, hour: int, minute: int, second: int, nano: int)

  /** A minute boundary. */
  datatype Civil = Civil(date: Date, hour: int, minute: int)

  predicate ValidCivil(c: Civil) {
    Valid(c.date) && 0 <= c.hour < 24 && 0 <= c.minute < 60
  }

  predicate ValidDateTime(t: DateTime) {
    ValidCivil(Civil(t.date, t.hour, t.minute)) && 0 <= t.second < 60 && 0 <= t.nano < 1_000_000_000
  }

  function Day(c: Civil): int
    requires ValidCivil(c)
  {
    DayNumber(c.date)
  }

  function Minutes(c: Civil): int
    requires ValidCivil(c)
  {
    1440 * Day(c) + 60 * c.hour + c.minute
  }

  function Nanos(t: DateTime): int
    requires ValidDateTime(t)
  {
    (60 * Minutes(Civil(t.date, t.hour, t.minute)) + t.second) * 1_000_000_000 + t.nano
  }

  /** The latest minute a timestamp can hold. */
  const LAST := Civil(Date(9999, 12, 30), 22, 0)

  predicate TimeMatches(s: Schedule, c: Civil) {
    c.minute in s.minute && c.hour in s.hour
  }

  /** With both day fields restricted, either one matching is enough. */
  predicate DateMatches(s: Schedule, d: Date)
    requires Valid(d)
  {
    && d.month in s.month
    && match (s.domStar, s.dowStar)
       case (true, true) => true
       case (false, true) => d.day in s.dom
       case (true, false) => Weekday(d) in s.dow
       case (false, false) => d.day in s.dom || Weekday(d) in s.dow
  }

  predicate Matches(s: Schedule, c: Civil)
    requires ValidCivil(c)
  {
    TimeMatches(s, c) && DateMatches(s, c.date)
  }

  /** Whole seconds from `t` to the minute boundary, truncated toward zero. */
  function SecondsUntil(t: DateTime, c: Civil): int
    requires ValidDateTime(t) && ValidCivil(c)
  {
    var n := 60_000_000_000 * Minutes(c) - Nanos(t);
    if n >= 0 then n / 1_000_000_000 else -((-n) / 1_000_000_000)
  }

  /** A minute boundary that matches, that a timestamp can hold, and that is at
      least one whole second after `from`. */
  predicate Acceptable(s: Schedule, from: DateTime, c: Civil)
    requires ValidDateTime(from)
  {
    ValidCivil(c) && Matches(s, c) && Minutes(c) <= Minutes(LAST) && SecondsUntil(from, c) > 0
  }

  ghost predicate Least(s: Schedule, from: DateTime, c: Civil)
    requires ValidDateTime(from)
  {
    Acceptable(s, from, c) && NoneBefore(s, from, c)
  }

  ghost predicate NoneBefore(s: Schedule, from: DateTime, c: Civil)
    requires ValidDateTime(from) && ValidCivil(c)
  {
    forall d | Acceptable(s, from, d) :: Minutes(c) <= Minutes(d)
  }

  ghost predicate NoBoundary(s: Schedule, from: DateTime)
    requires ValidDateTime(from)
  {
    forall c :: !Acceptable(s, from, c)
  }

  // ── Minutes ──────────────────────────────────────────────────────────────

  /** Minute counts order the boundaries, and no two share one. */
  lemma MinutesOrder(a: Civil, b: Civil)
    requires ValidCivil(a) && ValidCivil(b)
    ensures a == b <==> Minutes(a) == Minutes(b)
    ensures Minutes(a) <= Minutes(b) ==> Day(a) <= Day(b) && a.date.year <= b.date.year
    ensures Day(a) < Day(b) ==> Minutes(a) < Minutes(b)
  {
    OrdinalsOrder(a.date, b.date);
  }

  function AddMinute(c: Civil): (r: Option<Civil>)
    requires ValidCivil(c)
    ensures r.Some? ==> ValidCivil(r.value)
  {
    if c.minute < 59 then Some(c.(minute := c.minute + 1))
    else if c.hour < 23 then Some(c.(hour := c.hour + 1, minute := 0))
    else Midnight(c)
  }

  /** The midnight that ends the day, unless the calendar ends there. */
  function Midnight(c: Civil): (r: Option<Civil>)
    requires ValidCivil(c)
    ensures r.Some? ==> ValidCivil(r.value)
  {
    var d := NextDay(c.date);
    if d.year > MAX_YEAR then None else Some(Civil(d, 0, 0))
  }

  lemma MidnightCounts(c: Civil)
    requires ValidCivil(c) && c.date.year <= MAX_YEAR
    ensures Midnight(c).Some? ==> Minutes(Midnight(c).value) == 1440 * (Day(c) + 1)
    ensures Midnight(c).None? ==> Minutes(c) > Minutes(LAST)
  {
    NextDayCounts(c.date);
    if Midnight(c).None? {
      assert Earlier(LAST.date, c.date);
      OrdinalsOrder(LAST.date, c.date);
      MinutesOrder(LAST, c);
    }
  }

  lemma AddMinuteCounts(c: Civil)
    requires ValidCivil(c) && c.date.year <= MAX_YEAR
    ensures AddMinute(c).Some? ==> Minutes(AddMinute(c).value) == Minutes(c) + 1
    ensures AddMinute(c).None? ==> Minutes(c) > Minutes(LAST)
  {
    MidnightCounts(c);
  }

  /** The boundary search starts from: the one after `from`'s own minute. */
  lemma AcceptableIsLater(s: Schedule, from: DateTime, c: Civil)
    requires ValidDateTime(from) && Acceptable(s, from, c)
    ensures Minutes(c) > Minutes(Civil(from.date, from.hour, from.minute))
  {
  }

  lemma NoneIsLater(s: Schedule, from: DateTime)
    requires ValidDateTime(from) && Minutes(LAST) <= Minutes(Civil(from.date, from.hour, from.minute))
    ensures NoBoundary(s, from)
  {
    forall c ensures !Acceptable(s, from, c) { if Acceptable(s, from, c) { AcceptableIsLater(s, from, c); } }
  }

  lemma LaterIsAcceptable(s: Schedule, from: DateTime, c: Civil)
    requires ValidDateTime(from) && ValidCivil(c) && Matches(s, c) && Minutes(c) <= Minutes(LAST)
    requires Minutes(c) > Minutes(Civil(from.date, from.hour, from.minute)) + 1
    ensures Acceptable(s, from, c)
  {
  }

  // ── The horizon ──────────────────────────────────────────────────────────

  /** A schedule that matches some date matches one within eight years of any. */
  lemma MatchingDateSoon(s: Schedule, d: Date, y: int) returns (b: Date)
    requires Valid(d) && DateMatches(s, d)
    ensures Valid(b) && DateMatches(s, b) && y < b.year <= y + 8
  {
    if s.domStar && s.dowStar {
      b := Date(y + 1, d.month, 1);
    } else if !s.dowStar && Weekday(d) in s.dow {
      var k := WeekdayInFirstWeek(y + 1, d.month, Weekday(d));
      b := Date(y + 1, d.month, k);
    } else if d.month == 2 && d.day == 29 {
      var z := LeapWithinEight(y);
      b := Date(z, 2, 29);
    } else {
      b := Date(y + 1, d.month, d.day);
    }
  }

  lemma {:induction false} LeastBelow(s: Schedule, from: DateTime, c: Civil) returns (t: Civil)
    requires ValidDateTime(from) && Acceptable(s, from, c)
    ensures Least(s, from, t)
    decreases Minutes(c) - Minutes(Civil(from.date, from.hour, from.minute))
  {
    AcceptableIsLater(s, from, c);
    if Least(s, from, c) {
      t := c;
    } else {
      var d :| Acceptable(s, from, d) && Minutes(d) < Minutes(c);
      AcceptableIsLater(s, from, d);
      t := LeastBelow(s, from, d);
    }
  }

  lemma FindLeast(s: Schedule, from: DateTime) returns (t: Option<Civil>)
    requires ValidDateTime(from)
    ensures t.Some? ==> Least(s, from, t.value)
    ensures t.None? ==> NoBoundary(s, from)
  {
    t := None;
    if exists d :: Acceptable(s, from, d) {
      var d :| Acceptable(s, from, d);
      var c := LeastBelow(s, from, d);
      t := Some(c);
    }
  }

  const HORIZON_DAYS := 366 * 9

  /** The first occurrence is never more than nine years' days away. */
  lemma WithinHorizon(s: Schedule, from: DateTime, start: Civil, t: Civil)
    requires ValidDateTime(from) && ValidCivil(start) && Least(s, from, t)
    requires Minutes(start) == Minutes(Civil(from.date, from.hour, from.minute)) + 1
    ensures Day(t) <= Day(start) + HORIZON_DAYS
  {
    var b := MatchingDateSoon(s, t.date, start.date.year);
    DaysAway(start.date, b);
    if DayNumber(b) < Day(t) {
      var c := Civil(b, t.hour, t.minute);
      assert Earlier(start.date, b);
      OrdinalsOrder(start.date, b);
      MinutesOrder(c, t);
      LaterIsAcceptable(s, from, c);
      assert false;
    }
  }

  /** Strictly between the first day and the day of the first occurrence, no
      date matches: the search crosses those days in one step each. */
  lemma QuietDay(s: Schedule, from: DateTime, start: Civil, t: Civil, d: Date)
    requires ValidDateTime(from) && ValidCivil(start) && Least(s, from, t) && Valid(d)
    requires Minutes(start) == Minutes(Civil(from.date, from.hour, from.minute)) + 1
    requires Day(start) < DayNumber(d) < Day(t)
    ensures !DateMatches(s, d)
  {
    if DateMatches(s, d) {
      var c := Civil(d, t.hour, t.minute);
      MinutesOrder(c, t);
      LaterIsAcceptable(s, from, c);
      assert false;
    }
  }

  // ── The search ───────────────────────────────────────────────────────────

  const MAX_STEPS := 366 * 100 + 1_440

  /** The steps the search can have taken when it stands at `cand`, no later than
      the first occurrence `t`: a day of minutes, a step a day, a day of minutes. */
  predicate OnTrack(start: Civil, cand: Civil, t: Civil, step: int)
    requires ValidCivil(start) && ValidCivil(cand) && ValidCivil(t)
  {
    && Minutes(cand) <= Minutes(t)
    && (Day(cand) == Day(start) ==> step <= Minutes(cand) - Minutes(start))
    && (Day(cand) > Day(start) ==> step <= 1440 + (Day(cand) - Day(start) - 1) + (Minutes(cand) - 1440 * Day(cand)))
    && (Day(start) < Day(cand) < Day(t) ==> Minutes(cand) == 1440 * Day(cand))
  }

  lemma SkipStaysOnTrack(s: Schedule, from: DateTime, start: Civil, cand: Civil, next: Civil, t: Civil, step: int)
    requires ValidDateTime(from) && ValidCivil(start) && ValidCivil(cand) && ValidCivil(next) && Least(s, from, t)
    requires OnTrack(start, cand, t, step) && Day(start) <= Day(cand) && !DateMatches(s, cand.date)
    requires Minutes(next) == 1440 * (Day(cand) + 1)
    ensures OnTrack(start, next, t, step + 1) && Day(start) <= Day(next)
  {
    MinutesOrder(cand, t);
    OrdinalsOrder(cand.date, t.date);
    assert Day(next) == Day(cand) + 1;
  }

  lemma WalkStaysOnTrack(s: Schedule, from: DateTime, start: Civil, cand: Civil, next: Civil, t: Civil, step: int)
    requires ValidDateTime(from) && ValidCivil(start) && ValidCivil(cand) && ValidCivil(next) && Least(s, from, t)
    requires Minutes(start) == Minutes(Civil(from.date, from.hour, from.minute)) + 1
    requires OnTrack(start, cand, t, step) && Day(start) <= Day(cand) && DateMatches(s, cand.date) && !Acceptable(s, from, cand)
    requires Minutes(next) == Minutes(cand) + 1
    ensures OnTrack(start, next, t, step + 1) && Day(start) <= Day(next)
  {
    MinutesOrder(cand, t);
    if Day(start) < Day(cand) < Day(t) { QuietDay(s, from, start, t, cand.date); }
  }

  /** Crossing a day no time of which can match loses nothing. */
  lemma SkippedDay(s: Schedule, from: DateTime, cand: Civil)
    requires ValidDateTime(from) && ValidCivil(cand) && !DateMatches(s, cand.date)
    requires forall d | Acceptable(s, from, d) :: Minutes(cand) <= Minutes(d)
    ensures forall d | Acceptable(s, from, d) :: 1440 * (Day(cand) + 1) <= Minutes(d)
  {
    forall d | Acceptable(s, from, d) ensures 1440 * (Day(cand) + 1) <= Minutes(d) {
      MinutesOrder(cand, d);
      OrdinalsOrder(cand.date, d.date);
    }
  }

  lemma SkippedMinute(s: Schedule, from: DateTime, cand: Civil)
    requires ValidDateTime(from) && ValidCivil(cand) && !Acceptable(s, from, cand)
    requires forall d | Acceptable(s, from, d) :: Minutes(cand) <= Minutes(d)
    ensures forall d | Acceptable(s, from, d) :: Minutes(cand) + 1 <= Minutes(d)
  {
    forall d | Acceptable(s, from, d) ensures Minutes(cand) + 1 <= Minutes(d) {
      MinutesOrder(cand, d);
    }
  }

  /** What holds at the head of every turn: no acceptable boundary has been
      passed, and the one there is will be reached within the cap. */
  ghost predicate Searching(s: Schedule, from: DateTime, start: Civil, cand: Civil, t: Option<Civil>, step: int)
    requires ValidDateTime(from) && ValidCivil(start)
  {
    && ValidCivil(cand) && cand.date.year <= MAX_YEAR && Day(start) <= Day(cand)
    && Minutes(start) == Minutes(Civil(from.date, from.hour, from.minute)) + 1
    && NoneBefore(s, from, cand)
    && (t.None? ==> NoBoundary(s, from))
    && (t.Some? ==> Least(s, from, t.value) && Day(t.value) <= Day(start) + HORIZON_DAYS && OnTrack(start, cand, t.value, step))
  }

  lemma Begin(s: Schedule, from: DateTime, start: Civil) returns (t: Option<Civil>)
    requires ValidDateTime(from) && ValidCivil(start) && start.date.year <= MAX_YEAR
    requires Minutes(start) == Minutes(Civil(from.date, from.hour, from.minute)) + 1
    ensures Searching(s, from, start, start, t, 0)
  {
    forall d | Acceptable(s, from, d) ensures Minutes(start) <= Minutes(d) { AcceptableIsLater(s, from, d); }
    t := FindLeast(s, from);
    if t.Some? { WithinHorizon(s, from, start, t.value); }
  }

  /** Skipping to the next midnight, or off the end of the calendar. */
  lemma Skip(s: Schedule, from: DateTime, start: Civil, cand: Civil, t: Option<Civil>, step: int)
    requires ValidDateTime(from) && ValidCivil(start) && Searching(s, from, start, cand, t, step) && !DateMatches(s, cand.date)
    ensures Midnight(cand).Some? ==> Searching(s, from, start, Midnight(cand).value, t, step + 1)
    ensures Midnight(cand).None? ==> NoBoundary(s, from)
  {
    MidnightCounts(cand);
    SkippedDay(s, from, cand);
    var next := Midnight(cand);
    if next.Some? {
      if t.Some? { SkipStaysOnTrack(s, from, start, cand, next.value, t.value, step); }
      assert Day(next.value) == Day(cand) + 1;
    }
  }

  lemma Walk(s: Schedule, from: DateTime, start: Civil, cand: Civil, t: Option<Civil>, step: int)
    requires ValidDateTime(from) && ValidCivil(start) && Searching(s, from, start, cand, t, step)
    requires DateMatches(s, cand.date) && !Acceptable(s, from, cand)
    ensures AddMinute(cand).Some? ==> Searching(s, from, start, AddMinute(cand).value, t, step + 1)
    ensures AddMinute(cand).None? ==> NoBoundary(s, from)
  {
    AddMinuteCounts(cand);
    SkippedMinute(s, from, cand);
    var next := AddMinute(cand);
    if next.Some? {
      if t.Some? { WalkStaysOnTrack(s, from, start, cand, next.value, t.value, step); }
      MinutesOrder(cand, next.value);
    }
  }

  lemma Found(s: Schedule, from: DateTime, start: Civil, cand: Civil, t: Option<Civil>, step: int)
    requires ValidDateTime(from) && ValidCivil(start) && Searching(s, from, start, cand, t, step)
    requires DateMatches(s, cand.date) && TimeMatches(s, cand) && Minutes(cand) <= Minutes(LAST) && SecondsUntil(from, cand) > 0
    ensures Least(s, from, cand)
  {
  }

  /** The cap is never why the search stops: a day of minutes, the days to the
      horizon and a day of minutes more all fit under it. */
  lemma CapIsNotReached(s: Schedule, from: DateTime, start: Civil, cand: Civil, t: Option<Civil>)
    requires ValidDateTime(from) && ValidCivil(start) && Searching(s, from, start, cand, t, MAX_STEPS)
    ensures NoBoundary(s, from)
  {
    if t.Some? {
      MinutesOrder(cand, t.value);
      assert false;
    }
  }

  /** The day-skipping search finds exactly what a scan of every minute would: the
      first acceptable boundary, and `None` only when there is none. */
  method NextAfter(s: Schedule, from: DateTime) returns (r: Option<Civil>)
    requires ValidDateTime(from) && from.date.year <= MAX_YEAR
    ensures r.Some? ==> Least(s, from, r.value)
    ensures r.None? ==> NoBoundary(s, from)
  {
    var floor := Civil(from.date, from.hour, from.minute);
    AddMinuteCounts(floor);
    var first := AddMinute(floor);
    if first.None? {
      NoneIsLater(s, from);
      return None;
    }
    var cand := first.value;
    ghost var t := Begin(s, from, cand);
    for step := 0 to MAX_STEPS
      invariant Searching(s, from, first.value, cand, t, step)
    {
      var next: Option<Civil>;
      if !DateMatches(s, cand.date) {
        Skip(s, from, first.value, cand, t, step);
        next := Midnight(cand);
      } else if TimeMatches(s, cand) && Minutes(cand) <= Minutes(LAST) && SecondsUntil(from, cand) > 0 {
        Found(s, from, first.value, cand, t, step);
        return Some(cand);
      } else {
        Walk(s, from, first.value, cand, t, step);
        next := AddMinute(cand);
      }
      if next.None? { return None; }
      cand := next.value;
    }
    CapIsNotReached(s, from, first.value, cand, t);
    return None;
  }

  // ── What an answer is ────────────────────────────────────────────────────

  const EVERY_MONTH := {1, 2, 3, 4, 5, 6, 7, 8, 9, 10, 11, 12}

  /** `m h * * w`: the answer is at that time on a day so many days from Thursday the
      first of January 1970, the first such boundary a whole second away, and no more
      than a week and a day on. */
  lemma WeekdayAnswers(s: Schedule, from: DateTime, h: int, m: int, w: int, c: Civil)
    requires ValidDateTime(from) && from.date.year < MAX_YEAR && 0 <= h < 24 && 0 <= m < 60 && 0 <= w < 7
    requires s.domStar && !s.dowStar && s.month == EVERY_MONTH && s.hour == {h} && s.minute == {m} && s.dow == {w}
    requires Least(s, from, c)
    ensures c.hour == h && c.minute == m && (4 + DaysSinceEpoch(c.date)) % 7 == w
    ensures forall e | ValidCivil(e) && e.hour == h && e.minute == m && (4 + DaysSinceEpoch(e.date)) % 7 == w
                       && Minutes(e) <= Minutes(LAST) && SecondsUntil(from, e) > 0 :: Minutes(c) <= Minutes(e)
    ensures DayNumber(from.date) <= Day(c) <= DayNumber(from.date) + 8
  {
    WeekdaysFromTheEpoch(c.date);
    WithinTheWeek(s, from, h, m, w, c);
    forall e | ValidCivil(e) && e.hour == h && e.minute == m && (4 + DaysSinceEpoch(e.date)) % 7 == w
               && Minutes(e) <= Minutes(LAST) && SecondsUntil(from, e) > 0 ensures Minutes(c) <= Minutes(e) {
      WeekdaysFromTheEpoch(e.date);
      assert Acceptable(s, from, e);
    }
  }

  lemma WithinTheWeek(s: Schedule, from: DateTime, h: int, m: int, w: int, c: Civil)
    requires ValidDateTime(from) && 0 <= h < 24 && 0 <= m < 60 && 0 <= w < 7
    requires s.domStar && !s.dowStar && s.month == EVERY_MONTH && s.hour == {h} && s.minute == {m} && s.dow == {w}
    requires Least(s, from, c)
    ensures DayNumber(from.date) <= Day(c) <= DayNumber(from.date) + 8
  {
    var n := DayNumber(from.date);
    var k := 2 + (w - n - 2) % 7;
    var d := DaysOn(from.date, k);
    var q := (w - n - 2) / 7;
    assert n + k == w - 7 * q && w - 7 * q == 7 * (-q) + w;
    DivUnique(n + k, 7, -q, w);
    var e := Civil(d, h, m);
    if Minutes(e) <= Minutes(LAST) {
      LaterIsAcceptable(s, from, e);
      MinutesOrder(c, e);
    }
    MinutesOrder(c, e);
    AcceptableIsLater(s, from, c);
  }

  /** With both day fields restricted a date matches as either alone would have it; a
      `*` leaves the day to the other field. */
  lemma EitherDayField(s: Schedule, d: Date)
    requires Valid(d)
    ensures var (onDay, onWeekday) := (s.(domStar := false, dowStar := true), s.(domStar := true, dowStar := false));
            && (DateMatches(s.(domStar := false, dowStar := false), d) <==> DateMatches(onDay, d) || DateMatches(onWeekday, d))
            && (DateMatches(onDay, d) <==> d.month in s.month && d.day in s.dom)
            && (DateMatches(onWeekday, d) <==> d.month in s.month && (4 + DaysSinceEpoch(d)) % 7 in s.dow)
            && (DateMatches(s.(domStar := true, dowStar := true), d) <==> d.month in s.month)
  {
    WeekdaysFromTheEpoch(d);
  }

  /** `0 9 * 6 mon` from noon of Saturday the 20th of June 2026: nine on the 22nd. */
  lemma TheNextMonday()
    ensures var s := Schedule({0}, {9}, {1}, {6}, {1}, true, false);
            Least(s, DateTime(Date(2026, 6, 20), 12, 0, 0, 0), Civil(Date(2026, 6, 22), 9, 0))
  {
    var s := Schedule({0}, {9}, {1}, {6}, {1}, true, false);
    var from := DateTime(Date(2026, 6, 20), 12, 0, 0, 0);
    var t := Civil(Date(2026, 6, 22), 9, 0);
    assert DayNumber(t.date) == 739_789 && 739_789 == 7 * 105_684 + 1;
    DivUnique(739_789, 7, 105_684, 1);
    OrdinalsOrder(t.date, LAST.date);
    NearBoundary(from, t);
    forall d | Acceptable(s, from, d) ensures Minutes(t) <= Minutes(d) {
      NearBoundary(from, d);
      if DayNumber(d.date) < 739_789 {
        var n := DayNumber(d.date);
        assert n == 739_787 || n == 739_788;
        DivUnique(739_787, 7, 105_683, 6);
        DivUnique(739_788, 7, 105_684, 0);
        assert false;
      }
    }
  }

  // ── When a schedule fires at all ─────────────────────────────────────────

  /** The longest the month is in any year. */
  function LongestMonth(m: int): int
    requires 1 <= m <= 12
  {
    if m == 2 then 29 else MonthLength(1, m)
  }

  /** No date can meet the month and day fields: the weekday field is `*`, the
      day field is not, and every month allowed is too short for every day. */
  predicate Impossible(s: Schedule)
    requires Parsed(s)
  {
    !s.domStar && s.dowStar && forall m, d | m in s.month && d in s.dom :: d > LongestMonth(m)
  }

  lemma PossibleDate(s: Schedule) returns (b: Date)
    requires Parsed(s) && !Impossible(s)
    ensures Valid(b) && DateMatches(s, b)
  {
    if s.domStar && s.dowStar {
      var m := Member(s.month);
      b := Date(1, m, 1);
    } else if !s.dowStar {
      var m := Member(s.month);
      var w := Member(s.dow);
      var k := WeekdayInFirstWeek(1, m, w);
      b := Date(1, m, k);
    } else {
      var m, d :| m in s.month && d in s.dom && d <= LongestMonth(m);
      b := Date(4, m, d);
    }
  }

  /** Away from the end of the calendar, a parsed schedule has a next occurrence
      if and only if some date of the calendar meets its fields at all. */
  lemma FiresUnlessImpossible(s: Schedule, from: DateTime)
    requires Parsed(s) && ValidDateTime(from) && from.date.year <= MAX_YEAR - 10
    ensures (exists c :: Acceptable(s, from, c)) <==> !Impossible(s)
  {
    if !Impossible(s) {
      var d := PossibleDate(s);
      var b := MatchingDateSoon(s, d, from.date.year + 1);
      var h := Member(s.hour);
      var m := Member(s.minute);
      var c := Civil(b, h, m);
      BeforeTheEnd(c);
      NextMinute(from, c);
      LaterIsAcceptable(s, from, c);
    }
  }

  lemma BeforeTheEnd(c: Civil)
    requires ValidCivil(c) && c.date.year < MAX_YEAR
    ensures Minutes(c) <= Minutes(LAST)
  {
    OrdinalsOrder(c.date, LAST.date);
  }

  lemma NextMinute(from: DateTime, c: Civil)
    requires ValidDateTime(from) && ValidCivil(c) && c.date.year > from.date.year + 1
    ensures Minutes(c) > Minutes(Civil(from.date, from.hour, from.minute)) + 1
  {
    var e := Date(from.date.year + 1, 1, 1);
    OrdinalsOrder(from.date, e);
    OrdinalsOrder(e, c.date);
  }

  // ── Strictly after ───────────────────────────────────────────────────────

  /** A match at all after `from`, however soon. */
  predicate Following(s: Schedule, from: DateTime, c: Civil)
    requires ValidDateTime(from)
  {
    ValidCivil(c) && Matches(s, c) && Minutes(c) <= Minutes(LAST) && 60_000_000_000 * Minutes(c) > Nanos(from)
  }

  ghost predicate FirstFollowing(s: Schedule, from: DateTime, c: Civil)
    requires ValidDateTime(from)
  {
    Following(s, from, c) && forall d | Following(s, from, d) :: Minutes(c) <= Minutes(d)
  }

  /** `from` is inside the last second of its minute, and the boundary that ends
      the minute matches. */
  predicate TooNear(s: Schedule, from: DateTime)
    requires ValidDateTime(from) && from.date.year <= MAX_YEAR
  {
    var next := AddMinute(Civil(from.date, from.hour, from.minute));
    from.second == 59 && from.nano > 0 && next.Some? && Matches(s, next.value) && Minutes(next.value) <= Minutes(LAST)
  }

  lemma NearBoundary(from: DateTime, c: Civil)
    requires ValidDateTime(from) && ValidCivil(c)
    ensures SecondsUntil(from, c) > 0 <==> 60_000_000_000 * Minutes(c) - Nanos(from) >= 1_000_000_000
    ensures var m := Minutes(Civil(from.date, from.hour, from.minute));
            && (Minutes(c) > m + 1 ==> SecondsUntil(from, c) > 0)
            && (Minutes(c) == m + 1 ==> (SecondsUntil(from, c) > 0 <==> !(from.second == 59 && from.nano > 0)))
            && (60_000_000_000 * Minutes(c) > Nanos(from) <==> Minutes(c) > m)
  {
  }

  /** What the search answers is the first match strictly after `from` if and only
      if `from` is not within the last second before a match: a sub-second
      `from` there skips the match it should have found. */
  lemma StrictlyAfterUnlessTooNear(s: Schedule, from: DateTime)
    requires ValidDateTime(from) && from.date.year <= MAX_YEAR
    ensures (forall c :: Least(s, from, c) <==> FirstFollowing(s, from, c)) <==> !TooNear(s, from)
  {
    var floor := Civil(from.date, from.hour, from.minute);
    AddMinuteCounts(floor);
    var next := AddMinute(floor);
    if TooNear(s, from) {
      NearBoundary(from, next.value);
      forall d | Following(s, from, d) ensures Minutes(next.value) <= Minutes(d) { NearBoundary(from, d); }
      assert FirstFollowing(s, from, next.value) && !Least(s, from, next.value);
    } else {
      forall c ensures Acceptable(s, from, c) <==> Following(s, from, c) {
        if ValidCivil(c) {
          NearBoundary(from, c);
          if next.Some? { MinutesOrder(c, next.value); }
        }
      }
    }
  }

  /** Half a second before noon on a day it should fire, a daily noon schedule
      for June answers noon of the day after. */
  lemma HalfASecondTooNear()
    ensures var s := Schedule({0}, {12}, {1}, {6}, {0}, true, true);
            var from := DateTime(Date(2026, 6, 20), 11, 59, 59, 500_000_000);
            Following(s, from, Civil(Date(2026, 6, 20), 12, 0)) && Least(s, from, Civil(Date(2026, 6, 21), 12, 0))
  {
    var s := Schedule({0}, {12}, {1}, {6}, {0}, true, true);
    var from := DateTime(Date(2026, 6, 20), 11, 59, 59, 500_000_000);
    var noon, t := Civil(Date(2026, 6, 20), 12, 0), Civil(Date(2026, 6, 21), 12, 0);
    assert AddMinute(Civil(from.date, 11, 59)) == Some(noon);
    OrdinalsOrder(t.date, LAST.date);
    NextDayCounts(noon.date);
    NearBoundary(from, noon);
    NearBoundary(from, t);
    forall d | Acceptable(s, from, d) ensures Minutes(t) <= Minutes(d) {
      NearBoundary(from, d);
      OrdinalsOrder(noon.date, d.date);
      OrdinalsOrder(d.date, t.date);
    }
  }
}
