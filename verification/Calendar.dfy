/** The proleptic Gregorian calendar of ISO 8601, counted in days. */
module Calendar {

  datatype Date = Date(year: int, month: int, day: int)

  const MAX_YEAR := 9999

  predicate Leap(y: int) {
    y % 4 == 0 && (y % 100 != 0 || y % 400 == 0)
  }

  function MonthLength(y: int, m: int): int
    requires 1 <= m <= 12
  {
    if m == 2 then (if Leap(y) then 29 else 28)
    else if m == 4 || m == 6 || m == 9 || m == 11 then 30
    else 31
  }

  predicate Valid(d: Date) {
    1 <= d.month <= 12 && 1 <= d.day <= MonthLength(d.year, d.month)
  }

  /** Days of the year before month `m`; `m` = 13 is the whole year. */
  function DaysBefore(y: int, m: int): int
    requires 1 <= m <= 13
  {
    if m == 1 then 0 else DaysBefore(y, m - 1) + MonthLength(y, m - 1)
  }

  /** Days before the first of January of year `y`, from that of year 1. */
  function YearStart(y: int): int {
    365 * (y - 1) + (y - 1) / 4 - (y - 1) / 100 + (y - 1) / 400
  }

  /** The day's ordinal; the first of January of year 1 is 1. */
  function DayNumber(d: Date): int
    requires 1 <= d.month <= 12
  {
    YearStart(d.year) + DaysBefore(d.year, d.month) + d.day
  }

  /** Sunday is 0. */
  function Weekday(d: Date): int
    requires 1 <= d.month <= 12
  {
    DayNumber(d) % 7
  }

  function NextDay(d: Date): (r: Date)
    requires Valid(d)
    ensures Valid(r)
  {
    if d.day < MonthLength(d.year, d.month) then d.(day := d.day + 1)
    else if d.month < 12 then Date(d.year, d.month + 1, 1)
    else Date(d.year + 1, 1, 1)
  }

  predicate Earlier(a: Date, b: Date) {
    || a.year < b.year
    || (a.year == b.year && a.month < b.month)
    || (a.year == b.year && a.month == b.month && a.day < b.day)
  }

  // ── Years and months ─────────────────────────────────────────────────────

  lemma YearLength(y: int)
    ensures DaysBefore(y, 13) == (if Leap(y) then 366 else 365)
    ensures YearStart(y + 1) == YearStart(y) + DaysBefore(y, 13)
  {
    MonthsAddUp(y);
    Quotient(y, 4);
    Quotient(y, 100);
    Quotient(y, 400);
    LeapByRemainders(y);
  }

  lemma MonthsAddUp(y: int)
    ensures DaysBefore(y, 13) == (if Leap(y) then 366 else 365)
  {
    assert DaysBefore(y, 2) == 31;
    assert DaysBefore(y, 3) == DaysBefore(y, 2) + MonthLength(y, 2);
    assert DaysBefore(y, 5) == DaysBefore(y, 3) + 61;
    assert DaysBefore(y, 7) == DaysBefore(y, 5) + 61;
    assert DaysBefore(y, 9) == DaysBefore(y, 7) + 62;
    assert DaysBefore(y, 11) == DaysBefore(y, 9) + 61;
    assert DaysBefore(y, 13) == DaysBefore(y, 11) + 61;
  }

  /** A multiple of 400 is one of 100, and a multiple of 100 one of 4. */
  lemma LeapByRemainders(y: int)
    ensures y % 400 == 0 ==> y % 100 == 0
    ensures y % 100 == 0 ==> y % 4 == 0
  {
    assert y == 400 * (y / 400) + y % 400 && y == 100 * (y / 100) + y % 100;
    if y % 400 == 0 { DivUnique(y, 100, 4 * (y / 400), 0); }
    if y % 100 == 0 { DivUnique(y, 4, 25 * (y / 100), 0); }
  }

  /** Counting multiples: the count grows by one exactly at a multiple. */
  lemma Quotient(y: int, k: int)
    requires k > 1
    ensures y / k == (y - 1) / k + (if y % k == 0 then 1 else 0)
  {
    var q, r := y / k, y % k;
    assert y == k * q + r;
    if r == 0 {
      assert y - 1 == k * (q - 1) + (k - 1);
      DivUnique(y - 1, k, q - 1, k - 1);
    } else {
      assert y - 1 == k * q + (r - 1);
      DivUnique(y - 1, k, q, r - 1);
    }
  }

  lemma DivUnique(n: int, k: int, q: int, r: int)
    requires k > 0 && 0 <= r < k && n == k * q + r
    ensures n / k == q && n % k == r
  {
    var d := n / k - q;
    assert k * d == r - n % k;
    TimesAtLeast(k, d);
  }

  lemma TimesAtLeast(k: int, d: int)
    requires k > 0
    ensures d > 0 ==> k * d >= k
    ensures d < 0 ==> k * d <= -k
  {
  }

  lemma {:induction false} YearsApart(a: int, b: int)
    requires a <= b
    ensures YearStart(a) + 365 * (b - a) <= YearStart(b) <= YearStart(a) + 366 * (b - a)
    decreases b - a
  {
    if a < b {
      YearLength(a);
      YearsApart(a + 1, b);
    }
  }

  lemma {:induction false} MonthsGrow(y: int, m: int, n: int)
    requires 1 <= m <= n <= 13
    ensures DaysBefore(y, m) <= DaysBefore(y, n)
    ensures m < n ==> DaysBefore(y, m) + MonthLength(y, m) <= DaysBefore(y, n)
    decreases n - m
  {
    if m < n { MonthsGrow(y, m, n - 1); }
  }

  // ── Days ─────────────────────────────────────────────────────────────────

  lemma WithinYear(d: Date)
    requires Valid(d)
    ensures YearStart(d.year) < DayNumber(d) <= YearStart(d.year + 1)
  {
    YearLength(d.year);
    MonthsGrow(d.year, 1, d.month);
    MonthsGrow(d.year, d.month, 13);
  }

  /** The next day is the next ordinal. */
  lemma NextDayCounts(d: Date)
    requires Valid(d)
    ensures DayNumber(NextDay(d)) == DayNumber(d) + 1
  {
    if d.day == MonthLength(d.year, d.month) && d.month == 12 {
      YearLength(d.year);
      assert DaysBefore(d.year, 13) == DaysBefore(d.year, 12) + MonthLength(d.year, 12);
    }
  }

  lemma EarlierCounts(a: Date, b: Date)
    requires Valid(a) && Valid(b) && Earlier(a, b)
    ensures DayNumber(a) < DayNumber(b)
  {
    if a.year < b.year {
      WithinYear(a);
      WithinYear(b);
      YearsApart(a.year + 1, b.year);
    } else if a.month < b.month {
      MonthsGrow(a.year, a.month, b.month);
    }
  }

  /** Ordinals order the dates, and no two dates share one. */
  lemma OrdinalsOrder(a: Date, b: Date)
    requires Valid(a) && Valid(b)
    ensures Earlier(a, b) <==> DayNumber(a) < DayNumber(b)
    ensures a == b <==> DayNumber(a) == DayNumber(b)
  {
    if Earlier(a, b) { EarlierCounts(a, b); }
    if Earlier(b, a) { EarlierCounts(b, a); }
  }

  lemma MultipleOfFour(q: int)
    ensures (4 * q) % 4 == 0
  {
    DivUnique(4 * q, 4, q, 0);
  }

  /** Eight consecutive years always hold a leap year; seven need not. */
  lemma LeapWithinEight(y: int) returns (z: int)
    ensures y < z <= y + 8 && Leap(z)
  {
    var q := y / 4 + 1;
    assert y < 4 * q <= y + 4;
    MultipleOfFour(q);
    MultipleOfFour(q + 1);
    if Leap(4 * q) {
      z := 4 * q;
    } else {
      z := 4 * (q + 1);
      var p := (4 * q) / 100;
      assert 4 * q == 100 * p;
      DivUnique(z, 100, p, 4);
    }
  }

  /** The first week of any month meets every weekday. */
  lemma WeekdayInFirstWeek(y: int, m: int, w: int) returns (d: int)
    requires 1 <= m <= 12 && 0 <= w < 7
    ensures 1 <= d <= 7 && Valid(Date(y, m, d)) && Weekday(Date(y, m, d)) == w
  {
    var base := YearStart(y) + DaysBefore(y, m);
    d := 1 + (w - (base + 1)) % 7;
    var q := (w - (base + 1)) / 7;
    assert base + d == w - 7 * q;
    assert w - 7 * q == 7 * (-q) + w;
    DivUnique(base + d, 7, -q, w);
  }

  // ── Which day is which ───────────────────────────────────────────────────

  const EPOCH := Date(1970, 1, 1)

  /** Days counted from the first of January 1970. */
  function DaysSinceEpoch(d: Date): int
    requires 1 <= d.month <= 12
  {
    DayNumber(d) - DayNumber(EPOCH)
  }

  /** The day after takes the next weekday, Sunday following Saturday. */
  lemma WeekdaySteps(d: Date)
    requires Valid(d)
    ensures Weekday(NextDay(d)) == if Weekday(d) == 6 then 0 else Weekday(d) + 1
  {
    NextDayCounts(d);
    var n := DayNumber(d);
    if n % 7 == 6 { DivUnique(n + 1, 7, n / 7 + 1, 0); } else { DivUnique(n + 1, 7, n / 7, n % 7 + 1); }
  }

  /** The first of January 1970 was a Thursday, and every weekday is counted from it. */
  lemma WeekdaysFromTheEpoch(d: Date)
    requires Valid(d)
    ensures Weekday(EPOCH) == 4
    ensures Weekday(d) == (4 + DaysSinceEpoch(d)) % 7
  {
    assert DayNumber(EPOCH) == 719_163 && 719_163 == 7 * 102_737 + 4;
    var n := DayNumber(d);
    var m := n - 719_159;
    assert m == 7 * (n / 7 - 102_737) + n % 7;
    DivUnique(m, 7, n / 7 - 102_737, n % 7);
  }

  lemma {:induction false} DaysOn(d: Date, k: nat) returns (e: Date)
    requires Valid(d)
    ensures Valid(e) && DayNumber(e) == DayNumber(d) + k
    decreases k
  {
    e := d;
    if k > 0 {
      NextDayCounts(d);
      e := DaysOn(NextDay(d), k - 1);
    }
  }

  /** The months as the calendar has them, and a year of 366 days exactly every fourth,
      but of the hundredth only every fourth. */
  lemma TheCalendar(y: int, m: int)
    requires 1 <= m <= 12
    ensures MonthLength(y, m) == [31, if Leap(y) then 29 else 28, 31, 30, 31, 30, 31, 31, 30, 31, 30, 31][m - 1]
    ensures DayNumber(Date(y + 1, 1, 1)) - DayNumber(Date(y, 1, 1)) == if Leap(y) then 366 else 365
    ensures Leap(4 * y) <==> y % 25 != 0 || y % 100 == 0
    ensures !Leap(2 * y + 1) && !Leap(4 * y + 2)
  {
    YearLength(y);
    DivUnique(4 * y, 4, y, 0);
    DivUnique(4 * y, 100, y / 25, 4 * (y % 25));
    DivUnique(4 * y, 400, y / 100, 4 * (y % 100));
    DivUnique(4 * y + 2, 4, y, 2);
    DivUnique(2 * y + 1, 4, y / 2, 2 * (y % 2) + 1);
  }

  /** A date in the year `k` years on is at most `366 * (k + 1)` days away. */
  lemma DaysAway(a: Date, b: Date)
    requires Valid(a) && Valid(b) && a.year <= b.year
    ensures DayNumber(b) - DayNumber(a) <= 366 * (b.year - a.year + 1)
  {
    WithinYear(a);
    WithinYear(b);
    YearsApart(a.year, b.year + 1);
  }

  /** Some member of a set that has one. */
  lemma Member(s: set<int>) returns (x: int)
    requires exists y :: y in s
    ensures x in s
  {
    x :| x in s;
  }
}
