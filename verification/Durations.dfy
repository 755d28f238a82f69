/** Relative delays as text: a count and one of `s`, `m`, `h`, `d`. */
module Durations {
  import opened Text
  import opened Wrappers
  import Decimal

  const U64_MAX := 0xffff_ffff_ffff_ffff

  datatype Duration = Duration(secs: nat, nanos: nat)

  datatype Error = NoUnit | BadCount | UnknownUnit(text: string) | TooLarge | Zero

  predicate ValidDuration(d: Duration) {
    d.secs <= U64_MAX && d.nanos < 1_000_000_000
  }

  /** The digits the text opens with. */
  function Digits(s: string): (n: nat)
    ensures n <= |s| && Decimal.AllDigits(s[..n]) && (n < |s| ==> !Decimal.IsDigit(s[n]))
  {
    if s == [] || !Decimal.IsDigit(s[0]) then 0
    else
      var n := Digits(s[1..]);
      assert s[..1 + n] == [s[0]] + s[1..][..n];
      1 + n
  }

  function UnitSeconds(unit: string): Option<nat> {
    if unit == "s" then Some(1)
    else if unit == "m" then Some(60)
    else if unit == "h" then Some(3600)
    else if unit == "d" then Some(86_400)
    else None
  }

  function ParseDuration(text: string): Result<Duration, Error> {
    var s := Trim(text);
    var n := Digits(s);
    if n == |s| then Err(NoUnit)
    else if n == 0 || Decimal.Value(s[..n]) > U64_MAX then Err(BadCount)
    else
      var unit := Trim(s[n..]);
      match UnitSeconds(unit)
      case None => Err(UnknownUnit(unit))
      case Some(mult) =>
        var secs := Decimal.Value(s[..n]) * mult;
        if secs > U64_MAX then Err(TooLarge) else if secs == 0 then Err(Zero) else Ok(Duration(secs, 0))
  }

  function FmtDuration(d: Duration): string {
    if d.secs % 86_400 == 0 then Decimal.Print(d.secs / 86_400) + "d"
    else if d.secs % 3600 == 0 then Decimal.Print(d.secs / 3600) + "h"
    else if d.secs % 60 == 0 then Decimal.Print(d.secs / 60) + "m"
    else Decimal.Print(d.secs) + "s"
  }

  /** The digits of a printed number followed by a unit are all of the number. */
  lemma DigitsOfPrinted(n: nat, unit: char)
    requires !Decimal.IsDigit(unit)
    ensures var s := Decimal.Print(n) + [unit]; Digits(s) == |Decimal.Print(n)| && s[..Digits(s)] == Decimal.Print(n) && s[Digits(s)..] == [unit]
  {
    var p := Decimal.Print(n);
    DigitsUpTo(p, [unit]);
    var s := p + [unit];
    assert s[..|p|] == p && s[|p|..] == [unit];
  }

  lemma {:induction false} DigitsUpTo(p: string, rest: string)
    requires Decimal.AllDigits(p) && (rest != [] ==> !Decimal.IsDigit(rest[0]))
    ensures Digits(p + rest) == |p|
  {
    if p == [] {
      assert p + rest == rest;
    } else {
      assert (p + rest)[1..] == p[1..] + rest;
      DigitsUpTo(p[1..], rest);
    }
  }

  lemma PrintedParses(n: nat, unit: char)
    requires unit == 's' || unit == 'm' || unit == 'h' || unit == 'd'
    ensures var mult := UnitSeconds([unit]).value;
            n <= U64_MAX && 0 < n * mult <= U64_MAX ==> ParseDuration(Decimal.Print(n) + [unit]) == Ok(Duration(n * mult, 0))
    ensures n == 0 ==> ParseDuration(Decimal.Print(n) + [unit]) == Err(Zero)
  {
    var p := Decimal.Print(n);
    var s := p + [unit];
    assert s[0] == p[0] && Decimal.IsDigit(p[0]);
    TrimNothing(s);
    TrimNothing([unit]);
    DigitsOfPrinted(n, unit);
    Decimal.ValueOfPrint(n);
  }

  lemma CountTimesUnit(secs: nat, mult: nat, unit: char)
    requires unit == 's' || unit == 'm' || unit == 'h' || unit == 'd'
    requires UnitSeconds([unit]) == Some(mult) && secs % mult == 0 && secs <= U64_MAX
    ensures ParseDuration(Decimal.Print(secs / mult) + [unit]) == if secs == 0 then Err(Zero) else Ok(Duration(secs, 0))
  {
    var n := secs / mult;
    assert n * mult == secs && n <= secs;
    PrintedParses(n, unit);
  }

  lemma FmtParses(d: Duration)
    requires ValidDuration(d)
    ensures ParseDuration(FmtDuration(d)) == if d.secs == 0 then Err(Zero) else Ok(Duration(d.secs, 0))
  {
    if d.secs % 86_400 == 0 { CountTimesUnit(d.secs, 86_400, 'd'); }
    else if d.secs % 3600 == 0 { CountTimesUnit(d.secs, 3600, 'h'); }
    else if d.secs % 60 == 0 { CountTimesUnit(d.secs, 60, 'm'); }
    else { CountTimesUnit(d.secs, 1, 's'); }
  }

  /** Printing then parsing gives the duration back exactly when it is a positive
      whole number of seconds: a fraction is dropped, and `0d` is refused. */
  lemma DurationRoundTrip(d: Duration)
    requires ValidDuration(d)
    ensures ParseDuration(FmtDuration(d)) == Ok(d) <==> d.secs > 0 && d.nanos == 0
  {
    FmtParses(d);
  }

  /** Every accepted text names a positive whole number of seconds, and its count
      and unit multiply to it without overflow. */
  lemma AcceptedDurations(text: string)
    requires ParseDuration(text).Ok?
    ensures var d := ParseDuration(text).value;
            && 0 < d.secs <= U64_MAX && d.nanos == 0
            && ParseDuration(FmtDuration(d)) == Ok(d)
  {
    var d := ParseDuration(text).value;
    FmtParses(d);
  }

  /** A count and a unit, with white space before, between and after. */
  ghost predicate Written(text: string, before: string, count: string, gap: string, unit: char, after: string) {
    && text == before + count + gap + [unit] + after
    && Blank(before) && Blank(gap) && Blank(after) && count != [] && Decimal.AllDigits(count)
    && (unit == 's' || unit == 'm' || unit == 'h' || unit == 'd')
  }

  function Seconds(unit: char): nat {
    match unit case 's' => 1 case 'm' => 60 case 'h' => 60 * 60 case 'd' => 24 * 60 * 60 case _ => 0
  }

  /** A count and a unit are read as their product, and refused only where the count
      or the product is too large, or is nothing. */
  lemma WrittenIsRead(text: string, before: string, count: string, gap: string, unit: char, after: string)
    requires Written(text, before, count, gap, unit, after)
    ensures var n := Decimal.Value(count);
            ParseDuration(text) ==
              if n > 0xffff_ffff_ffff_ffff then Err(BadCount)
              else if n * Seconds(unit) > 0xffff_ffff_ffff_ffff then Err(TooLarge)
              else if n == 0 then Err(Zero)
              else Ok(Duration(n * Seconds(unit), 0))
  {
    hide Digits, TrimStart, TrimEnd, Decimal.Value;
    var s, rest := count + gap + [unit], gap + [unit];
    assert text == before + s + after;
    assert Decimal.IsDigit(s[0]) && !IsSpace(s[0]) && !IsSpace(unit) && s[|s| - 1] == unit;
    TrimTakesTheEnds(before, s, after);
    assert s == count + rest && !Decimal.IsDigit(rest[0]);
    DigitsUpTo(count, rest);
    assert s[..|count|] == count && s[|count|..] == rest;
    assert rest == gap + [unit] + [];
    TrimTakesTheEnds(gap, [unit], []);
  }

  /** And nothing else is read. */
  lemma OnlyWrittenIsRead(text: string) returns (before: string, count: string, gap: string, unit: char, after: string)
    requires ParseDuration(text).Ok?
    ensures Written(text, before, count, gap, unit, after)
  {
    var s := Trim(text);
    before, after := TrimTakesBlanks(text);
    var n := Digits(s);
    count := s[..n];
    var trailing;
    gap, trailing := TrimTakesBlanks(s[n..]);
    unit := Trim(s[n..])[0];
    assert s == count + s[n..];
    after := trailing + after;
    assert text == before + count + gap + [unit] + after;
  }

  /** The unit printed is the coarsest that divides: no coarser one does, and the
      count times the unit is the duration. */
  lemma CoarsestUnit(d: Duration)
    requires ValidDuration(d)
    ensures var s := FmtDuration(d);
            var unit := UnitSeconds(s[|s| - 1..]);
            && unit.Some? && d.secs % unit.value == 0
            && s[..|s| - 1] == Decimal.Print(d.secs / unit.value)
            && forall u, v | UnitSeconds(u) == Some(v) && v > unit.value :: d.secs % v != 0
  {
    var s := FmtDuration(d);
    var unit := s[|s| - 1..];
    assert unit == "d" || unit == "h" || unit == "m" || unit == "s";
    assert s == s[..|s| - 1] + unit;
  }
}
