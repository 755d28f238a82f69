/** Cron expressions as text: each field a comma list of ranges with steps. */
module CronText {
  import opened Wrappers
  import opened Text
  import Decimal
  import opened Calendar
  import Cron

  datatype Error =
    | WrongCount(n: nat)
    | EmptyField
    | BadStep(step: string)
    | ZeroStep
    | BadValue(tok: string)
    | OutOfRange(tok: string)
    | Descending(range: string)

  /** The values a part allows: every `step`-th from `lo` up to `hi`. */
  datatype Range = Range(lo: int, hi: int, step: int)

  type Names = seq<(string, int)>

  const MONTHS: Names := [
    ("jan", 1), ("feb", 2), ("mar", 3), ("apr", 4), ("may", 5), ("jun", 6),
    ("jul", 7), ("aug", 8), ("sep", 9), ("oct", 10), ("nov", 11), ("dec", 12)]

  const WEEKDAYS: Names := [("sun", 0), ("mon", 1), ("tue", 2), ("wed", 3), ("thu", 4), ("fri", 5), ("sat", 6)]

  // ── Atoms ────────────────────────────────────────────────────────────────

  /** Digits, after at most one plus sign, up to 255. */
  function ParseU8(tok: string): (r: Option<int>)
    ensures r.Some? ==> 0 <= r.value <= 255
  {
    var digits := if tok != [] && tok[0] == '+' then tok[1..] else tok;
    if digits == [] || !Decimal.AllDigits(digits) || Decimal.Value(digits) > 255 then None
    else Some(Decimal.Value(digits))
  }

  lemma PrintedParses(n: nat)
    requires n <= 255
    ensures ParseU8(Decimal.Print(n)) == Some(n)
  {
    Decimal.ValueOfPrint(n);
    assert Decimal.IsDigit(Decimal.Print(n)[0]);
  }

  function NameValue(names: Names, name: string): Option<int> {
    if names == [] then None
    else if names[0].0 == name then Some(names[0].1)
    else NameValue(names[1..], name)
  }

  function Resolve(tok: string, min: int, max: int, names: Names): Result<int, Error> {
    var t := Trim(tok);
    var v := if ParseU8(t).Some? then ParseU8(t) else NameValue(names, Lower(t));
    match v
    case None => Err(BadValue(t))
    case Some(n) => if n < min || n > max then Err(OutOfRange(t)) else Ok(n)
  }

  // ── Parts ────────────────────────────────────────────────────────────────

  function ParsePart(part: string, min: int, max: int, names: Names): Result<Range, Error> {
    if '/' in part then
      var h := SplitOnce(part, '/');
      match ParseU8(h.after)
      case None => Err(BadStep(h.after))
      case Some(step) => if step == 0 then Err(ZeroStep) else ParseRange(h.before, step, true, min, max, names)
    else ParseRange(part, 1, false, min, max, names)
  }

  function ParseRange(range: string, step: int, open: bool, min: int, max: int, names: Names): Result<Range, Error> {
    if range == "*" then Ascending(range, min, max, step)
    else if '-' in range then
      var h := SplitOnce(range, '-');
      match Resolve(h.before, min, max, names)
      case Err(e) => Err(e)
      case Ok(a) =>
        match Resolve(h.after, min, max, names)
        case Err(e) => Err(e)
        case Ok(b) => Ascending(range, a, b, step)
    else
      match Resolve(range, min, max, names)
      case Err(e) => Err(e)
      case Ok(v) => Ascending(range, v, if open then max else v, step)
  }

  function Ascending(range: string, lo: int, hi: int, step: int): Result<Range, Error> {
    if lo > hi then Err(Descending(range)) else Ok(Range(lo, hi, step))
  }

  lemma RangeIsInside(part: string, min: int, max: int, names: Names)
    requires ParsePart(part, min, max, names).Ok?
    ensures var r := ParsePart(part, min, max, names).value; min <= r.lo <= r.hi <= max && 1 <= r.step <= 255
  {
    if '/' in part {
      var h := SplitOnce(part, '/');
      StepAndBounds(h.before, ParseU8(h.after).value, true, min, max, names);
    } else {
      StepAndBounds(part, 1, false, min, max, names);
    }
  }

  lemma StepAndBounds(range: string, step: int, open: bool, min: int, max: int, names: Names)
    requires ParseRange(range, step, open, min, max, names).Ok?
    ensures var r := ParseRange(range, step, open, min, max, names).value; min <= r.lo <= r.hi <= max && r.step == step
  {
  }

  // ── Steps ────────────────────────────────────────────────────────────────

  /** Reached from `lo` in whole steps. */
  predicate Stepped(lo: int, v: int, step: int)
    decreases v - lo
  {
    v == lo || (step > 0 && v - step >= lo && Stepped(lo, v - step, step))
  }

  predicate Within(v: int, r: Range) {
    r.lo <= v <= r.hi && Stepped(r.lo, v, r.step)
  }

  /** Whole steps, said as division. */
  lemma {:induction false} SteppedDivides(lo: int, v: int, step: int)
    requires step > 0 && lo <= v
    ensures Stepped(lo, v, step) <==> (v - lo) % step == 0
    decreases v - lo
  {
    var q, m := (v - lo) / step, (v - lo) % step;
    if v - lo < step {
      DivUnique(v - lo, step, 0, v - lo);
    } else {
      SteppedDivides(lo, v - step, step);
      assert v - step - lo == step * (q - 1) + m;
      DivUnique(v - step - lo, step, q - 1, m);
    }
  }

  /** Nothing lies between one step and the next. */
  lemma {:induction false} NoneBetween(lo: int, v: int, w: int, step: int)
    requires step > 0 && Stepped(lo, v, step) && lo <= v < w < v + step
    ensures !Stepped(lo, w, step)
    decreases v - lo
  {
    if v > lo { NoneBetween(lo, v - step, w - step, step); }
  }

  /** The stepping loop in eight bits: it sets what the range admits and stops
      rather than wrap. */
  method AddRange(mask: set<int>, r: Range) returns (out: set<int>)
    requires 0 <= r.lo <= r.hi <= 63 && 1 <= r.step <= 255
    ensures forall v :: v in out <==> v in mask || Within(v, r)
  {
    out := mask;
    var v := r.lo;
    while true
      invariant r.lo <= v <= r.hi && Stepped(r.lo, v, r.step)
      invariant forall w :: w in out <==> w in mask || (w < v && Within(w, r))
      decreases r.hi - v
    {
      out := out + {v};
      forall w | v < w < v + r.step ensures !Within(w, r) { NoneBetween(r.lo, v, w, r.step); }
      if v + r.step <= 255 && v + r.step <= r.hi {
        v := v + r.step;
      } else {
        return;
      }
    }
  }

  // ── Fields ───────────────────────────────────────────────────────────────

  type Parsed = Result<Range, Error>

  /** What each part of a field comes to. */
  function Parts(field: string, min: int, max: int, names: Names): (rs: seq<Parsed>)
    ensures rs != []
  {
    ParseAll(Split(field, ','), min, max, names)
  }

  function ParseAll(parts: seq<string>, min: int, max: int, names: Names): (rs: seq<Parsed>)
    ensures |rs| == |parts|
  {
    if parts == [] then [] else [ParsePart(parts[0], min, max, names)] + ParseAll(parts[1..], min, max, names)
  }

  lemma {:induction false} ParseAllAt(parts: seq<string>, min: int, max: int, names: Names, i: nat)
    requires i < |parts|
    ensures ParseAll(parts, min, max, names)[i] == ParsePart(parts[i], min, max, names)
  {
    if i > 0 { ParseAllAt(parts[1..], min, max, names, i - 1); }
  }

  /** Whether some well-formed part admits `v`. */
  predicate Admits(rs: seq<Parsed>, v: int) {
    exists i :: 0 <= i < |rs| && rs[i].Ok? && Within(v, rs[i].value)
  }

  predicate AllParse(rs: seq<Parsed>) {
    forall i | 0 <= i < |rs| :: rs[i].Ok?
  }

  /** `k` is the first part that is malformed. */
  predicate FirstFault(rs: seq<Parsed>, k: int) {
    0 <= k < |rs| && rs[k].Err? && AllParse(rs[..k])
  }

  lemma OneMore(rs: seq<Parsed>, i: nat, v: int)
    requires i < |rs| && rs[i].Ok?
    ensures Admits(rs[..i + 1], v) <==> Admits(rs[..i], v) || Within(v, rs[i].value)
  {
    var now, before := rs[..i + 1], rs[..i];
    assert now[i] == rs[i];
    assert forall j | 0 <= j < i :: now[j] == before[j];
  }

  /** The mask holds what the parts admit, and nothing else. */
  ghost predicate Holds(mask: set<int>, rs: seq<Parsed>) {
    forall v :: v in mask <==> Admits(rs, v)
  }

  lemma HoldsMore(mask: set<int>, out: set<int>, rs: seq<Parsed>, i: nat)
    requires i < |rs| && rs[i].Ok? && Holds(mask, rs[..i])
    requires forall v :: v in out <==> v in mask || Within(v, rs[i].value)
    ensures Holds(out, rs[..i + 1])
  {
    forall v ensures v in out <==> Admits(rs[..i + 1], v) { OneMore(rs, i, v); }
  }

  /** What a field means: bit `v` is set exactly when some part admits it; a field
      with any malformed part is refused with the first such part's fault. */
  ghost predicate FieldMeans(spec: string, min: int, max: int, names: Names, r: Result<set<int>, Error>) {
    var rs := Parts(Trim(spec), min, max, names);
    if Trim(spec) == [] then r == Err(EmptyField)
    else if AllParse(rs) then r.Ok? && Holds(r.value, rs)
    else exists k :: FirstFault(rs, k) && r == Err(rs[k].error)
  }

  /** Add one part's values to the mask. */
  method AddPart(part: string, min: int, max: int, names: Names, mask: set<int>, ghost rs: seq<Parsed>, ghost i: nat) returns (out: Result<set<int>, Error>)
    requires 0 <= min <= max <= 63 && i < |rs| && rs[i] == ParsePart(part, min, max, names)
    requires Holds(mask, rs[..i]) && Inside(mask, min, max)
    ensures rs[i].Err? ==> out == Err(rs[i].error)
    ensures rs[i].Ok? ==> out.Ok? && Holds(out.value, rs[..i + 1]) && Inside(out.value, min, max) && Cron.Inhabited(out.value)
  {
    var parsed := ParsePart(part, min, max, names);
    if parsed.Err? { return Err(parsed.error); }
    RangeIsInside(part, min, max, names);
    var more := AddRange(mask, parsed.value);
    HoldsMore(mask, more, rs, i);
    assert parsed.value.lo in more;
    out := Ok(more);
  }

  predicate Inside(mask: set<int>, min: int, max: int) {
    forall v | v in mask :: min <= v <= max
  }

  method ParseField(spec: string, min: int, max: int, names: Names) returns (r: Result<set<int>, Error>)
    requires 0 <= min <= max <= 63
    ensures FieldMeans(spec, min, max, names, r)
    ensures r.Ok? ==> Cron.Inhabited(r.value) && Inside(r.value, min, max)
  {
    var field := Trim(spec);
    if field == [] { return Err(EmptyField); }
    var parts := Split(field, ',');
    ghost var rs := Parts(field, min, max, names);
    var mask: set<int> := {};
    for i := 0 to |parts|
      invariant AllParse(rs[..i])
      invariant Holds(mask, rs[..i]) && Inside(mask, min, max)
      invariant i > 0 ==> Cron.Inhabited(mask)
    {
      ParseAllAt(parts, min, max, names, i);
      var next := AddPart(parts[i], min, max, names, mask, rs, i);
      if next.Err? {
        FaultIsFirst(spec, min, max, names, i);
        return next;
      }
      AllParseMore(rs, i);
      mask := next.value;
    }
    assert rs[..|parts|] == rs;
    r := Ok(mask);
  }

  lemma AllParseMore(rs: seq<Parsed>, i: nat)
    requires i < |rs| && AllParse(rs[..i]) && rs[i].Ok?
    ensures AllParse(rs[..i + 1])
  {
    assert forall j | 0 <= j < i :: rs[..i + 1][j] == rs[..i][j];
  }

  lemma FaultIsFirst(spec: string, min: int, max: int, names: Names, i: nat)
    requires var rs := Parts(Trim(spec), min, max, names); Trim(spec) != [] && i < |rs| && rs[i].Err? && AllParse(rs[..i])
    ensures FieldMeans(spec, min, max, names, Err(Parts(Trim(spec), min, max, names)[i].error))
  {
    assert FirstFault(Parts(Trim(spec), min, max, names), i);
  }

  // ── The forms a part takes ───────────────────────────────────────────────

  lemma PrintedIsPlain(n: nat, c: char)
    requires !Decimal.IsDigit(c)
    ensures c !in Decimal.Print(n) && Trim(Decimal.Print(n)) == Decimal.Print(n)
  {
    var s := Decimal.Print(n);
    assert Decimal.IsDigit(s[0]) && Decimal.IsDigit(s[|s| - 1]);
    TrimNothing(s);
  }

  lemma NumberResolves(n: nat, min: int, max: int, names: Names)
    requires min <= n <= max <= 255
    ensures Resolve(Decimal.Print(n), min, max, names) == Ok(n)
  {
    PrintedIsPlain(n, '-');
    PrintedParses(n);
  }

  /** The six documented forms over numbers in range. */
  lemma Forms(a: nat, b: nat, n: nat, min: int, max: int, names: Names)
    requires min <= a <= b <= max <= 255 && 1 <= n <= 255
    ensures ParsePart("*", min, max, names) == Ok(Range(min, max, 1))
    ensures ParsePart("*" + "/" + Decimal.Print(n), min, max, names) == Ok(Range(min, max, n))
    ensures ParsePart(Decimal.Print(a), min, max, names) == Ok(Range(a, a, 1))
    ensures ParsePart(Decimal.Print(a) + "/" + Decimal.Print(n), min, max, names) == Ok(Range(a, max, n))
    ensures ParsePart(Decimal.Print(a) + "-" + Decimal.Print(b), min, max, names) == Ok(Range(a, b, 1))
    ensures ParsePart(Decimal.Print(a) + "-" + Decimal.Print(b) + "/" + Decimal.Print(n), min, max, names) == Ok(Range(a, b, n))
    ensures a < b ==> ParsePart(Decimal.Print(b) + "-" + Decimal.Print(a), min, max, names) == Err(Descending(Decimal.Print(b) + "-" + Decimal.Print(a)))
  {
    WholeForms(a, n, min, max, names);
    SpanForm(a, b, min, max, names);
    SpanForm(b, a, min, max, names);
    var span := Decimal.Print(a) + "-" + Decimal.Print(b);
    PrintedParses(n);
    SplitOnceAt(span, '/', Decimal.Print(n));
  }

  lemma WholeForms(a: nat, n: nat, min: int, max: int, names: Names)
    requires min <= a <= max <= 255 && 1 <= n <= 255
    ensures ParsePart("*", min, max, names) == Ok(Range(min, max, 1))
    ensures ParsePart("*" + "/" + Decimal.Print(n), min, max, names) == Ok(Range(min, max, n))
    ensures ParsePart(Decimal.Print(a), min, max, names) == Ok(Range(a, a, 1))
    ensures ParsePart(Decimal.Print(a) + "/" + Decimal.Print(n), min, max, names) == Ok(Range(a, max, n))
  {
    PrintedParses(n);
    PrintedIsPlain(a, '/');
    PrintedIsPlain(a, '-');
    NumberResolves(a, min, max, names);
    SplitOnceAt("*", '/', Decimal.Print(n));
    SplitOnceAt(Decimal.Print(a), '/', Decimal.Print(n));
    assert Decimal.Print(a) != "*" by { assert Decimal.IsDigit(Decimal.Print(a)[0]); }
  }

  lemma SpanForm(a: nat, b: nat, min: int, max: int, names: Names)
    requires min <= a <= max <= 255 && min <= b <= max
    ensures var span := Decimal.Print(a) + "-" + Decimal.Print(b);
            && '/' !in span
            && (forall step, open :: ParseRange(span, step, open, min, max, names) == Ascending(span, a, b, step))
            && ParsePart(span, min, max, names) == Ascending(span, a, b, 1)
  {
    var span := Decimal.Print(a) + "-" + Decimal.Print(b);
    PrintedIsPlain(a, '/');
    PrintedIsPlain(b, '/');
    PrintedIsPlain(a, '-');
    NumberResolves(a, min, max, names);
    NumberResolves(b, min, max, names);
    SplitOnceAt(Decimal.Print(a), '-', Decimal.Print(b));
    assert span != "*" by { assert Decimal.IsDigit(span[0]); }
  }

  predicate Letters(s: string) {
    s != [] && forall i | 0 <= i < |s| :: 'a' <= s[i] <= 'z'
  }

  /** Distinct, lower-case names. */
  predicate Lexicon(names: Names) {
    && (forall k | 0 <= k < |names| :: Letters(names[k].0))
    && (forall j, k | 0 <= j < k < |names| :: names[j].0 != names[k].0)
  }

  lemma TheMonthsAreALexicon()
    ensures Lexicon(MONTHS)
  {
    forall j, k | 0 <= j < k < |MONTHS| ensures MONTHS[j].0 != MONTHS[k].0 {
      assert MONTHS[j].0[1] != MONTHS[k].0[1] || MONTHS[j].0[2] != MONTHS[k].0[2];
    }
  }

  lemma TheNamesAreALexicon()
    ensures Lexicon(MONTHS) && Lexicon(WEEKDAYS)
  {
    TheMonthsAreALexicon();
  }

  lemma {:induction false} LowerAt(s: string, i: nat)
    requires i < |s|
    ensures Lower(s)[i] == if 'A' <= s[i] <= 'Z' then s[i] + ' ' else s[i]
  {
    if i > 0 { LowerAt(s[1..], i - 1); }
  }

  lemma {:induction false} NameValueAt(names: Names, k: nat)
    requires k < |names| && forall j, l | 0 <= j < l < |names| :: names[j].0 != names[l].0
    ensures NameValue(names, names[k].0) == Some(names[k].1)
  {
    if k > 0 {
      assert names[0].0 != names[k].0;
      NameValueAt(names[1..], k - 1);
    }
  }

  /** A month or a weekday is read in any mixture of cases. */
  lemma NamesInAnyCase(names: Names, k: nat, tok: string, min: int, max: int)
    requires (names == MONTHS || names == WEEKDAYS) && k < |names| && Lower(tok) == names[k].0 && min <= names[k].1 <= max
    ensures Resolve(tok, min, max, names) == Ok(names[k].1)
  {
    TheNamesAreALexicon();
    assert Letters(Lower(tok));
    LowerAt(tok, 0);
    LowerAt(tok, |tok| - 1);
    TrimNothing(tok);
    assert !Decimal.IsDigit(tok[0]) && tok[0] != '+';
    NameValueAt(names, k);
  }

  // ── Expressions ──────────────────────────────────────────────────────────

  /** Seven is a second spelling of Sunday. */
  ghost predicate FoldsSunday(raw: set<int>, dow: set<int>) {
    forall v :: v in dow <==> v != 7 && (v in raw || (v == 0 && 7 in raw))
  }

  // The fields in order: minute, hour, day of month, month, day of week.

  function Low(i: nat): int { if i == 2 || i == 3 then 1 else 0 }

  function High(i: nat): int { if i == 0 then 59 else if i == 1 then 23 else if i == 2 then 31 else if i == 3 then 12 else 7 }

  function Spelled(i: nat): Names { if i == 3 then MONTHS else if i == 4 then WEEKDAYS else [] }

  /** Field `i` of the expression comes to `r`. */
  ghost predicate Field(w: seq<string>, i: nat, r: Result<set<int>, Error>) {
    i < |w| && FieldMeans(w[i], Low(i), High(i), Spelled(i), r)
  }

  ghost predicate Accepted(w: seq<string>, i: nat) {
    exists mask :: Field(w, i, Ok(mask))
  }

  /** The fields before the refused one were all accepted. */
  ghost predicate FaultAt(w: seq<string>, i: nat, e: Error) {
    Field(w, i, Err(e)) && forall j: nat | j < i :: Accepted(w, j)
  }

  method ParseAt(w: seq<string>, i: nat) returns (r: Result<set<int>, Error>)
    requires i < 5 && |w| == 5
    ensures Field(w, i, r)
    ensures r.Ok? ==> Cron.Inhabited(r.value) && Inside(r.value, Low(i), High(i))
    ensures r.Ok? ==> Accepted(w, i)
    ensures r.Err? && (forall j: nat | j < i :: Accepted(w, j)) ==> FaultAt(w, i, r.error)
  {
    r := ParseField(w[i], Low(i), High(i), Spelled(i));
    assert Field(w, i, r);
  }

  method Fold(raw: set<int>) returns (dow: set<int>)
    requires Cron.Inhabited(raw) && Inside(raw, 0, 7)
    ensures FoldsSunday(raw, dow) && Cron.Inhabited(dow) && Inside(dow, 0, 6)
  {
    dow := if 7 in raw then (raw - {7}) + {0} else raw;
    var some :| some in raw;
    assert (if some == 7 then 0 else some) in dow;
  }

  /** What an accepted expression is parsed to. */
  ghost predicate Reads(w: seq<string>, s: Cron.Schedule) {
    && |w| == 5
    && Field(w, 0, Ok(s.minute)) && Field(w, 1, Ok(s.hour)) && Field(w, 2, Ok(s.dom)) && Field(w, 3, Ok(s.month))
    && (exists raw :: Field(w, 4, Ok(raw)) && FoldsSunday(raw, s.dow))
    && (s.domStar <==> Trim(w[2]) == "*") && (s.dowStar <==> Trim(w[4]) == "*")
  }

  /** Five fields, each read over its own range; the first refused field's fault
      is the expression's. */
  method Parse(expr: string) returns (r: Result<Cron.Schedule, Error>)
    ensures |Words(expr)| != 5 ==> r == Err(WrongCount(|Words(expr)|))
    ensures r.Ok? ==> Cron.Parsed(r.value) && Reads(Words(expr), r.value)
    ensures |Words(expr)| == 5 && r.Err? ==> exists i :: FaultAt(Words(expr), i, r.error)
  {
    var w := Words(expr);
    if |w| != 5 { return Err(WrongCount(|w|)); }
    var minute := ParseAt(w, 0);
    if minute.Err? { return Err(minute.error); }
    var hour := ParseAt(w, 1);
    if hour.Err? { return Err(hour.error); }
    var dom := ParseAt(w, 2);
    if dom.Err? { return Err(dom.error); }
    var month := ParseAt(w, 3);
    if month.Err? { return Err(month.error); }
    var raw := ParseAt(w, 4);
    if raw.Err? { return Err(raw.error); }
    var dow := Fold(raw.value);
    r := Ok(Cron.Schedule(minute.value, hour.value, dom.value, month.value, dow, Trim(w[2]) == "*", Trim(w[4]) == "*"));
  }

  // ── What is spelled what ─────────────────────────────────────────────────

  /** The months count from January, one; the weekdays from Sunday, none. */
  lemma TheNamesMean(tok: string)
    ensures var r := Resolve(tok, 1, 12, MONTHS);
            && (Lower(tok) == "jan" ==> r == Ok(1)) && (Lower(tok) == "feb" ==> r == Ok(2)) && (Lower(tok) == "mar" ==> r == Ok(3))
            && (Lower(tok) == "apr" ==> r == Ok(4)) && (Lower(tok) == "may" ==> r == Ok(5)) && (Lower(tok) == "jun" ==> r == Ok(6))
            && (Lower(tok) == "jul" ==> r == Ok(7)) && (Lower(tok) == "aug" ==> r == Ok(8)) && (Lower(tok) == "sep" ==> r == Ok(9))
            && (Lower(tok) == "oct" ==> r == Ok(10)) && (Lower(tok) == "nov" ==> r == Ok(11)) && (Lower(tok) == "dec" ==> r == Ok(12))
    ensures var r := Resolve(tok, 0, 7, WEEKDAYS);
            && (Lower(tok) == "sun" ==> r == Ok(0)) && (Lower(tok) == "mon" ==> r == Ok(1)) && (Lower(tok) == "tue" ==> r == Ok(2))
            && (Lower(tok) == "wed" ==> r == Ok(3)) && (Lower(tok) == "thu" ==> r == Ok(4)) && (Lower(tok) == "fri" ==> r == Ok(5))
            && (Lower(tok) == "sat" ==> r == Ok(6))
  {
    hide Resolve;
    forall k | 0 <= k < 12 && Lower(tok) == MONTHS[k].0 ensures Resolve(tok, 1, 12, MONTHS) == Ok(k + 1) { NamesInAnyCase(MONTHS, k, tok, 1, 12); }
    forall k | 0 <= k < 7 && Lower(tok) == WEEKDAYS[k].0 ensures Resolve(tok, 0, 7, WEEKDAYS) == Ok(k) { NamesInAnyCase(WEEKDAYS, k, tok, 0, 7); }
    assert MONTHS[0].0 == "jan" && MONTHS[1].0 == "feb" && MONTHS[2].0 == "mar" && MONTHS[3].0 == "apr" && MONTHS[4].0 == "may" && MONTHS[5].0 == "jun";
    assert MONTHS[6].0 == "jul" && MONTHS[7].0 == "aug" && MONTHS[8].0 == "sep" && MONTHS[9].0 == "oct" && MONTHS[10].0 == "nov" && MONTHS[11].0 == "dec";
    assert WEEKDAYS[0].0 == "sun" && WEEKDAYS[1].0 == "mon" && WEEKDAYS[2].0 == "tue" && WEEKDAYS[3].0 == "wed";
    assert WEEKDAYS[4].0 == "thu" && WEEKDAYS[5].0 == "fri" && WEEKDAYS[6].0 == "sat";
  }

  lemma StarField(min: int, max: int, names: Names, mask: set<int>)
    requires 0 <= min <= max <= 255 && FieldMeans("*", min, max, names, Ok(mask))
    ensures forall v :: v in mask <==> min <= v <= max
  {
    TrimNothing("*");
    var rs := Parts("*", min, max, names);
    assert ',' !in "*";
    assert Split("*", ',') == ["*"];
    WholeForms(min, 1, min, max, names);
    assert rs == [Ok(Range(min, max, 1))] by { assert ["*"][1..] == []; }
    assert AllParse(rs);
    forall v ensures v in mask <==> min <= v <= max {
      assert rs[0].Ok?;
      if min <= v <= max {
        SteppedDivides(min, v, 1);
        assert Within(v, rs[0].value);
      }
    }
  }

  /** `* * * * *` allows every value of every field and restricts neither day field. */
  lemma StarsAllowEverything(s: Cron.Schedule)
    requires Reads(["*", "*", "*", "*", "*"], s)
    ensures forall v :: v in s.minute <==> 0 <= v <= 59
    ensures forall v :: v in s.hour <==> 0 <= v <= 23
    ensures forall v :: v in s.dom <==> 1 <= v <= 31
    ensures forall v :: v in s.month <==> 1 <= v <= 12
    ensures forall v :: v in s.dow <==> 0 <= v <= 6
    ensures s.domStar && s.dowStar
  {
    hide FieldMeans;
    TrimNothing("*");
    StarField(0, 59, [], s.minute);
    StarField(0, 23, [], s.hour);
    StarField(1, 31, [], s.dom);
    StarField(1, 12, MONTHS, s.month);
    var raw :| Field(["*", "*", "*", "*", "*"], 4, Ok(raw)) && FoldsSunday(raw, s.dow);
    StarField(0, 7, WEEKDAYS, raw);
  }

  /** What is refused of a part: a step of none, a step that is no number, a number out
      of its field's range; and a plus sign before a number is taken. */
  lemma RefusedParts(range: string, step: string, n: nat, min: int, max: int, names: Names)
    requires '/' !in range && n <= 255
    ensures ParsePart(range + "/" + "0", min, max, names) == Err(ZeroStep)
    ensures step == "" || (step[0] != '+' && !Decimal.AllDigits(step)) ==> ParsePart(range + "/" + step, min, max, names) == Err(BadStep(step))
    ensures n < min || max < n ==> ParsePart(Decimal.Print(n), min, max, names) == Err(OutOfRange(Decimal.Print(n)))
    ensures min <= n <= max ==> Resolve("+" + Decimal.Print(n), min, max, names) == Ok(n)
  {
    hide Lower, NameValue;
    SplitOnceAt(range, '/', "0");
    SplitOnceAt(range, '/', step);
    PrintedParses(0);
    PrintedParses(n);
    PrintedIsPlain(n, '/');
    PrintedIsPlain(n, '-');
    var p := Decimal.Print(n);
    assert p != "*" by { assert Decimal.IsDigit(p[0]); }
    PlusParses(n);
    assert Decimal.Print(0) == "0";
  }

  lemma PlusParses(n: nat)
    requires n <= 255
    ensures var t := "+" + Decimal.Print(n); Trim(t) == t && ParseU8(t) == Some(n)
  {
    var p := Decimal.Print(n);
    var t := "+" + p;
    assert t[0] == '+' && t[1..] == p && t[|t| - 1] == p[|p| - 1] && Decimal.IsDigit(p[|p| - 1]);
    TrimNothing(t);
    Decimal.ValueOfPrint(n);
  }

  lemma NumberField(n: nat, min: int, max: int, names: Names, mask: set<int>)
    requires 0 <= min <= n <= max <= 255 && FieldMeans(Decimal.Print(n), min, max, names, Ok(mask))
    ensures mask == {n}
  {
    var p := Decimal.Print(n);
    PrintedIsPlain(n, ',');
    var rs := Parts(p, min, max, names);
    assert Split(p, ',') == [p];
    WholeForms(n, 1, min, max, names);
    assert rs == [Ok(Range(n, n, 1))] by { assert [p][1..] == []; }
    assert AllParse(rs);
    forall v ensures v in mask <==> v == n {
      assert rs[0].Ok?;
      if v == n { assert Within(v, rs[0].value); }
    }
  }

  /** A weekday by number: Sunday is none and seven. */
  lemma SundayIsNoneAndSeven(n: nat, s: Cron.Schedule)
    requires n <= 7 && Reads(["*", "*", "*", "*", Decimal.Print(n)], s)
    ensures s.dow == (if n == 7 then {0} else {n}) && s.domStar && !s.dowStar
  {
    hide FieldMeans;
    var w := ["*", "*", "*", "*", Decimal.Print(n)];
    TrimNothing("*");
    PrintedIsPlain(n, '*');
    assert Decimal.Print(n) != "*" by { assert Decimal.IsDigit(Decimal.Print(n)[0]); }
    var raw :| Field(w, 4, Ok(raw)) && FoldsSunday(raw, s.dow);
    assert FieldMeans(Decimal.Print(n), 0, 7, WEEKDAYS, Ok(raw));
    NumberField(n, 0, 7, WEEKDAYS, raw);
    forall v ensures v in s.dow <==> v == if n == 7 then 0 else n { }
  }
}
