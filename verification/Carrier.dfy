/** The front end's side of a dispatch: draining events to the run's own report,
    striking it as its scope is cancelled, and hearing interrupts that lag. */
module Carrier {
  import opened Wrappers

  type Value = string

  datatype Event = Surface(v: Value) | Enquiry(eid: nat, req: Value) | Reading(v: Value) | Report(r: Value)

  datatype Severed = Refused(why: string) | Ended(why: string) | Silent(secs: nat) | Faulted(why: string)

  const BROKE_PROTOCOL := Faulted("it answered a dispatch with a probe's reading")

  /** What a receive comes to: an event under some dispatch, a slice that passed
      with none, or the closed stream.  `noted` is a severance another thread had
      recorded by then; a stream closes only after its reader recorded one. */
  datatype Arrival =
    | Got(did: nat, event: Event, noted: Option<Severed>)
    | Slice(noted: Option<Severed>)
    | Closed(cause: Severed)

  datatype Verdict = Reported(r: Value) | Cut(cause: Severed) | Waiting

  // ── What a dispatch should see ───────────────────────────────────────────

  /** The report or reading that ends the dispatch, or the closed stream. */
  predicate Terminal(a: Arrival, id: nat) {
    a.Closed? || (a.Got? && a.did == id && (a.event.Reading? || a.event.Report?))
  }

  function TerminalAt(stream: seq<Arrival>, id: nat): (i: nat)
    ensures i <= |stream|
    ensures i < |stream| ==> Terminal(stream[i], id)
    ensures forall j | 0 <= j < i :: !Terminal(stream[j], id)
  {
    if stream == [] || Terminal(stream[0], id) then 0 else 1 + TerminalAt(stream[1..], id)
  }

  function SurfacedBy(a: Arrival, id: nat): seq<Value> {
    if a.Got? && a.did == id && a.event.Surface? then [a.event.v] else []
  }

  /** The values surfaced under `id`, in arrival order. */
  function Surfaces(stream: seq<Arrival>, id: nat): seq<Value> {
    if stream == [] then [] else Surfaces(stream[..|stream| - 1], id) + SurfacedBy(stream[|stream| - 1], id)
  }

  datatype Answer = Answer(eid: nat, answer: Value)

  function AnsweredTo(a: Arrival, id: nat, host: Value -> Value): seq<Answer> {
    if a.Got? && a.did == id && a.event.Enquiry? then [Answer(a.event.eid, host(a.event.req))] else []
  }

  /** One answer for each enquiry under `id`, in arrival order, under its own id. */
  function Answers(stream: seq<Arrival>, id: nat, host: Value -> Value): seq<Answer> {
    if stream == [] then [] else Answers(stream[..|stream| - 1], id, host) + AnsweredTo(stream[|stream| - 1], id, host)
  }

  function Noted(a: Arrival): Option<Severed> {
    if a.Closed? then Some(a.cause) else a.noted
  }

  function Latched(first: Option<Severed>, a: Arrival): Option<Severed> {
    if first.Some? then first else Noted(a)
  }

  /** The severance that stands: the first one recorded. */
  function Standing(first: Option<Severed>, stream: seq<Arrival>): Option<Severed> {
    if stream == [] then first else Latched(Standing(first, stream[..|stream| - 1]), stream[|stream| - 1])
  }

  /** How a terminal arrival ends the dispatch: its own report, or the severance
      that stands, a reading being one itself. */
  function EndOf(a: Arrival, standing: Option<Severed>): Verdict {
    if a.Got? && a.event.Report? then Reported(a.event.r)
    else if standing.Some? then Cut(standing.value)
    else Cut(BROKE_PROTOCOL)
  }

  function VerdictOf(stream: seq<Arrival>, id: nat): Verdict {
    var i := TerminalAt(stream, id);
    if i == |stream| then Waiting else EndOf(stream[i], Standing(None, stream[..i + 1]))
  }

  // ── In order, each once ──────────────────────────────────────────────────

  /** The `i`-th arrival is a surface under `id`, or an enquiry. */
  predicate Is(stream: seq<Arrival>, id: nat, enquiry: bool, i: int) {
    0 <= i < |stream| && stream[i].Got? && stream[i].did == id && if enquiry then stream[i].event.Enquiry? else stream[i].event.Surface?
  }

  /** The indices below `n` of the surfaces under `id`, or of the enquiries, ascending. */
  ghost predicate Picks(at: seq<nat>, n: nat, stream: seq<Arrival>, id: nat, enquiry: bool) {
    && (forall i, j | 0 <= i < j < |at| :: at[i] < at[j])
    && (forall i | 0 <= i < |at| :: at[i] < n && Is(stream, id, enquiry, at[i]))
    && (forall i | 0 <= i < n && Is(stream, id, enquiry, i) :: i in at)
  }

  lemma PicksMore(at: seq<nat>, n: nat, stream: seq<Arrival>, id: nat, enquiry: bool) returns (more: seq<nat>)
    requires Picks(at, n, stream, id, enquiry)
    ensures Picks(more, n + 1, stream, id, enquiry) && more == at + if Is(stream, id, enquiry, n) then [n] else []
  {
    more := at + if Is(stream, id, enquiry, n) then [n] else [];
    forall i | 0 <= i < n + 1 && Is(stream, id, enquiry, i) ensures i in more {
      if i == n { assert more[|at|] == n; }
    }
  }

  /** What is surfaced is the value of each surface under `id`, in order. */
  lemma {:induction false} SurfacesInOrder(stream: seq<Arrival>, n: nat, id: nat) returns (at: seq<nat>)
    requires n <= |stream|
    ensures Picks(at, n, stream, id, false) && |Surfaces(stream[..n], id)| == |at|
    ensures forall j | 0 <= j < |at| :: Surfaces(stream[..n], id)[j] == stream[at[j]].event.v
  {
    if n == 0 { return []; }
    var less := SurfacesInOrder(stream, n - 1, id);
    assert stream[..n][..n - 1] == stream[..n - 1];
    at := PicksMore(less, n - 1, stream, id, false);
  }

  /** Each enquiry under `id` is answered once, in order, under its own id and with
      what the host said to it. */
  lemma {:induction false} AnswersInOrder(stream: seq<Arrival>, n: nat, id: nat, host: Value -> Value) returns (at: seq<nat>)
    requires n <= |stream|
    ensures Picks(at, n, stream, id, true) && |Answers(stream[..n], id, host)| == |at|
    ensures forall j | 0 <= j < |at| ::
              Answers(stream[..n], id, host)[j] == Answer(stream[at[j]].event.eid, host(stream[at[j]].event.req))
  {
    if n == 0 { return []; }
    var less := AnswersInOrder(stream, n - 1, id, host);
    assert stream[..n][..n - 1] == stream[..n - 1];
    at := PicksMore(less, n - 1, stream, id, true);
  }

  /** The severance that stands is the first noted or closed with. */
  lemma {:induction false} StandingIsFirst(stream: seq<Arrival>, n: nat)
    requires n <= |stream|
    ensures if forall i | 0 <= i < n :: !stream[i].Closed? && stream[i].noted.None? then Standing(None, stream[..n]) == None
            else exists i | 0 <= i < n ::
                   && (forall j | 0 <= j < i :: !stream[j].Closed? && stream[j].noted.None?)
                   && Standing(None, stream[..n]) == (if stream[i].Closed? then Some(stream[i].cause) else stream[i].noted)
                   && Standing(None, stream[..n]).Some?
  {
    if n > 0 {
      StandingIsFirst(stream, n - 1);
      assert stream[..n][..n - 1] == stream[..n - 1];
    }
  }

  /** The first report or reading under `id`, or close, ends the dispatch: with the
      report, or cut by the severance that stands, a reading being one where none does. */
  lemma VerdictIsOfTheFirstEnd(stream: seq<Arrival>, id: nat, i: nat)
    requires i < |stream| && forall j | 0 <= j < i :: !stream[j].Closed? && !(stream[j].Got? && stream[j].did == id && (stream[j].event.Report? || stream[j].event.Reading?))
    ensures stream[i].Got? && stream[i].did == id && stream[i].event.Report? ==> VerdictOf(stream, id) == Reported(stream[i].event.r)
    ensures stream[i].Closed? || (stream[i].Got? && stream[i].did == id && stream[i].event.Reading?) ==>
              VerdictOf(stream, id).Cut?
              && (if forall j | 0 <= j <= i :: !stream[j].Closed? && stream[j].noted.None?
                  then VerdictOf(stream, id).cause == Faulted("it answered a dispatch with a probe's reading")
                  else Standing(None, stream[..i + 1]) == Some(VerdictOf(stream, id).cause))
  {
    StandingIsFirst(stream, i + 1);
    if Terminal(stream[i], id) {
      var n := TerminalAt(stream, id);
      assert n == i;
    }
  }

  /** What one more arrival adds. */
  lemma Extended(stream: seq<Arrival>, k: nat, id: nat, host: Value -> Value)
    requires k < |stream|
    ensures Surfaces(stream[..k + 1], id) == Surfaces(stream[..k], id) + SurfacedBy(stream[k], id)
    ensures Answers(stream[..k + 1], id, host) == Answers(stream[..k], id, host) + AnsweredTo(stream[k], id, host)
    ensures Standing(None, stream[..k + 1]) == Latched(Standing(None, stream[..k]), stream[k])
  {
    assert stream[..k + 1][..k] == stream[..k];
  }

  // ── Frames of other dispatches ───────────────────────────────────────────

  lemma {:induction false} SurfacesAppend(a: seq<Arrival>, b: seq<Arrival>, id: nat)
    ensures Surfaces(a + b, id) == Surfaces(a, id) + Surfaces(b, id)
    decreases |b|
  {
    if b == [] {
      assert a + b == a;
    } else {
      SurfacesAppend(a, b[..|b| - 1], id);
      assert (a + b)[..|a + b| - 1] == a + b[..|b| - 1];
    }
  }

  lemma {:induction false} AnswersAppend(a: seq<Arrival>, b: seq<Arrival>, id: nat, host: Value -> Value)
    ensures Answers(a + b, id, host) == Answers(a, id, host) + Answers(b, id, host)
    decreases |b|
  {
    if b == [] {
      assert a + b == a;
    } else {
      AnswersAppend(a, b[..|b| - 1], id, host);
      assert (a + b)[..|a + b| - 1] == a + b[..|b| - 1];
    }
  }

  lemma {:induction false} StandingAppend(first: Option<Severed>, a: seq<Arrival>, b: seq<Arrival>)
    ensures Standing(first, a + b) == Standing(Standing(first, a), b)
    decreases |b|
  {
    if b == [] {
      assert a + b == a;
    } else {
      StandingAppend(first, a, b[..|b| - 1]);
      assert (a + b)[..|a + b| - 1] == a + b[..|b| - 1];
    }
  }

  lemma {:induction false} TerminalAppend(a: seq<Arrival>, b: seq<Arrival>, id: nat)
    ensures TerminalAt(a + b, id) == if TerminalAt(a, id) < |a| then TerminalAt(a, id) else |a| + TerminalAt(b, id)
  {
    if a == [] {
      assert a + b == b;
    } else {
      assert (a + b)[1..] == a[1..] + b;
      TerminalAppend(a[1..], b, id);
    }
  }

  predicate Late(a: Arrival, id: nat) {
    a.Got? && a.did != id && a.noted == None
  }

  lemma SameSurfaces(a: seq<Arrival>, late: Arrival, b: seq<Arrival>, id: nat)
    requires Late(late, id)
    ensures Surfaces(a + [late] + b, id) == Surfaces(a + b, id)
  {
    assert [late][..0] == [];
    assert Surfaces([late], id) == [];
    SurfacesAppend(a, [late], id);
    SurfacesAppend(a + [late], b, id);
    SurfacesAppend(a, b, id);
  }

  lemma SameAnswers(a: seq<Arrival>, late: Arrival, b: seq<Arrival>, id: nat, host: Value -> Value)
    requires Late(late, id)
    ensures Answers(a + [late] + b, id, host) == Answers(a + b, id, host)
  {
    assert [late][..0] == [];
    assert Answers([late], id, host) == [];
    AnswersAppend(a, [late], id, host);
    AnswersAppend(a + [late], b, id, host);
    AnswersAppend(a, b, id, host);
  }

  lemma SameStanding(a: seq<Arrival>, late: Arrival, b: seq<Arrival>, id: nat)
    requires Late(late, id)
    ensures Standing(None, a + [late] + b) == Standing(None, a + b)
  {
    assert [late][..0] == [];
    StandingAppend(None, a, [late]);
    StandingAppend(None, a + [late], b);
    StandingAppend(None, a, b);
  }

  /** Where the dispatch ends, with the late frame and without. */
  lemma SameEnd(a: seq<Arrival>, late: Arrival, b: seq<Arrival>, id: nat)
    requires Late(late, id)
    ensures var i, j := TerminalAt(a + [late] + b, id), TerminalAt(a + b, id);
            if j < |a| then i == j else i == j + 1
  {
    TerminalAppend(a, b, id);
    TerminalAppend(a, [late] + b, id);
    TerminalAppend([late], b, id);
    assert a + [late] + b == a + ([late] + b);
  }

  lemma EarlyEnd(a: seq<Arrival>, late: Arrival, b: seq<Arrival>, j: nat)
    requires j < |a|
    ensures (a + [late] + b)[..j] == (a + b)[..j] && (a + [late] + b)[..j + 1] == (a + b)[..j + 1]
  {
  }

  lemma LateEnd(a: seq<Arrival>, late: Arrival, b: seq<Arrival>, j: nat)
    requires |a| <= j <= |a + b|
    ensures (a + [late] + b)[..j + 1] == a + [late] + b[..j - |a|] && (a + b)[..j] == a + b[..j - |a|]
    ensures j < |a + b| ==>
              (a + [late] + b)[..j + 2] == a + [late] + b[..j + 1 - |a|] && (a + b)[..j + 1] == a + b[..j + 1 - |a|]
              && (a + [late] + b)[j + 1] == (a + b)[j]
  {
  }

  // ── Strikes ──────────────────────────────────────────────────────────────

  /** The strongest of the first `n` causes polled: 0 is none. */
  function Peak(cause: nat -> nat, n: nat): nat {
    if n == 0 then 0
    else
      var p := Peak(cause, n - 1);
      if cause(n - 1) > p then cause(n - 1) else p
  }

  /** Those of the first `n` stronger than every one before. */
  function Rises(cause: nat -> nat, n: nat): seq<nat> {
    if n == 0 then []
    else Rises(cause, n - 1) + if cause(n - 1) > Peak(cause, n - 1) then [cause(n - 1)] else []
  }

  lemma {:induction false} PeakTops(cause: nat -> nat, n: nat)
    ensures forall i | 0 <= i < n :: cause(i) <= Peak(cause, n)
  {
    if n > 0 { PeakTops(cause, n - 1); }
  }

  /** Strictly increasing from above none, up to the last. */
  predicate Climbing(rises: seq<nat>, peak: nat) {
    && (forall i, j | 0 <= i < j < |rises| :: rises[i] < rises[j])
    && (forall i | 0 <= i < |rises| :: 0 < rises[i] <= peak)
    && (if rises == [] then peak == 0 else rises[|rises| - 1] == peak)
  }

  lemma OneRise(rises: seq<nat>, peak: nat, next: nat)
    requires Climbing(rises, peak) && next > peak
    ensures Climbing(rises + [next], next)
  {
  }

  /** The causes struck strictly increase, none is no cause, and the last is the
      strongest the scope ever showed. */
  lemma {:induction false} RisesIncrease(cause: nat -> nat, n: nat)
    ensures Climbing(Rises(cause, n), Peak(cause, n)) && forall i | 0 <= i < n :: cause(i) <= Peak(cause, n)
  {
    PeakTops(cause, n);
    if n > 0 {
      RisesIncrease(cause, n - 1);
      if cause(n - 1) > Peak(cause, n - 1) { OneRise(Rises(cause, n - 1), Peak(cause, n - 1), cause(n - 1)); }
    }
  }

  /** The polls `more` are the polls `cause` with another at `k`. */
  ghost predicate OneMore(cause: nat -> nat, more: nat -> nat, k: nat) {
    (forall i: nat | i < k :: more(i) == cause(i)) && (forall i: nat | i > k :: more(i) == cause(i - 1))
  }

  lemma PollStep(cause: nat -> nat, n: nat)
    ensures Peak(cause, n + 1) == if cause(n) > Peak(cause, n) then cause(n) else Peak(cause, n)
    ensures Rises(cause, n + 1) == Rises(cause, n) + if cause(n) > Peak(cause, n) then [cause(n)] else []
  {
  }

  lemma {:induction false} SamePolls(cause: nat -> nat, more: nat -> nat, k: nat, n: nat)
    requires OneMore(cause, more, k) && n <= k
    ensures Peak(more, n) == Peak(cause, n) && Rises(more, n) == Rises(cause, n)
  {
    if n > 0 {
      SamePolls(cause, more, k, n - 1);
      PollStep(cause, n - 1);
      PollStep(more, n - 1);
      assert more(n - 1) == cause(n - 1);
    }
  }

  /** A poll that shows nothing stronger than those before it strikes nothing. */
  lemma {:induction false} IdlePoll(cause: nat -> nat, more: nat -> nat, k: nat, n: nat)
    requires OneMore(cause, more, k) && k <= n && more(k) <= Peak(cause, k)
    ensures Peak(more, n + 1) == Peak(cause, n) && Rises(more, n + 1) == Rises(cause, n)
    decreases n
  {
    PollStep(more, n);
    if k < n {
      IdlePoll(cause, more, k, n - 1);
      PollStep(cause, n - 1);
      assert more(n) == cause(n - 1);
    } else {
      SamePolls(cause, more, k, k);
    }
  }

  // ── A late frame, all told ───────────────────────────────────────────────

  /** A predecessor's late frame, wherever it falls, changes nothing the dispatch
      does: the poll after it aside, which strikes nothing unless its scope then
      shows a stronger cause. */
  lemma LateFramesAreIgnored(a: seq<Arrival>, late: Arrival, b: seq<Arrival>, id: nat, host: Value -> Value, cause: nat -> nat, more: nat -> nat)
    requires Late(late, id) && OneMore(cause, more, |a| + 1) && more(|a| + 1) <= Peak(cause, |a| + 1)
    ensures var with, without := a + [late] + b, a + b;
            && VerdictOf(with, id) == VerdictOf(without, id)
            && Surfaces(with[..TerminalAt(with, id)], id) == Surfaces(without[..TerminalAt(without, id)], id)
            && Answers(with[..TerminalAt(with, id)], id, host) == Answers(without[..TerminalAt(without, id)], id, host)
            && Rises(more, TerminalAt(with, id) + 1) == Rises(cause, TerminalAt(without, id) + 1)
  {
    hide Surfaces, Answers, Standing, Rises, Peak, TerminalAt;
    SameEnd(a, late, b, id);
    var j := TerminalAt(a + b, id);
    if j < |a| {
      EarlyEnd(a, late, b, j);
      SamePolls(cause, more, |a| + 1, j + 1);
    } else {
      IdlePoll(cause, more, |a| + 1, j + 1);
      LateMiddle(a, late, b, j, id, host);
    }
  }

  lemma LateMiddle(a: seq<Arrival>, late: Arrival, b: seq<Arrival>, j: nat, id: nat, host: Value -> Value)
    requires Late(late, id) && |a| <= j <= |a + b|
    ensures var with, without := a + [late] + b, a + b;
            && Surfaces(with[..j + 1], id) == Surfaces(without[..j], id)
            && Answers(with[..j + 1], id, host) == Answers(without[..j], id, host)
            && (j < |without| ==> with[j + 1] == without[j] && Standing(None, with[..j + 2]) == Standing(None, without[..j + 1]))
  {
    hide Surfaces, Answers, Standing;
    LateEnd(a, late, b, j);
    SameSurfaces(a, late, b[..j - |a|], id);
    SameAnswers(a, late, b[..j - |a|], id, host);
    if j < |a + b| { SameStanding(a, late, b[..j + 1 - |a|], id); }
  }

  // ── What the whole dispatch does ─────────────────────────────────────────

  const INTERRUPTED: nat := 2

  /** The strikes, each on `id`. */
  function Aimed(id: nat, causes: seq<nat>): (r: seq<(nat, nat)>)
    ensures |r| == |causes|
  {
    seq(|causes|, i requires 0 <= i < |causes| => (id, causes[i]))
  }

  lemma AimedMore(id: nat, cause: nat -> nat, k: nat)
    requires k > 0
    ensures Aimed(id, Rises(cause, k + 1)) == Aimed(id, Rises(cause, k)) + if cause(k) > Peak(cause, k) then [(id, cause(k))] else []
  {
  }

  /** What a front end has done: shown, answered, struck, and been cut off by. */
  datatype Seen = Seen(surfaced: seq<Value>, answers: seq<Answer>, strikes: seq<(nat, nat)>, severance: Option<Severed>)

  /** The first `k` arrivals, none of them terminal, have been drained. */
  ghost predicate Drained(stream: seq<Arrival>, k: nat, id: nat, host: Value -> Value, cause: nat -> nat, was: Seen, now: Seen) {
    && k <= TerminalAt(stream, id)
    && now.surfaced == was.surfaced + Surfaces(stream[..k], id)
    && now.answers == was.answers + Answers(stream[..k], id, host)
    && now.strikes == was.strikes + Aimed(id, Rises(cause, k + 1))
    && now.severance == Standing(None, stream[..k])
  }

  lemma DrainedNone(stream: seq<Arrival>, id: nat, host: Value -> Value, cause: nat -> nat, was: Seen, now: Seen)
    requires was.severance.None? && now == was.(strikes := was.strikes + if cause(0) > 0 then [(id, cause(0))] else [])
    ensures Drained(stream, 0, id, host, cause, was, now) && Peak(cause, 1) == if cause(0) > 0 then cause(0) else 0
  {
    assert Rises(cause, 0) == [] && Rises(cause, 1) == if cause(0) > 0 then [cause(0)] else [];
  }

  lemma DrainedOne(stream: seq<Arrival>, k: nat, id: nat, host: Value -> Value, cause: nat -> nat, was: Seen, now: Seen, next: Seen)
    requires Drained(stream, k, id, host, cause, was, now) && k < |stream| && !Terminal(stream[k], id)
    requires next.surfaced == now.surfaced + SurfacedBy(stream[k], id) && next.answers == now.answers + AnsweredTo(stream[k], id, host)
    requires next.severance == Latched(now.severance, stream[k])
    requires next.strikes == now.strikes + if cause(k + 1) > Peak(cause, k + 1) then [(id, cause(k + 1))] else []
    ensures Drained(stream, k + 1, id, host, cause, was, next)
  {
    Extended(stream, k, id, host);
    AimedMore(id, cause, k + 1);
  }

  /** What the whole dispatch does, from the stream as it stood. */
  ghost predicate Settled(stream: seq<Arrival>, id: nat, host: Value -> Value, cause: nat -> nat, was: Seen, now: Seen, v: Verdict) {
    var n := TerminalAt(stream, id);
    && v == VerdictOf(stream, id)
    && now.surfaced == was.surfaced + Surfaces(stream[..n], id)
    && now.answers == was.answers + Answers(stream[..n], id, host)
    && now.strikes == was.strikes + Aimed(id, Rises(cause, n + 1))
    && now.severance == if v.Cut? then Some(v.cause) else Standing(None, stream[..if n < |stream| then n + 1 else n])
  }

  lemma DrainedLast(stream: seq<Arrival>, k: nat, id: nat, host: Value -> Value, cause: nat -> nat, was: Seen, now: Seen, next: Seen, v: Verdict)
    requires Drained(stream, k, id, host, cause, was, now) && k < |stream| && Terminal(stream[k], id)
    requires next.surfaced == now.surfaced + SurfacedBy(stream[k], id) && next.answers == now.answers + AnsweredTo(stream[k], id, host)
    requires next.strikes == now.strikes && v == EndOf(stream[k], Latched(now.severance, stream[k]))
    requires next.severance == if v.Cut? then Some(v.cause) else Latched(now.severance, stream[k])
    ensures Settled(stream, id, host, cause, was, next, v) && TerminalAt(stream, id) == k
  {
    Extended(stream, k, id, host);
  }

  lemma DrainedDry(stream: seq<Arrival>, k: nat, id: nat, host: Value -> Value, cause: nat -> nat, was: Seen, now: Seen)
    requires Drained(stream, k, id, host, cause, was, now) && k == |stream|
    ensures Settled(stream, id, host, cause, was, now, Waiting)
  {
  }

  // ── Interrupts that lag ──────────────────────────────────────────────────

  /** The dispatch aimed at, the epoch sampled then, and when that was. */
  datatype Flight = Flight(id: nat, sent: nat, at: nat)

  /** A strike heard: on which dispatch, when it was aimed, when the last interrupt
      before the hearing was raised, and when it was heard. */
  datatype Hit = Hit(id: nat, aimed: nat, raised: nat, heard: nat)

  datatype Ears = Ears(epoch: nat, inFlight: Option<Flight>, clock: nat, raisedAt: nat, hits: seq<Hit>)

  /** Interrupts are raised, heard late and any number of times, and dispatches are
      aimed and settled, in any order. */
  datatype Move = Raise | Hear | Aim(id: nat) | Settle

  function Moved(s: Ears, m: Move): Ears {
    var now := s.clock + 1;
    match m
    case Raise => s.(epoch := s.epoch + 1, raisedAt := now, clock := now)
    case Aim(id) => s.(inFlight := Some(Flight(id, s.epoch, now)), clock := now)
    case Settle => s.(inFlight := None, clock := now)
    case Hear =>
      if s.inFlight.Some? && s.epoch > s.inFlight.value.sent then
        s.(hits := s.hits + [Hit(s.inFlight.value.id, s.inFlight.value.at, s.raisedAt, now)], clock := now)
      else s.(clock := now)
  }

  function MovedAll(s: Ears, ms: seq<Move>): Ears
    decreases |ms|
  {
    if ms == [] then s else MovedAll(Moved(s, ms[0]), ms[1..])
  }

  /** The epoch has passed the sample exactly when an interrupt was raised since. */
  ghost predicate Attuned(s: Ears) {
    && s.raisedAt <= s.clock
    && (s.inFlight.Some? ==> s.inFlight.value.at <= s.clock && s.inFlight.value.sent <= s.epoch
                             && (s.epoch > s.inFlight.value.sent <==> s.raisedAt > s.inFlight.value.at))
    && forall i | 0 <= i < |s.hits| :: s.hits[i].aimed < s.hits[i].raised < s.hits[i].heard
  }

  /** Nothing aimed, raised or heard yet. */
  const QUIET := Ears(0, None, 0, 0, [])

  lemma {:induction false} MovedLast(s: Ears, ms: seq<Move>, m: Move)
    ensures MovedAll(s, ms + [m]) == Moved(MovedAll(s, ms), m)
    decreases |ms|
  {
    if ms == [] {
      assert [m][1..] == [];
    } else {
      assert (ms + [m])[1..] == ms[1..] + [m];
      MovedLast(Moved(s, ms[0]), ms[1..], m);
    }
  }

  /** The `at`-th move aimed at `id`, and none since has aimed or settled. */
  predicate InFlight(ms: seq<Move>, id: nat, at: nat, until: nat) {
    0 < at <= until <= |ms| && ms[at - 1] == Move.Aim(id) && forall k | at <= k < until :: !ms[k].Aim? && !ms[k].Settle?
  }

  /** An interrupt raised while the dispatch was in flight, and heard while it was. */
  predicate Heard(ms: seq<Move>, hit: Hit) {
    && 0 < hit.aimed < hit.raised < hit.heard <= |ms| && InFlight(ms, hit.id, hit.aimed, hit.heard)
    && ms[hit.raised - 1].Raise? && ms[hit.heard - 1].Hear?
  }

  ghost predicate Told(ms: seq<Move>, s: Ears) {
    && Attuned(s) && s.clock == |ms|
    && (s.raisedAt > 0 ==> ms[s.raisedAt - 1].Raise?)
    && (s.inFlight.Some? ==> InFlight(ms, s.inFlight.value.id, s.inFlight.value.at, |ms|))
    && forall i | 0 <= i < |s.hits| :: Heard(ms, s.hits[i])
  }

  lemma StaysHeard(ms: seq<Move>, m: Move, hit: Hit)
    requires Heard(ms, hit)
    ensures Heard(ms + [m], hit)
  {
  }

  lemma ToldMore(ms: seq<Move>, m: Move, s: Ears)
    requires Told(ms, s)
    ensures Told(ms + [m], Moved(s, m))
  {
    var t, more := Moved(s, m), ms + [m];
    forall i | 0 <= i < |t.hits| ensures Heard(more, t.hits[i]) {
      if i < |s.hits| { StaysHeard(ms, m, s.hits[i]); }
    }
  }

  lemma {:induction false} MovesAreTold(ms: seq<Move>)
    ensures Told(ms, MovedAll(QUIET, ms))
    decreases |ms|
  {
    if ms != [] {
      var n := |ms| - 1;
      MovesAreTold(ms[..n]);
      MovedLast(QUIET, ms[..n], ms[n]);
      ToldMore(ms[..n], ms[n], MovedAll(QUIET, ms[..n]));
      assert ms[..n] + [ms[n]] == ms;
    }
  }

  /** In every interleaving, an interrupt heard strikes a dispatch only if one was
      raised after that dispatch was aimed and while it was in flight: one raised at an
      idle prompt never strikes the next. */
  lemma IdleInterruptsStrikeNothing(ms: seq<Move>, i: nat)
    requires i < |MovedAll(QUIET, ms).hits|
    ensures var hit := MovedAll(QUIET, ms).hits[i];
            && 0 < hit.aimed < hit.raised < hit.heard <= |ms|
            && ms[hit.aimed - 1] == Move.Aim(hit.id) && ms[hit.raised - 1].Raise? && ms[hit.heard - 1].Hear?
            && forall k | hit.aimed <= k < hit.heard :: !ms[k].Aim? && !ms[k].Settle?
  {
    MovesAreTold(ms);
    assert Heard(ms, MovedAll(QUIET, ms).hits[i]);
  }

  /** And one raised while a dispatch is in flight is never missed by a hearing
      before it settles. */
  lemma RaisedInFlightIsHeard(ms: seq<Move>)
    requires var s := MovedAll(QUIET, ms); s.inFlight.Some? && s.raisedAt > s.inFlight.value.at
    ensures var s := MovedAll(QUIET, ms); var t := Moved(s, Hear);
            |t.hits| == |s.hits| + 1 && t.hits[|s.hits|].id == s.inFlight.value.id
  {
    MovesAreTold(ms);
  }

  // ── Draining ─────────────────────────────────────────────────────────────

  predicate EndsProbe(a: Arrival, id: nat) {
    a.Closed? || (a.Got? && a.did == id && a.event.Reading?)
  }

  /** Where the probe's own reading is, or the closed stream. */
  function ReadingAt(stream: seq<Arrival>, id: nat): (i: nat)
    ensures i <= |stream|
    ensures i < |stream| ==> EndsProbe(stream[i], id)
    ensures forall j | 0 <= j < i :: !EndsProbe(stream[j], id)
  {
    if stream == [] || EndsProbe(stream[0], id) then 0 else 1 + ReadingAt(stream[1..], id)
  }

  /** The events before the `|carried|`-th are held aside, and the rest still wait. */
  ghost predicate Aside(kept: seq<Arrival>, behind: seq<Arrival>, carried: seq<Arrival>, stash: seq<Arrival>, channel: seq<Arrival>) {
    var n := |carried|;
    && n <= |kept + behind| && carried == (kept + behind)[..n] && stash + channel == (kept + behind)[n..]
    && stash == kept[if n < |kept| then n else |kept|..]
    && (n <= |kept| ==> channel == behind)
  }

  lemma NoneAside(kept: seq<Arrival>, behind: seq<Arrival>)
    ensures Aside(kept, behind, [], kept, behind)
  {
  }

  lemma AsideMore(kept: seq<Arrival>, behind: seq<Arrival>, carried: seq<Arrival>, s: seq<Arrival>, c: seq<Arrival>, a: Arrival, s1: seq<Arrival>, c1: seq<Arrival>)
    requires Aside(kept, behind, carried, s, c) && s + c != [] && a == (s + c)[0] && s1 + c1 == (s + c)[1..]
    requires s1 == (if s == [] then [] else s[1..]) && (s != [] ==> c1 == c)
    ensures |carried| < |kept + behind| && a == (kept + behind)[|carried|] && Aside(kept, behind, carried + [a], s1, c1)
  {
  }

  /** What a probe comes to and leaves waiting: nothing lost, and everything in
      arrival order unless its reading was itself in the stash. */
  ghost predicate Probed(kept: seq<Arrival>, behind: seq<Arrival>, id: nat, reading: Option<Value>, rest: seq<Arrival>) {
    var s := kept + behind;
    var i := ReadingAt(s, id);
    if i == |s| || s[i].Closed? then reading.None? && rest == s
    else
      && reading == Some(s[i].event.v)
      && rest == if i < |kept| then kept[i + 1..] + kept[..i] + behind else s[..i] + s[i + 1..]
  }

  lemma ProbeDry(kept: seq<Arrival>, behind: seq<Arrival>, carried: seq<Arrival>, id: nat)
    requires Aside(kept, behind, carried, [], []) && |carried| <= ReadingAt(kept + behind, id)
    ensures Probed(kept, behind, id, None, carried + [])
  {
  }

  lemma ProbeEnds(kept: seq<Arrival>, behind: seq<Arrival>, carried: seq<Arrival>, a: Arrival, s: seq<Arrival>, c: seq<Arrival>, id: nat)
    requires Aside(kept, behind, carried + [a], s, c) && EndsProbe(a, id) && |carried| <= ReadingAt(kept + behind, id)
    ensures if a.Closed? then Probed(kept, behind, id, None, carried + [a] + (s + c))
            else Probed(kept, behind, id, Some(a.event.v), s + carried + c)
  {
    var i := |carried|;
    assert a == (carried + [a])[i] == (kept + behind)[i];
    assert ReadingAt(kept + behind, id) == i;
    AsideFound(kept, behind, carried, a, s, c);
  }

  /** The reading found, the rest behind it. */
  lemma AsideFound(kept: seq<Arrival>, behind: seq<Arrival>, carried: seq<Arrival>, a: Arrival, s: seq<Arrival>, c: seq<Arrival>)
    requires Aside(kept, behind, carried + [a], s, c)
    ensures var i := |carried|;
            s + carried + c == if i < |kept| then kept[i + 1..] + kept[..i] + behind else (kept + behind)[..i] + (kept + behind)[i + 1..]
    ensures carried + [a] + (s + c) == kept + behind
  {
    var i := |carried|;
    assert carried == (carried + [a])[..i] == (kept + behind)[..i];
    if i < |kept| { assert carried == kept[..i] && s == kept[i + 1..] && c == behind; } else { assert s == [] && c == (kept + behind)[i + 1..]; }
  }

  /** Events a probe read past wait in the stash; the channel is behind them. */
  class Receiver {
    var stash: seq<Arrival>
    var channel: seq<Arrival>

    constructor (arrivals: seq<Arrival>)
      ensures stash == [] && channel == arrivals
    {
      stash, channel := [], arrivals;
    }

    function Stream(): seq<Arrival>
      reads this
    {
      stash + channel
    }

    /** The stash first, in arrival order, then the channel. */
    method Recv() returns (a: Option<Arrival>)
      modifies this
      ensures old(Stream()) == [] ==> a.None? && Stream() == []
      ensures old(Stream()) != [] ==> a == Some(old(Stream())[0]) && Stream() == old(Stream())[1..]
      ensures stash == (if old(stash) == [] then [] else old(stash)[1..])
      ensures old(stash) != [] ==> channel == old(channel)
    {
      if stash != [] {
        a := Some(stash[0]);
        stash := stash[1..];
      } else if channel != [] {
        a := Some(channel[0]);
        channel := channel[1..];
      } else {
        a := None;
      }
    }

    /** A probe's drain: what it reads past on its way to its own reading is held
        aside, and goes behind whatever is then stashed.  An id is fresh, so its
        reading is never in the stash, and the rest comes back in arrival order. */
    method ReadPast(id: nat) returns (reading: Option<Value>)
      modifies this
      ensures Probed(old(stash), old(channel), id, reading, Stream())
    {
      hide ReadingAt, Probed, Aside;
      ghost var kept, behind := stash, channel;
      NoneAside(kept, behind);
      var carried, done := [], false;
      while true
        invariant |carried| <= ReadingAt(kept + behind, id) && Aside(kept, behind, carried, stash, channel)
        decreases |kept + behind| - |carried|
      {
        done, reading, carried := Past(id, carried, kept, behind);
        if done { return; }
      }
    }

    /** One receive of a probe's: its end, or one more event held aside. */
    method Past(id: nat, carried: seq<Arrival>, ghost kept: seq<Arrival>, ghost behind: seq<Arrival>) returns (done: bool, reading: Option<Value>, more: seq<Arrival>)
      requires |carried| <= ReadingAt(kept + behind, id) && Aside(kept, behind, carried, stash, channel)
      modifies this
      ensures done ==> Probed(kept, behind, id, reading, Stream())
      ensures !done ==>
        && |carried| < |more| <= |kept + behind| && |more| <= ReadingAt(kept + behind, id) && Aside(kept, behind, more, stash, channel)
    {
      hide Probed, Aside;
      ghost var s, c := stash, channel;
      var a := Recv();
      if a.None? {
        assert s == [] && c == [];
        ProbeDry(kept, behind, carried, id);
        stash := carried;
        return true, None, [];
      }
      AsideMore(kept, behind, carried, s, c, a.value, stash, channel);
      if EndsProbe(a.value, id) {
        ProbeEnds(kept, behind, carried, a.value, stash, channel, id);
        reading := Settle(a.value, carried);
        return true, reading, [];
      }
      return false, None, carried + [a.value];
    }

    /** The closed stream stays closed; a reading is taken out. */
    method Settle(a: Arrival, carried: seq<Arrival>) returns (reading: Option<Value>)
      requires a.Closed? || (a.Got? && a.event.Reading?)
      modifies this
      ensures a.Closed? ==> reading == None && Stream() == carried + [a] + old(Stream())
      ensures a.Got? ==> reading == Some(a.event.v) && Stream() == old(stash) + carried + old(channel)
    {
      if a.Closed? {
        channel := stash + channel;
        stash := carried + [a];
        return None;
      }
      stash := stash + carried;
      reading := Some(a.event.v);
    }
  }

  /** The control line's front end: what it aims at, how often interrupts were
      raised, and every strike sent.  The clock counts its moves. */
  class Sender {
    var ears: Ears
    var strikes: seq<(nat, nat)>

    constructor ()
      ensures ears == QUIET && strikes == []
    {
      ears, strikes := QUIET, [];
    }

    method Strike(id: nat, cause: nat)
      modifies this`strikes
      ensures strikes == old(strikes) + [(id, cause)]
    {
      strikes := strikes + [(id, cause)];
    }

    method Interrupt()
      modifies this`ears
      ensures ears == Moved(old(ears), Raise)
    {
      ears := ears.(epoch := ears.epoch + 1, raisedAt := ears.clock + 1, clock := ears.clock + 1);
    }

    method Aim(id: nat)
      modifies this`ears
      ensures ears == Moved(old(ears), Move.Aim(id))
    {
      ears := ears.(inFlight := Some(Flight(id, ears.epoch, ears.clock + 1)), clock := ears.clock + 1);
    }

    method Settle()
      modifies this`ears
      ensures ears == Moved(old(ears), Move.Settle)
    {
      ears := ears.(inFlight := None, clock := ears.clock + 1);
    }

    /** An ambient interrupt, however late: it strikes the dispatch in flight only
        if one was raised after that dispatch was aimed. */
    method Hear()
      modifies this
      ensures ears == Moved(old(ears), Move.Hear)
      ensures var n := |old(ears).hits|; strikes == old(strikes) + if |ears.hits| > n then [(ears.hits[n].id, 2)] else []
    {
      var now := ears.clock + 1;
      if ears.inFlight.Some? && ears.epoch > ears.inFlight.value.sent {
        var f := ears.inFlight.value;
        Strike(f.id, INTERRUPTED);
        ears := ears.(hits := ears.hits + [Hit(f.id, f.at, ears.raisedAt, now)], clock := now);
      } else {
        ears := ears.(clock := now);
      }
    }
  }

  /** What a turn of the drain comes to: an end, a stream run dry, or another. */
  datatype Round = Over(v: Verdict) | Dry | Again(struck: nat)

  class Front {
    const events: Receiver
    const control: Sender
    var surfaced: seq<Value>
    var answers: seq<Answer>
    var severance: Option<Severed>

    constructor (stream: Receiver, line: Sender)
      ensures events == stream && control == line && surfaced == [] && answers == [] && severance == None
    {
      events, control := stream, line;
      surfaced, answers, severance := [], [], None;
    }

    ghost function Doings(): Seen
      reads this, control
    {
      Seen(surfaced, answers, control.strikes, severance)
    }

    /** Record a severance, the first standing, and answer the one that stands. */
    method Sever(cause: Severed) returns (standing: Severed)
      modifies this`severance
      ensures severance == Some(standing)
      ensures standing == if old(severance).Some? then old(severance).value else cause
    {
      if severance.None? { severance := Some(cause); }
      standing := severance.value;
    }

    method Note(noted: Option<Severed>)
      modifies this`severance
      ensures severance == if old(severance).Some? then old(severance) else noted
    {
      if severance.None? { severance := noted; }
    }

    /** Strike the dispatch if its scope shows a cause stronger than any struck. */
    method Strike(id: nat, cause: nat, struck: nat) returns (now: nat)
      modifies control`strikes
      ensures cause > struck ==> now == cause && control.strikes == old(control.strikes) + [(id, cause)]
      ensures cause <= struck ==> now == struck && control.strikes == old(control.strikes)
    {
      now := struck;
      if cause > struck {
        control.Strike(id, cause);
        now := cause;
      }
    }

    /** Drain to the dispatch's own end.  `cause(k)` is what the scope shows at the
        `k`-th poll, 0 for none or for no scope.

        The host sees exactly the values surfaced under this id before the first
        terminal event, in order; each enquiry among them is answered once; and
        the result is this id's own report, or the severance that stands. */
    method DispatchToReport(id: nat, host: Value -> Value, cause: nat -> nat) returns (v: Verdict)
      modifies this, events, control
      ensures old(severance).Some? ==> v == Cut(old(severance).value) && Doings() == old(Doings())
      ensures old(severance).None? ==> Settled(old(events.Stream()), id, host, cause, old(Doings()), Doings(), v)
      ensures old(severance).None? ==>
        var n := TerminalAt(old(events.Stream()), id);
        events.Stream() == old(events.Stream())[if v.Waiting? then n else n + 1..]
      ensures old(severance).None? ==>
        control.ears == if v.Waiting? then Moved(old(control.ears), Move.Aim(id)) else Moved(Moved(old(control.ears), Move.Aim(id)), Move.Settle)
    {
      hide Drained, Settled, Peak, Moved;
      if severance.Some? { return Cut(severance.value); }
      control.Aim(id);
      ghost var stream, was := events.Stream(), Doings();
      var struck := Strike(id, cause(0), 0);
      var k := 0;
      DrainedNone(stream, id, host, cause, was, Doings());
      while true
        invariant 0 <= k <= |stream| && events.Stream() == stream[k..] && struck == Peak(cause, k + 1)
        invariant Drained(stream, k, id, host, cause, was, Doings())
        invariant control.ears == Moved(old(control.ears), Move.Aim(id))
        decreases |stream| - k
      {
        var round := Drain(id, host, cause, k, struck, stream, was);
        match round {
          case Dry => return Waiting;
          case Over(end) =>
            control.Settle();
            return end;
          case Again(now) =>
            struck := now;
            k := k + 1;
        }
      }
    }

    /** Receive once, act on it, and poll the scope. */
    method Drain(id: nat, host: Value -> Value, cause: nat -> nat, k: nat, struck: nat, ghost stream: seq<Arrival>, ghost was: Seen) returns (round: Round)
      requires k <= |stream| && events.Stream() == stream[k..] && struck == Peak(cause, k + 1)
      requires Drained(stream, k, id, host, cause, was, Doings())
      modifies this, events, control`strikes
      ensures round.Dry? ==> Settled(stream, id, host, cause, was, Doings(), Waiting) && events.Stream() == [] && TerminalAt(stream, id) == |stream|
      ensures round.Over? ==>
        Settled(stream, id, host, cause, was, Doings(), round.v) && TerminalAt(stream, id) == k < |stream| && events.Stream() == stream[k + 1..]
        && !round.v.Waiting?
      ensures round.Again? ==>
        && k < |stream| && events.Stream() == stream[k + 1..] && round.struck == Peak(cause, k + 2)
        && Drained(stream, k + 1, id, host, cause, was, Doings())
    {
      ghost var now := Doings();
      var a := events.Recv();
      if a.None? {
        DrainedDry(stream, k, id, host, cause, was, now);
        return Dry;
      }
      assert a.value == stream[k];
      var end := Turn(a.value, id, host);
      if end.Some? {
        DrainedLast(stream, k, id, host, cause, was, now, Doings(), end.value);
        return Over(end.value);
      }
      var next := Strike(id, cause(k + 1), struck);
      DrainedOne(stream, k, id, host, cause, was, now, Doings());
      round := Again(next);
    }

    /** One arrival: passed to the host, or the end of the dispatch. */
    method Turn(a: Arrival, id: nat, host: Value -> Value) returns (end: Option<Verdict>)
      modifies this`surfaced, this`answers, this`severance
      ensures surfaced == old(surfaced) + SurfacedBy(a, id) && answers == old(answers) + AnsweredTo(a, id, host)
      ensures end.Some? <==> Terminal(a, id)
      ensures end.None? ==> severance == Latched(old(severance), a)
      ensures end.Some? ==> end.value == EndOf(a, Latched(old(severance), a))
      ensures end.Some? ==> severance == if end.value.Cut? then Some(end.value.cause) else Latched(old(severance), a)
    {
      Note(Noted(a));
      match a {
        case Got(did, event, _) =>
          if did != id { return None; }
          match event {
            case Surface(val) => surfaced := surfaced + [val];
            case Enquiry(eid, req) => answers := answers + [Answer(eid, host(req))];
            case Reading(_) =>
              var standing := Sever(BROKE_PROTOCOL);
              return Some(Cut(standing));
            case Report(r) => return Some(Reported(r));
          }
        case Slice(_) =>
        case Closed(_) => return Some(Cut(severance.value));
      }
      end := None;
    }
  }
}
