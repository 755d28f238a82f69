/** The requests as they are spelt: tags, and records holding each of their fields
    once, in any order, and no other.  The desk reads exactly what is so spelt. */
module Spelling {
  import opened Wrappers
  import opened Datums
  import opened Enquiry
  import Durations

  // ── Tags ─────────────────────────────────────────────────────

  /** The tag alone, or with a payload of nothing. */
  predicate Bare(v: FO, tag: string) {
    v == V(tag, None) || v == V(tag, Some(U))
  }

  predicate Carries(v: FO, tag: string, p: FO) {
    v == V(tag, Some(p)) && p != U
  }

  // ── Requests ─────────────────────────────────────────────────────────────

  predicate SpeltMemory(v: FO, m: Memory) {
    match m case Amnemon => Bare(v, "amnemon") case Mnemon => Bare(v, "mnemon")
  }

  predicate SpeltSelection(v: FO, s: Selection) {
    match s case Own => Bare(v, "inherit") case Role(name) => Carries(v, "role", S(name)) && name != []
  }

  ghost predicate SpeltSpec(v: FO, s: Spec) {
    NameOk(s.name) && exists t, m :: SpeltSpecOf(v, s, t, m)
  }

  predicate SpeltSpecOf(v: FO, s: Spec, t: FO, m: FO) {
    && Holds(v, [("prompt", S(s.prompt)), ("name", S(s.name)), ("type", t), ("model", m)])
    && SpeltMemory(t, s.memory) && SpeltSelection(m, s.model)
  }

  predicate SpeltGrant(v: FO, g: Grant) {
    match g
    case Inherit => Bare(v, "inherit")
    case Base(b) => Bare(v, b) && (b == "confined" || b == "read-only" || b == "edit-only" || b == "reasonable")
    case Restrict(layer) => Carries(v, "restrict", layer) && layer.M?
  }

  ghost predicate SpeltLaunch(v: FO, l: Launch) {
    NameOk(l.spec.name) && exists g, t, m :: SpeltLaunchOf(v, l, g, t, m)
  }

  predicate SpeltLaunchOf(v: FO, l: Launch, g: FO, t: FO, m: FO) {
    && Holds(v, [("grant", g), ("prompt", S(l.spec.prompt)), ("name", S(l.spec.name)), ("type", t), ("model", m)])
    && SpeltGrant(g, l.grant) && SpeltMemory(t, l.spec.memory) && SpeltSelection(m, l.spec.model)
  }

  predicate SpeltFork(v: FO, f: ForkClaim) {
    match f case Parked(id) => id <= I64_MAX && Carries(v, "parked", I(id)) case Sealed(bytes) => Carries(v, "sealed", Y(bytes))
  }

  ghost predicate SpeltAsked(k: Readers, v: FO, a: Asked) {
    match a
    case OnCron(schedule, expr) => Carries(v, "cron", S(expr)) && k.cron(expr) == Some(schedule)
    case After(d) => exists text :: Carries(v, "after", S(text)) && Durations.ParseDuration(text) == Ok(d)
  }

  /** A list of these numbers. */
  predicate Numbers(v: FO, ns: seq<nat>) {
    v.L? && |v.items| == |ns| && forall i | 0 <= i < |ns| :: v.items[i].I? && v.items[i].n == ns[i]
  }

  predicate SpeltTurns(v: FO, t: Turns) {
    match t
    case All => Bare(v, "all")
    case Only(ns) => v.V? && v.tag_ == "only" && v.payload.Some? && Numbers(v.payload.value, ns)
  }

  ghost predicate SpeltAgents(w: FO, a: Agents) {
    match a
    case AgentList => Bare(w, "list")
    case Start(spec, fork) => exists p, s, f :: Carries(w, "start", p) && Holds(p, [("spec", s), ("fork", f)]) && SpeltSpec(s, spec) && SpeltFork(f, fork)
    case Message(to, text) => exists p :: Carries(w, "message", p) && Holds(p, [("to", S(to)), ("text", S(text))])
    case Stop(name) => Carries(w, "stop", S(name))
    case Dismiss(name) => Carries(w, "dismiss", S(name))
    case Reply(value) => if value == U then Bare(w, "reply") else Carries(w, "reply", value)
    case Read(name) => Carries(w, "read", S(name))
  }

  ghost predicate SpeltSchedules(k: Readers, w: FO, s: Schedules) {
    match s
    case ScheduleList => Bare(w, "list")
    case Add(trigger, name, prompt) =>
      exists p, t :: Carries(w, "add", p) && Holds(p, [("trigger", t), ("label", S(name)), ("prompt", S(prompt))]) && SpeltAsked(k, t, trigger)
    case Remove(name) => Carries(w, "remove", S(name))
  }

  predicate SpeltPins(w: FO, p: Pins) {
    match p
    case Clear(key) => Carries(w, "clear", S(key))
    case ReadPin(key) => Carries(w, "read", S(key))
    case PinList => Bare(w, "list")
  }

  ghost predicate SpeltContext(w: FO, c: Context) {
    match c
    case Survey => Bare(w, "survey")
    case Evict(Span(from, to), note) =>
      && from <= to <= I64_MAX && NoteOk(note)
      && exists p :: Carries(w, "evict", p) && Holds(p, [("from", I(from)), ("to", I(to)), ("note", S(note))])
  }

  ghost predicate SpeltTranscript(k: Readers, w: FO, t: Transcript) {
    match t
    case Index => Bare(w, "index")
    case ReadTurns(ns) => exists p, l :: Carries(w, "read", p) && Holds(p, [("turns", l)]) && Numbers(l, ns)
    case Grep(pattern, turns) =>
      k.compiles(pattern) && exists p, t :: Carries(w, "grep", p) && Holds(p, [("pattern", S(pattern)), ("turns", t)]) && SpeltTurns(t, turns)
  }

  ghost predicate Spelt(k: Readers, v: FO, r: Request) {
    match r
    case OfAgents(a) => exists w :: Carries(v, "agents", w) && SpeltAgents(w, a)
    case OfSchedules(s) => exists w :: Carries(v, "schedules", w) && SpeltSchedules(k, w, s)
    case OfPins(p) => exists w :: Carries(v, "pins", w) && SpeltPins(w, p)
    case OfContext(c) => exists w :: Carries(v, "context", w) && SpeltContext(w, c)
    case OfTranscript(t) => exists w :: Carries(v, "transcript", w) && SpeltTranscript(k, w, t)
  }

  // ── The desk reads exactly what is spelt ─────────────────────────────────

  lemma MemoryIffSpelt(v: FO, m: Memory)
    ensures DecodeMemory(v) == Some(m) <==> SpeltMemory(v, m)
  {
  }

  lemma SelectionIffSpelt(v: FO, s: Selection)
    ensures DecodeSelection(v) == Some(s) <==> SpeltSelection(v, s)
  {
  }

  lemma GrantIffSpelt(v: FO, g: Grant)
    ensures DecodeGrant(v) == Some(g) <==> SpeltGrant(v, g)
  {
    assert SPAWN_BASES == ["confined", "read-only", "edit-only", "reasonable"];
  }

  lemma ForkIffSpelt(v: FO, f: ForkClaim)
    ensures DecodeFork(v) == Some(f) <==> SpeltFork(v, f)
  {
  }

  lemma AskedIffSpelt(k: Readers, v: FO, a: Asked)
    ensures DecodeAsked(k, v) == Some(a) <==> SpeltAsked(k, v, a)
  {
    if a.After? && DecodeAsked(k, v) == Some(a) { assert Carries(v, "after", S(v.payload.value.s)); }
  }

  lemma {:induction false} NumbersIffSpelt(vs: seq<FO>, ns: seq<nat>)
    ensures AsU64s(vs) == Some(ns) <==> Numbers(L(vs), ns)
  {
    if vs != [] {
      if ns != [] {
        NumbersIffSpelt(vs[1..], ns[1..]);
        assert ns == [ns[0]] + ns[1..];
        if Numbers(L(vs), ns) {
          assert forall i | 0 <= i < |vs[1..]| :: vs[1..][i] == vs[i + 1] && ns[1..][i] == ns[i + 1];
        }
        if Numbers(L(vs[1..]), ns[1..]) && vs[0].I? && vs[0].n == ns[0] {
          forall i | 0 <= i < |vs| ensures vs[i].I? && vs[i].n == ns[i] {
            if i > 0 { assert vs[1..][i - 1].I? && vs[1..][i - 1].n == ns[1..][i - 1]; }
          }
        }
      }
    }
  }

  lemma TurnsIffSpelt(v: FO, t: Turns)
    ensures DecodeTurns(v) == Some(t) <==> SpeltTurns(v, t)
  {
    if t.Only? && v.V? && v.payload.Some? && v.payload.value.L? { NumbersIffSpelt(v.payload.value.items, t.turns); }
  }

  lemma SpecIffSpelt(v: FO, s: Spec)
    ensures DecodeSpec(v) == Some(s) <==> SpeltSpec(v, s)
  {
    hide ExactKeys, Holds, NameOk, SpeltMemory, SpeltSelection, DecodeMemory, DecodeSelection, Lookup;
    assert "prompt" != "name" && "prompt" != "type" && "prompt" != "model" && "name" != "type" && "name" != "model" && "type" != "model";
    if DecodeSpec(v) == Some(s) {
      SpecReadIsSpelt(v, s, Field(v, "type").value, Field(v, "model").value);
    }
    if SpeltSpec(v, s) {
      var t, m :| SpeltSpecOf(v, s, t, m);
      Held4(v, ("prompt", S(s.prompt)), ("name", S(s.name)), ("type", t), ("model", m));
      MemoryIffSpelt(t, s.memory);
      SelectionIffSpelt(m, s.model);
    }
  }

  lemma SpecReadIsSpelt(v: FO, s: Spec, t: FO, m: FO)
    requires DecodeSpec(v) == Some(s) && Field(v, "type") == Some(t) && Field(v, "model") == Some(m)
    ensures NameOk(s.name) && SpeltSpecOf(v, s, t, m)
  {
    hide ExactKeys, Holds, NameOk, SpeltMemory, SpeltSelection, DecodeMemory, DecodeSelection, Lookup;
    assert "prompt" != "name" && "prompt" != "type" && "prompt" != "model" && "name" != "type" && "name" != "model" && "type" != "model";
    Held4(v, ("prompt", S(s.prompt)), ("name", S(s.name)), ("type", t), ("model", m));
    MemoryIffSpelt(t, s.memory);
    SelectionIffSpelt(m, s.model);
  }

  lemma Held2(v: FO, a: (string, FO), b: (string, FO))
    requires a.0 != b.0
    ensures Holds(v, [a, b]) <==> ExactKeys(v, [a.0, b.0]) && Field(v, a.0) == Some(a.1) && Field(v, b.0) == Some(b.1)
  {
    var fields := [a, b];
    assert KeysOf(fields) == [a.0, b.0];
    if Holds(v, fields) {
      HeldStrictly(v, fields);
      assert Field(v, fields[0].0) == Some(fields[0].1) && Field(v, fields[1].0) == Some(fields[1].1);
    }
    if ExactKeys(v, [a.0, b.0]) && Field(v, a.0) == Some(a.1) && Field(v, b.0) == Some(b.1) { StrictlyHeld(v, fields); }
  }

  lemma Held3(v: FO, a: (string, FO), b: (string, FO), c: (string, FO))
    requires a.0 != b.0 && a.0 != c.0 && b.0 != c.0
    ensures Holds(v, [a, b, c]) <==>
              ExactKeys(v, [a.0, b.0, c.0]) && Field(v, a.0) == Some(a.1) && Field(v, b.0) == Some(b.1) && Field(v, c.0) == Some(c.1)
  {
    var fields := [a, b, c];
    assert KeysOf(fields) == [a.0, b.0, c.0];
    if Holds(v, fields) {
      HeldStrictly(v, fields);
      assert Field(v, fields[0].0) == Some(fields[0].1) && Field(v, fields[1].0) == Some(fields[1].1) && Field(v, fields[2].0) == Some(fields[2].1);
    }
    if ExactKeys(v, [a.0, b.0, c.0]) && Field(v, a.0) == Some(a.1) && Field(v, b.0) == Some(b.1) && Field(v, c.0) == Some(c.1) {
      StrictlyHeld(v, fields);
    }
  }

  lemma Held4(v: FO, a: (string, FO), b: (string, FO), c: (string, FO), d: (string, FO))
    requires a.0 != b.0 && a.0 != c.0 && a.0 != d.0 && b.0 != c.0 && b.0 != d.0 && c.0 != d.0
    ensures Holds(v, [a, b, c, d]) <==>
              && ExactKeys(v, [a.0, b.0, c.0, d.0])
              && Field(v, a.0) == Some(a.1) && Field(v, b.0) == Some(b.1) && Field(v, c.0) == Some(c.1) && Field(v, d.0) == Some(d.1)
  {
    var fields := [a, b, c, d];
    assert KeysOf(fields) == [a.0, b.0, c.0, d.0];
    if Holds(v, fields) {
      HeldStrictly(v, fields);
      assert Field(v, fields[0].0) == Some(fields[0].1) && Field(v, fields[1].0) == Some(fields[1].1);
      assert Field(v, fields[2].0) == Some(fields[2].1) && Field(v, fields[3].0) == Some(fields[3].1);
    }
    if ExactKeys(v, [a.0, b.0, c.0, d.0]) && Field(v, a.0) == Some(a.1) && Field(v, b.0) == Some(b.1) && Field(v, c.0) == Some(c.1) && Field(v, d.0) == Some(d.1) {
      StrictlyHeld(v, fields);
    }
  }

  lemma Held1(v: FO, a: (string, FO))
    ensures Holds(v, [a]) <==> ExactKeys(v, [a.0]) && Field(v, a.0) == Some(a.1)
  {
    var fields := [a];
    assert KeysOf(fields) == [a.0];
    if Holds(v, fields) {
      HeldStrictly(v, fields);
      assert Field(v, fields[0].0) == Some(fields[0].1);
    }
    if ExactKeys(v, [a.0]) && Field(v, a.0) == Some(a.1) { StrictlyHeld(v, fields); }
  }

  lemma StartIffSpelt(p: FO, spec: Spec, fork: ForkClaim)
    ensures DecodeStart(p) == Some(Start(spec, fork)) <==>
            exists s, f :: Holds(p, [("spec", s), ("fork", f)]) && SpeltSpec(s, spec) && SpeltFork(f, fork)
  {
    hide ExactKeys, Holds, Lookup, SpeltTurns, DecodeTurns, SpeltAsked, DecodeAsked, SpeltSpec, DecodeSpec, SpeltFork, DecodeFork;
    assert "spec" != "fork";
    if DecodeStart(p) == Some(Start(spec, fork)) {
      var s, f := Field(p, "spec").value, Field(p, "fork").value;
      Held2(p, ("spec", s), ("fork", f));
      SpecIffSpelt(s, spec);
      ForkIffSpelt(f, fork);
      assert Holds(p, [("spec", s), ("fork", f)]);
    }
    if exists s, f :: Holds(p, [("spec", s), ("fork", f)]) && SpeltSpec(s, spec) && SpeltFork(f, fork) {
      var s, f :| Holds(p, [("spec", s), ("fork", f)]) && SpeltSpec(s, spec) && SpeltFork(f, fork);
      Held2(p, ("spec", s), ("fork", f));
      SpecIffSpelt(s, spec);
      ForkIffSpelt(f, fork);
    }
  }

  lemma MessageIffSpelt(p: FO, to: string, text: string)
    ensures DecodeMessage(p) == Some(Message(to, text)) <==> Holds(p, [("to", S(to)), ("text", S(text))])
  {
    assert "to" != "text";
    Held2(p, ("to", S(to)), ("text", S(text)));
  }

  lemma AddIffSpelt(k: Readers, p: FO, trigger: Asked, name: string, prompt: string)
    ensures DecodeAdd(k, p) == Some(Add(trigger, name, prompt)) <==>
            exists t :: Holds(p, [("trigger", t), ("label", S(name)), ("prompt", S(prompt))]) && SpeltAsked(k, t, trigger)
  {
    hide ExactKeys, Holds, Lookup, SpeltTurns, DecodeTurns, SpeltAsked, DecodeAsked, SpeltSpec, DecodeSpec, SpeltFork, DecodeFork;
    assert "trigger" != "label" && "trigger" != "prompt" && "label" != "prompt";
    if DecodeAdd(k, p) == Some(Add(trigger, name, prompt)) {
      var t := Field(p, "trigger").value;
      Held3(p, ("trigger", t), ("label", S(name)), ("prompt", S(prompt)));
      AskedIffSpelt(k, t, trigger);
      assert Holds(p, [("trigger", t), ("label", S(name)), ("prompt", S(prompt))]);
    }
    if exists t :: Holds(p, [("trigger", t), ("label", S(name)), ("prompt", S(prompt))]) && SpeltAsked(k, t, trigger) {
      var t :| Holds(p, [("trigger", t), ("label", S(name)), ("prompt", S(prompt))]) && SpeltAsked(k, t, trigger);
      Held3(p, ("trigger", t), ("label", S(name)), ("prompt", S(prompt)));
      AskedIffSpelt(k, t, trigger);
    }
  }

  lemma EvictIffSpelt(p: FO, from: nat, to: nat, note: string)
    ensures DecodeEvict(p) == Some(Evict(Span(from, to), note)) <==>
            from <= to <= I64_MAX && NoteOk(note) && Holds(p, [("from", I(from)), ("to", I(to)), ("note", S(note))])
  {
    assert "from" != "to" && "from" != "note" && "to" != "note";
    if to <= I64_MAX && from <= I64_MAX { Held3(p, ("from", I(from)), ("to", I(to)), ("note", S(note))); }
  }

  lemma ReadingIffSpelt(p: FO, ns: seq<nat>)
    ensures DecodeReading(p) == Some(ReadTurns(ns)) <==> exists l :: Holds(p, [("turns", l)]) && Numbers(l, ns)
  {
    if DecodeReading(p) == Some(ReadTurns(ns)) {
      var l := Field(p, "turns").value;
      Held1(p, ("turns", l));
      NumbersIffSpelt(l.items, ns);
      assert Holds(p, [("turns", l)]);
    }
    if exists l :: Holds(p, [("turns", l)]) && Numbers(l, ns) {
      var l :| Holds(p, [("turns", l)]) && Numbers(l, ns);
      Held1(p, ("turns", l));
      NumbersIffSpelt(l.items, ns);
    }
  }

  lemma GrepIffSpelt(k: Readers, p: FO, pattern: string, turns: Turns)
    ensures DecodeGrep(k, p) == Some(Grep(pattern, turns)) <==>
            k.compiles(pattern) && exists t :: Holds(p, [("pattern", S(pattern)), ("turns", t)]) && SpeltTurns(t, turns)
  {
    hide ExactKeys, Holds, Lookup, SpeltTurns, DecodeTurns, SpeltAsked, DecodeAsked, SpeltSpec, DecodeSpec, SpeltFork, DecodeFork;
    assert "pattern" != "turns";
    if DecodeGrep(k, p) == Some(Grep(pattern, turns)) {
      var t := Field(p, "turns").value;
      Held2(p, ("pattern", S(pattern)), ("turns", t));
      TurnsIffSpelt(t, turns);
      assert Holds(p, [("pattern", S(pattern)), ("turns", t)]);
    }
    if exists t :: Holds(p, [("pattern", S(pattern)), ("turns", t)]) && SpeltTurns(t, turns) {
      var t :| Holds(p, [("pattern", S(pattern)), ("turns", t)]) && SpeltTurns(t, turns);
      Held2(p, ("pattern", S(pattern)), ("turns", t));
      TurnsIffSpelt(t, turns);
    }
  }

  lemma AgentsIffSpelt(w: FO, a: Agents)
    ensures Untag(w).Some? && DecodeAgents(Untag(w).value) == Some(a) <==> SpeltAgents(w, a)
  {
    hide DecodeStart, DecodeMessage, Holds, SpeltSpec, SpeltFork;
    match a
    case Start(spec, fork) =>
      if w.V? && w.payload.Some? { StartIffSpelt(w.payload.value, spec, fork); }
      if Untag(w).Some? && DecodeAgents(Untag(w).value) == Some(a) {
        StartOnly(w, a);
        var p := w.payload.value;
        var s, f :| Holds(p, [("spec", s), ("fork", f)]) && SpeltSpec(s, spec) && SpeltFork(f, fork);
        assert Carries(w, "start", p);
      }
      if SpeltAgents(w, a) {
        var p, s, f :| Carries(w, "start", p) && Holds(p, [("spec", s), ("fork", f)]) && SpeltSpec(s, spec) && SpeltFork(f, fork);
        assert p == w.payload.value;
      }
    case Message(to, text) =>
      if w.V? && w.payload.Some? { MessageIffSpelt(w.payload.value, to, text); }
      if Untag(w).Some? && DecodeAgents(Untag(w).value) == Some(a) {
        StartOnly(w, a);
        assert Carries(w, "message", w.payload.value);
      }
    case _ => if Untag(w).Some? && DecodeAgents(Untag(w).value) == Some(a) { StartOnly(w, a); }
  }

  /** A record comes only of its own tag. */
  lemma StartOnly(w: FO, a: Agents)
    requires w.V? && DecodeAgents(Untag(w).value) == Some(a)
    ensures a.Start? <==> w.tag_ == "start"
    ensures a.Message? <==> w.tag_ == "message"
    ensures a.Start? || a.Message? ==> w.payload.Some? && w.payload.value != U
    ensures a.Start? ==> DecodeStart(w.payload.value) == Some(a)
    ensures a.Message? ==> DecodeMessage(w.payload.value) == Some(a)
  {
    assert "start" != "list" && "start" != "message" && "start" != "reply" && "start" != "stop" && "start" != "dismiss" && "start" != "read";
    assert "message" != "list" && "message" != "reply" && "message" != "stop" && "message" != "dismiss" && "message" != "read";
  }

  lemma SchedulesIffSpelt(k: Readers, w: FO, s: Schedules)
    ensures Untag(w).Some? && DecodeSchedules(k, Untag(w).value) == Some(s) <==> SpeltSchedules(k, w, s)
  {
    hide DecodeAdd, Holds, SpeltAsked;
    assert "add" != "list" && "add" != "remove" && "remove" != "list";
    if s.Add? {
      if w.V? && w.payload.Some? { AddIffSpelt(k, w.payload.value, s.trigger, s.name, s.prompt); }
      if Untag(w).Some? && DecodeSchedules(k, Untag(w).value) == Some(s) {
        var p := w.payload.value;
        var t :| Holds(p, [("trigger", t), ("label", S(s.name)), ("prompt", S(s.prompt))]) && SpeltAsked(k, t, s.trigger);
        assert Carries(w, "add", p);
      }
      if SpeltSchedules(k, w, s) {
        var p, t :| Carries(w, "add", p) && Holds(p, [("trigger", t), ("label", S(s.name)), ("prompt", S(s.prompt))]) && SpeltAsked(k, t, s.trigger);
        assert p == w.payload.value;
      }
    } else if Untag(w).Some? && w.tag_ == "add" && w.payload.Some? {
      AddsOnly(k, w.payload.value);
    }
  }

  lemma AddsOnly(k: Readers, p: FO)
    ensures DecodeAdd(k, p).Some? ==> DecodeAdd(k, p).value.Add?
  {
    hide DecodeAsked, ExactKeys, Lookup;
  }

  lemma PinsIffSpelt(w: FO, p: Pins)
    ensures Untag(w).Some? && DecodePins(Untag(w).value) == Some(p) <==> SpeltPins(w, p)
  {
    assert "clear" != "read" && "clear" != "list" && "read" != "list";
  }

  lemma ContextIffSpelt(w: FO, c: Context)
    ensures Untag(w).Some? && DecodeContext(Untag(w).value) == Some(c) <==> SpeltContext(w, c)
  {
    hide DecodeEvict, Holds, NoteOk;
    assert "survey" != "evict";
    if c.Evict? {
      if w.V? && w.payload.Some? { EvictIffSpelt(w.payload.value, c.span.from, c.span.to, c.note); }
      if Untag(w).Some? && DecodeContext(Untag(w).value) == Some(c) { assert Carries(w, "evict", w.payload.value); }
    } else if w.V? && w.payload.Some? {
      EvictsOnly(w.payload.value);
    }
  }

  lemma EvictsOnly(p: FO)
    ensures DecodeEvict(p).Some? ==> DecodeEvict(p).value.Evict?
  {
    hide ExactKeys, Lookup, NoteOk;
  }

  lemma TranscriptIffSpelt(k: Readers, w: FO, t: Transcript)
    ensures Untag(w).Some? && DecodeTranscript(k, Untag(w).value) == Some(t) <==> SpeltTranscript(k, w, t)
  {
    hide DecodeReading, DecodeGrep, Holds, Numbers, SpeltTurns;
    assert "index" != "read" && "index" != "grep" && "read" != "grep";
    if w.V? && w.payload.Some? { TranscriptsOnly(k, w.payload.value); }
    match t
    case Index =>
    case ReadTurns(ns) =>
      if w.V? && w.payload.Some? { ReadingIffSpelt(w.payload.value, ns); }
      if Untag(w).Some? && DecodeTranscript(k, Untag(w).value) == Some(t) {
        var p := w.payload.value;
        var l :| Holds(p, [("turns", l)]) && Numbers(l, ns);
        assert Carries(w, "read", p);
      }
      if SpeltTranscript(k, w, t) {
        var p, l :| Carries(w, "read", p) && Holds(p, [("turns", l)]) && Numbers(l, ns);
        assert p == w.payload.value;
      }
    case Grep(pattern, turns) =>
      if w.V? && w.payload.Some? { GrepIffSpelt(k, w.payload.value, pattern, turns); }
      if Untag(w).Some? && DecodeTranscript(k, Untag(w).value) == Some(t) {
        var p := w.payload.value;
        var u :| Holds(p, [("pattern", S(pattern)), ("turns", u)]) && SpeltTurns(u, turns);
        assert Carries(w, "grep", p);
      }
      if SpeltTranscript(k, w, t) {
        var p, u :| Carries(w, "grep", p) && Holds(p, [("pattern", S(pattern)), ("turns", u)]) && SpeltTurns(u, turns);
        assert p == w.payload.value;
      }
  }

  lemma TranscriptsOnly(k: Readers, p: FO)
    ensures DecodeReading(p).Some? ==> DecodeReading(p).value.ReadTurns?
    ensures DecodeGrep(k, p).Some? ==> DecodeGrep(k, p).value.Grep?
  {
    hide ExactKeys, Lookup, DecodeTurns, DecodeU64s;
  }

  /** The desk reads a request off data exactly when the data spells it: its own tags,
      each record holding each of its fields once, in any order, and nothing more. */
  lemma ReadIffSpelt(k: Readers, v: FO, r: Request)
    ensures Decode(k, v) == Some(r) <==> Spelt(k, v, r)
  {
    hide DecodeAgents, DecodeSchedules, DecodePins, DecodeContext, DecodeTranscript;
    hide SpeltAgents, SpeltSchedules, SpeltPins, SpeltContext, SpeltTranscript;
    assert "agents" != "schedules" && "agents" != "pins" && "agents" != "context" && "agents" != "transcript";
    assert "schedules" != "pins" && "schedules" != "context" && "schedules" != "transcript" && "pins" != "context" && "pins" != "transcript" && "context" != "transcript";
    if v.V? && v.payload.Some? {
      var w := v.payload.value;
      match r {
        case OfAgents(a) => AgentsIffSpelt(w, a); if Decode(k, v) == Some(r) { assert Carries(v, "agents", w); }
        case OfSchedules(s) => SchedulesIffSpelt(k, w, s); if Decode(k, v) == Some(r) { assert Carries(v, "schedules", w); }
        case OfPins(p) => PinsIffSpelt(w, p); if Decode(k, v) == Some(r) { assert Carries(v, "pins", w); }
        case OfContext(c) => ContextIffSpelt(w, c); if Decode(k, v) == Some(r) { assert Carries(v, "context", w); }
        case OfTranscript(t) => TranscriptIffSpelt(k, w, t); if Decode(k, v) == Some(r) { assert Carries(v, "transcript", w); }
      }
    }
  }

  /** A request within its guards is sent as it is spelt, and data spells no two. */
  lemma SentAsSpelt(k: Readers, r: Request)
    ensures RequestOk(k, r) <==> Spelt(k, Encode(r), r)
    ensures forall v, q :: Spelt(k, v, r) && Spelt(k, v, q) ==> q == r
  {
    hide Spelt, RequestOk, Decode, Encode;
    RequestRoundTrip(k, r);
    ReadIffSpelt(k, Encode(r), r);
    forall v, q | Spelt(k, v, r) && Spelt(k, v, q) ensures q == r {
      ReadIffSpelt(k, v, r);
      ReadIffSpelt(k, v, q);
    }
  }

  /** An unknown field and a field given twice are refused, whatever the rest says. */
  lemma StrayFieldsAreRefused(k: Readers, to: string, text: string, cc: FO, again: FO)
    ensures Decode(k, V("agents", Some(V("message", Some(M([("to", S(to)), ("text", S(text)), ("cc", cc)])))))) == None
    ensures Decode(k, V("agents", Some(V("message", Some(M([("to", S(to)), ("text", S(text)), ("to", again)])))))) == None
  {
    var unknown := [("to", S(to)), ("text", S(text)), ("cc", cc)];
    var twice := [("to", S(to)), ("text", S(text)), ("to", again)];
    assert "agents" != "message" && "start" != "message" && unknown[2].0 == "cc" && "cc" !in ["to", "text"];
    assert twice[0].0 == twice[2].0 && !Distinct(twice);
    assert !ExactKeys(M(unknown), ["to", "text"]) && !ExactKeys(M(twice), ["to", "text"]);
  }

  // ── The spawn record ─────────────────────────────────────────────────────

  predicate OneGrant(es: Entries) {
    forall i, j | 0 <= i < j < |es| && es[i].0 == "grant" :: es[j].0 != "grant"
  }

  function LaunchFields(l: Launch, g: FO, t: FO, m: FO): (r: Entries)
    ensures Distinct(r) && KeysOf(r) == ["grant", "prompt", "name", "type", "model"]
  {
    assert "prompt" != "name" && "prompt" != "type" && "prompt" != "model" && "name" != "type" && "name" != "model" && "type" != "model";
    assert "grant" != "prompt" && "grant" != "name" && "grant" != "type" && "grant" != "model";
    [("grant", g), ("prompt", S(l.spec.prompt)), ("name", S(l.spec.name)), ("type", t), ("model", m)]
  }

  /** A record whose other keys are distinct is one of distinct keys if one of them is
      given once. */
  lemma {:induction false} DistinctWithOne(es: Entries)
    requires OneGrant(es) && Distinct(Except(es, "grant"))
    ensures Distinct(es)
    ensures forall i | 0 <= i < |es| :: es[i].0 == "grant" || HasKey(Except(es, "grant"), es[i].0)
  {
    if es != [] {
      var rest, kept := es[1..], Except(es[1..], "grant");
      assert forall i | 0 <= i < |rest| :: rest[i] == es[i + 1];
      if es[0].0 == "grant" {
        assert Except(es, "grant") == kept;
        DistinctWithOne(rest);
        forall i | 0 < i < |es| ensures es[i].0 == "grant" || HasKey(kept, es[i].0) { assert es[i] == rest[i - 1]; }
      } else {
        var all := [es[0]] + kept;
        assert Except(es, "grant") == all && all[1..] == kept;
        TailDistinct(all);
        DistinctWithOne(rest);
        HasKeyCons(es[0], kept);
        forall i | 0 < i < |es| ensures es[i].0 != es[0].0 && (es[i].0 == "grant" || HasKey(all, es[i].0)) { assert es[i] == rest[i - 1]; }
      }
    }
  }

  /** A record holds a grant and other fields exactly when it gives one grant and holds
      the others without it. */
  lemma HeldWithoutGrant(v: FO, fields: Entries)
    requires fields != [] && Distinct(fields) && fields[0].0 == "grant" && Holds(v, fields)
    ensures v.M? && OneGrant(v.entries) && Field(v, "grant") == Some(fields[0].1) && Holds(M(Except(v.entries, "grant")), fields[1..])
  {
    var es, rest, others := v.entries, Except(v.entries, "grant"), fields[1..];
    TailDistinct(fields);
    HeldStrictly(v, fields);
    ExceptKeeps(es, "grant");
    forall i | 0 <= i < |others| ensures Field(M(rest), others[i].0) == Some(others[i].1) {
      assert others[i] == fields[i + 1];
    }
    forall i | 0 <= i < |rest| ensures rest[i].0 in KeysOf(others) {
      assert HasKey(rest, rest[i].0);
      var j :| 0 <= j < |es| && es[j].0 == rest[i].0;
      var n :| 0 <= n < |fields| && KeysOf(fields)[n] == es[j].0;
      assert KeysOf(others)[n - 1] == rest[i].0;
    }
    StrictlyHeld(M(rest), others);
  }

  lemma HeldWithGrant(v: FO, fields: Entries)
    requires v.M? && fields != [] && Distinct(fields) && fields[0].0 == "grant"
    requires OneGrant(v.entries) && Field(v, "grant") == Some(fields[0].1) && Holds(M(Except(v.entries, "grant")), fields[1..])
    ensures Holds(v, fields)
  {
    var es, rest, others := v.entries, Except(v.entries, "grant"), fields[1..];
    TailDistinct(fields);
    HeldStrictly(M(rest), others);
    DistinctWithOne(es);
    ExceptKeeps(es, "grant");
    forall i | 0 <= i < |fields| ensures Field(v, fields[i].0) == Some(fields[i].1) {
      if i > 0 { assert fields[i] == others[i - 1]; }
    }
    forall i | 0 <= i < |es| ensures es[i].0 in KeysOf(fields) {
      if es[i].0 == "grant" {
        assert KeysOf(fields)[0] == es[i].0;
      } else {
        var j :| 0 <= j < |rest| && rest[j].0 == es[i].0;
        var n :| 0 <= n < |others| && KeysOf(others)[n] == rest[j].0;
        assert KeysOf(fields)[n + 1] == es[i].0;
      }
    }
    StrictlyHeld(v, fields);
  }

  /** A spawn record that gives its grant once is read exactly as it is spelt. */
  lemma LaunchIffSpelt(v: FO, l: Launch)
    ensures SpeltLaunch(v, l) <==> DecodeLaunch(v) == Some(l) && OneGrant(v.entries)
  {
    hide DecodeSpec, DecodeGrant, NameOk, SpeltLaunchOf, OneGrant, Except;
    if DecodeLaunch(v) == Some(l) && OneGrant(v.entries) {
      var rest, g := M(Except(v.entries, "grant")), Field(v, "grant").value;
      SpecIffSpelt(rest, l.spec);
      var t, m :| SpeltSpecOf(rest, l.spec, t, m);
      LaunchReadIsSpelt(v, l, g, t, m);
    }
    if SpeltLaunch(v, l) {
      var g, t, m :| SpeltLaunchOf(v, l, g, t, m);
      LaunchSpeltIsRead(v, l, g, t, m);
    }
  }

  lemma LaunchReadIsSpelt(v: FO, l: Launch, g: FO, t: FO, m: FO)
    requires v.M? && OneGrant(v.entries) && Field(v, "grant") == Some(g) && DecodeGrant(g) == Some(l.grant)
    requires SpeltSpecOf(M(Except(v.entries, "grant")), l.spec, t, m)
    ensures SpeltLaunchOf(v, l, g, t, m)
  {
    hide DecodeSpec, DecodeGrant, NameOk, SpeltSpec, SpeltGrant, SpeltMemory, SpeltSelection, Holds, OneGrant, Lookup, Distinct, Except;
    GrantIffSpelt(g, l.grant);
    var fields := LaunchFields(l, g, t, m);
    assert fields[1..] == [("prompt", S(l.spec.prompt)), ("name", S(l.spec.name)), ("type", t), ("model", m)];
    HeldWithGrant(v, fields);
  }

  lemma LaunchSpeltIsRead(v: FO, l: Launch, g: FO, t: FO, m: FO)
    requires NameOk(l.spec.name) && SpeltLaunchOf(v, l, g, t, m)
    ensures DecodeLaunch(v) == Some(l) && OneGrant(v.entries)
  {
    hide DecodeSpec, DecodeGrant, NameOk, SpeltGrant, SpeltMemory, SpeltSelection, Holds, OneGrant, Lookup, Distinct, Except;
    var fields := LaunchFields(l, g, t, m);
    assert fields[1..] == [("prompt", S(l.spec.prompt)), ("name", S(l.spec.name)), ("type", t), ("model", m)];
    HeldWithoutGrant(v, fields);
    var rest := M(Except(v.entries, "grant"));
    assert SpeltSpecOf(rest, l.spec, t, m);
    SpecIffSpelt(rest, l.spec);
    GrantIffSpelt(g, l.grant);
  }

  /** A second grant is passed over: the record is read by its first, though no other
      field may be repeated. */
  lemma ARepeatedGrantIsTaken(l: Launch, other: FO)
    requires GrantOk(l.grant) && SpecOk(l.spec)
    ensures var v := M([("grant", EncodeGrant(l.grant)), ("grant", other)] + SpecEntries(l.spec));
            DecodeLaunch(v) == Some(l) && !SpeltLaunch(v, l)
  {
    var es := [("grant", EncodeGrant(l.grant)), ("grant", other)] + SpecEntries(l.spec);
    var v := M(es);
    assert es[0].0 == "grant" && es[1].0 == "grant" && !OneGrant(es);
    assert es[1..][1..] == SpecEntries(l.spec) && es[1..][0].0 == "grant";
    NoGrant(l.spec);
    assert Except(es, "grant") == SpecEntries(l.spec);
    SpecKeysDiffer(l.spec);
    forall i | 0 <= i < 4 ensures Field(M(SpecEntries(l.spec)), SpecEntries(l.spec)[i].0) == Some(SpecEntries(l.spec)[i].1) { LookupAt(SpecEntries(l.spec), i); }
    SpecReadsFrom(l.spec, M(SpecEntries(l.spec)));
    GrantReads(l.grant);
    LaunchIffSpelt(v, l);
  }

  lemma NoGrant(s: Spec)
    ensures Except(SpecEntries(s), "grant") == SpecEntries(s)
  {
    var es := SpecEntries(s);
    SpecKeysDiffer(s);
    assert es[0].0 != "grant" && es[1].0 != "grant" && es[2].0 != "grant" && es[3].0 != "grant";
    assert Except(es[3..], "grant") == es[3..] by { assert es[3..][1..] == []; }
    assert Except(es[2..], "grant") == es[2..] by { assert es[2..][1..] == es[3..]; }
    assert Except(es[1..], "grant") == es[1..] by { assert es[1..][1..] == es[2..]; }
  }
}
