/** The requests a harness builtin sends and the desk answers, encoded as data and
    read back strictly: what reaches the desk is what was asked, within its guards. */
module Enquiry {
  import opened Wrappers
  import opened Datums
  import Cron
  import Durations
  import Utf8

  // ── Requests ─────────────────────────────────────────────────────────────

  datatype Memory = Amnemon | Mnemon

  datatype Grant = Inherit | Base(base: string) | Restrict(layer: FO)

  datatype Selection = Own | Role(role: string)

  datatype Spec = Spec(prompt: string, name: string, memory: Memory, model: Selection)

  datatype ForkClaim = Parked(id: nat) | Sealed(bytes: seq<int>)

  datatype Asked = OnCron(schedule: Cron.Schedule, expr: string) | After(delay: Durations.Duration)

  datatype Span = Span(from: nat, to: nat)

  datatype Turns = All | Only(turns: seq<nat>)

  datatype Agents =
    | AgentList
    | Start(spec: Spec, fork: ForkClaim)
    | Message(to: string, text: string)
    | Stop(name: string)
    | Dismiss(name: string)
    | Reply(value: FO)
    | Read(name: string)

  datatype Schedules = ScheduleList | Add(trigger: Asked, name: string, prompt: string) | Remove(name: string)

  datatype Pins = Clear(key: string) | ReadPin(key: string) | PinList

  datatype Context = Survey | Evict(span: Span, note: string)

  datatype Transcript = Index | ReadTurns(ids: seq<nat>) | Grep(pattern: string, scope: Turns)

  datatype Request =
    | OfAgents(agents: Agents)
    | OfSchedules(schedules: Schedules)
    | OfPins(pins: Pins)
    | OfContext(context: Context)
    | OfTranscript(transcript: Transcript)

  /** The model's own spawn record. */
  datatype Launch = Launch(grant: Grant, spec: Spec)

  /** The parsers a request is read through: whether a pattern compiles, and what a
      cron expression parses to. */
  datatype Readers = Readers(compiles: string -> bool, cron: string -> Option<Cron.Schedule>)

  const SPAWN_BASES: seq<string> := ["confined", "read-only", "edit-only", "reasonable"]

  const NOTE_CAP := 240

  // ── Guards ───────────────────────────────────────────────────────────────

  /** One token of the tab bar. */
  predicate NameOk(name: string) {
    name != [] && |name| <= 24 && forall i | 0 <= i < |name| :: NameChar(name[i])
  }

  predicate NameChar(c: char) {
    'a' <= c <= 'z' || 'A' <= c <= 'Z' || '0' <= c <= '9' || c == '-' || c == '_'
  }

  function Utf8Length(s: string): nat {
    if s == [] then 0 else Utf8Length(s[..|s| - 1]) + Utf8.Width(s[|s| - 1] as int)
  }

  /** One short line. */
  predicate NoteOk(note: string) {
    note != [] && Utf8Length(note) <= NOTE_CAP && '\n' !in note && '\r' !in note
  }

  /** Names are of one to 24 of the letters, digits, `-` and `_`. */
  lemma NameBounds(name: string)
    ensures NameOk(name) ==> 1 <= |name| <= 24 && ' ' !in name && '/' !in name && '.' !in name
    ensures 1 <= |name| <= 24 && (forall i | 0 <= i < |name| :: name[i] in "azAZ09-_") ==> NameOk(name)
    ensures |name| == 25 ==> !NameOk(name)
  {
  }

  /** Notes are of one to 240 bytes, on one line. */
  lemma {:induction false} NoteBounds(note: string)
    ensures Utf8Length(note) >= |note| && Utf8Length("\U{E9}") == 2 && Utf8Length("\U{20AC}") == 3 && Utf8Length("\U{1F600}") == 4
    ensures (forall i | 0 <= i < |note| :: note[i] < 128 as char) ==> Utf8Length(note) == |note| && (NoteOk(note) <==> 1 <= |note| <= 240 && '\n' !in note && '\r' !in note)
  {
    if note != [] { NoteBounds(note[..|note| - 1]); }
    assert "\U{E9}"[..0] == "" && "\U{20AC}"[..0] == "" && "\U{1F600}"[..0] == "";
  }

  predicate GrantOk(g: Grant) {
    (g.Base? ==> g.base in SPAWN_BASES) && (g.Restrict? ==> g.layer.M?)
  }

  predicate SpecOk(s: Spec) {
    NameOk(s.name) && (s.model.Role? ==> s.model.role != [])
  }

  predicate ForkOk(f: ForkClaim) {
    f.Parked? ==> f.id <= I64_MAX
  }

  predicate AskedOk(k: Readers, a: Asked) {
    match a
    case OnCron(schedule, expr) => k.cron(expr) == Some(schedule)
    case After(d) => 0 < d.secs <= Durations.U64_MAX && d.nanos == 0
  }

  predicate SpanOk(s: Span) {
    s.from <= s.to <= I64_MAX
  }

  predicate TurnsOk(ns: seq<nat>) {
    forall i | 0 <= i < |ns| :: ns[i] <= I64_MAX
  }

  predicate AgentsOk(a: Agents) {
    match a
    case Start(spec, fork) => SpecOk(spec) && ForkOk(fork)
    case _ => true
  }

  /** What every request the desk acts on meets. */
  predicate RequestOk(k: Readers, r: Request) {
    match r
    case OfAgents(a) => AgentsOk(a)
    case OfSchedules(Add(t, _, _)) => AskedOk(k, t)
    case OfContext(Evict(span, note)) => SpanOk(span) && NoteOk(note)
    case OfTranscript(ReadTurns(ns)) => TurnsOk(ns)
    case OfTranscript(Grep(p, turns)) => k.compiles(p) && (turns.Only? ==> TurnsOk(turns.turns))
    case _ => true
  }

  // ── Encoding ─────────────────────────────────────────────────────────────

  function EncodeMemory(m: Memory): FO {
    if m.Amnemon? then Tag("amnemon", None) else Tag("mnemon", None)
  }

  function EncodeGrant(g: Grant): FO {
    match g
    case Inherit => Tag("inherit", None)
    case Base(b) => Tag(b, None)
    case Restrict(layer) => Tag("restrict", Some(layer))
  }

  function EncodeSelection(s: Selection): FO {
    match s case Own => Tag("inherit", None) case Role(name) => Tag("role", Some(S(name)))
  }

  function SpecEntries(s: Spec): Entries {
    [("prompt", S(s.prompt)), ("name", S(s.name)), ("type", EncodeMemory(s.memory)), ("model", EncodeSelection(s.model))]
  }

  function EncodeSpec(s: Spec): FO {
    Record(SpecEntries(s))
  }

  /** The spec's own record with the grant pushed in, sorted again. */
  function EncodeLaunch(l: Launch): FO {
    M(Sort(Sort(SpecEntries(l.spec)) + [("grant", EncodeGrant(l.grant))]))
  }

  function EncodeFork(f: ForkClaim): FO {
    match f case Parked(id) => Tag("parked", Some(OfU64(id))) case Sealed(bytes) => Tag("sealed", Some(Y(bytes)))
  }

  function EncodeAsked(a: Asked): FO {
    match a
    case OnCron(_, expr) => Tag("cron", Some(S(expr)))
    case After(d) => Tag("after", Some(S(Durations.FmtDuration(d))))
  }

  function EncodeTurns(t: Turns): FO {
    match t case All => Tag("all", None) case Only(ns) => Tag("only", Some(L(OfU64s(ns))))
  }

  function StartEntries(spec: Spec, fork: ForkClaim): Entries {
    [("spec", EncodeSpec(spec)), ("fork", EncodeFork(fork))]
  }

  function MessageEntries(to: string, text: string): Entries {
    [("to", S(to)), ("text", S(text))]
  }

  function AddEntries(t: Asked, name: string, prompt: string): Entries {
    [("trigger", EncodeAsked(t)), ("label", S(name)), ("prompt", S(prompt))]
  }

  function EvictEntries(span: Span, note: string): Entries {
    [("from", OfU64(span.from)), ("note", S(note)), ("to", OfU64(span.to))]
  }

  function GrepEntries(pattern: string, turns: Turns): Entries {
    [("pattern", S(pattern)), ("turns", EncodeTurns(turns))]
  }

  function EncodeAgents(a: Agents): FO {
    match a
    case AgentList => Tag("list", None)
    case Start(spec, fork) => Tag("start", Some(Record(StartEntries(spec, fork))))
    case Message(to, text) => Tag("message", Some(Record(MessageEntries(to, text))))
    case Stop(name) => Tag("stop", Some(S(name)))
    case Dismiss(name) => Tag("dismiss", Some(S(name)))
    case Reply(value) => Tag("reply", Some(value))
    case Read(name) => Tag("read", Some(S(name)))
  }

  function EncodeSchedules(s: Schedules): FO {
    match s
    case ScheduleList => Tag("list", None)
    case Add(t, name, prompt) => Tag("add", Some(Record(AddEntries(t, name, prompt))))
    case Remove(name) => Tag("remove", Some(S(name)))
  }

  function EncodePins(p: Pins): FO {
    match p
    case Clear(key) => Tag("clear", Some(S(key)))
    case ReadPin(key) => Tag("read", Some(S(key)))
    case PinList => Tag("list", None)
  }

  /** Written with its keys already in order. */
  function EncodeContext(c: Context): FO {
    match c
    case Survey => Tag("survey", None)
    case Evict(span, note) => Tag("evict", Some(M(EvictEntries(span, note))))
  }

  function EncodeTranscript(t: Transcript): FO {
    match t
    case Index => Tag("index", None)
    case ReadTurns(ns) => Tag("read", Some(Record([("turns", L(OfU64s(ns)))])))
    case Grep(p, turns) => Tag("grep", Some(M(GrepEntries(p, turns))))
  }

  function Encode(r: Request): FO {
    match r
    case OfAgents(a) => Tag("agents", Some(EncodeAgents(a)))
    case OfSchedules(s) => Tag("schedules", Some(EncodeSchedules(s)))
    case OfPins(p) => Tag("pins", Some(EncodePins(p)))
    case OfContext(c) => Tag("context", Some(EncodeContext(c)))
    case OfTranscript(t) => Tag("transcript", Some(EncodeTranscript(t)))
  }

  // ── Decoding ─────────────────────────────────────────────────────────────

  function StringAt(v: FO, key: string): Option<string> {
    match Field(v, key) case None => None case Some(f) => AsString(f)
  }

  function U64At(v: FO, key: string): Option<nat> {
    match Field(v, key) case None => None case Some(f) => AsU64(f)
  }

  function DecodeMemory(v: FO): Option<Memory> {
    match Untag(v)
    case Some(Tagged(name, None)) => if name == "amnemon" then Some(Amnemon) else if name == "mnemon" then Some(Mnemon) else None
    case _ => None
  }

  function DecodeGrant(v: FO): Option<Grant> {
    match Untag(v)
    case Some(Tagged(name, None)) => if name == "inherit" then Some(Inherit) else if name in SPAWN_BASES then Some(Base(name)) else None
    case Some(Tagged(name, Some(p))) => if name == "restrict" && p.M? then Some(Restrict(p)) else None
    case None => None
  }

  function DecodeSelection(v: FO): Option<Selection> {
    match Untag(v)
    case Some(Tagged(name, None)) => if name == "inherit" then Some(Own) else None
    case Some(Tagged(name, Some(p))) => if name == "role" && p.S? && p.s != [] then Some(Role(p.s)) else None
    case None => None
  }

  function DecodeName(v: FO, key: string): Option<string> {
    match StringAt(v, key) case Some(n) => if NameOk(n) then Some(n) else None case None => None
  }

  function DecodeSpec(v: FO): Option<Spec> {
    if !ExactKeys(v, ["prompt", "name", "type", "model"]) then None
    else
      match (StringAt(v, "prompt"), DecodeName(v, "name"), Field(v, "type"), Field(v, "model"))
      case (Some(prompt), Some(name), Some(t), Some(m)) =>
        (match (DecodeMemory(t), DecodeSelection(m))
         case (Some(memory), Some(model)) => Some(Spec(prompt, name, memory, model))
         case _ => None)
      case _ => None
  }

  /** The grant read off the record, the rest read as the spec. */
  function DecodeLaunch(v: FO): Option<Launch> {
    if !v.M? then None
    else
      match Field(v, "grant")
      case None => None
      case Some(g) =>
        match (DecodeGrant(g), DecodeSpec(M(Except(v.entries, "grant"))))
        case (Some(grant), Some(spec)) => Some(Launch(grant, spec))
        case _ => None
  }

  function DecodeFork(v: FO): Option<ForkClaim> {
    match Untag(v)
    case Some(Tagged(name, Some(p))) =>
      if name == "parked" then (match AsU64(p) case Some(id) => Some(Parked(id)) case None => None)
      else if name == "sealed" && p.Y? then Some(Sealed(p.bytes))
      else None
    case _ => None
  }

  function DecodeAsked(k: Readers, v: FO): Option<Asked> {
    match Untag(v)
    case Some(Tagged(name, Some(p))) =>
      if !p.S? then None
      else if name == "cron" then (match k.cron(p.s) case Some(schedule) => Some(OnCron(schedule, p.s)) case None => None)
      else if name == "after" then (match Durations.ParseDuration(p.s) case Ok(d) => Some(After(d)) case Err(_) => None)
      else None
    case _ => None
  }

  function DecodeU64s(v: FO): Option<seq<nat>> {
    if v.L? then AsU64s(v.items) else None
  }

  function DecodeTurns(v: FO): Option<Turns> {
    match Untag(v)
    case Some(Tagged(name, None)) => if name == "all" then Some(All) else None
    case Some(Tagged(name, Some(p))) =>
      if name == "only" then (match DecodeU64s(p) case Some(ns) => Some(Only(ns)) case None => None) else None
    case None => None
  }

  function DecodeStart(v: FO): Option<Agents> {
    if !ExactKeys(v, ["spec", "fork"]) then None
    else
      match (Field(v, "spec"), Field(v, "fork"))
      case (Some(s), Some(f)) =>
        (match (DecodeSpec(s), DecodeFork(f)) case (Some(spec), Some(fork)) => Some(Start(spec, fork)) case _ => None)
      case _ => None
  }

  function DecodeMessage(v: FO): Option<Agents> {
    if !ExactKeys(v, ["to", "text"]) then None
    else match (StringAt(v, "to"), StringAt(v, "text")) case (Some(to), Some(text)) => Some(Message(to, text)) case _ => None
  }

  function DecodeAgents(word: Tagged): Option<Agents> {
    var name := word.name;
    match word.payload
    case None => if name == "list" then Some(AgentList) else if name == "reply" then Some(Reply(U)) else None
    case Some(p) =>
      if name == "start" then DecodeStart(p)
      else if name == "message" then DecodeMessage(p)
      else if name == "reply" then Some(Reply(p))
      else if !p.S? then None
      else if name == "stop" then Some(Stop(p.s))
      else if name == "dismiss" then Some(Dismiss(p.s))
      else if name == "read" then Some(Read(p.s))
      else None
  }

  function DecodeAdd(k: Readers, v: FO): Option<Schedules> {
    if !ExactKeys(v, ["trigger", "label", "prompt"]) then None
    else
      match (Field(v, "trigger"), StringAt(v, "label"), StringAt(v, "prompt"))
      case (Some(t), Some(name), Some(prompt)) =>
        (match DecodeAsked(k, t) case Some(asked) => Some(Add(asked, name, prompt)) case None => None)
      case _ => None
  }

  function DecodeSchedules(k: Readers, word: Tagged): Option<Schedules> {
    match word.payload
    case None => if word.name == "list" then Some(ScheduleList) else None
    case Some(p) =>
      if word.name == "add" then DecodeAdd(k, p)
      else if word.name == "remove" && p.S? then Some(Remove(p.s))
      else None
  }

  function DecodePins(word: Tagged): Option<Pins> {
    match word.payload
    case None => if word.name == "list" then Some(PinList) else None
    case Some(p) =>
      if !p.S? then None else if word.name == "clear" then Some(Clear(p.s)) else if word.name == "read" then Some(ReadPin(p.s)) else None
  }

  function DecodeEvict(v: FO): Option<Context> {
    if !ExactKeys(v, ["from", "to", "note"]) then None
    else
      match (U64At(v, "from"), U64At(v, "to"), StringAt(v, "note"))
      case (Some(from), Some(to), Some(note)) => if from <= to && NoteOk(note) then Some(Evict(Span(from, to), note)) else None
      case _ => None
  }

  function DecodeContext(word: Tagged): Option<Context> {
    match word.payload
    case None => if word.name == "survey" then Some(Survey) else None
    case Some(p) => if word.name == "evict" then DecodeEvict(p) else None
  }

  function DecodeReading(v: FO): Option<Transcript> {
    if !ExactKeys(v, ["turns"]) then None
    else
      match Field(v, "turns")
      case None => None
      case Some(f) => match DecodeU64s(f) case Some(ns) => Some(ReadTurns(ns)) case None => None
  }

  function DecodeGrep(k: Readers, v: FO): Option<Transcript> {
    if !ExactKeys(v, ["pattern", "turns"]) then None
    else
      match (StringAt(v, "pattern"), Field(v, "turns"))
      case (Some(p), Some(f)) =>
        if !k.compiles(p) then None else (match DecodeTurns(f) case Some(turns) => Some(Grep(p, turns)) case None => None)
      case _ => None
  }

  function DecodeTranscript(k: Readers, word: Tagged): Option<Transcript> {
    match word.payload
    case None => if word.name == "index" then Some(Index) else None
    case Some(p) =>
      if word.name == "read" then DecodeReading(p) else if word.name == "grep" then DecodeGrep(k, p) else None
  }

  function Decode(k: Readers, v: FO): Option<Request> {
    match Untag(v)
    case Some(Tagged(class_, Some(w))) =>
      (match Untag(w)
       case None => None
       case Some(word) =>
         if class_ == "agents" then (match DecodeAgents(word) case Some(a) => Some(OfAgents(a)) case None => None)
         else if class_ == "schedules" then (match DecodeSchedules(k, word) case Some(s) => Some(OfSchedules(s)) case None => None)
         else if class_ == "pins" then (match DecodePins(word) case Some(p) => Some(OfPins(p)) case None => None)
         else if class_ == "context" then (match DecodeContext(word) case Some(c) => Some(OfContext(c)) case None => None)
         else if class_ == "transcript" then (match DecodeTranscript(k, word) case Some(t) => Some(OfTranscript(t)) case None => None)
         else None)
    case _ => None
  }

  // ── Round trips of the pieces ────────────────────────────────────────────

  lemma MemoryReads(m: Memory)
    ensures DecodeMemory(EncodeMemory(m)) == Some(m)
  {
  }

  /** A base is one of the four named, and a restriction is a record. */
  lemma GrantReads(g: Grant)
    requires GrantOk(g)
    ensures DecodeGrant(EncodeGrant(g)) == Some(g)
  {
    assert "inherit" !in SPAWN_BASES;
  }

  lemma SelectionReads(s: Selection)
    requires s.Role? ==> s.role != []
    ensures DecodeSelection(EncodeSelection(s)) == Some(s)
  {
  }

  const SPEC_KEYS: seq<string> := ["prompt", "name", "type", "model"]

  lemma SpecKeysDiffer(s: Spec)
    ensures Distinct(SpecEntries(s)) && forall i | 0 <= i < 4 :: SpecEntries(s)[i].0 in SPEC_KEYS && SpecEntries(s)[i].0 != "grant"
  {
    assert "prompt" != "name" && "prompt" != "type" && "prompt" != "model" && "name" != "type" && "name" != "model" && "type" != "model";
  }

  /** Any record whose fields are the spec's reads as the spec. */
  lemma SpecReadsFrom(s: Spec, v: FO)
    requires SpecOk(s) && ExactKeys(v, SPEC_KEYS)
    requires forall i | 0 <= i < 4 :: Field(v, SpecEntries(s)[i].0) == Some(SpecEntries(s)[i].1)
    ensures DecodeSpec(v) == Some(s)
  {
    var es := SpecEntries(s);
    assert Field(v, es[0].0) == Some(es[0].1) && Field(v, es[1].0) == Some(es[1].1);
    assert Field(v, es[2].0) == Some(es[2].1) && Field(v, es[3].0) == Some(es[3].1);
    MemoryReads(s.memory);
    SelectionReads(s.model);
  }

  lemma SpecReads(s: Spec)
    requires SpecOk(s)
    ensures DecodeSpec(EncodeSpec(s)) == Some(s)
  {
    SpecKeysDiffer(s);
    FieldsRead(SpecEntries(s), SPEC_KEYS);
    SpecReadsFrom(s, EncodeSpec(s));
  }

  lemma ForkReads(f: ForkClaim)
    requires ForkOk(f)
    ensures DecodeFork(EncodeFork(f)) == Some(f)
  {
  }

  lemma AskedReads(k: Readers, a: Asked)
    requires AskedOk(k, a)
    ensures DecodeAsked(k, EncodeAsked(a)) == Some(a)
  {
    if a.After? { Durations.FmtParses(a.delay); }
  }

  lemma TurnsRead(t: Turns)
    requires t.Only? ==> TurnsOk(t.turns)
    ensures DecodeTurns(EncodeTurns(t)) == Some(t)
  {
    if t.Only? { U64sRoundTrip(t.turns); }
  }

  // ── The spawn record ─────────────────────────────────────────────────────

  /** The grant, flattened into the spec's record, comes back out of it, and the
      record without it is the spec's. */
  lemma LaunchRoundTrip(l: Launch)
    requires GrantOk(l.grant) && SpecOk(l.spec)
    ensures DecodeLaunch(EncodeLaunch(l)) == Some(l)
  {
    var es, g := SpecEntries(l.spec), ("grant", EncodeGrant(l.grant));
    SpecKeysDiffer(l.spec);
    SortKeeps(es);
    Appended(Sort(es), g);
    var flat := Sort(es) + [g];
    SortKeeps(flat);
    ExceptKeeps(Sort(flat), "grant");
    GrantReads(l.grant);
    RestIsTheSpec(l.spec, Except(Sort(flat), "grant"));
  }

  lemma Appended(es: Entries, e: (string, FO))
    requires Distinct(es) && !HasKey(es, e.0)
    ensures Distinct(es + [e]) && Lookup(es + [e], e.0) == Some(e.1)
    ensures forall k :: HasKey(es + [e], k) <==> k == e.0 || HasKey(es, k)
    ensures forall k | k != e.0 :: Lookup(es + [e], k) == Lookup(es, k)
  {
    var out := es + [e];
    forall k ensures HasKey(out, k) <==> k == e.0 || HasKey(es, k) {
      if HasKey(es, k) {
        var i :| 0 <= i < |es| && es[i].0 == k;
        assert out[i].0 == k;
      }
      if k == e.0 { assert out[|es|].0 == k; }
    }
    LookupAt(out, |es|);
    forall k | k != e.0 ensures Lookup(out, k) == Lookup(es, k) { LookupPast(es, e, k); }
  }

  lemma {:induction false} LookupPast(es: Entries, e: (string, FO), k: string)
    requires k != e.0
    ensures Lookup(es + [e], k) == Lookup(es, k)
  {
    if es == [] {
      assert es + [e] == [e] && [e][1..] == [];
    } else {
      assert (es + [e])[1..] == es[1..] + [e];
      LookupPast(es[1..], e, k);
    }
  }

  lemma RestIsTheSpec(s: Spec, rest: Entries)
    requires SpecOk(s) && Distinct(rest)
    requires forall k :: HasKey(rest, k) ==> HasKey(Sort(SpecEntries(s)), k)
    requires forall k | k != "grant" :: Lookup(rest, k) == Lookup(SpecEntries(s), k)
    ensures DecodeSpec(M(rest)) == Some(s)
  {
    var es := SpecEntries(s);
    SpecKeysDiffer(s);
    SortKeeps(es);
    forall i | 0 <= i < 4 ensures Field(M(rest), es[i].0) == Some(es[i].1) { LookupAt(es, i); }
    forall i | 0 <= i < |rest| ensures rest[i].0 in SPEC_KEYS {
      assert HasKey(rest, rest[i].0);
      OnlySpecKeys(s, rest[i].0);
    }
    SpecReadsFrom(s, M(rest));
  }

  lemma OnlySpecKeys(s: Spec, k: string)
    requires HasKey(Sort(SpecEntries(s)), k)
    ensures k in SPEC_KEYS
  {
    SpecKeysDiffer(s);
    SortKeeps(SpecEntries(s));
    var j :| 0 <= j < 4 && SpecEntries(s)[j].0 == k;
  }

  // ── Round trips of the families ──────────────────────────────────────────

  lemma AgentsRead(a: Agents)
    requires AgentsOk(a)
    ensures DecodeAgents(Untag(EncodeAgents(a)).value) == Some(a)
  {
    match a
    case Start(spec, fork) => StartReads(spec, fork);
    case Message(to, text) => MessageReads(to, text);
    case _ =>
  }

  lemma StartReads(spec: Spec, fork: ForkClaim)
    requires SpecOk(spec) && ForkOk(fork)
    ensures DecodeStart(Record(StartEntries(spec, fork))) == Some(Start(spec, fork))
  {
    var es := StartEntries(spec, fork);
    assert "spec" != "fork";
    FieldsRead(es, ["spec", "fork"]);
    assert Field(Record(es), es[0].0) == Some(es[0].1) && Field(Record(es), es[1].0) == Some(es[1].1);
    SpecReads(spec);
    ForkReads(fork);
  }

  lemma MessageReads(to: string, text: string)
    ensures DecodeMessage(Record(MessageEntries(to, text))) == Some(Message(to, text))
  {
    var es := MessageEntries(to, text);
    assert "to" != "text";
    FieldsRead(es, ["to", "text"]);
    assert Field(Record(es), es[0].0) == Some(es[0].1) && Field(Record(es), es[1].0) == Some(es[1].1);
  }

  lemma AddReads(k: Readers, t: Asked, name: string, prompt: string)
    requires AskedOk(k, t)
    ensures DecodeAdd(k, Record(AddEntries(t, name, prompt))) == Some(Add(t, name, prompt))
  {
    var es := AddEntries(t, name, prompt);
    assert "trigger" != "label" && "trigger" != "prompt" && "label" != "prompt";
    FieldsRead(es, ["trigger", "label", "prompt"]);
    assert Field(Record(es), es[0].0) == Some(es[0].1) && Field(Record(es), es[1].0) == Some(es[1].1) && Field(Record(es), es[2].0) == Some(es[2].1);
    AskedReads(k, t);
  }

  lemma EvictReads(span: Span, note: string)
    requires SpanOk(span) && NoteOk(note)
    ensures DecodeEvict(M(EvictEntries(span, note))) == Some(Evict(span, note))
  {
    var es := EvictEntries(span, note);
    assert "from" != "note" && "from" != "to" && "note" != "to";
    assert Distinct(es);
    LookupAt(es, 0);
    LookupAt(es, 1);
    LookupAt(es, 2);
  }

  lemma ReadingReads(ns: seq<nat>)
    requires TurnsOk(ns)
    ensures DecodeReading(Record([("turns", L(OfU64s(ns)))])) == Some(ReadTurns(ns))
  {
    var es: Entries := [("turns", L(OfU64s(ns)))];
    FieldsRead(es, ["turns"]);
    assert Field(Record(es), es[0].0) == Some(es[0].1);
    U64sRoundTrip(ns);
  }

  lemma GrepReads(k: Readers, p: string, turns: Turns)
    requires k.compiles(p) && (turns.Only? ==> TurnsOk(turns.turns))
    ensures DecodeGrep(k, M(GrepEntries(p, turns))) == Some(Grep(p, turns))
  {
    var es := GrepEntries(p, turns);
    assert "pattern" != "turns";
    assert Distinct(es);
    LookupAt(es, 0);
    LookupAt(es, 1);
    TurnsRead(turns);
  }

  lemma SchedulesRead(k: Readers, s: Schedules)
    requires RequestOk(k, OfSchedules(s))
    ensures DecodeSchedules(k, Untag(EncodeSchedules(s)).value) == Some(s)
  {
    if s.Add? { AddReads(k, s.trigger, s.name, s.prompt); }
  }

  lemma PinsRead(p: Pins)
    ensures DecodePins(Untag(EncodePins(p)).value) == Some(p)
  {
  }

  lemma ContextReads(k: Readers, c: Context)
    requires RequestOk(k, OfContext(c))
    ensures DecodeContext(Untag(EncodeContext(c)).value) == Some(c)
  {
    if c.Evict? { EvictReads(c.span, c.note); }
  }

  lemma TranscriptReads(k: Readers, t: Transcript)
    requires RequestOk(k, OfTranscript(t))
    ensures DecodeTranscript(k, Untag(EncodeTranscript(t)).value) == Some(t)
  {
    match t
    case Index =>
    case ReadTurns(ns) => ReadingReads(ns);
    case Grep(p, turns) => GrepReads(k, p, turns);
  }

  lemma RequestReads(k: Readers, r: Request)
    requires RequestOk(k, r)
    ensures Decode(k, Encode(r)) == Some(r)
  {
    match r
    case OfAgents(a) => AgentsRead(a);
    case OfSchedules(s) => SchedulesRead(k, s);
    case OfPins(p) => PinsRead(p);
    case OfContext(c) => ContextReads(k, c);
    case OfTranscript(t) => TranscriptReads(k, t);
  }

  // ── Guards of what is read ───────────────────────────────────────────────

  lemma SpecsReadAreOk(v: FO)
    ensures DecodeSpec(v).Some? ==> SpecOk(DecodeSpec(v).value)
  {
  }

  lemma AskedReadAreOk(k: Readers, v: FO)
    ensures DecodeAsked(k, v).Some? ==> AskedOk(k, DecodeAsked(k, v).value)
  {
    var a := DecodeAsked(k, v);
    if a.Some? && a.value.After? { Durations.AcceptedDurations(Untag(v).value.payload.value.s); }
  }

  lemma U64sReadAreOk(v: FO)
    ensures DecodeU64s(v).Some? ==> TurnsOk(DecodeU64s(v).value)
  {
    if v.L? && AsU64s(v.items).Some? { U64sInRange(v.items); }
  }

  lemma TurnsReadAreOk(v: FO)
    ensures DecodeTurns(v).Some? && DecodeTurns(v).value.Only? ==> TurnsOk(DecodeTurns(v).value.turns)
  {
    if Untag(v).Some? && Untag(v).value.payload.Some? { U64sReadAreOk(Untag(v).value.payload.value); }
  }

  lemma AgentsReadAreOk(word: Tagged)
    ensures DecodeAgents(word).Some? ==> AgentsOk(DecodeAgents(word).value)
  {
    if word.payload.Some? && Field(word.payload.value, "spec").Some? { SpecsReadAreOk(Field(word.payload.value, "spec").value); }
  }

  lemma SchedulesReadAreOk(k: Readers, word: Tagged)
    ensures DecodeSchedules(k, word).Some? ==> RequestOk(k, OfSchedules(DecodeSchedules(k, word).value))
  {
    if word.payload.Some? && Field(word.payload.value, "trigger").Some? { AskedReadAreOk(k, Field(word.payload.value, "trigger").value); }
  }

  lemma TranscriptsReadAreOk(k: Readers, word: Tagged)
    ensures DecodeTranscript(k, word).Some? ==> RequestOk(k, OfTranscript(DecodeTranscript(k, word).value))
  {
    if word.payload.Some? && Field(word.payload.value, "turns").Some? {
      U64sReadAreOk(Field(word.payload.value, "turns").value);
      TurnsReadAreOk(Field(word.payload.value, "turns").value);
    }
  }

  /** Whatever data arrives, a request the desk acts on meets its guards. */
  lemma EveryRequestReadIsOk(k: Readers, v: FO)
    ensures Decode(k, v).Some? ==> RequestOk(k, Decode(k, v).value)
  {
    if Untag(v).Some? && Untag(v).value.payload.Some? && Untag(Untag(v).value.payload.value).Some? {
      var word := Untag(Untag(v).value.payload.value).value;
      AgentsReadAreOk(word);
      SchedulesReadAreOk(k, word);
      TranscriptsReadAreOk(k, word);
    }
  }

  /** A request crosses unchanged exactly when it meets its guards. */
  lemma RequestRoundTrip(k: Readers, r: Request)
    ensures Decode(k, Encode(r)) == Some(r) <==> RequestOk(k, r)
  {
    if RequestOk(k, r) { RequestReads(k, r); }
    EveryRequestReadIsOk(k, Encode(r));
  }

  /** What was read once is read again: decoding loses nothing it accepts. */
  lemma DecodedRequestsCrossAgain(k: Readers, v: FO)
    requires Decode(k, v).Some?
    ensures Decode(k, Encode(Decode(k, v).value)) == Decode(k, v)
  {
    EveryRequestReadIsOk(k, v);
    RequestReads(k, Decode(k, v).value);
  }

  /** A reply of nothing crosses as no payload, and is read as nothing. */
  lemma EmptyRepliesCross(k: Readers)
    ensures EncodeAgents(Reply(U)) == V("reply", None) && Decode(k, Encode(OfAgents(Reply(U)))) == Some(OfAgents(Reply(U)))
  {
    AgentsRead(Reply(U));
  }

  /** An id past the signed range saturates on the way: it does not cross. */
  lemma LargeIdsDoNotCross(k: Readers, spec: Spec, id: nat)
    requires id > I64_MAX && SpecOk(spec)
    ensures Decode(k, Encode(OfAgents(Start(spec, Parked(id))))) == Some(OfAgents(Start(spec, Parked(I64_MAX))))
  {
    assert EncodeFork(Parked(id)) == EncodeFork(Parked(I64_MAX));
    RequestReads(k, OfAgents(Start(spec, Parked(I64_MAX))));
  }
}
