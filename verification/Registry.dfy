/** The timer registry and the mailbox cell it works on, updated in place. */
module Registry {
  import opened Wrappers
  import opened Booking
  import opened Occurrence
  import Cron

  datatype Refusal = NeverFires | LabelBorne | NotRecorded

  /** Insertion goes past every earlier label. */
  lemma {:induction false} InsertSkips(rung: seq<Ring>, i: nat, r: Ring)
    requires i <= |rung| && forall j | 0 <= j < i :: rung[j].name != r.name && !Before(r.name, rung[j].name)
    ensures Insert(rung, r) == rung[..i] + Insert(rung[i..], r)
  {
    if i > 0 {
      InsertSkips(rung[1..], i - 1, r);
      assert rung[1..][i - 1..] == rung[i..];
      assert [rung[0]] + rung[1..][..i - 1] == rung[..i];
    }
  }

  /** When a trigger next fires: a recurring one by the search itself. */
  method Next(t: Trigger, now: Instant) returns (r: Option<nat>)
    ensures r == NextAfter(t, now)
  {
    match t
    case Recurring(_, schedule) =>
      var c := Cron.NextAfter(schedule, now);
      BoundaryIsNext(schedule, now, c);
      r := if c.Some? then Some(BoundaryMs(c.value)) else None;
    case After(_, d) => r := if Cron.Nanos(now) + d <= LAST_NANO then Some(SinceEpoch((Cron.Nanos(now) + d) / 1_000_000)) else None;
    case At(_, i) => r := Some(Ms(i));
  }

  /** The part of an agent's mailbox that bears bookings, wakeups and rings. */
  class Cell {
    var bookings: map<string, Wake>
    var queue: seq<Item>
    var rung: seq<Ring>
    var live: bool

    constructor (journalled: map<string, Wake>)
      ensures bookings == journalled && queue == [] && rung == [] && live
    {
      bookings, queue, rung, live := journalled, [], [], true;
    }

    /** Rings are taken all at once. */
    method Rung() returns (rs: seq<Ring>)
      modifies this`rung
      ensures rs == old(rung) && rung == []
    {
      rs := rung;
      rung := [];
    }

    /** A ring waits in label order, the later id of a label standing. */
    method Ring(name: string, id: nat)
      modifies this`rung
      ensures rung == if live then Insert(old(rung), Booking.Ring(name, id)) else old(rung)
    {
      if !live { return; }
      var i := 0;
      var r := Booking.Ring(name, id);
      while i < |rung| && rung[i].name != name && !Before(name, rung[i].name)
        invariant 0 <= i <= |rung| && rung == old(rung)
        invariant forall j | 0 <= j < i :: rung[j].name != name && !Before(name, rung[j].name)
      {
        i := i + 1;
      }
      InsertSkips(rung, i, r);
      if i == |rung| {
        rung := rung + [r];
      } else if rung[i].name == name {
        rung := rung[..i] + [Booking.Ring(name, if rung[i].id < id then id else rung[i].id)] + rung[i + 1..];
      } else {
        rung := rung[..i] + [r] + rung[i..];
      }
    }

    method IsQueued(id: nat) returns (found: bool)
      ensures found <==> Queued(queue, id)
    {
      for i := 0 to |queue|
        invariant forall j | 0 <= j < i :: !(queue[j].Wakeup? && queue[j].id == id)
      {
        if queue[i].Wakeup? && queue[i].id == id { return true; }
      }
      return false;
    }
  }

  class Timers {
    var nextId: nat
    var byLabel: map<string, Timer>
    ghost var owner: map<string, nat>
    ghost var born: map<nat, Birth>
    ghost var log: seq<Post>
    ghost var broken: bool

    constructor ()
      ensures nextId == 0 && byLabel == map[] && owner == map[] && born == map[] && log == [] && !broken
    {
      nextId, byLabel := 0, map[];
      owner, born, log, broken := map[], map[], [], false;
    }

    ghost function View(cell: Cell): State
      reads this, cell
    {
      State(nextId, byLabel, cell.bookings, cell.queue, cell.rung, cell.live, owner, born, log, broken)
    }

    /** Commit the booking, then arm its first occurrence; `ok` is whether the
        journal takes it. */
    method Schedule(cell: Cell, name: string, prompt: string, trigger: Trigger, now: Instant, ok: bool) returns (r: Result<nat, Refusal>)
      modifies this, cell
      ensures View(cell) == Book(old(View(cell)), name, prompt, trigger, now, ok)
      ensures r.Ok? <==> NextAfter(trigger, now).Some? && name !in old(cell.bookings) && ok
      ensures r.Ok? ==> r.value == old(nextId) && name in cell.bookings && cell.bookings[name].next == NextAfter(trigger, now).value
      ensures r.Ok? ==> name in byLabel && byLabel[name] == Timer(r.value, trigger, true)
      ensures r.Err? ==> View(cell) == old(View(cell))
    {
      var next := Next(trigger, now);
      if next.None? { return Err(NeverFires); }
      if name in cell.bookings { return Err(LabelBorne); }
      if !ok { return Err(NotRecorded); }
      cell.bookings := cell.bookings[name := Wake(prompt, trigger.shown, next.value, 0)];
      var id := nextId;
      nextId := nextId + 1;
      byLabel := byLabel[name := Timer(id, trigger, true)];
      owner, born := owner[name := id], born[id := Birth(name, trigger)];
      r := Ok(id);
    }

    /** An absent label is a successful no-op that still drops its timer. */
    method Unschedule(cell: Cell, name: string, ok: bool) returns (r: Result<bool, Refusal>)
      modifies this, cell
      ensures View(cell) == Unbook(old(View(cell)), name, ok)
      ensures r == if name !in old(cell.bookings) then Ok(false) else if ok then Ok(true) else Err(NotRecorded)
      ensures r.Ok? ==> name !in cell.bookings && name !in byLabel && cell.queue == old(cell.queue)
    {
      if name in cell.bookings {
        if !ok { return Err(NotRecorded); }
        cell.bookings := cell.bookings - {name};
        r := Ok(true);
      } else {
        r := Ok(false);
      }
      byLabel := byLabel - {name};
    }

    method ClearAll(cell: Cell)
      modifies this`byLabel
      ensures View(cell) == Clear(old(View(cell))) && byLabel == map[] && cell.bookings == old(cell.bookings)
    {
      byLabel := map[];
    }

    /** The deadline armed for `name` under `id` elapses. */
    method Elapsed(cell: Cell, name: string, id: nat)
      modifies this`byLabel, cell
      ensures View(cell) == Elapse(old(View(cell)), name, id)
    {
      if name in byLabel && byLabel[name].id == id {
        byLabel := byLabel[name := byLabel[name].(armed := false)];
      }
      cell.Ring(name, id);
    }

    /** Answer every ring in label order, until the journal refuses one. */
    method Fire(cell: Cell, now: Instant, ok: string -> bool) returns (done: bool)
      modifies this, cell
      ensures View(cell) == Booking.Fire(old(View(cell)), now, ok)
    {
      var rs := cell.Rung();
      ghost var start := View(cell);
      assert rs[0..] == rs;
      for i := 0 to |rs|
        invariant FireAll(start, rs, now, ok) == FireAll(View(cell), rs[i..], now, ok)
      {
        assert rs[i..][0] == rs[i] && rs[i..][1..] == rs[i + 1..];
        var on := Answer(cell, rs[i], now, ok(rs[i].name));
        if !on { return false; }
      }
      assert rs[|rs|..] == [];
      done := true;
    }

    method Answer(cell: Cell, r: Ring, now: Instant, ok: bool) returns (on: bool)
      modifies this, cell
      ensures (View(cell), on) == FireOne(old(View(cell)), r, now, ok)
    {
      if r.name !in byLabel || byLabel[r.name].id != r.id { return true; }
      if r.name !in cell.bookings {
        byLabel := byLabel - {r.name};
        return true;
      }
      var timer, wake := byLabel[r.name], cell.bookings[r.name];
      if Ms(now) < wake.next {
        byLabel := byLabel[r.name := timer.(armed := true)];
        return true;
      }
      if !ok {
        broken := true;
        return false;
      }
      var next: Option<nat> := None;
      if timer.trigger.Recurring? { next := Next(timer.trigger, now); }
      var queued := cell.IsQueued(r.id);
      if !queued {
        cell.queue := cell.queue + [Wakeup(r.id, Text(r.name, wake))];
        log := log + [Post(r.name, r.id, if r.name in owner then owner[r.name] else 0, Ms(now), wake.next, next, !timer.trigger.Recurring?)];
      }
      if next.Some? {
        cell.bookings := cell.bookings[r.name := wake.(next := next.value, fires := wake.fires + if queued then 0 else 1)];
        byLabel := byLabel[r.name := timer.(armed := true)];
      } else {
        cell.bookings := cell.bookings - {r.name};
        byLabel := byLabel - {r.name};
      }
      on := true;
    }
  }
}
