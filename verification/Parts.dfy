/** How a statement list is cut into its stretches of block definitions. */
module Parts {
  import opened Ir
  import opened Surface

  /** `let x = …` of a block or a lambda. */
  predicate Defines(s: Stmt) {
    s.SLet? && (s.e.ABlock? || (s.e.ALambda? && s.e.params != []))
  }

  function DefOf(s: Stmt): Def
    requires Defines(s)
  {
    if s.e.ABlock? then Def(s.x, [], s.e.body) else Def(s.x, s.e.params, s.e.body)
  }

  /** The statement a definition was written as. */
  function Written(d: Def): Stmt {
    SLet(d.x, if d.params == [] then ABlock(d.body) else ALambda(d.params, d.body))
  }

  function Lines(defs: seq<Def>): seq<Stmt> {
    seq(|defs|, i requires 0 <= i < |defs| => Written(defs[i]))
  }

  /** A list of parts, its stretches written out again. */
  function Flat(parts: seq<Stmt>): seq<Stmt> {
    if parts == [] then []
    else
      var last := parts[|parts| - 1];
      Flat(parts[..|parts| - 1]) + if last.SDefs? then Lines(last.defs) else [last]
  }

  /** Every name the statements bind. */
  function BoundBy(ss: seq<Stmt>): set<Name> {
    if ss == [] then {}
    else
      var last := ss[|ss| - 1];
      BoundBy(ss[..|ss| - 1]) + match last case SLet(x, _) => {x} case SDo(_) => {} case SDefs(defs) => DefNames(defs)
  }

  /** Every definition stands in a stretch; past a stretch's first, each defines a name
      nothing before it binds; and a stretch that follows another begins with a name
      already bound. */
  ghost predicate Parted(parts: seq<Stmt>) {
    forall k | 0 <= k < |parts| :: PartedAt(parts, k)
  }

  ghost predicate PartedAt(parts: seq<Stmt>, k: nat)
    requires k < |parts|
  {
    match parts[k]
    case SDefs(defs) =>
      && defs != []
      && (forall i | 0 < i < |defs| :: defs[i].x !in BoundBy(parts[..k]) + DefNames(defs[..i]))
      && (k > 0 && parts[k - 1].SDefs? ==> defs[0].x in BoundBy(parts[..k]))
    case _ => !Defines(parts[k])
  }

  /** No stretch defines a name twice. */
  lemma StretchesAreUnrepeated(parts: seq<Stmt>, k: nat)
    requires Parted(parts) && k < |parts| && parts[k].SDefs?
    ensures Unrepeated(parts[k].defs)
  {
    var defs := parts[k].defs;
    assert PartedAt(parts, k);
    forall i, j | 0 <= i < j < |defs| ensures defs[i].x != defs[j].x { assert defs[..j][i].x in DefNames(defs[..j]); }
  }

  lemma PartPushed(parts: seq<Stmt>, s: Stmt)
    requires Parted(parts) && PartedAt(parts + [s], |parts|)
    ensures Parted(parts + [s])
  {
    var more := parts + [s];
    forall k | 0 <= k < |more| ensures PartedAt(more, k) {
      if k < |parts| {
        assert PartedAt(parts, k) && more[..k] == parts[..k];
      }
    }
  }

  lemma OneMoreName(defs: seq<Def>, d: Def)
    ensures DefNames(defs + [d]) == DefNames(defs) + {d.x} && Lines(defs + [d]) == Lines(defs) + [Written(d)]
  {
    assert (defs + [d])[|defs|] == d;
    forall i | 0 <= i < |defs| ensures defs[i].x in DefNames(defs + [d]) { assert (defs + [d])[i] == defs[i]; }
  }

  /** A definition joins the last stretch. */
  lemma PartGrown(parts: seq<Stmt>, d: Def)
    requires parts != [] && Parted(parts) && parts[|parts| - 1].SDefs? && d.x !in BoundBy(parts)
    ensures var m := |parts| - 1; Parted(parts[m := SDefs(parts[m].defs + [d])])
  {
    var m := |parts| - 1;
    var defs := parts[m].defs;
    var more := parts[m := SDefs(defs + [d])];
    assert more[..m] == parts[..m] && PartedAt(parts, m);
    assert BoundBy(parts) == BoundBy(parts[..m]) + DefNames(defs);
    hide BoundBy, DefNames;
    forall k | 0 <= k < |more| ensures PartedAt(more, k) {
      if k < m {
        assert PartedAt(parts, k) && more[..k] == parts[..k];
      } else {
        forall i | 0 < i < |defs| + 1 ensures (defs + [d])[i].x !in BoundBy(parts[..m]) + DefNames((defs + [d])[..i]) {
          if i < |defs| { assert (defs + [d])[..i] == defs[..i]; } else { assert (defs + [d])[..i] == defs; }
        }
      }
    }
  }

  lemma FlatGrown(parts: seq<Stmt>, d: Def)
    requires parts != [] && parts[|parts| - 1].SDefs?
    ensures var m := |parts| - 1; var more := parts[m := SDefs(parts[m].defs + [d])];
            BoundBy(more) == BoundBy(parts) + {d.x} && Flat(more) == Flat(parts) + [Written(d)]
  {
    var m := |parts| - 1;
    assert parts[m := SDefs(parts[m].defs + [d])][..m] == parts[..m];
    OneMoreName(parts[m].defs, d);
  }

  lemma FlatPush(parts: seq<Stmt>, s: Stmt)
    ensures var more := parts + [s];
            Flat(more) == Flat(parts) + (if s.SDefs? then Lines(s.defs) else [s])
            && BoundBy(more) == BoundBy(parts) + match s case SLet(x, _) => {x} case SDo(_) => {} case SDefs(defs) => DefNames(defs)
  {
    assert (parts + [s])[..|parts|] == parts;
  }

  /** One pass: a definition joins the stretch just before it if its name is new,
      and otherwise begins one. */
  method PartsOf(ss: seq<Stmt>) returns (parts: seq<Stmt>)
    requires forall i | 0 <= i < |ss| :: !ss[i].SDefs?
    ensures Flat(parts) == ss && Parted(parts)
    ensures forall k | 0 <= k < |parts| && parts[k].SDefs? :: Unrepeated(parts[k].defs)
  {
    parts := [];
    var bound: set<Name> := {};
    var i := 0;
    while i < |ss|
      invariant 0 <= i <= |ss| && Flat(parts) == ss[..i] && Parted(parts) && bound == BoundBy(parts)
    {
      var s := ss[i];
      assert ss[..i + 1] == ss[..i] + [s];
      if !Defines(s) {
        FlatPush(parts, s);
        PartPushed(parts, s);
        bound := bound + if s.SLet? then {s.x} else {};
        parts := parts + [s];
      } else {
        var d, m := DefOf(s), |parts| - 1;
        if parts != [] && parts[m].SDefs? && d.x !in bound {
          PartGrown(parts, d);
          FlatGrown(parts, d);
          parts := parts[m := SDefs(parts[m].defs + [d])];
        } else {
          assert Lines([d]) == [s] && DefNames([d]) == {d.x} by { assert [d][0] == d; }
          FlatPush(parts, SDefs([d]));
          assert (parts + [SDefs([d])])[..|parts|] == parts;
          PartPushed(parts, SDefs([d]));
          parts := parts + [SDefs([d])];
        }
        bound := bound + {d.x};
      }
      i := i + 1;
    }
    assert ss[..i] == ss;
    forall k | 0 <= k < |parts| && parts[k].SDefs? ensures Unrepeated(parts[k].defs) { StretchesAreUnrepeated(parts, k); }
  }

  // ── The only cut ─────────────────────────────────────────────────────────

  /** The parts with one more line. */
  function Next(parts: seq<Stmt>, s: Stmt): seq<Stmt> {
    var m := |parts| - 1;
    if !Defines(s) then parts + [s]
    else if parts != [] && parts[m].SDefs? && s.x !in BoundBy(parts) then parts[m := SDefs(parts[m].defs + [DefOf(s)])]
    else parts + [SDefs([DefOf(s)])]
  }

  /** The parts without their last line. */
  function Drop(parts: seq<Stmt>): seq<Stmt>
    requires parts != []
  {
    var m := |parts| - 1;
    if parts[m].SDefs? && |parts[m].defs| > 1 then parts[m := SDefs(parts[m].defs[..|parts[m].defs| - 1])] else parts[..m]
  }

  lemma PartsBefore(parts: seq<Stmt>, m: nat)
    requires Parted(parts) && m <= |parts|
    ensures Parted(parts[..m])
  {
    forall k | 0 <= k < m ensures PartedAt(parts[..m], k) { assert PartedAt(parts, k) && parts[..m][..k] == parts[..k]; }
  }

  lemma DropLone(parts: seq<Stmt>)
    requires Parted(parts) && parts != [] && !(parts[|parts| - 1].SDefs? && |parts[|parts| - 1].defs| > 1)
    ensures Parted(Drop(parts)) && Flat(parts) != []
    ensures var n := |Flat(parts)| - 1; Flat(Drop(parts)) == Flat(parts)[..n] && parts == Next(Drop(parts), Flat(parts)[n])
  {
    var m := |parts| - 1;
    PartsBefore(parts, m);
    assert PartedAt(parts, m) && parts == parts[..m] + [parts[m]];
    if parts[m].SDefs? {
      var d := parts[m].defs[0];
      assert parts[m].defs == [d] && Lines([d]) == [Written(d)];
      assert Defines(Written(d)) && DefOf(Written(d)) == d;
    }
  }

  ghost predicate Grown(parts: seq<Stmt>) {
    Parted(parts) && parts != [] && parts[|parts| - 1].SDefs? && |parts[|parts| - 1].defs| > 1
  }

  lemma DropParted(parts: seq<Stmt>)
    requires Grown(parts)
    ensures Parted(Drop(parts))
  {
    hide BoundBy, DefNames;
    var m := |parts| - 1;
    var defs, less := parts[m].defs, Drop(parts);
    var l := |defs| - 1;
    assert PartedAt(parts, m) && less[..m] == parts[..m];
    forall k | 0 <= k < |less| ensures PartedAt(less, k) {
      if k < m {
        assert PartedAt(parts, k) && less[..k] == parts[..k];
      } else {
        forall i | 0 < i < l ensures defs[..l][i].x !in BoundBy(less[..m]) + DefNames(defs[..l][..i]) { assert defs[..l][..i] == defs[..i]; }
      }
    }
  }

  lemma DropFlat(parts: seq<Stmt>)
    requires Grown(parts)
    ensures var defs := parts[|parts| - 1].defs; Flat(parts) == Flat(Drop(parts)) + [Written(defs[|defs| - 1])]
  {
    var m := |parts| - 1;
    var defs := parts[m].defs;
    var l := |defs| - 1;
    assert Drop(parts)[..m] == parts[..m];
    assert Lines(defs) == Lines(defs[..l]) + [Written(defs[l])];
  }

  lemma DropNext(parts: seq<Stmt>)
    requires Grown(parts)
    ensures var defs := parts[|parts| - 1].defs; parts == Next(Drop(parts), Written(defs[|defs| - 1]))
  {
    var m := |parts| - 1;
    var defs, less := parts[m].defs, Drop(parts);
    var l := |defs| - 1;
    assert PartedAt(parts, m) && less[..m] == parts[..m];
    assert BoundBy(less) == BoundBy(parts[..m]) + DefNames(defs[..l]);
    assert defs == defs[..l] + [defs[l]] && DefOf(Written(defs[l])) == defs[l];
  }

  /** The cut is the only one. */
  lemma {:induction false} OneCut(a: seq<Stmt>, b: seq<Stmt>)
    requires Parted(a) && Parted(b) && Flat(a) == Flat(b)
    ensures a == b
    decreases |Flat(a)|
  {
    hide Flat, Parted, Next;
    if a != [] && b != [] {
      Dropped(a);
      Dropped(b);
      OneCut(Drop(a), Drop(b));
    } else {
      NoLines();
      if a != [] { Dropped(a); }
      if b != [] { Dropped(b); }
    }
  }

  lemma NoLines()
    ensures Flat([]) == []
  {
  }

  /** A cut is the cut of all but its last line, and that line. */
  lemma Dropped(parts: seq<Stmt>)
    requires Parted(parts) && parts != []
    ensures Parted(Drop(parts)) && Flat(parts) != []
    ensures var n := |Flat(parts)| - 1; Flat(Drop(parts)) == Flat(parts)[..n] && parts == Next(Drop(parts), Flat(parts)[n])
  {
    hide Flat, Parted, Next;
    var last := parts[|parts| - 1];
    if last.SDefs? && |last.defs| > 1 {
      DropParted(parts);
      DropFlat(parts);
      DropNext(parts);
    } else {
      DropLone(parts);
    }
  }
}
