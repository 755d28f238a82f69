/** First-order data as it crosses between builtin and desk: tags, and records
    read strictly. */
module Datums {
  import opened Wrappers
  import Occurrence

  datatype FO =
    | U
    | B(b: bool)
    | I(n: Int64)
    | S(s: string)
    | Y(bytes: seq<int>)
    | L(items: seq<FO>)
    | M(entries: Entries)
    | V(tag_: string, payload: Option<FO>)

  type Entries = seq<(string, FO)>

  const I64_MAX: int := 0x7fff_ffff_ffff_ffff

  type Int64 = n: int | -0x8000_0000_0000_0000 <= n <= 0x7fff_ffff_ffff_ffff

  // ── Tags ─────────────────────────────────────────────────────────────────

  /** A `U` payload is the same as none, at both doors. */
  function Present(payload: Option<FO>): Option<FO> {
    if payload == Some(U) then None else payload
  }

  function Tag(name: string, payload: Option<FO>): FO {
    V(name, Present(payload))
  }

  datatype Tagged = Tagged(name: string, payload: Option<FO>)

  function Untag(v: FO): Option<Tagged> {
    if v.V? then Some(Tagged(v.tag_, Present(v.payload))) else None
  }

  // ── Records ──────────────────────────────────────────────────────────────

  /** The first entry under the key. */
  function Lookup(es: Entries, key: string): Option<FO> {
    if es == [] then None else if es[0].0 == key then Some(es[0].1) else Lookup(es[1..], key)
  }

  function Field(v: FO, key: string): Option<FO> {
    if v.M? then Lookup(v.entries, key) else None
  }

  predicate HasKey(es: Entries, key: string) {
    exists i :: 0 <= i < |es| && es[i].0 == key
  }

  predicate Distinct(es: Entries) {
    forall i, j | 0 <= i < j < |es| :: es[i].0 != es[j].0
  }

  /** A record whose keys are all known, each given once; one may be missing. */
  predicate ExactKeys(v: FO, keys: seq<string>) {
    v.M? && Distinct(v.entries) && forall i | 0 <= i < |v.entries| :: v.entries[i].0 in keys
  }

  /** Keys in ascending order, as an encoding is. */
  function Insert(e: (string, FO), es: Entries): Entries {
    if es == [] || Occurrence.Before(e.0, es[0].0) then [e] + es else [es[0]] + Insert(e, es[1..])
  }

  function Sort(es: Entries): Entries {
    if es == [] then [] else Insert(es[0], Sort(es[1..]))
  }

  lemma {:induction false} InsertLooksUp(e: (string, FO), es: Entries, key: string)
    requires !HasKey(es, e.0)
    ensures Lookup(Insert(e, es), key) == if e.0 == key then Some(e.1) else Lookup(es, key)
  {
    if es != [] && !Occurrence.Before(e.0, es[0].0) {
      assert es[0].0 != e.0;
      assert !HasKey(es[1..], e.0) by { assert forall i | 0 <= i < |es[1..]| :: es[1..][i] == es[i + 1]; }
      InsertLooksUp(e, es[1..], key);
    }
  }

  lemma {:induction false} InsertKeys(e: (string, FO), es: Entries)
    ensures forall k :: HasKey(Insert(e, es), k) <==> k == e.0 || HasKey(es, k)
    ensures Distinct(es) && !HasKey(es, e.0) ==> Distinct(Insert(e, es))
  {
    var out := Insert(e, es);
    if es == [] || Occurrence.Before(e.0, es[0].0) {
      HasKeyCons(e, es);
    } else {
      InsertKeys(e, es[1..]);
      HasKeyCons(es[0], Insert(e, es[1..]));
      HasKeyCons(es[0], es[1..]);
      assert es == [es[0]] + es[1..];
      if Distinct(es) && !HasKey(es, e.0) {
        TailDistinct(es);
        DistinctCons(es[0], Insert(e, es[1..]));
      }
    }
    if Distinct(es) && !HasKey(es, e.0) && (es == [] || Occurrence.Before(e.0, es[0].0)) { DistinctCons(e, es); }
  }

  lemma HasKeyCons(e: (string, FO), es: Entries)
    ensures forall k :: HasKey([e] + es, k) <==> k == e.0 || HasKey(es, k)
  {
    var out := [e] + es;
    assert out[0] == e && forall i | 0 <= i < |es| :: out[i + 1] == es[i];
    assert forall i | 1 <= i < |out| :: out[i] == es[i - 1];
  }

  lemma TailDistinct(es: Entries)
    requires es != [] && Distinct(es)
    ensures Distinct(es[1..]) && !HasKey(es[1..], es[0].0)
  {
    assert forall i | 0 <= i < |es[1..]| :: es[1..][i] == es[i + 1];
  }

  lemma DistinctCons(e: (string, FO), es: Entries)
    requires Distinct(es) && !HasKey(es, e.0)
    ensures Distinct([e] + es)
  {
    var out := [e] + es;
    assert forall i | 1 <= i < |out| :: out[i] == es[i - 1];
  }

  /** Sorting changes no field and drops none. */
  lemma {:induction false} SortKeeps(es: Entries)
    requires Distinct(es)
    ensures Distinct(Sort(es))
    ensures forall k :: HasKey(Sort(es), k) <==> HasKey(es, k)
    ensures forall k :: Lookup(Sort(es), k) == Lookup(es, k)
  {
    if es != [] {
      TailDistinct(es);
      SortKeeps(es[1..]);
      InsertKeys(es[0], Sort(es[1..]));
      HasKeyCons(es[0], es[1..]);
      assert es == [es[0]] + es[1..];
      forall k ensures Lookup(Sort(es), k) == Lookup(es, k) { InsertLooksUp(es[0], Sort(es[1..]), k); }
    }
  }

  ghost predicate Ascending(es: Entries) {
    forall i, j | 0 <= i < j < |es| :: Occurrence.Before(es[i].0, es[j].0)
  }

  lemma {:induction false} InsertAscends(e: (string, FO), es: Entries)
    requires Ascending(es) && !HasKey(es, e.0)
    ensures Ascending(Insert(e, es))
  {
    if es == [] {
    } else if Occurrence.Before(e.0, es[0].0) {
      var out := [e] + es;
      forall i, j | 0 <= i < j < |out| ensures Occurrence.Before(out[i].0, out[j].0) {
        if i == 0 && j > 1 { Occurrence.BeforeTransitive(e.0, es[0].0, es[j - 1].0); }
      }
    } else {
      Occurrence.BeforeTotal(e.0, es[0].0);
      assert es[0].0 != e.0;
      var rest := Insert(e, es[1..]);
      assert forall i | 0 <= i < |es[1..]| :: es[1..][i] == es[i + 1];
      InsertAscends(e, es[1..]);
      InsertKeys(e, es[1..]);
      forall j | 0 <= j < |rest| ensures Occurrence.Before(es[0].0, rest[j].0) {
        assert HasKey(rest, rest[j].0);
        if rest[j].0 != e.0 {
          var k :| 0 <= k < |es[1..]| && es[1..][k].0 == rest[j].0;
          assert Occurrence.Before(es[0].0, es[k + 1].0);
        }
      }
    }
  }

  /** An encoded record is canonical: its keys ascend. */
  lemma {:induction false} SortAscends(es: Entries)
    requires Distinct(es)
    ensures Ascending(Sort(es))
  {
    if es != [] {
      TailDistinct(es);
      SortKeeps(es[1..]);
      SortAscends(es[1..]);
      InsertAscends(es[0], Sort(es[1..]));
    }
  }

  /** A record without one of its keys. */
  function Except(es: Entries, key: string): Entries {
    if es == [] then [] else (if es[0].0 == key then [] else [es[0]]) + Except(es[1..], key)
  }

  lemma {:induction false} ExceptKeeps(es: Entries, key: string)
    requires Distinct(es)
    ensures Distinct(Except(es, key))
    ensures forall k :: HasKey(Except(es, key), k) <==> k != key && HasKey(es, k)
    ensures forall k | k != key :: Lookup(Except(es, key), k) == Lookup(es, k)
  {
    if es != [] {
      TailDistinct(es);
      ExceptKeeps(es[1..], key);
      HasKeyCons(es[0], es[1..]);
      assert es == [es[0]] + es[1..];
      if es[0].0 == key {
        assert Except(es, key) == Except(es[1..], key);
      } else {
        HasKeyCons(es[0], Except(es[1..], key));
        DistinctCons(es[0], Except(es[1..], key));
      }
    }
  }

  /** A record of the given entries, its keys sorted. */
  function Record(es: Entries): FO {
    M(Sort(es))
  }

  /** Reading a record back: every key known, and every field what was put in. */
  lemma RecordReads(es: Entries, keys: seq<string>)
    requires Distinct(es) && forall i | 0 <= i < |es| :: es[i].0 in keys
    ensures ExactKeys(Record(es), keys)
    ensures forall k :: Field(Record(es), k) == Lookup(es, k)
  {
    SortKeeps(es);
    var out := Sort(es);
    forall i | 0 <= i < |out| ensures out[i].0 in keys {
      assert HasKey(out, out[i].0);
      var j :| 0 <= j < |es| && es[j].0 == out[i].0;
    }
  }

  lemma {:induction false} LookupAt(es: Entries, i: nat)
    requires Distinct(es) && i < |es|
    ensures Lookup(es, es[i].0) == Some(es[i].1)
  {
    if i > 0 {
      assert es[0].0 != es[i].0;
      TailDistinct(es);
      LookupAt(es[1..], i - 1);
    }
  }

  /** A record of exactly these fields, each once, in any order. */
  predicate Holds(v: FO, fields: Entries) {
    v.M? && multiset(v.entries) == multiset(fields)
  }

  function KeysOf(es: Entries): (r: seq<string>)
    ensures |r| == |es| && forall i | 0 <= i < |es| :: r[i] == es[i].0
  {
    seq(|es|, i requires 0 <= i < |es| => es[i].0)
  }

  /** An entry of a record of distinct keys is there once. */
  lemma {:induction false} OnceEach(es: Entries, e: (string, FO))
    requires Distinct(es)
    ensures multiset(es)[e] == if e in es then 1 else 0
  {
    if es != [] {
      TailDistinct(es);
      OnceEach(es[1..], e);
      assert es == [es[0]] + es[1..];
      if e in es[1..] {
        var i :| 0 <= i < |es[1..]| && es[1..][i] == e;
        assert es[1..][i].0 != es[0].0;
      }
    }
  }

  /** An entry at two places is there twice. */
  lemma TwiceThere(es: Entries, i: nat, j: nat)
    requires i < j < |es| && es[i] == es[j]
    ensures multiset(es)[es[i]] >= 2
  {
    assert es == es[..j] + es[j..];
    assert es[..j][i] == es[i] && es[j..][0] == es[j];
    assert es[i] in es[..j] && es[i] in es[j..];
  }

  lemma {:induction false} LookupFound(es: Entries, key: string)
    requires Lookup(es, key).Some?
    ensures (key, Lookup(es, key).value) in es
  {
    if es[0].0 != key { LookupFound(es[1..], key); }
  }

  /** What was read strictly, and every field found, is those fields each once. */
  lemma StrictlyHeld(v: FO, fields: Entries)
    requires Distinct(fields) && ExactKeys(v, KeysOf(fields)) && forall i | 0 <= i < |fields| :: Field(v, fields[i].0) == Some(fields[i].1)
    ensures Holds(v, fields)
  {
    forall e ensures multiset(v.entries)[e] == multiset(fields)[e] {
      OnceEach(v.entries, e);
      OnceEach(fields, e);
      if e in v.entries {
        var i :| 0 <= i < |v.entries| && v.entries[i] == e;
        var j :| 0 <= j < |KeysOf(fields)| && KeysOf(fields)[j] == v.entries[i].0;
        LookupAt(v.entries, i);
        assert fields[j] == e;
      }
      if e in fields {
        var j :| 0 <= j < |fields| && fields[j] == e;
        LookupFound(v.entries, fields[j].0);
      }
    }
  }

  lemma HeldStrictly(v: FO, fields: Entries)
    requires Distinct(fields) && Holds(v, fields)
    ensures ExactKeys(v, KeysOf(fields)) && forall i | 0 <= i < |fields| :: Field(v, fields[i].0) == Some(fields[i].1)
  {
    var es := v.entries;
    forall i | 0 <= i < |es| ensures es[i] in fields && es[i].0 in KeysOf(fields) {
      assert es[i] in multiset(es);
      var j :| 0 <= j < |fields| && fields[j] == es[i];
      assert KeysOf(fields)[j] == es[i].0;
    }
    forall i, j | 0 <= i < j < |es| ensures es[i].0 != es[j].0 {
      if es[i].0 == es[j].0 {
        SameField(fields, es[i], es[j]);
        TwiceThere(es, i, j);
        OnceEach(fields, es[i]);
      }
    }
    forall i | 0 <= i < |fields| ensures Field(v, fields[i].0) == Some(fields[i].1) {
      assert fields[i] in multiset(fields);
      var j :| 0 <= j < |es| && es[j] == fields[i];
      LookupAt(es, j);
    }
  }

  lemma SameField(fields: Entries, a: (string, FO), b: (string, FO))
    requires Distinct(fields) && a in fields && b in fields && a.0 == b.0
    ensures a == b
  {
  }

  /** A record holds what was put in, each field once, and reads it back. */
  lemma FieldsRead(es: Entries, keys: seq<string>)
    requires Distinct(es) && forall i | 0 <= i < |es| :: es[i].0 in keys
    ensures ExactKeys(Record(es), keys) && Holds(Record(es), es)
    ensures forall i | 0 <= i < |es| :: Field(Record(es), es[i].0) == Some(es[i].1)
  {
    RecordReads(es, keys);
    forall i | 0 <= i < |es| ensures Field(Record(es), es[i].0) == Some(es[i].1) { LookupAt(es, i); }
    forall i | 0 <= i < |es| ensures es[i].0 in KeysOf(es) { assert KeysOf(es)[i] == es[i].0; }
    RecordReads(es, KeysOf(es));
    StrictlyHeld(Record(es), es);
  }

  // ── Scalars ──────────────────────────────────────────────────────────────

  function AsString(v: FO): Option<string> {
    if v.S? then Some(v.s) else None
  }

  /** Saturating: an integer is signed. */
  function OfU64(n: nat): FO {
    I(if n > I64_MAX then I64_MAX else n)
  }

  function AsU64(v: FO): Option<nat> {
    if v.I? && 0 <= v.n then Some(v.n) else None
  }

  lemma U64RoundTrip(n: nat)
    ensures AsU64(OfU64(n)) == Some(n) <==> n <= I64_MAX
  {
  }

  function OfU64s(ns: seq<nat>): (r: seq<FO>)
    ensures |r| == |ns|
  {
    if ns == [] then [] else [OfU64(ns[0])] + OfU64s(ns[1..])
  }

  function AsU64s(vs: seq<FO>): Option<seq<nat>> {
    if vs == [] then Some([])
    else
      match (AsU64(vs[0]), AsU64s(vs[1..]))
      case (Some(n), Some(ns)) => Some([n] + ns)
      case _ => None
  }

  /** A list of numbers survives exactly when each of them does. */
  lemma {:induction false} U64sRoundTrip(ns: seq<nat>)
    ensures AsU64s(OfU64s(ns)) == Some(ns) <==> forall i | 0 <= i < |ns| :: ns[i] <= I64_MAX
  {
    if ns != [] {
      U64sRoundTrip(ns[1..]);
      U64RoundTrip(ns[0]);
      assert OfU64s(ns)[1..] == OfU64s(ns[1..]);
      assert ns == [ns[0]] + ns[1..];
      var rest := AsU64s(OfU64s(ns[1..]));
      if rest.Some? { assert ([AsU64(OfU64(ns[0])).value] + rest.value)[1..] == rest.value; }
    } else {
      assert OfU64s(ns) == [];
    }
  }

  lemma {:induction false} U64sInRange(vs: seq<FO>)
    requires AsU64s(vs).Some?
    ensures forall i | 0 <= i < |AsU64s(vs).value| :: AsU64s(vs).value[i] <= I64_MAX
  {
    if vs != [] { U64sInRange(vs[1..]); }
  }
}
