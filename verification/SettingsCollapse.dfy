/**
 * Reading a SETTINGS frame: of repeated entries only the last counts, but of SETTINGS_HEADER_TABLE_SIZE the minimum
 * matters too.  nghttp2 rewrites the entries in the array it reads them into; the deflater is left as if every
 * entry had been applied.
 */
module SettingsCollapse {
  import opened Bytes
  import opened HeaderTable
  import opened HpackEncoder
  import opened HpackConnection

  const HEADER_TABLE_SIZE: nat := 1

  /** `nghttp2_settings_entry` */
  datatype Entry = Entry(id: nat, value: nat)

  /** The settings that `inbound_frame_set_settings_entry` knows. */
  predicate Known(id: nat) {
    1 <= id <= 6 || id == 8 || id == 9
  }

  // ---- one entry

  /** Where the id stands, |xs| if nowhere. */
  function Find(xs: seq<Entry>, id: nat): (i: nat)
    ensures i <= |xs| && (i < |xs| ==> xs[i].id == id) && forall j | 0 <= j < i :: xs[j].id != id
  {
    if xs == [] || xs[0].id == id then 0 else 1 + Find(xs[1..], id)
  }

  /** A known setting takes the place of an earlier one. */
  function Put(xs: seq<Entry>, e: Entry): seq<Entry> {
    var i := Find(xs, e.id);
    if Known(e.id) && i < |xs| then xs[i := e] else xs + [e]
  }

  function Least(m: nat, e: Entry): nat {
    if e.id == HEADER_TABLE_SIZE && e.value < m then e.value else m
  }

  lemma {:induction false} FoundAt(xs: seq<Entry>, id: nat, i: nat)
    requires i <= |xs| && (forall j | 0 <= j < i :: xs[j].id != id) && (i < |xs| ==> xs[i].id == id)
    ensures Find(xs, id) == i
  {
  }

  /** `inbound_frame_set_settings_entry`: the entries so far are iv[..niv], and the last slot keeps the minimum. */
  method SetEntry(iv: array<Entry>, niv: nat, e: Entry) returns (niv': nat)
    requires niv + 1 < iv.Length && iv[iv.Length - 1].id == HEADER_TABLE_SIZE
    modifies iv
    ensures niv' < iv.Length && iv[..niv'] == Put(old(iv[..niv]), e)
    ensures iv[iv.Length - 1] == Entry(HEADER_TABLE_SIZE, Least(old(iv[iv.Length - 1].value), e))
  {
    ghost var xs := iv[..niv];
    if !Known(e.id) {
      iv[niv] := e;
      return niv + 1;
    }
    var i := 0;
    while i < niv && iv[i].id != e.id
      invariant 0 <= i <= niv && forall j | 0 <= j < i :: iv[j].id != e.id
    {
      i := i + 1;
    }
    FoundAt(xs, e.id, i);
    iv[i] := e;
    niv' := if i == niv then niv + 1 else niv;
    if e.id == HEADER_TABLE_SIZE && e.value < iv[iv.Length - 1].value {
      iv[iv.Length - 1] := e;
    }
  }

  // ---- the whole frame

  function PutAll(es: seq<Entry>): (r: seq<Entry>)
    ensures |r| <= |es|
  {
    if es == [] then [] else Put(PutAll(es[..|es| - 1]), es[|es| - 1])
  }

  function LeastOf(es: seq<Entry>): (m: nat) {
    if es == [] then U32_MAX else Least(LeastOf(es[..|es| - 1]), es[|es| - 1])
  }

  /** The minimum in the place of the last table size, which moves to the end. */
  function WithLeast(xs: seq<Entry>, m: nat): seq<Entry> {
    var i := Find(xs, HEADER_TABLE_SIZE);
    if m < U32_MAX && i < |xs| && xs[i].value != m then xs[i := Entry(HEADER_TABLE_SIZE, m)] + [xs[i]] else xs
  }

  function Collapsed(es: seq<Entry>): seq<Entry> {
    WithLeast(PutAll(es), LeastOf(es))
  }

  /** The values of a setting, in order. */
  function Values(es: seq<Entry>, id: nat): seq<nat> {
    if es == [] then []
    else Values(es[..|es| - 1], id) + if es[|es| - 1].id == id then [es[|es| - 1].value] else []
  }

  lemma {:induction false} ValuesAppend(xs: seq<Entry>, e: Entry, id: nat)
    ensures Values(xs + [e], id) == Values(xs, id) + if e.id == id then [e.value] else []
  {
    assert (xs + [e])[..|xs|] == xs;
  }

  lemma {:induction false} ValuesNone(xs: seq<Entry>, id: nat)
    requires forall j | 0 <= j < |xs| :: xs[j].id != id
    ensures Values(xs, id) == []
  {
    if xs != [] {
      ValuesNone(xs[..|xs| - 1], id);
    }
  }

  /** A known id stands at most once. */
  predicate Single(xs: seq<Entry>) {
    forall j, k | 0 <= j < k < |xs| && Known(xs[j].id) :: xs[j].id != xs[k].id
  }

  /** Then what it stands with is its value. */
  lemma {:induction false} ValuesSingle(xs: seq<Entry>, id: nat)
    requires Single(xs) && Known(id)
    ensures Values(xs, id) == var i := Find(xs, id); if i < |xs| then [xs[i].value] else []
  {
    if xs == [] {
    } else if xs[|xs| - 1].id == id {
      ValuesNone(xs[..|xs| - 1], id);
      FoundAt(xs, id, |xs| - 1);
    } else {
      ValuesSingle(xs[..|xs| - 1], id);
      var i := Find(xs[..|xs| - 1], id);
      FoundAt(xs, id, if i < |xs| - 1 then i else |xs|);
    }
  }

  lemma PutSingle(xs: seq<Entry>, e: Entry)
    requires Single(xs)
    ensures Single(Put(xs, e))
  {
  }

  /** Putting e makes its value the one of its id, and leaves the others. */
  lemma PutValues(xs: seq<Entry>, e: Entry, id: nat)
    requires Single(xs) && Known(id)
    ensures Values(Put(xs, e), id) == if e.id == id then [e.value] else Values(xs, id)
  {
    PutSingle(xs, e);
    ValuesSingle(xs, id);
    ValuesSingle(Put(xs, e), id);
    var i := Find(xs, id);
    FoundAt(Put(xs, e), id, if i == |xs| && e.id != id then |Put(xs, e)| else i);
  }

  /** Of every known setting the last value is left. */
  lemma {:induction false} LastValueLeft(es: seq<Entry>, id: nat)
    requires Known(id)
    ensures Single(PutAll(es))
    ensures Values(PutAll(es), id) == var vs := Values(es, id); if vs == [] then [] else [vs[|vs| - 1]]
  {
    if es != [] {
      var init, e := es[..|es| - 1], es[|es| - 1];
      LastValueLeft(init, id);
      PutSingle(PutAll(init), e);
      PutValues(PutAll(init), e, id);
    }
  }

  lemma MinOfMore(vs: seq<nat>, v: nat)
    ensures MinOf(vs + [v]) == if vs == [] || v < MinOf(vs) then v else MinOf(vs)
  {
    assert (vs + [v])[..|vs|] == vs;
  }

  /** The minimum is that of the table sizes, if any is below 2^32 - 1. */
  lemma {:induction false} LeastIsMin(es: seq<Entry>)
    requires forall e | e in es :: e.value <= U32_MAX
    ensures var vs := Values(es, HEADER_TABLE_SIZE); LeastOf(es) == if vs == [] then U32_MAX else MinOf(vs)
  {
    if es != [] {
      var init, e := es[..|es| - 1], es[|es| - 1];
      assert e in es && forall x | x in init :: x in es;
      LeastIsMin(init);
      var vs := Values(init, HEADER_TABLE_SIZE);
      if e.id == HEADER_TABLE_SIZE {
        assert Values(es, HEADER_TABLE_SIZE) == vs + [e.value];
        MinOfMore(vs, e.value);
      } else {
        assert Values(es, HEADER_TABLE_SIZE) == vs + [] == vs;
      }
    }
  }

  /** Fewer entries are left than came when a table size was repeated. */
  lemma {:induction false} RepetitionsShrink(es: seq<Entry>)
    ensures |PutAll(es)| + |Values(es, HEADER_TABLE_SIZE)|
            <= |es| + if Values(es, HEADER_TABLE_SIZE) == [] then 0 else 1
  {
    if es != [] {
      var init, e := es[..|es| - 1], es[|es| - 1];
      RepetitionsShrink(init);
      LastValueLeft(init, HEADER_TABLE_SIZE);
      if e.id == HEADER_TABLE_SIZE && Values(init, HEADER_TABLE_SIZE) != [] {
        ValuesSingle(PutAll(init), HEADER_TABLE_SIZE);
      }
    }
  }

  lemma {:induction false} ValuesUpdate(xs: seq<Entry>, i: nat, e: Entry, id: nat)
    requires i < |xs| && xs[i].id == e.id && e.id != id
    ensures Values(xs[i := e], id) == Values(xs, id)
  {
    var last := |xs| - 1;
    if i < last {
      ValuesUpdate(xs[..last], i, e, id);
      assert xs[i := e][..last] == xs[..last][i := e];
    } else {
      assert xs[i := e][..last] == xs[..last];
    }
  }

  /** The slot at i rewritten: its setting stands there once, as before. */
  lemma SlotValue(xs: seq<Entry>, i: nat, e: Entry)
    requires Single(xs) && i < |xs| && xs[i].id == e.id && Known(e.id)
    ensures Values(xs[i := e], e.id) == [e.value]
  {
    var ys := xs[i := e];
    assert Single(ys) by {
      assert forall j | 0 <= j < |xs| :: ys[j].id == xs[j].id;
    }
    ValuesSingle(ys, e.id);
    assert forall j | 0 <= j < i :: xs[j].id != e.id;
    FoundAt(ys, e.id, i);
  }

  lemma WithLeastSizes(xs: seq<Entry>, m: nat)
    requires Single(xs) && Find(xs, HEADER_TABLE_SIZE) < |xs|
    ensures var v := xs[Find(xs, HEADER_TABLE_SIZE)].value;
            Values(WithLeast(xs, m), HEADER_TABLE_SIZE) == if m < U32_MAX && v != m then [m, v] else [v]
  {
    var i := Find(xs, HEADER_TABLE_SIZE);
    ValuesSingle(xs, HEADER_TABLE_SIZE);
    if m < U32_MAX && xs[i].value != m {
      ValuesAppend(xs[i := Entry(HEADER_TABLE_SIZE, m)], xs[i], HEADER_TABLE_SIZE);
      SlotValue(xs, i, Entry(HEADER_TABLE_SIZE, m));
      assert [m] + [xs[i].value] == [m, xs[i].value];
    }
  }

  lemma WithLeastOthers(xs: seq<Entry>, m: nat, id: nat)
    requires id != HEADER_TABLE_SIZE
    ensures Values(WithLeast(xs, m), id) == Values(xs, id)
  {
    var i := Find(xs, HEADER_TABLE_SIZE);
    if m < U32_MAX && i < |xs| && xs[i].value != m {
      ValuesAppend(xs[i := Entry(HEADER_TABLE_SIZE, m)], xs[i], id);
      ValuesUpdate(xs, i, Entry(HEADER_TABLE_SIZE, m), id);
      assert Values(xs, id) + [] == Values(xs, id);
    }
  }

  lemma {:induction false} ValuesBounded(es: seq<Entry>, id: nat)
    requires forall x | x in es :: x.value <= U32_MAX
    ensures forall v | v in Values(es, id) :: v <= U32_MAX
  {
    if es != [] {
      assert es[|es| - 1] in es && forall x | x in es[..|es| - 1] :: x in es;
      ValuesBounded(es[..|es| - 1], id);
    }
  }

  /**
   * After a whole frame the entries left are no more than came, so that they fit the array, and of the table sizes
   * the minimum and the last are left, in this order.
   */
  lemma SizesLeft(es: seq<Entry>)
    requires forall x | x in es :: x.value <= U32_MAX
    ensures |Collapsed(es)| <= |es|
    ensures var vs := Values(es, HEADER_TABLE_SIZE);
            Values(Collapsed(es), HEADER_TABLE_SIZE) == if vs == [] then [] else Collapse(vs)
  {
    var xs, vs := PutAll(es), Values(es, HEADER_TABLE_SIZE);
    SizeInPlace(es);
    RepetitionsShrink(es);
    if vs != [] {
      WithLeastSizes(xs, MinOf(vs));
      if MinOf(vs) != vs[|vs| - 1] {
        OneValue(vs);
      }
    }
  }

  /** What the rewriting finds: the last table size, and the minimum. */
  lemma SizeInPlace(es: seq<Entry>)
    requires forall x | x in es :: x.value <= U32_MAX
    ensures var xs, vs := PutAll(es), Values(es, HEADER_TABLE_SIZE);
            var i := Find(xs, HEADER_TABLE_SIZE);
            && Single(xs)
            && (vs == [] ==> LeastOf(es) == U32_MAX && i == |xs| && Values(xs, HEADER_TABLE_SIZE) == [])
            && (vs != [] ==> i < |xs| && xs[i].value == vs[|vs| - 1] <= U32_MAX && LeastOf(es) == MinOf(vs))
  {
    var vs := Values(es, HEADER_TABLE_SIZE);
    LastValueLeft(es, HEADER_TABLE_SIZE);
    ValuesSingle(PutAll(es), HEADER_TABLE_SIZE);
    LeastIsMin(es);
    ValuesBounded(es, HEADER_TABLE_SIZE);
    assert vs != [] ==> vs[|vs| - 1] in vs;
  }

  /** Of every other known setting the last value is left. */
  lemma OthersLeft(es: seq<Entry>, id: nat)
    requires Known(id) && id != HEADER_TABLE_SIZE
    ensures var vs := Values(es, id); Values(Collapsed(es), id) == if vs == [] then [] else [vs[|vs| - 1]]
  {
    LastValueLeft(es, id);
    WithLeastOthers(PutAll(es), LeastOf(es), id);
  }

  /** The deflater ends up as if every entry had been applied, in order. */
  lemma DeflaterUnaffected(es: seq<Entry>, e: Encoder)
    requires forall x | x in es :: x.value <= U32_MAX
    ensures ChangeEncoderAll(e, Values(Collapsed(es), HEADER_TABLE_SIZE))
         == ChangeEncoderAll(e, Values(es, HEADER_TABLE_SIZE))
  {
    SizesLeft(es);
    if Values(es, HEADER_TABLE_SIZE) != [] {
      EncoderCollapse(e, Values(es, HEADER_TABLE_SIZE));
    }
  }

  /** There is a table size to go with a minimum. */
  lemma SizeIsThere(es: seq<Entry>)
    requires (forall x | x in es :: x.value <= U32_MAX) && LeastOf(es) < U32_MAX
    ensures Find(PutAll(es), HEADER_TABLE_SIZE) < |PutAll(es)|
  {
    SizeInPlace(es);
  }

  lemma OneValue(vs: seq<nat>)
    requires vs != [] && MinOf(vs) != vs[|vs| - 1]
    ensures |vs| >= 2
  {
  }

  /** The next entry of the frame, after those of `done`. */
  method NextEntry(iv: array<Entry>, niv: nat, e: Entry, ghost done: seq<Entry>, ghost done': seq<Entry>)
      returns (niv': nat)
    requires niv + 1 < iv.Length && iv[..niv] == PutAll(done) && done' == done + [e]
    requires iv[iv.Length - 1] == Entry(HEADER_TABLE_SIZE, LeastOf(done))
    modifies iv
    ensures niv <= niv' <= niv + 1 && iv[..niv'] == PutAll(done')
    ensures iv[iv.Length - 1] == Entry(HEADER_TABLE_SIZE, LeastOf(done'))
  {
    assert done'[..|done|] == done;
    niv' := SetEntry(iv, niv, e);
  }

  /** A SETTINGS frame read into an array of its own, and rewritten as `session_process_settings_frame` does. */
  method ReadSettings(es: seq<Entry>) returns (iv: array<Entry>, niv: nat)
    requires forall x | x in es :: x.value <= U32_MAX
    ensures fresh(iv) && iv.Length == |es| + 1 && niv <= |es| && iv[..niv] == Collapsed(es)
  {
    iv := new Entry[|es| + 1](_ => Entry(HEADER_TABLE_SIZE, U32_MAX));
    niv := 0;
    var i := 0;
    assert es[..0] == [];
    while i < |es|
      invariant 0 <= i <= |es| && niv <= i && iv[..niv] == PutAll(es[..i])
      invariant iv[|es|] == Entry(HEADER_TABLE_SIZE, LeastOf(es[..i]))
    {
      niv := NextEntry(iv, niv, es[i], es[..i], es[..i + 1]);
      i := i + 1;
    }
    assert es[..i] == es;
    SizesLeft(es);
    niv := Process(iv, niv, es);
  }

  /** The rewriting; the minimum is below 2^32 - 1 only if there is a table size. */
  method Process(iv: array<Entry>, niv: nat, ghost es: seq<Entry>) returns (niv': nat)
    requires iv.Length == |es| + 1 && niv <= |es| && iv[..niv] == PutAll(es)
    requires iv[|es|] == Entry(HEADER_TABLE_SIZE, LeastOf(es)) && |Collapsed(es)| <= |es|
    requires forall x | x in es :: x.value <= U32_MAX
    modifies iv
    ensures niv' <= |es| && iv[..niv'] == Collapsed(es)
  {
    niv' := niv;
    ghost var xs := iv[..niv];
    var least := iv[iv.Length - 1];
    if least.value < U32_MAX {
      SizeIsThere(es);
      var i := 0;
      while iv[i].id != HEADER_TABLE_SIZE
        invariant 0 <= i <= Find(xs, HEADER_TABLE_SIZE) < niv
        decreases niv - i
      {
        i := i + 1;
      }
      FoundAt(xs, HEADER_TABLE_SIZE, i);
      if least.value != iv[i].value {
        iv[niv] := iv[i];
        iv[i] := least;
        niv' := niv + 1;
      }
    }
  }
}
