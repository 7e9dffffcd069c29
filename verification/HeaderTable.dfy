/**
 * The HPACK tables as values: the 61 static entries, the dynamic table (newest entry first) with its
 * eviction rules, and the linear-scan meaning of the encoder's search (RFC 7541, sections 2.3 and 4).
 */
module HeaderTable {
  import opened Bytes

  datatype Header = Header(name: Bytes, value: Bytes)

  /** A header as the decoder hands it out: noIndex is NGHTTP2_NV_FLAG_NO_INDEX. */
  datatype Field = Field(name: Bytes, value: Bytes, noIndex: bool)

  datatype Table = Table(entries: seq<Header>, max: nat)

  const ENTRY_OVERHEAD: nat := 32
  const STATIC_LENGTH: nat := 61
  const DEFAULT_TABLE_SIZE: nat := 4096

  // NGHTTP2_HD_MAX_NV: longest encoded string a decoder accepts.
  const MAX_NV: nat := 65536

  /** The static table, and the names tokens stand for: the static entries' own, then extra ones. */
  datatype RawStatics = Statics(table: seq<Header>, names: seq<Bytes>)

  predicate ValidStatics(st: RawStatics) {
    && |st.table| == STATIC_LENGTH <= |st.names|
    && forall i :: 0 <= i < STATIC_LENGTH ==> st.names[i] == st.table[i].name
  }

  type Statics = st: RawStatics | ValidStatics(st)
    witness Statics(seq(STATIC_LENGTH, _ => Header([], [])), seq(STATIC_LENGTH, _ => []))

  function Room(h: Header): (r: nat) {
    ENTRY_OVERHEAD + |h.name| + |h.value|
  }

  function Size(entries: seq<Header>): (n: nat) {
    if entries == [] then 0 else Size(entries[..|entries| - 1]) + Room(entries[|entries| - 1])
  }

  /** Drops oldest entries until `room` more bytes fit below max, or nothing is left. */
  function EvictFor(entries: seq<Header>, room: nat, max: nat): (kept: seq<Header>)
    ensures kept <= entries
    ensures kept == [] || Size(kept) + room <= max
  {
    if entries != [] && Size(entries) + room > max then EvictFor(entries[..|entries| - 1], room, max)
    else entries
  }

  /** `add_hd_table_incremental`: an entry larger than the table empties it and is not stored. */
  function Insert(t: Table, h: Header): (r: Table)
    ensures r.max == t.max
    ensures Size(t.entries) <= t.max ==> Size(r.entries) <= r.max
  {
    var kept := EvictFor(t.entries, Room(h), t.max);
    if Room(h) > t.max then Table(kept, t.max)
    else
      SizeCons(h, kept);
      Table([h] + kept, t.max)
  }

  /** `hd_context_shrink_table_size` after hd_table_bufsize_max became max. */
  function Shrink(entries: seq<Header>, max: nat): (r: Table)
    ensures r.max == max && r.entries <= entries && Size(r.entries) <= max
  {
    Table(EvictFor(entries, 0, max), max)
  }

  lemma {:induction false} SizeCons(h: Header, rest: seq<Header>)
    ensures Size([h] + rest) == Room(h) + Size(rest)
  {
    var all := [h] + rest;
    if rest == [] {
      assert all[..|all| - 1] == [];
    } else {
      assert all[..|all| - 1] == [h] + rest[..|rest| - 1];
      SizeCons(h, rest[..|rest| - 1]);
    }
  }

  /** Every stored entry costs at least 32 bytes, so the count stays far below 2^32. */
  lemma {:induction false} CountBound(entries: seq<Header>)
    ensures |entries| * ENTRY_OVERHEAD <= Size(entries)
  {
    if entries != [] {
      CountBound(entries[..|entries| - 1]);
    }
  }

  lemma {:induction false} SizeOfPrefix(part: seq<Header>, entries: seq<Header>)
    requires part <= entries
    ensures Size(part) <= Size(entries)
  {
    if part != entries {
      SizeOfPrefix(part, entries[..|entries| - 1]);
    }
  }

  /** What eviction means: the kept part is the longest run of newest entries that leaves the room. */
  lemma {:induction false} EvictKeepsLongestFit(entries: seq<Header>, room: nat, max: nat, part: seq<Header>)
    requires part <= entries
    requires Size(part) + room <= max
    ensures part <= EvictFor(entries, room, max)
  {
    if entries != [] && Size(entries) + room > max {
      assert part != entries;
      EvictKeepsLongestFit(entries[..|entries| - 1], room, max, part);
    }
  }

  /**
   * What insertion means: an entry that is larger than the whole table leaves it empty; any other comes first, and
   * behind it stand as many of the newest entries as still fit.
   */
  lemma InsertMeans(t: Table, h: Header)
    ensures var r, room := Insert(t, h).entries, 32 + |h.name| + |h.value|;
            if room > t.max then r == []
            else && r != [] && r[0] == h && r[1..] <= t.entries
                 && forall part | part <= t.entries && Size(part) + room <= t.max :: part <= r[1..]
  {
    var r := Insert(t, h).entries;
    if Room(h) <= t.max {
      assert r[1..] == EvictFor(t.entries, Room(h), t.max);
      forall part | part <= t.entries && Size(part) + Room(h) <= t.max
        ensures part <= r[1..]
      {
        EvictKeepsLongestFit(t.entries, Room(h), t.max, part);
      }
    }
  }

  lemma PrefixAntisymmetric<T>(a: seq<T>, b: seq<T>)
    requires a <= b <= a
    ensures a == b
  {
  }

  lemma PrefixTransitive<T>(a: seq<T>, b: seq<T>, c: seq<T>)
    requires a <= b <= c
    ensures a <= c
  {
  }

  /** Two shrinks are one shrink to the smaller size. */
  lemma EvictTwice(entries: seq<Header>, a: nat, b: nat)
    ensures EvictFor(EvictFor(entries, 0, a), 0, b) == EvictFor(entries, 0, Min(a, b))
  {
    var one := EvictFor(entries, 0, a);
    var two := EvictFor(one, 0, b);
    var both := EvictFor(entries, 0, Min(a, b));
    assert Size([]) == 0;
    // both fits a, so it survives the first shrink, and fits b, so it survives the second
    EvictKeepsLongestFit(entries, 0, a, both);
    EvictKeepsLongestFit(one, 0, b, both);
    // two fits both bounds
    SizeOfPrefix(two, one);
    PrefixTransitive(two, one, entries);
    EvictKeepsLongestFit(entries, 0, Min(a, b), two);
    PrefixAntisymmetric(both, two);
  }

  /** Shrinking through any list of sizes equals shrinking once to the smallest. */
  function ShrinkAll(entries: seq<Header>, sizes: seq<nat>): (r: seq<Header>) {
    if sizes == [] then entries else EvictFor(ShrinkAll(entries, sizes[..|sizes| - 1]), 0, sizes[|sizes| - 1])
  }

  function MinOf(sizes: seq<nat>): (m: nat)
    requires sizes != []
    ensures m in sizes && forall s :: s in sizes ==> m <= s
  {
    if |sizes| == 1 then sizes[0] else
    var m := MinOf(sizes[..|sizes| - 1]);
    assert sizes == sizes[..|sizes| - 1] + [sizes[|sizes| - 1]];
    if m <= sizes[|sizes| - 1] then m else sizes[|sizes| - 1]
  }

  lemma {:induction false} ShrinkAllIsShrinkToMin(entries: seq<Header>, sizes: seq<nat>)
    requires sizes != []
    ensures ShrinkAll(entries, sizes) == EvictFor(entries, 0, MinOf(sizes))
  {
    var init := sizes[..|sizes| - 1];
    if init == [] {
      assert ShrinkAll(entries, init) == entries;
    } else {
      ShrinkAllIsShrinkToMin(entries, init);
      EvictTwice(entries, MinOf(init), sizes[|sizes| - 1]);
    }
  }

  predicate ValidIndex(entries: seq<Header>, idx: nat) {
    idx < |entries| + STATIC_LENGTH
  }

  /** `nghttp2_hd_table_get`. */
  function Lookup(st: Statics, entries: seq<Header>, idx: nat): Header
    requires ValidIndex(entries, idx)
  {
    if idx < STATIC_LENGTH then st.table[idx] else entries[idx - STATIC_LENGTH]
  }

  function FirstIndex(names: seq<Bytes>, name: Bytes): (i: nat)
    ensures i <= |names|
    ensures i < |names| ==> names[i] == name
  {
    if names == [] || names[0] == name then 0 else 1 + FirstIndex(names[1..], name)
  }

  /** `lookup_token` by its meaning: the first token whose name it is, or -1. */
  function LookupToken(st: Statics, name: Bytes): (t: int)
    ensures -1 <= t < |st.names|
    ensures t >= 0 ==> st.names[t] == name
  {
    var i := FirstIndex(st.names, name);
    if i == |st.names| then -1 else i
  }

  /** No earlier name equals it, and the length of the list means that none does. */
  lemma {:induction false} FirstIndexIsFirst(names: seq<Bytes>, name: Bytes, i: nat)
    requires i < FirstIndex(names, name)
    ensures names[i] != name
  {
    if i > 0 {
      FirstIndexIsFirst(names[1..], name, i - 1);
    }
  }

  // ----- The encoder's search, as a linear scan

  datatype Match = NoMatch | NameMatch(index: nat) | ExactMatch(index: nat)

  /** Index of the newest entry with this name, |entries| if none. */
  function FirstName(entries: seq<Header>, name: Bytes): (i: nat)
    ensures i <= |entries|
    ensures i < |entries| ==> entries[i].name == name
    ensures forall j :: 0 <= j < i ==> entries[j].name != name
  {
    if entries == [] || entries[0].name == name then 0 else 1 + FirstName(entries[1..], name)
  }

  /** Index of the newest entry equal to h, |entries| if none. */
  function FirstExact(entries: seq<Header>, h: Header): (i: nat)
    ensures i <= |entries|
    ensures i < |entries| ==> entries[i] == h
    ensures forall j :: 0 <= j < i ==> entries[j] != h
  {
    if entries == [] || entries[0] == h then 0 else 1 + FirstExact(entries[1..], h)
  }

  /** Newest exact match, else newest name match; with nameOnly, the newest name match. */
  function Find(entries: seq<Header>, h: Header, nameOnly: bool): (m: Match) {
    var e, n := FirstExact(entries, h), FirstName(entries, h.name);
    if !nameOnly && e < |entries| then ExactMatch(e)
    else if n < |entries| then NameMatch(n)
    else NoMatch
  }

  /** `search_static_table`. */
  function SearchStatic(st: Statics, h: Header, token: nat, nameOnly: bool): (m: Match)
    requires token < STATIC_LENGTH && st.table[token].name == h.name
    ensures m.NameMatch? || m.ExactMatch?
    ensures m.index < STATIC_LENGTH && st.table[m.index].name == h.name
    ensures m.ExactMatch? ==> st.table[m.index] == h
    ensures nameOnly ==> m.NameMatch?
  {
    if nameOnly then NameMatch(token) else StaticFrom(st, h, token, token)
  }

  function StaticFrom(st: Statics, h: Header, token: nat, i: nat): (m: Match)
    requires token < STATIC_LENGTH && st.table[token].name == h.name && i <= STATIC_LENGTH
    ensures m.NameMatch? || m.ExactMatch?
    ensures m.index < STATIC_LENGTH && st.table[m.index].name == h.name
    ensures m.ExactMatch? ==> st.table[m.index] == h
    decreases STATIC_LENGTH - i
  {
    if i == STATIC_LENGTH || st.table[i].name != h.name then NameMatch(token)
    else if st.table[i].value == h.value then ExactMatch(i)
    else StaticFrom(st, h, token, i + 1)
  }

  /** `search_hd_table`: a dynamic exact match wins, then the static table, then a dynamic name match. */
  function Search(st: Statics, entries: seq<Header>, h: Header, nameOnly: bool): (m: Match)
    ensures m != NoMatch ==> ValidIndex(entries, m.index) && Lookup(st, entries, m.index).name == h.name
    ensures m.ExactMatch? ==> Lookup(st, entries, m.index) == h
    ensures nameOnly ==> !m.ExactMatch?
  {
    var found := Find(entries, h, nameOnly);
    var token := LookupToken(st, h.name);
    if !found.ExactMatch? && 0 <= token < STATIC_LENGTH then SearchStatic(st, h, token, nameOnly)
    else match found
      case NoMatch => NoMatch
      case NameMatch(i) => NameMatch(i + STATIC_LENGTH)
      case ExactMatch(i) => ExactMatch(i + STATIC_LENGTH)
  }
}
