/** `nghttp2_hd_context`: the dynamic table in a ring buffer, with its running byte count and sequence numbers. */
module HpackContext {
  import opened Bytes
  import opened HeaderTable
  import opened HpackRing
  import opened HpackIndex

  /** Sequence number of the entry at position i when the next one to hand out is `next`: next - 1 - i mod 2^32. */
  function SeqAt(next: nat, i: nat): int {
    if next > i then next - 1 - i else next - 1 - i + TWO32
  }

  /** Sequence numbers count down from the newest entry. */
  ghost predicate Numbered(live: seq<HdEntry>, next: nat) {
    forall i :: 0 <= i < |live| ==> live[i].seqno == SeqAt(next, i)
  }

  lemma NumberedPush(live: seq<HdEntry>, next: nat, ent: HdEntry)
    requires Numbered(live, next) && ent.seqno == next <= U32_MAX && |live| < U32_MAX
    ensures Numbered([ent] + live, if next == U32_MAX then 0 else next + 1)
  {
    var next' := if next == U32_MAX then 0 else next + 1;
    forall i | 0 <= i < |live| + 1
      ensures ([ent] + live)[i].seqno == SeqAt(next', i)
    {
      if i > 0 {
        assert live[i - 1].seqno == SeqAt(next, i - 1);
      }
    }
  }

  lemma EvictStep(entries: seq<Header>, rest: seq<Header>, room: nat, max: nat)
    requires entries != [] && rest == entries[..|entries| - 1] && Size(entries) + room > max
    ensures EvictFor(entries, room, max) == EvictFor(rest, room, max)
  {
  }

  /** Cutting the oldest entry out of its chain leaves the chains of the rest. */
  lemma MirrorsAfterEvict(was: seq<HdEntry>, before: seq<seq<HdEntry>>, after: seq<seq<HdEntry>>, k: nat)
    requires was != [] && Mirrors(before, was)
    requires var ent := was[|was| - 1];
             var b := ent.hash % MAP_SIZE;
             && k < |before[b]| && before[b][k] == ent && Distinct(before[b])
             && after == before[b := Cut(before[b], k)]
    ensures Mirrors(after, was[..|was| - 1])
  {
    var ent, live := was[|was| - 1], was[..|was| - 1];
    forall b | 0 <= b < MAP_SIZE
      ensures after[b] == Bucket(live, b)
    {
      BucketDropLast(was, b);
      if b == ent.hash % MAP_SIZE {
        assert before[b] == Bucket(live, b) + [ent];
        assert before[b][|Bucket(live, b)|] == ent == before[b][k];
      }
    }
  }

  lemma MirrorsAfterInsert(was: seq<HdEntry>, ent: HdEntry, before: seq<seq<HdEntry>>, after: seq<seq<HdEntry>>)
    requires Mirrors(before, was)
    requires var b := ent.hash % MAP_SIZE; after == before[b := [ent] + before[b]]
    ensures Mirrors(after, [ent] + was)
  {
    forall b | 0 <= b < MAP_SIZE
      ensures after[b] == Bucket([ent] + was, b)
    {
      BucketCons(ent, was, b);
    }
  }

  class HdContext {
    const st: Statics
    const ring: Ring
    var bufsize: nat
    var max: nat
    var nextSeq: nat

    ghost predicate Valid()
      reads this, ring, ring.buffer
    {
      && ring.Valid()
      && nextSeq < TWO32
      && max <= U32_MAX
      && bufsize == Size(Headers(ring.contents)) <= U32_MAX
      && Numbered(ring.contents, nextSeq)
    }

    /** The abstract table. */
    ghost function Tbl(): Table
      reads this, ring
    {
      Table(Headers(ring.contents), max)
    }

    /** The index holds exactly the live entries, every chain newest first. */
    ghost predicate Indexes(idx: HdMap)
      reads this, ring, idx, idx.table, idx.links.Keys
    {
      && idx.table != ring.buffer
      && idx.Valid()
      && Mirrors(idx.chains, ring.contents)
    }

    constructor (st: Statics)
      ensures this.st == st
      ensures Valid() && fresh(ring) && fresh(ring.buffer)
      ensures Tbl() == Table([], DEFAULT_TABLE_SIZE) && ring.contents == []
    {
      this.st := st;
      ring := new Ring(DEFAULT_TABLE_SIZE / ENTRY_OVERHEAD);
      bufsize, max, nextSeq := 0, DEFAULT_TABLE_SIZE, 0;
    }

    method PopOldest() returns (ent: HdEntry)
      requires Valid() && ring.contents != []
      modifies this`bufsize, ring`len, ring`contents
      ensures Valid() && ring.contents == old(ring.contents)[..|old(ring.contents)| - 1]
      ensures ent == old(ring.contents)[|old(ring.contents)| - 1]
    {
      ent := ring.Get(ring.len - 1);
      bufsize := bufsize - Room(ent.hdr);
      assert Headers(ring.contents)[..ring.len - 1] == Headers(ring.contents[..ring.len - 1]);
      ring.PopBack();
    }

    /** The body of both eviction loops: drop the oldest entry, and its index link if there is an index. */
    method EvictOldest(idx: HdMap?)
      requires Valid() && ring.contents != []
      requires idx != null ==> Indexes(idx)
      modifies this`bufsize, ring`len, ring`contents, idx, if idx == null then {} else {idx.table} + idx.links.Keys
      ensures Valid() && ring.contents == old(ring.contents)[..|old(ring.contents)| - 1]
      ensures idx != null ==> Indexes(idx) && idx.links.Keys <= old(idx.links.Keys)
    {
      ghost var was := ring.contents;
      var ent := PopOldest();
      if idx != null {
        BucketDropLast(was, ent.hash % MAP_SIZE);
        
        ghost var k := idx.Remove(ent);
        MirrorsAfterEvict(was, old(idx.chains), idx.chains, k);
      }
    }

    /** The eviction loop of `hd_context_shrink_table_size` (room 0) and of `add_hd_table_incremental`. */
    method EvictUntil(room: nat, idx: HdMap?)
      requires Valid()
      requires idx != null ==> Indexes(idx)
      modifies this`bufsize, ring`len, ring`contents, idx, if idx == null then {} else {idx.table} + idx.links.Keys
      ensures Valid() && Headers(ring.contents) == EvictFor(old(Headers(ring.contents)), room, max)
      ensures idx != null ==> Indexes(idx) && idx.links.Keys <= old(idx.links.Keys)
    {
      ghost var indexed := if idx == null then {} else idx.links.Keys;
      ghost var goal := EvictFor(Headers(ring.contents), room, max);
      while bufsize + room > max && ring.len > 0
        invariant Valid()
        invariant idx != null ==> Indexes(idx) && idx.links.Keys <= indexed
        invariant EvictFor(Headers(ring.contents), room, max) == goal
        decreases ring.len
      {
        ghost var was := Headers(ring.contents);
        EvictOldest(idx);
        assert Headers(ring.contents) == was[..|was| - 1];
        EvictStep(was, Headers(ring.contents), room, max);
      }
    }

    /** `hd_context_shrink_table_size`. */
    method ShrinkTable(idx: HdMap?)
      requires Valid()
      requires idx != null ==> Indexes(idx)
      modifies this`bufsize, ring`len, ring`contents, idx, if idx == null then {} else {idx.table} + idx.links.Keys
      ensures Valid() && Tbl() == Shrink(old(Tbl()).entries, max)
      ensures idx != null ==> Indexes(idx) && idx.links.Keys <= old(idx.links.Keys)
    {
      EvictUntil(0, idx);
    }

    method PushNewest(h: Header, hash: nat) returns (ent: HdEntry)
      requires Valid() && bufsize + Room(h) <= max
      modifies this`bufsize, this`nextSeq, ring, ring.buffer
      ensures Valid() && ring.contents == [ent] + old(ring.contents) && fresh(ent) && ent.next == null
      ensures ent.hdr == h && ent.hash == hash && ent.token == LookupToken(st, h.name)
      ensures ring.buffer == old(ring.buffer) || fresh(ring.buffer)
    {
      ent := new HdEntry(h, LookupToken(st, h.name), nextSeq, hash);
      CountBound(Headers(ring.contents));
      assert Headers([ent] + ring.contents) == [h] + Headers(ring.contents);
      SizeCons(h, Headers(ring.contents));
      NumberedPush(ring.contents, nextSeq, ent);
      ring.PushFront(ent);
      nextSeq := if nextSeq == U32_MAX then 0 else nextSeq + 1;
      bufsize := bufsize + Room(h);
    }

    /** The entry for h, once there is room for it. */
    method Enter(h: Header, idx: HdMap?, hash: nat)
      requires Valid() && bufsize + Room(h) <= max
      requires idx != null ==> Indexes(idx) && hash == idx.keying.hasher(h.name) && idx.keying.st == st
      modifies this`bufsize, this`nextSeq, ring, ring.buffer
      modifies idx, if idx == null then {} else {idx.table}
      ensures Valid() && Tbl() == Table([h] + old(Tbl()).entries, max)
      ensures idx != null ==> Indexes(idx) && fresh(idx.links.Keys - old(idx.links.Keys))
      ensures ring.buffer == old(ring.buffer) || fresh(ring.buffer)
    {
      ghost var kept := ring.contents;
      var ent := PushNewest(h, hash);
      assert Headers(ring.contents) == [h] + Headers(kept);
      if idx != null {
        ghost var chains := idx.chains;
        idx.Insert(ent);
        MirrorsAfterInsert(kept, ent, chains, idx.chains);
      }
    }

    /** `add_hd_table_incremental`. */
    method AddIncremental(h: Header, idx: HdMap?, hash: nat)
      requires Valid()
      requires idx != null ==> Indexes(idx) && hash == idx.keying.hasher(h.name) && idx.keying.st == st
      modifies this`bufsize, this`nextSeq, ring, ring.buffer
      modifies idx, if idx == null then {} else {idx.table} + idx.links.Keys
      ensures Valid() && Tbl() == HeaderTable.Insert(old(Tbl()), h)
      ensures idx != null ==> Indexes(idx) && fresh(idx.links.Keys - old(idx.links.Keys))
      ensures ring.buffer == old(ring.buffer) || fresh(ring.buffer)
    {
      EvictUntil(Room(h), idx);
      if Room(h) > max {
        return;
      }
      assert ring.contents == [] ==> Headers(ring.contents) == [];
      Enter(h, idx, hash);
    }
  }
}
