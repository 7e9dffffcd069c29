/** `nghttp2_hd_deflater` in place: the encoder of HpackEncoder over the ring buffer and the hash index. */
module HpackDeflater {
  import opened Bytes
  import opened Huffman
  import opened HeaderTable
  import opened HpackRing
  import opened HpackIndex
  import opened HpackContext
  import opened HpackEncoder

  /** The encoder object; `hashes` are the precomputed hashes of the static table's names. */
  class Deflater {
    const c: Codec
    const hashes: seq<nat>
    const ctx: HdContext
    const idx: HdMap
    const limit: nat
    var minMax: nat
    var notify: bool

    ghost predicate Valid()
      reads this, ctx, ctx.ring, ctx.ring.buffer, idx, idx.table, idx.links.Keys
    {
      && ctx.Valid() && ctx.Indexes(idx)
      && ctx.st == idx.keying.st == c.st
      && |hashes| == STATIC_LENGTH && idx.keying.hasher == NameHasher(c.st, hashes)
    }

    /** The encoder this object implements. */
    ghost function Value(): Encoder
      reads this, ctx, ctx.ring
    {
      Encoder(ctx.Tbl(), limit, minMax, notify)
    }

    /** The objects below this one. */
    ghost function Parts(): set<object>
      reads ctx, ctx.ring, idx
    {
      {ctx, ctx.ring, ctx.ring.buffer, idx, idx.table} + idx.links.Keys
    }

    /** `nghttp2_hd_deflate_init2`. */
    constructor (c: Codec, hashes: seq<nat>, limit: nat)
      requires |hashes| == STATIC_LENGTH
      ensures Valid() && fresh(Parts())
      ensures Value() == InitEncoder(limit) && this.c == c
    {
      this.c, this.hashes, this.limit := c, hashes, limit;
      ctx := new HdContext(c.st);
      idx := new HdMap(Keying(c.st, NameHasher(c.st, hashes)));
      minMax, notify := U32_MAX, limit < DEFAULT_TABLE_SIZE;
      new;
      if limit < DEFAULT_TABLE_SIZE {
        ctx.max := limit;
      }
    }

    /** `nghttp2_hd_deflate_change_table_size`. */
    method ChangeTableSize(settings: nat)
      requires Valid() && settings <= U32_MAX
      modifies this, Parts()
      ensures Valid() && fresh(Parts() - old(Parts()))
      ensures Value() == ChangeEncoder(old(Value()), settings)
    {
      var next := Min(settings, limit);
      ctx.max := next;
      minMax := Min(minMax, next);
      notify := true;
      ctx.ShrinkTable(idx);
    }

    /** `search_static_table`. */
    method SearchStaticTable(h: Header, token: nat, nameOnly: bool) returns (m: Match)
      requires token < STATIC_LENGTH && c.st.table[token].name == h.name
      ensures m == SearchStatic(c.st, h, token, nameOnly)
    {
      if nameOnly {
        return NameMatch(token);
      }
      var i := token;
      while i < STATIC_LENGTH && c.st.table[i].name == h.name
        invariant token <= i <= STATIC_LENGTH
        invariant StaticFrom(c.st, h, token, token) == StaticFrom(c.st, h, token, i)
      {
        if c.st.table[i].value == h.value {
          return ExactMatch(i);
        }
        i := i + 1;
      }
      return NameMatch(token);
    }

    /** `search_hd_table`: chain walk and sequence-number arithmetic, equal to the linear scan. */
    method SearchTable(h: Header, token: int, nameOnly: bool, hash: nat) returns (m: Match)
      requires Valid() && token == LookupToken(c.st, h.name) && hash == HashOf(c.st, hashes, h.name)
      ensures m == Search(c.st, Headers(ctx.ring.contents), h, nameOnly)
    {
      ghost var live := ctx.ring.contents;
      var ent, exact := idx.Find(h, token, hash, nameOnly);
      ChainScanIsTableScan(idx.keying, idx.table[..], idx.links, idx.chains, live, h, true);
      ChainScanIsTableScan(idx.keying, idx.table[..], idx.links, idx.chains, live, h, false);
      if !exact && 0 <= token < STATIC_LENGTH {
        m := SearchStaticTable(h, token, nameOnly);
        return;
      }
      if ent == null {
        return NoMatch;
      }
      ghost var at := if exact then FirstExact(Headers(live), h) else FirstName(Headers(live), h.name);
      var index := TableIndex(ent, at);
      m := if exact then ExactMatch(index) else NameMatch(index);
    }

    /** The HPACK index of a live entry, from its sequence number alone. */
    method TableIndex(ent: HdEntry, ghost at: nat) returns (index: nat)
      requires ctx.Valid() && at < |ctx.ring.contents| && ent == ctx.ring.contents[at]
      ensures index == at + STATIC_LENGTH
    {
      CountBound(Headers(ctx.ring.contents));
      assert ent.seqno == SeqAt(ctx.nextSeq, at);
      index := (ctx.nextSeq - 1 - ent.seqno + STATIC_LENGTH) % TWO32;
      IndexFromSeq(ctx.nextSeq, at);
    }

    /** `deflate_nv`. */
    method DeflateOne(nv: Input) returns (out: Bytes)
      requires Valid()
      modifies Parts()
      ensures Valid() && fresh(Parts() - old(Parts()))
      ensures ctx.Tbl() == DeflateNv(c, old(ctx.Tbl()), nv).0 && out == DeflateNv(c, old(ctx.Tbl()), nv).1
    {
      var token := LookupToken(c.st, nv.hdr.name);
      var hash := HashName(c.st, hashes, nv.hdr.name);
      var mode := ModeOf(c.st, nv, ctx.max);
      var m := SearchTable(nv.hdr, token, mode == NeverIndexing, hash);
      if m.ExactMatch? {
        return EmitIndexed(m.index);
      }
      if mode == WithIndexing {
        ctx.AddIncremental(nv.hdr, idx, hash);
      }
      out := EmitLiteral(c, mode, m, nv.hdr);
    }

    /** The loop of `nghttp2_hd_deflate_hd_bufs`. */
    method DeflateEach(nva: seq<Input>) returns (out: Bytes)
      requires Valid()
      modifies Parts()
      ensures Valid() && fresh(Parts() - old(Parts()))
      ensures (ctx.Tbl(), out) == DeflateAll(c, old(ctx.Tbl()), nva)
    {
      out := [];
      ghost var all, left := DeflateAll(c, ctx.Tbl(), nva), nva;
      AheadStarts(c, ctx.Tbl(), nva);
      var i := 0;
      while i < |nva|
        invariant 0 <= i <= |nva| && left == nva[i..]
        invariant Valid() && fresh(Parts() - old(Parts()))
        invariant Ahead(c, all, ctx.Tbl(), out, left)
      {
        var bytes := DeflateNext(nva[i], all, out, left);
        out, left := out + bytes, left[1..];
        i := i + 1;
      }
      AheadEnds(c, all, ctx.Tbl(), out);
    }

    /** A round of that loop. */
    method DeflateNext(nv: Input, ghost all: (Table, Bytes), ghost done: Bytes, ghost left: seq<Input>)
      returns (bytes: Bytes)
      requires Valid() && left != [] && left[0] == nv && Ahead(c, all, ctx.Tbl(), done, left)
      modifies Parts()
      ensures Valid() && fresh(Parts() - old(Parts()))
      ensures Ahead(c, all, ctx.Tbl(), done + bytes, left[1..])
    {
      AheadUnrolls(c, all, ctx.Tbl(), done, left);
      bytes := DeflateOne(nv);
    }

    static lemma AheadStarts(c: Codec, tbl: Table, nva: seq<Input>)
      ensures Ahead(c, DeflateAll(c, tbl, nva), tbl, [], nva)
    {
    }

    /** With this table and these bytes done, encoding the headers left completes `all`. */
    static ghost predicate Ahead(c: Codec, all: (Table, Bytes), tbl: Table, done: Bytes, left: seq<Input>) {
      var rest := DeflateAll(c, tbl, left);
      all.0 == rest.0 && all.1 == done + rest.1
    }

    static lemma AheadUnrolls(c: Codec, all: (Table, Bytes), tbl: Table, done: Bytes, left: seq<Input>)
      requires Ahead(c, all, tbl, done, left) && left != []
      ensures var one := DeflateNv(c, tbl, left[0]); Ahead(c, all, one.0, done + one.1, left[1..])
    {
      var one := DeflateNv(c, tbl, left[0]);
      ConcatAssoc(done, one.1, DeflateAll(c, one.0, left[1..]).1);
    }

    static lemma ConcatAssoc(a: Bytes, b: Bytes, c: Bytes)
      ensures a + (b + c) == (a + b) + c
    {
    }

    static lemma AheadEnds(c: Codec, all: (Table, Bytes), tbl: Table, done: Bytes)
      requires Ahead(c, all, tbl, done, [])
      ensures all.0 == tbl && all.1 == done
    {
    }

    /** The size updates that `nghttp2_hd_deflate_hd_bufs` puts before the headers; Encoder.SizeUpdates says which. */
    method AnnounceTableSize(ghost e: Encoder) returns (out: Bytes)
      requires Valid() && e == Value()
      modifies this`notify, this`minMax
      ensures Valid() && out == SizeUpdates(e)
      ensures !notify && minMax == if e.notify then U32_MAX else e.minMax
    {
      out := [];
      if notify {
        var m := minMax;
        notify := false;
        minMax := U32_MAX;
        if ctx.max > m {
          out := EmitTableSize(m);
        }
        out := out + EmitTableSize(ctx.max);
      }
    }

    /** `nghttp2_hd_deflate_hd_bufs`. */
    method DeflateHdBufs(nva: seq<Input>) returns (out: Bytes)
      requires Valid()
      modifies this, Parts()
      ensures Valid() && fresh(Parts() - old(Parts()))
      ensures (Value(), out) == DeflateBlock(c, old(Value()), nva)
    {
      ghost var e := Value();
      out := AnnounceTableSize(e);
      var bytes := DeflateEach(nva);
      BlockOfParts(c, e, nva, Value(), out, bytes);
      out := out + bytes;
    }

    static lemma BlockOfParts(c: Codec, e: Encoder, nva: seq<Input>, after: Encoder, updates: Bytes, bytes: Bytes)
      requires updates == SizeUpdates(e) && (after.tbl, bytes) == DeflateAll(c, e.tbl, nva)
      requires after.limit == e.limit && !after.notify && after.minMax == (if e.notify then U32_MAX else e.minMax)
      ensures (after, updates + bytes) == DeflateBlock(c, e, nva)
    {
    }
  }

  /** Subtracting sequence numbers modulo 2^32 recovers the table position even after the counter wrapped. */
  lemma IndexFromSeq(next: nat, at: nat)
    requires next < TWO32 && at < 0x1000_0000
    ensures (next - 1 - SeqAt(next, at) + STATIC_LENGTH) % TWO32 == at + STATIC_LENGTH
  {
  }
}
