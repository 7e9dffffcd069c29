/** The HPACK encoder as a function of its state: `nghttp2_hd_deflate_hd_bufs` and the table-size change. */
module HpackEncoder {
  import opened Bytes
  import opened Huffman
  import opened HeaderTable
  import opened IntegerCodec

  datatype Mode = WithIndexing | WithoutIndexing | NeverIndexing

  /** A header to send; `flagged` is NGHTTP2_NV_FLAG_NO_INDEX. */
  datatype Input = Input(hdr: Header, flagged: bool)

  /** limit: deflate_hd_table_bufsize_max; minMax: min_hd_table_bufsize_max; notify: notify_table_size_change. */
  datatype Encoder = Encoder(tbl: Table, limit: nat, minMax: nat, notify: bool)

  const TOKEN_PATH := 3
  const TOKEN_AGE := 20
  const TOKEN_AUTHORIZATION := 22
  const TOKEN_CONTENT_LENGTH := 27
  const TOKEN_COOKIE := 31
  const TOKEN_ETAG := 33
  const TOKEN_IF_MODIFIED_SINCE := 39
  const TOKEN_IF_NONE_MATCH := 40
  const TOKEN_LOCATION := 45
  const TOKEN_SET_COOKIE := 54

  /** `nghttp2_hd_deflate_init2`. */
  function InitEncoder(limit: nat): Encoder {
    if limit < DEFAULT_TABLE_SIZE then Encoder(Table([], limit), limit, U32_MAX, true)
    else Encoder(Table([], DEFAULT_TABLE_SIZE), limit, U32_MAX, false)
  }

  /** `nghttp2_hd_deflate_change_table_size`. */
  function ChangeEncoder(e: Encoder, settings: nat): Encoder {
    var next := Min(settings, e.limit);
    Encoder(Shrink(e.tbl.entries, next), e.limit, Min(e.minMax, next), true)
  }

  predicate IndexingDiscouraged(token: int) {
    token in {TOKEN_PATH, TOKEN_AGE, TOKEN_CONTENT_LENGTH, TOKEN_ETAG, TOKEN_IF_MODIFIED_SINCE,
              TOKEN_IF_NONE_MATCH, TOKEN_LOCATION, TOKEN_SET_COOKIE}
  }

  /** The choice made at the head of `deflate_nv`. */
  function ModeOf(st: Statics, nv: Input, max: nat): Mode {
    var token := LookupToken(st, nv.hdr.name);
    if token == TOKEN_AUTHORIZATION || (token == TOKEN_COOKIE && |nv.hdr.value| < 20) || nv.flagged then NeverIndexing
    else if IndexingDiscouraged(token) || Room(nv.hdr) > max * 3 / 4 then WithoutIndexing
    else WithIndexing
  }

  function FirstByte(mode: Mode): (b: byte) {
    match mode
    case WithIndexing => 0x40
    case WithoutIndexing => 0
    case NeverIndexing => 0x10
  }

  function NamePrefix(mode: Mode): (p: nat)
    ensures 4 <= p <= 7 && PrefixOk(p, FirstByte(mode))
  {
    if mode == WithIndexing then 6 else 4
  }

  /** Wire length of a string: the shorter of the Huffman and the plain form. */
  function WireLength(c: Codec, s: Bytes): (n: nat)
    ensures n <= |s|
  {
    Min(|c.encode(s)|, |s|)
  }

  /** `emit_string`. */
  function EmitString(c: Codec, s: Bytes): Bytes {
    var enc := c.encode(s);
    if |enc| < |s| then EncodeInt(0x80, |enc|, 7) + enc else EncodeInt(0, |s|, 7) + s
  }

  function EmitTableSize(n: nat): Bytes {
    EncodeInt(0x20, n, 5)
  }

  function EmitIndexed(idx: nat): Bytes {
    EncodeInt(0x80, idx + 1, 7)
  }

  /** `emit_indname_block` and `emit_newname_block`. */
  function EmitLiteral(c: Codec, mode: Mode, m: Match, h: Header): Bytes
    requires !m.ExactMatch?
  {
    if m.NameMatch? then EncodeInt(FirstByte(mode), m.index + 1, NamePrefix(mode)) + EmitString(c, h.value)
    else [FirstByte(mode)] + EmitString(c, h.name) + EmitString(c, h.value)
  }

  /** The search `deflate_nv` makes. */
  function MatchOf(c: Codec, tbl: Table, nv: Input): (m: Match)
    ensures m != NoMatch ==> ValidIndex(tbl.entries, m.index) && Lookup(c.st, tbl.entries, m.index).name == nv.hdr.name
    ensures m.ExactMatch? ==> Lookup(c.st, tbl.entries, m.index) == nv.hdr
    ensures ModeOf(c.st, nv, tbl.max) == NeverIndexing ==> !m.ExactMatch?
  {
    Search(c.st, tbl.entries, nv.hdr, ModeOf(c.st, nv, tbl.max) == NeverIndexing)
  }

  /** `deflate_nv`: the bytes for one header and the table afterwards. */
  function DeflateNv(c: Codec, tbl: Table, nv: Input): (r: (Table, Bytes))
    ensures r.0.max == tbl.max
    ensures Size(tbl.entries) <= tbl.max ==> Size(r.0.entries) <= r.0.max
  {
    var mode, m := ModeOf(c.st, nv, tbl.max), MatchOf(c, tbl, nv);
    if m.ExactMatch? then (tbl, EmitIndexed(m.index))
    else (if mode == WithIndexing then Insert(tbl, nv.hdr) else tbl, EmitLiteral(c, mode, m, nv.hdr))
  }

  function DeflateAll(c: Codec, tbl: Table, nva: seq<Input>): (r: (Table, Bytes))
    ensures r.0.max == tbl.max
    ensures Size(tbl.entries) <= tbl.max ==> Size(r.0.entries) <= r.0.max
    decreases |nva|
  {
    if nva == [] then (tbl, []) else
    var one := DeflateNv(c, tbl, nva[0]);
    var rest := DeflateAll(c, one.0, nva[1..]);
    (rest.0, one.1 + rest.1)
  }

  /** The size updates at the head of a block: the minimum seen, if the final size is larger, then the final one. */
  function SizeUpdates(e: Encoder): Bytes {
    if !e.notify then []
    else if e.tbl.max > e.minMax then EmitTableSize(e.minMax) + EmitTableSize(e.tbl.max)
    else EmitTableSize(e.tbl.max)
  }

  /** `nghttp2_hd_deflate_hd_bufs`. */
  function DeflateBlock(c: Codec, e: Encoder, nva: seq<Input>): (r: (Encoder, Bytes)) {
    var all := DeflateAll(c, e.tbl, nva);
    (Encoder(all.0, e.limit, if e.notify then U32_MAX else e.minMax, false), SizeUpdates(e) + all.1)
  }

  /** Every literal the block carries stays within what `NGHTTP2_HD_MAX_NV` lets a decoder accept. */
  predicate StringsFit(c: Codec, tbl: Table, nv: Input) {
    var m := MatchOf(c, tbl, nv);
    m.ExactMatch? || (WireLength(c, nv.hdr.value) <= MAX_NV && (m == NoMatch ==> WireLength(c, nv.hdr.name) <= MAX_NV))
  }

  predicate AllStringsFit(c: Codec, tbl: Table, nva: seq<Input>)
    decreases |nva|
  {
    nva == [] || (StringsFit(c, tbl, nva[0]) && AllStringsFit(c, DeflateNv(c, tbl, nva[0]).0, nva[1..]))
  }

  // ----- nghttp2_hd_deflate_bound

  function Bound(nva: seq<Input>): nat {
    12 + 12 * |nva| + TotalLength(nva)
  }

  function TotalLength(nva: seq<Input>): nat {
    if nva == [] then 0 else |nva[0].hdr.name| + |nva[0].hdr.value| + TotalLength(nva[1..])
  }

  lemma EncodedLengthIsCount(high: nat, n: nat, prefix: nat)
    requires PrefixOk(prefix, high)
    ensures |EncodeInt(high, n, prefix)| == CountEncodedLength(n, prefix)
  {
  }

  lemma StringBound(c: Codec, s: Bytes)
    requires |s| < 0x1000_0000
    ensures |EmitString(c, s)| <= 5 + |s|
  {
    var n := WireLength(c, s);
    EncodedLengthIsCount(0x80, n, 7);
    EncodedLengthIsCount(0, n, 7);
    FiveBytes(n, 7);
  }

  predicate ShortNv(nv: Input) {
    |nv.hdr.name| < 0x1000_0000 && |nv.hdr.value| < 0x1000_0000
  }

  lemma NvBound(c: Codec, tbl: Table, nv: Input)
    requires ShortNv(nv) && Size(tbl.entries) <= tbl.max <= U32_MAX
    ensures |DeflateNv(c, tbl, nv).1| <= 12 + |nv.hdr.name| + |nv.hdr.value|
  {
    var mode, m := ModeOf(c.st, nv, tbl.max), MatchOf(c, tbl, nv);
    CountBound(tbl.entries);
    StringBound(c, nv.hdr.name);
    StringBound(c, nv.hdr.value);
    if m != NoMatch {
      SixBytes(m.index + 1, 7);
      SixBytes(m.index + 1, NamePrefix(mode));
      EncodedLengthIsCount(0x80, m.index + 1, 7);
      EncodedLengthIsCount(FirstByte(mode), m.index + 1, NamePrefix(mode));
    }
  }

  lemma {:induction false} AllBound(c: Codec, tbl: Table, nva: seq<Input>)
    requires Size(tbl.entries) <= tbl.max <= U32_MAX
    requires forall nv :: nv in nva ==> ShortNv(nv)
    ensures |DeflateAll(c, tbl, nva).1| <= 12 * |nva| + TotalLength(nva)
    decreases |nva|
  {
    if nva != [] {
      NvBound(c, tbl, nva[0]);
      var one := DeflateNv(c, tbl, nva[0]);
      AllBound(c, one.0, nva[1..]);
      assert DeflateAll(c, tbl, nva).1 == one.1 + DeflateAll(c, one.0, nva[1..]).1;
    }
  }

  /** The buffer estimate covers every block whose names and values are shorter than 2^28. */
  lemma DeflateBoundCoversBlock(c: Codec, e: Encoder, nva: seq<Input>)
    requires Size(e.tbl.entries) <= e.tbl.max <= U32_MAX && e.minMax <= U32_MAX
    requires forall nv :: nv in nva ==> ShortNv(nv)
    ensures |DeflateBlock(c, e, nva).1| <= Bound(nva)
  {
    AllBound(c, e.tbl, nva);
    SixBytes(e.tbl.max, 5);
    SixBytes(e.minMax, 5);
    EncodedLengthIsCount(0x20, e.tbl.max, 5);
    EncodedLengthIsCount(0x20, e.minMax, 5);
  }
}
