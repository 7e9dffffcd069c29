/**
 * Encoder and decoder of one direction of a connection, over any run of header blocks and of
 * SETTINGS_HEADER_TABLE_SIZE changes that both sides see between blocks.
 */
module HpackConnection {
  import opened Bytes
  import opened Huffman
  import opened HeaderTable
  import opened IntegerCodec
  import opened HpackEncoder
  import opened HpackDecoder

  // ----- One integer, one string, one header

  /** The decoder is about to read an integer for this goal from the byte b on. */
  predicate StartsInt(c: Codec, d: Decoder, goal: Goal, b: byte) {
    && d.Decoder?
    && (goal.LengthGoal? ==> ValidStr(d.tbl.entries, goal.str))
    && Step(c, d, b) == StepInt(c, d, goal, 0, 0, b)
  }

  lemma IntDecodes(c: Codec, d: Decoder, goal: Goal, high: nat, n: nat, rest: Bytes)
    requires PrefixOk(Prefix(goal), high)
    requires StartsInt(c, d, goal, EncodeInt(high, n, Prefix(goal))[0])
    ensures Run(c, d, EncodeInt(high, n, Prefix(goal)) + rest) ==
            if n > U32_MAX || n > Cap(d.tbl.entries, d.settings, d.minMax, goal) then (Bad, [])
            else Prepend(FinishInt(c, d, goal, n).1, Run(c, FinishInt(c, d, goal, n).0, rest))
  {
    var bytes := EncodeInt(high, n, Prefix(goal));
    var s := bytes + rest;
    IntRoundTrip(high, n, Prefix(goal), rest);
    IntInBulk(c, d, goal, 0, 0, s);
    assert s[|bytes|..] == rest;
    assert Step(c, AtInt(d, goal, 0, 0), s[0]) == Step(c, d, s[0]);
  }

  lemma FirstByteOf(high: nat, n: nat, prefix: nat)
    requires PrefixOk(prefix, high)
    ensures EncodeInt(high, n, prefix)[0] == high + Min(n, Radix(prefix) - 1)
  {
  }

  lemma LengthDecodes(c: Codec, d: Decoder, str: Str, huffman: bool, n: nat, rest: Bytes)
    requires d.Decoder? && ValidStr(d.tbl.entries, str) && d.phase == CheckLen(str)
    ensures var goal := LengthGoal(str, huffman);
            Run(c, d, EncodeInt(if huffman then 0x80 else 0, n, 7) + rest) ==
            if n > MAX_NV then (Bad, [])
            else Prepend(FinishInt(c, d, goal, n).1, Run(c, FinishInt(c, d, goal, n).0, rest))
  {
    var high := if huffman then 0x80 else 0;
    FirstByteOf(high, n, 7);
    IntDecodes(c, d, LengthGoal(str, huffman), high, n, rest);
  }

  lemma TextDecodes(c: Codec, d: Decoder, str: Str, huffman: bool, wire: Bytes, rest: Bytes)
    requires Lawful(c)
    requires d.Decoder? && ValidStr(d.tbl.entries, str) && wire != []
    ensures Run(c, AtStr(d, str, huffman, |wire|, []), wire + rest) ==
            Prepend(FinishStr(c, d, str, huffman, wire).1, Run(c, FinishStr(c, d, str, huffman, wire).0, rest))
  {
    assert !c.failed([]) by {
      assert c.failed([]) ==> c.failed(c.encode([]));
    }
    StrInBulk(c, d, str, huffman, |wire|, [], wire + rest);
    assert [] + (wire + rest)[..|wire|] == wire;
    assert (wire + rest)[|wire|..] == rest;
  }

  /** The string proper, after its length; an empty name is taken up by the byte that follows it. */
  lemma BodyDecodes(c: Codec, d: Decoder, str: Str, huffman: bool, wire: Bytes, rest: Bytes)
    requires Lawful(c) && |wire| <= MAX_NV
    requires d.Decoder? && ValidStr(d.tbl.entries, str)
    requires str.NameStr? ==> rest != []
    ensures var done := FinishInt(c, d, LengthGoal(str, huffman), |wire|);
            Prepend(done.1, Run(c, done.0, wire + rest)) ==
            Prepend(FinishStr(c, d, str, huffman, wire).1, Run(c, FinishStr(c, d, str, huffman, wire).0, rest))
  {
    if wire != [] {
      TextDecodes(c, d, str, huffman, wire, rest);
    } else {
      assert wire + rest == rest;
      if str.NameStr? {
        var reading := FinishInt(c, d, LengthGoal(str, huffman), 0).0;
        var named := FinishStr(c, d, str, huffman, []);
        assert Step(c, reading, rest[0]) == Step(c, named.0, rest[0]);
      }
    }
  }

  lemma StringDecodes(c: Codec, d: Decoder, str: Str, text: Bytes, rest: Bytes)
    requires Lawful(c)
    requires d.Decoder? && ValidStr(d.tbl.entries, str) && d.phase == CheckLen(str)
    requires str.NameStr? ==> rest != []
    ensures Run(c, d, EmitString(c, text) + rest) ==
            if WireLength(c, text) > MAX_NV then (Bad, [])
            else Prepend(FinishStr(c, d, str, false, text).1, Run(c, FinishStr(c, d, str, false, text).0, rest))
  {
    var enc := c.encode(text);
    var huffman := |enc| < |text|;
    var wire := if huffman then enc else text;
    var num := EncodeInt(if huffman then 0x80 else 0, |wire|, 7);
    assert EmitString(c, text) + rest == num + (wire + rest);
    LengthDecodes(c, d, str, huffman, |wire|, wire + rest);
    assert FinishStr(c, d, str, huffman, wire) == FinishStr(c, d, str, false, text);
    if |wire| <= MAX_NV {
      BodyDecodes(c, d, str, huffman, wire, rest);
    }
  }

  /** What the receiver must get for one header. */
  function Expected(c: Codec, tbl: Table, nv: Input): Field {
    Field(nv.hdr.name, nv.hdr.value, ModeOf(c.st, nv, tbl.max) == NeverIndexing)
  }

  predicate BetweenFields(d: Decoder) {
    d.Decoder? && (d.phase == Start || d.phase == Opcode)
  }

  function FlagsOf(mode: Mode): Flags {
    Flags(mode == WithIndexing, mode == NeverIndexing)
  }

  lemma LiteralStarts(c: Codec, d: Decoder, mode: Mode, n: nat)
    requires BetweenFields(d) && n > 0
    ensures Prefix(LiteralGoal(FlagsOf(mode))) == NamePrefix(mode)
    ensures StartsInt(c, d, LiteralGoal(FlagsOf(mode)), EncodeInt(FirstByte(mode), n, NamePrefix(mode))[0])
  {
    FirstByteOf(FirstByte(mode), n, NamePrefix(mode));
    var b := EncodeInt(FirstByte(mode), n, NamePrefix(mode))[0];
    match mode
    case WithIndexing => assert 0x40 < b < 0x80;
    case WithoutIndexing => assert 0 < b < 0x10;
    case NeverIndexing => assert 0x10 < b < 0x20;
  }

  /** The decoder once it knows that the name is entry idx. */
  function NameKnown(d: Decoder, mode: Mode, idx: nat): (r: Decoder)
    requires d.Decoder? && ValidIndex(d.tbl.entries, idx)
  {
    Decoder(d.tbl, d.settings, d.minMax, CheckLen(ValueStr(FlagsOf(mode), IndexedName(idx))))
  }

  lemma NameIndexDecodes(c: Codec, d: Decoder, mode: Mode, idx: nat, tail: Bytes)
    requires BetweenFields(d) && ValidIndex(d.tbl.entries, idx)
    requires Size(d.tbl.entries) <= d.tbl.max <= U32_MAX
    ensures Run(c, d, EncodeInt(FirstByte(mode), idx + 1, NamePrefix(mode)) + tail)
         == Run(c, NameKnown(d, mode, idx), tail)
  {
    var goal := LiteralGoal(FlagsOf(mode));
    LiteralStarts(c, d, mode, idx + 1);
    CountBound(d.tbl.entries);
    IntDecodes(c, d, goal, FirstByte(mode), idx + 1, tail);
    assert FinishInt(c, d, goal, idx + 1) == (NameKnown(d, mode, idx), []);
  }

  lemma IndexedNameDecodes(c: Codec, d: Decoder, mode: Mode, idx: nat, value: Bytes, rest: Bytes)
    requires Lawful(c) && BetweenFields(d) && ValidIndex(d.tbl.entries, idx)
    requires Size(d.tbl.entries) <= d.tbl.max <= U32_MAX
    ensures Run(c, d, EncodeInt(FirstByte(mode), idx + 1, NamePrefix(mode)) + EmitString(c, value) + rest) ==
            if WireLength(c, value) > MAX_NV then (Bad, [])
            else var done := Commit(c, d, FlagsOf(mode), IndexedName(idx), value);
                 Prepend(done.1, Run(c, done.0, rest))
  {
    var num, text := EncodeInt(FirstByte(mode), idx + 1, NamePrefix(mode)), EmitString(c, value);
    assert num + text + rest == num + (text + rest);
    NameIndexDecodes(c, d, mode, idx, text + rest);
    StringDecodes(c, NameKnown(d, mode, idx), ValueStr(FlagsOf(mode), IndexedName(idx)), value, rest);
    assert FinishStr(c, NameKnown(d, mode, idx), ValueStr(FlagsOf(mode), IndexedName(idx)), false, value)
        == Commit(c, d, FlagsOf(mode), IndexedName(idx), value);
  }

  lemma IndexedDecodes(c: Codec, d: Decoder, idx: nat, rest: Bytes)
    requires BetweenFields(d) && ValidIndex(d.tbl.entries, idx)
    requires Size(d.tbl.entries) <= d.tbl.max <= U32_MAX
    ensures var h := Lookup(c.st, d.tbl.entries, idx);
            Run(c, d, EmitIndexed(idx) + rest) ==
            Prepend([Field(h.name, h.value, false)], Run(c, Decoder(d.tbl, d.settings, d.minMax, Opcode), rest))
  {
    FirstByteOf(0x80, idx + 1, 7);
    CountBound(d.tbl.entries);
    IntDecodes(c, d, IndexedGoal, 0x80, idx + 1, rest);
  }

  lemma NewNameDecodes(c: Codec, d: Decoder, mode: Mode, h: Header, rest: Bytes)
    requires Lawful(c) && BetweenFields(d)
    ensures Run(c, d, [FirstByte(mode)] + EmitString(c, h.name) + EmitString(c, h.value) + rest) ==
            if WireLength(c, h.name) > MAX_NV || WireLength(c, h.value) > MAX_NV then (Bad, [])
            else var done := Commit(c, d, FlagsOf(mode), NewName(h.name), h.value);
                 Prepend(done.1, Run(c, done.0, rest))
  {
    var b: byte := FirstByte(mode);
    var tail := EmitString(c, h.value) + rest;
    var s := [b] + EmitString(c, h.name) + EmitString(c, h.value) + rest;
    var d1: Decoder := Decoder(d.tbl, d.settings, d.minMax, CheckLen(NameStr(FlagsOf(mode))));
    assert s == [b] + (EmitString(c, h.name) + tail);
    assert s[0] == b && s[1..] == EmitString(c, h.name) + tail;
    assert Step(c, d, b) == (d1, []);
    StringDecodes(c, d1, NameStr(FlagsOf(mode)), h.name, tail);
    if WireLength(c, h.name) <= MAX_NV {
      var d2: Decoder := Decoder(d.tbl, d.settings, d.minMax, CheckLen(ValueStr(FlagsOf(mode), NewName(h.name))));
      StringDecodes(c, d2, ValueStr(FlagsOf(mode), NewName(h.name)), h.value, rest);
    }
  }

  /** The outcome the receiver of one header's bytes must reach, with `rest` still to come. */
  function Received(c: Codec, d: Decoder, nv: Input, rest: Bytes): Outcome
    requires d.Decoder?
  {
    if !StringsFit(c, d.tbl, nv) then (Bad, [])
    else Prepend([Expected(c, d.tbl, nv)],
                 Run(c, Decoder(DeflateNv(c, d.tbl, nv).0, d.settings, d.minMax, Opcode), rest))
  }

  lemma NvIndexed(c: Codec, d: Decoder, nv: Input, rest: Bytes)
    requires BetweenFields(d) && Size(d.tbl.entries) <= d.tbl.max <= U32_MAX
    requires MatchOf(c, d.tbl, nv).ExactMatch?
    ensures Run(c, d, EmitIndexed(MatchOf(c, d.tbl, nv).index) + rest) == Received(c, d, nv, rest)
  {
    IndexedDecodes(c, d, MatchOf(c, d.tbl, nv).index, rest);
  }

  lemma NvIndexedName(c: Codec, d: Decoder, nv: Input, rest: Bytes)
    requires Lawful(c) && BetweenFields(d) && Size(d.tbl.entries) <= d.tbl.max <= U32_MAX
    requires MatchOf(c, d.tbl, nv).NameMatch?
    ensures Run(c, d, EmitLiteral(c, ModeOf(c.st, nv, d.tbl.max), MatchOf(c, d.tbl, nv), nv.hdr) + rest)
         == Received(c, d, nv, rest)
  {
    var idx := MatchOf(c, d.tbl, nv).index;
    IndexedNameDecodes(c, d, ModeOf(c.st, nv, d.tbl.max), idx, nv.hdr.value, rest);
  }

  lemma NvNewName(c: Codec, d: Decoder, nv: Input, rest: Bytes)
    requires Lawful(c) && BetweenFields(d) && Size(d.tbl.entries) <= d.tbl.max <= U32_MAX
    requires MatchOf(c, d.tbl, nv) == NoMatch
    ensures Run(c, d, EmitLiteral(c, ModeOf(c.st, nv, d.tbl.max), NoMatch, nv.hdr) + rest) == Received(c, d, nv, rest)
  {
    NewNameDecodes(c, d, ModeOf(c.st, nv, d.tbl.max), nv.hdr, rest);
  }

  /**
   * One header: it decodes to itself with NO_INDEX exactly when the encoder chose never-indexing and with equal
   * tables afterwards, also when its insertion evicts the entry that lent it its name; and it is rejected exactly
   * when it carries an over-long literal.
   */
  lemma NvRoundTrip(c: Codec, d: Decoder, nv: Input, rest: Bytes)
    requires Lawful(c) && BetweenFields(d)
    requires Size(d.tbl.entries) <= d.tbl.max <= U32_MAX
    ensures Run(c, d, DeflateNv(c, d.tbl, nv).1 + rest) == Received(c, d, nv, rest)
  {
    match MatchOf(c, d.tbl, nv)
    case ExactMatch(_) => NvIndexed(c, d, nv, rest);
    case NameMatch(_) => NvIndexedName(c, d, nv, rest);
    case NoMatch => NvNewName(c, d, nv, rest);
  }

  // ----- One block

  function AllExpected(c: Codec, tbl: Table, nva: seq<Input>): (r: seq<Field>)
    decreases |nva|
  {
    if nva == [] then [] else [Expected(c, tbl, nva[0])] + AllExpected(c, DeflateNv(c, tbl, nva[0]).0, nva[1..])
  }

  lemma {:induction false} AllRoundTrip(c: Codec, d: Decoder, nva: seq<Input>)
    requires Lawful(c) && BetweenFields(d)
    requires Size(d.tbl.entries) <= d.tbl.max <= U32_MAX
    ensures AllStringsFit(c, d.tbl, nva) ==>
              Run(c, d, DeflateAll(c, d.tbl, nva).1) ==
              (Decoder(DeflateAll(c, d.tbl, nva).0, d.settings, d.minMax, if nva == [] then d.phase else Opcode),
               AllExpected(c, d.tbl, nva))
    ensures !AllStringsFit(c, d.tbl, nva) ==> Run(c, d, DeflateAll(c, d.tbl, nva).1).0 == Bad
    decreases |nva|
  {
    if nva != [] {
      var one := DeflateNv(c, d.tbl, nva[0]);
      var d1: Decoder := Decoder(one.0, d.settings, d.minMax, Opcode);
      NvRoundTrip(c, d, nva[0], DeflateAll(c, one.0, nva[1..]).1);
      AllRoundTrip(c, d1, nva[1..]);
    }
  }

  lemma SizeUpdateDecodes(c: Codec, d: Decoder, n: nat, rest: Bytes)
    requires d.Decoder? && (d.phase == Start || d.phase == ExpectSize)
    requires n <= U32_MAX && n <= Min(d.minMax, d.settings)
    ensures Run(c, d, EmitTableSize(n) + rest) ==
            Run(c, Decoder(Shrink(d.tbl.entries, n), d.settings, U32_MAX, Start), rest)
  {
    FirstByteOf(0x20, n, 5);
    IntDecodes(c, d, SizeGoal, 0x20, n, rest);
  }

  // ----- The connection

  /** The smallest size the encoder has not announced yet. */
  function Pending(e: Encoder): nat {
    if e.notify then Min(e.minMax, e.tbl.max) else e.tbl.max
  }

  /** What holds between blocks: the decoder's table, cut to the unannounced minimum, is the encoder's. */
  predicate InStep(e: Encoder, d: Decoder) {
    && d.Decoder?
    && (d.phase == Start || d.phase == ExpectSize)
    && e.tbl.max <= U32_MAX && e.minMax <= U32_MAX
    && e.tbl.max <= d.settings
    && EvictFor(d.tbl.entries, 0, Pending(e)) == e.tbl.entries
    && Pending(e) <= d.minMax
    && (e.notify ==> e.minMax <= e.tbl.max || e.limit <= e.tbl.max)
    && (!e.notify ==> d.phase == Start && d.tbl == e.tbl && d.minMax == U32_MAX && e.minMax == U32_MAX)
  }

  lemma StartInStep(limit: nat)
    ensures InStep(InitEncoder(limit), InitDecoder())
  {
  }

  lemma ChangeKeepsStep(e: Encoder, d: Decoder, settings: nat)
    requires InStep(e, d) && settings <= U32_MAX
    ensures ChangeDecoder(d, settings).Some?
    ensures InStep(ChangeEncoder(e, settings), ChangeDecoder(d, settings).value)
  {
    var e1 := ChangeEncoder(e, settings);
    var d1 := ChangeDecoder(d, settings).value;
    var next := Min(settings, e.limit);
    if e.notify {
      EvictTwice(d.tbl.entries, Pending(e), next);
      assert Min(Pending(e), next) == Pending(e1);
    }
    EvictTwice(d.tbl.entries, settings, Pending(e1));
    assert e1.tbl.entries == EvictFor(d.tbl.entries, 0, Pending(e1));
    assert Min(settings, Pending(e1)) == Pending(e1);
  }

  lemma UpdatesDecode(c: Codec, e: Encoder, d: Decoder, rest: Bytes)
    requires InStep(e, d)
    ensures Run(c, d, SizeUpdates(e) + rest) == Run(c, Decoder(e.tbl, d.settings, U32_MAX, Start), rest)
  {
    if !e.notify {
      assert SizeUpdates(e) + rest == rest;
    } else if e.tbl.max > e.minMax {
      var d1: Decoder := Decoder(Shrink(d.tbl.entries, e.minMax), d.settings, U32_MAX, Start);
      assert SizeUpdates(e) + rest == EmitTableSize(e.minMax) + (EmitTableSize(e.tbl.max) + rest);
      SizeUpdateDecodes(c, d, e.minMax, EmitTableSize(e.tbl.max) + rest);
      SizeUpdateDecodes(c, d1, e.tbl.max, rest);
      assert EvictFor(e.tbl.entries, 0, e.tbl.max) == e.tbl.entries;
    } else {
      SizeUpdateDecodes(c, d, e.tbl.max, rest);
    }
  }

  /** A block leaves both tables equal and yields exactly the headers that went in, or is rejected. */
  lemma BlockRoundTrip(c: Codec, e: Encoder, d: Decoder, nva: seq<Input>)
    requires Lawful(c) && InStep(e, d)
    ensures var sent := DeflateBlock(c, e, nva);
            var got := InflateBlock(c, d, sent.1);
            if AllStringsFit(c, e.tbl, nva)
            then
              && got.1 == AllExpected(c, e.tbl, nva) && got.0.Decoder?
              && got.0.tbl == sent.0.tbl && InStep(sent.0, got.0)
            else got.0 == Bad
  {
    var sent := DeflateBlock(c, e, nva);
    var d1: Decoder := Decoder(e.tbl, d.settings, U32_MAX, Start);
    UpdatesDecode(c, e, d, DeflateAll(c, e.tbl, nva).1);
    AllRoundTrip(c, d1, nva);
  }

  /** One thing that happens on the connection, in the order both ends see it. */
  datatype Event = SettingsChange(value: nat) | HeaderBlock(nva: seq<Input>)

  /** Every block so far decodes to what was sent, with equal tables after it. */
  predicate Faithful(c: Codec, e: Encoder, d: Decoder, events: seq<Event>)
    decreases |events|
  {
    events == [] ||
    match events[0]
    case SettingsChange(v) =>
      && d.Decoder?
      && ChangeDecoder(d, v).Some?
      && Faithful(c, ChangeEncoder(e, v), ChangeDecoder(d, v).value, events[1..])
    case HeaderBlock(nva) =>
      var sent := DeflateBlock(c, e, nva);
      var got := InflateBlock(c, d, sent.1);
      && got.1 == AllExpected(c, e.tbl, nva)
      && got.0.Decoder?
      && got.0.tbl == sent.0.tbl
      && Faithful(c, sent.0, got.0, events[1..])
  }

  /** No block carries an over-long literal. */
  predicate EventsFit(c: Codec, e: Encoder, events: seq<Event>)
    decreases |events|
  {
    events == [] ||
    match events[0]
    case SettingsChange(v) => EventsFit(c, ChangeEncoder(e, v), events[1..])
    case HeaderBlock(nva) => AllStringsFit(c, e.tbl, nva) && EventsFit(c, DeflateBlock(c, e, nva).0, events[1..])
  }

  lemma {:induction false} StaysFaithful(c: Codec, e: Encoder, d: Decoder, events: seq<Event>)
    requires Lawful(c) && InStep(e, d)
    requires forall v: nat :: SettingsChange(v) in events ==> v <= U32_MAX
    ensures Faithful(c, e, d, events) <==> EventsFit(c, e, events)
    decreases |events|
  {
    if events != [] {
      match events[0]
      case SettingsChange(v) =>
        assert SettingsChange(v) in events;
        ChangeKeepsStep(e, d, v);
        StaysFaithful(c, ChangeEncoder(e, v), ChangeDecoder(d, v).value, events[1..]);
      case HeaderBlock(nva) =>
        BlockRoundTrip(c, e, d, nva);
        var sent := DeflateBlock(c, e, nva);
        var got := InflateBlock(c, d, sent.1);
        if AllStringsFit(c, e.tbl, nva) {
          StaysFaithful(c, sent.0, got.0, events[1..]);
        }
    }
  }

  /**
   * The whole connection: with any encoder limit, any blocks and any table-size changes, every block decodes to
   * what was sent and the tables agree after it, if and only if no literal exceeds the decoder's string limit.
   */
  lemma ConnectionRoundTrip(c: Codec, limit: nat, events: seq<Event>)
    requires Lawful(c)
    requires forall v: nat :: SettingsChange(v) in events ==> v <= U32_MAX
    ensures Faithful(c, InitEncoder(limit), InitDecoder(), events) <==> EventsFit(c, InitEncoder(limit), events)
  {
    StartInStep(limit);
    StaysFaithful(c, InitEncoder(limit), InitDecoder(), events);
  }

  /** The condition can fail: a value that may not be indexed and is over the limit on the wire is sent and refused. */
  lemma LongValueIsRefused(c: Codec, limit: nat, h: Header)
    requires Lawful(c) && WireLength(c, h.value) > MAX_NV
    ensures !Faithful(c, InitEncoder(limit), InitDecoder(), [HeaderBlock([Input(h, true)])])
  {
    var e, nv := InitEncoder(limit), Input(h, true);
    ConnectionRoundTrip(c, limit, [HeaderBlock([nv])]);
    assert !StringsFit(c, e.tbl, nv);
    assert !AllStringsFit(c, e.tbl, [nv]);
    assert !EventsFit(c, e, [HeaderBlock([nv])]);
  }

  /** Such as 65537 zeroes, under the code that leaves strings as they are. */
  lemma ZeroesAreRefused(st: Statics, limit: nat)
    ensures var long := Input(Header([], seq(65537, _ => 0)), true);
            !Faithful(Identity(st), InitEncoder(limit), InitDecoder(), [HeaderBlock([long])])
  {
    LongValueIsRefused(Identity(st), limit, Header([], seq(65537, _ => 0)));
  }

  // ----- Collapsing repeated SETTINGS_HEADER_TABLE_SIZE entries

  function ChangeEncoderAll(e: Encoder, sizes: seq<nat>): (r: Encoder) {
    if sizes == [] then e else ChangeEncoder(ChangeEncoderAll(e, sizes[..|sizes| - 1]), sizes[|sizes| - 1])
  }

  /** What `session_process_settings_frame` leaves of repeated entries: the minimum first, unless it is the last. */
  function Collapse(sizes: seq<nat>): (r: seq<nat>)
    requires sizes != []
  {
    var m, last := MinOf(sizes), sizes[|sizes| - 1];
    if m != last then [m, last] else [last]
  }

  lemma {:induction false} EncoderAllIsMinThenLast(e: Encoder, sizes: seq<nat>)
    requires sizes != []
    ensures ChangeEncoderAll(e, sizes) ==
            Encoder(Table(EvictFor(e.tbl.entries, 0, Min(MinOf(sizes), e.limit)), Min(sizes[|sizes| - 1], e.limit)),
                    e.limit, Min(e.minMax, Min(MinOf(sizes), e.limit)), true)
  {
    var init, last := sizes[..|sizes| - 1], sizes[|sizes| - 1];
    if init == [] {
      assert ChangeEncoderAll(e, init) == e;
    } else {
      EncoderAllIsMinThenLast(e, init);
      EvictTwice(e.tbl.entries, Min(MinOf(init), e.limit), Min(last, e.limit));
    }
  }

  lemma CollapseFacts(sizes: seq<nat>)
    requires sizes != []
    ensures var r := Collapse(sizes); r != [] && MinOf(r) == MinOf(sizes) && r[|r| - 1] == sizes[|sizes| - 1]
  {
    var r := Collapse(sizes);
    if |r| == 2 {
      assert r[..1] == [r[0]];
      assert MinOf(r[..1]) == r[0];
    }
  }

  /** The deflater cannot tell the collapsed list from the whole one. */
  lemma EncoderCollapse(e: Encoder, sizes: seq<nat>)
    requires sizes != []
    ensures ChangeEncoderAll(e, Collapse(sizes)) == ChangeEncoderAll(e, sizes)
  {
    CollapseFacts(sizes);
    EncoderAllIsMinThenLast(e, sizes);
    EncoderAllIsMinThenLast(e, Collapse(sizes));
  }

  function ChangeDecoderAll(d: Decoder, sizes: seq<nat>): (r: Decoder)
    requires d.Decoder? && (d.phase == Start || d.phase == ExpectSize)
    ensures r.Decoder? && (r.phase == Start || r.phase == ExpectSize)
  {
    if sizes == [] then d else ChangeDecoder(ChangeDecoderAll(d, sizes[..|sizes| - 1]), sizes[|sizes| - 1]).value
  }

  lemma {:induction false} DecoderAllIsMinThenLast(d: Decoder, sizes: seq<nat>)
    requires sizes != []
    requires d.Decoder? && (d.phase == Start || d.phase == ExpectSize)
    ensures ChangeDecoderAll(d, sizes) ==
            var m, last := MinOf(sizes), sizes[|sizes| - 1];
            if d.tbl.max > m then Decoder(Shrink(d.tbl.entries, m), last, m, ExpectSize)
            else Decoder(d.tbl, last, d.minMax, d.phase)
  {
    var init, last := sizes[..|sizes| - 1], sizes[|sizes| - 1];
    if init == [] {
      assert ChangeDecoderAll(d, init) == d;
    } else {
      DecoderAllIsMinThenLast(d, init);
      EvictTwice(d.tbl.entries, MinOf(init), last);
    }
  }

  /** Nor can the inflater, to which `nghttp2_session_update_local_settings` applies the same pair. */
  lemma DecoderCollapse(d: Decoder, sizes: seq<nat>)
    requires sizes != []
    requires d.Decoder? && (d.phase == Start || d.phase == ExpectSize)
    ensures ChangeDecoderAll(d, Collapse(sizes)) == ChangeDecoderAll(d, sizes)
  {
    CollapseFacts(sizes);
    DecoderAllIsMinThenLast(d, sizes);
    DecoderAllIsMinThenLast(d, Collapse(sizes));
  }
}
