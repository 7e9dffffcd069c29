/**
 * What the decoder refuses, and what it makes of everything else: an index, a size update and a string, each exactly.
 * HpackConnection is about what the encoder sends; a peer may send anything.
 */
module HpackRejects {
  import opened Bytes
  import opened Huffman
  import opened HeaderTable
  import opened IntegerCodec
  import opened HpackEncoder
  import opened HpackDecoder
  import opened HpackConnection

  /** The decoder after something that it cannot accept, whatever comes then. */
  const REFUSED: Outcome := (Bad, [])

  /** Index n counts from 1, the static table first; 0 and indices behind the dynamic table are refused. */
  lemma IndexIsChecked(c: Codec, d: Decoder, n: nat, rest: Bytes)
    requires BetweenFields(d) && Size(d.tbl.entries) <= d.tbl.max <= U32_MAX
    ensures Run(c, d, EncodeInt(0x80, n, 7) + rest) ==
            if n == 0 || n > 61 + |d.tbl.entries| then REFUSED
            else
              var h := if n <= 61 then c.st.table[n - 1] else d.tbl.entries[n - 62];
              Prepend([Field(h.name, h.value, false)], Run(c, d.(phase := Opcode), rest))
  {
    if 0 < n <= 61 + |d.tbl.entries| {
      assert EmitIndexed(n - 1) == EncodeInt(0x80, n, 7);
      IndexedDecodes(c, d, n - 1, rest);
    } else {
      IndexIsRefused(c, d, n, rest);
    }
  }

  lemma IndexIsRefused(c: Codec, d: Decoder, n: nat, rest: Bytes)
    requires BetweenFields(d) && (n == 0 || n > 61 + |d.tbl.entries|)
    ensures Run(c, d, EncodeInt(0x80, n, 7) + rest) == REFUSED
  {
    FirstByteOf(0x80, n, 7);
    IntDecodes(c, d, IndexedGoal, 0x80, n, rest);
    RunBad(c, rest);
  }

  /** A size update is accepted at the start of a block, up to the size that was announced to the peer. */
  lemma SizeIsChecked(c: Codec, d: Decoder, n: nat, rest: Bytes)
    requires d.Decoder? && (d.phase == Start || d.phase == ExpectSize || d.phase == Opcode)
    requires d.settings <= U32_MAX
    ensures Run(c, d, EncodeInt(0x20, n, 5) + rest) ==
            if d.phase == Opcode || n > d.settings || n > d.minMax then REFUSED
            else Run(c, Decoder(Shrink(d.tbl.entries, n), d.settings, U32_MAX, Start), rest)
  {
    FirstByteOf(0x20, n, 5);
    RunBad(c, rest);
    if d.phase == Opcode {
      var s := EncodeInt(0x20, n, 5) + rest;
      assert Step(c, d, s[0]) == REFUSED;
      RunBad(c, s[1..]);
    } else {
      IntDecodes(c, d, SizeGoal, 0x20, n, rest);
    }
  }

  /** Once the announced size was lowered below that of the table, a block must start with a size update. */
  lemma SizeIsDemanded(c: Codec, d: Decoder, settings: nat, b: byte, rest: Bytes)
    requires d.Decoder? && (d.phase == Start || d.phase == ExpectSize) && settings < d.tbl.max && !(32 <= b < 64)
    ensures var d' := ChangeDecoder(d, settings);
            && d'.Some? && Run(c, d'.value, [b] + rest) == REFUSED && EndBlock(d'.value) == Bad
            && d'.value.tbl.max == settings && d'.value.tbl.entries <= d.tbl.entries
  {
    var d' := ChangeDecoder(d, settings).value;
    assert ([b] + rest)[0] == b && ([b] + rest)[1..] == rest;
    assert Step(c, d', b) == REFUSED;
    RunBad(c, rest);
  }

  /** The name of a literal by its index. */
  lemma NameIndexIsChecked(c: Codec, d: Decoder, mode: Mode, n: nat, rest: Bytes)
    requires BetweenFields(d) && n > 61 + |d.tbl.entries|
    ensures Run(c, d, EncodeInt(FirstByte(mode), n, NamePrefix(mode)) + rest) == REFUSED
  {
    LiteralStarts(c, d, mode, n);
    IntDecodes(c, d, LiteralGoal(FlagsOf(mode)), FirstByte(mode), n, rest);
    RunBad(c, rest);
  }

  /** A string that is too long, or that the Huffman code does not know. */
  lemma StringIsChecked(c: Codec, d: Decoder, str: Str, wire: Bytes, huffman: bool, rest: Bytes)
    requires Lawful(c) && d.Decoder? && ValidStr(d.tbl.entries, str) && d.phase == CheckLen(str)
    requires wire != [] && (|wire| > 65536 || (huffman && c.decode(wire) == None))
    ensures Run(c, d, EncodeInt(if huffman then 0x80 else 0, |wire|, 7) + (wire + rest)) == REFUSED
  {
    LengthDecodes(c, d, str, huffman, |wire|, wire + rest);
    if |wire| <= MAX_NV {
      TextDecodes(c, d, str, huffman, wire, rest);
      RunBad(c, rest);
    }
  }

  /** A block may not end inside a representation, nor before a size update that is due. */
  lemma EndIsChecked(d: Decoder)
    ensures EndBlock(d) != Bad <==> d.Decoder? && (d.phase == Start || d.phase == Opcode)
    ensures EndBlock(d) != Bad ==> EndBlock(d) == d.(phase := Start)
  {
  }
}
