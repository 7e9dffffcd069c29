/**
 * `nghttp2_hd_inflater` in place: the 13-state machine of `nghttp2_hd_inflate_hd_nv`, proved to decode every
 * block as HpackDecoder does, in whatever pieces the block arrives.
 */
module HpackInflater {
  import opened Bytes
  import opened Huffman
  import opened HeaderTable
  import opened IntegerCodec
  import opened HpackContext
  import opened HpackBulk
  import opened D = HpackDecoder

  datatype State =
    | ExpectTableSize | InflateStart | InOpcode | ReadTableSize | ReadIndex
    | NewnameCheckNamelen | NewnameReadNamelen | NewnameReadNamehuff | NewnameReadName
    | CheckValuelen | ReadValuelen | ReadValuehuff | ReadValue

  datatype Op = OpNone | OpIndexed | OpNewname | OpIndname

  class Inflater {
    const c: Codec
    const ctx: HdContext
    var bad: bool
    var settings: nat
    var minMax: nat
    var state: State
    var opcode: Op
    var left: nat
    var shift: nat
    var index: nat
    var huffmanEncoded: bool
    var indexRequired: bool
    var noIndex: bool
    var namebuf: Bytes
    var valuebuf: Bytes
    // bytes fed to the Huffman context since its last initialisation
    var huffed: Bytes

    ghost function Flagged(): Flags
      reads this
    {
      Flags(indexRequired, noIndex)
    }

    ghost function NameOf(): Name
      reads this
    {
      if opcode == OpNewname then NewName(namebuf) else IndexedName(index)
    }

    ghost function IndexGoal(): Goal
      reads this
    {
      if opcode == OpIndexed then IndexedGoal else LiteralGoal(Flagged())
    }

    /** The fields in the decoder's own terms. */
    ghost function PhaseOf(): Phase
      reads this
    {
      match state
      case ExpectTableSize => ExpectSize
      case InflateStart => Start
      case InOpcode => Opcode
      case ReadTableSize => ReadInt(SizeGoal, left, shift)
      case ReadIndex => ReadInt(IndexGoal(), left, shift)
      case NewnameCheckNamelen => CheckLen(NameStr(Flagged()))
      case NewnameReadNamelen => ReadInt(LengthGoal(NameStr(Flagged()), huffmanEncoded), left, shift)
      case NewnameReadNamehuff => ReadStr(NameStr(Flagged()), true, left, huffed)
      case NewnameReadName => ReadStr(NameStr(Flagged()), false, left, namebuf)
      case CheckValuelen => CheckLen(ValueStr(Flagged(), NameOf()))
      case ReadValuelen => ReadInt(LengthGoal(ValueStr(Flagged(), NameOf()), huffmanEncoded), left, shift)
      case ReadValuehuff => ReadStr(ValueStr(Flagged(), NameOf()), true, left, huffed)
      case ReadValue => ReadStr(ValueStr(Flagged(), NameOf()), false, left, valuebuf)
    }

    /** In the middle of a name of its own. */
    predicate ReadsName()
      reads this
    {
      state.NewnameCheckNamelen? || state.NewnameReadNamelen? || state.NewnameReadNamehuff? || state.NewnameReadName?
    }

    /** The opcode that goes with the state. */
    ghost predicate Shaped()
      reads this
    {
      && (state == ReadIndex ==> opcode == OpIndexed || opcode == OpIndname)
      && (ReadsName() ==> opcode == OpNewname)
    }

    ghost function Raw(): RawDecoder
      reads this, ctx, ctx.ring
    {
      if bad then Bad else Decoder(ctx.Tbl(), settings, minMax, PhaseOf())
    }

    ghost predicate Sound()
      reads this, ctx, ctx.ring, ctx.ring.buffer
    {
      ctx.Valid() && ctx.st == c.st && settings <= U32_MAX
    }

    ghost predicate Valid()
      reads this, ctx, ctx.ring, ctx.ring.buffer
    {
      Sound() && (!bad ==> Shaped()) && D.Valid(Raw()) && Healthy(c, Raw())
    }

    /** The decoder this object implements. */
    ghost function Value(): Decoder
      requires D.Valid(Raw())
      reads this, ctx, ctx.ring
    {
      Raw()
    }

    /** d has this object's table and limits, whatever its phase. */
    ghost predicate Like(d: Decoder)
      reads this, ctx, ctx.ring
    {
      d.Decoder? && d.tbl == ctx.Tbl() && d.settings == settings && d.minMax == minMax
    }

    /** The outcome of a turn, read off the object. */
    ghost function ResultOf(turn: Turn, used: nat): (Turn, RawDecoder, nat)
      reads this, ctx, ctx.ring
    {
      if turn == Fail then FAILED else (turn, Raw(), used)
    }

    /** `nghttp2_hd_inflate_init`. */
    constructor (c: Codec)
      ensures Valid() && Value() == InitDecoder() && this.c == c
      ensures fresh(ctx) && fresh(ctx.ring) && fresh(ctx.ring.buffer)
    {
      this.c := c;
      ctx := new HdContext(c.st);
      bad, settings, minMax, state, opcode := false, DEFAULT_TABLE_SIZE, U32_MAX, InflateStart, OpNone;
      left, shift, index, huffmanEncoded, indexRequired, noIndex := 0, 0, 0, false, false, false;
      namebuf, valuebuf, huffed := [], [], [];
    }

    /** `nghttp2_hd_inflate_change_table_size`; false is NGHTTP2_ERR_INVALID_STATE. */
    method ChangeTableSize(settingsMax: nat) returns (ok: bool)
      requires Valid() && !bad && settingsMax <= U32_MAX
      modifies this, ctx, ctx.ring
      ensures Valid() && !bad
      ensures ok <==> ChangeDecoder(old(Value()), settingsMax).Some?
      ensures ok ==> Value() == ChangeDecoder(old(Value()), settingsMax).value
      ensures !ok ==> Value() == old(Value())
    {
      if state != ExpectTableSize && state != InflateStart {
        return false;
      }
      settings := settingsMax;
      if ctx.max > settingsMax {
        state := ExpectTableSize;
        minMax := settingsMax;
        ctx.max := settingsMax;
        ctx.ShrinkTable(null);
      }
      ok := true;
    }

    /** `hd_inflate_read_len`: one bulk read of the integer in progress, then the cap check. */
    method ReadLen(input: Bytes, pos: nat, last: nat, prefix: nat, maxlen: nat) returns (rv: int, rfin: bool)
      requires 4 <= prefix <= 7 && pos < last <= |input|
      requires left <= U32_MAX && (left == 0 ==> shift == 0)
      modifies this`left, this`shift
      ensures match CappedInt(old(left), old(shift), input[pos..last], prefix, maxlen)
              case IntError => rv < 0
              case IntPartial(n, sh) => rv == last - pos && !rfin && left == n && shift == sh
              case IntDone(n, used) => rv == used && rfin && left == n
    {
      var out, shiftOut;
      rv, out, shiftOut, rfin := DecodeLength(left, shift, input, pos, last, prefix);
      shift := shiftOut;
      if rv == -1 || out > maxlen {
        return -1, false;
      }
      left := out;
    }

    /** States EXPECT_TABLE_SIZE, INFLATE_START and OPCODE: classify the representation byte. */
    method TurnOpcode(b: byte, ghost d: Decoder) returns (turn: Turn, used: nat)
      requires Sound() && !bad && (state.ExpectTableSize? || state.InflateStart? || state.InOpcode?) && d == Raw()
      modifies this
      ensures Sound() && Shaped() && !bad && ResultOf(turn, used) == BulkOpcode(d, b)
    {
      used := 0;
      if state == ExpectTableSize && !(32 <= b < 64) {
        return Fail, 0;
      }
      if 32 <= b < 64 {
        if state == InOpcode {
          return Fail, 0;
        }
        opcode, state := OpIndexed, ReadTableSize;
      } else if b >= 128 {
        opcode, state := OpIndexed, ReadIndex;
      } else {
        used := StartLiteral(b);
      }
      left, shift := 0, 0;
      turn := Continue;
    }

    /** The opcode of a literal; a new name's first byte has been read with it. */
    method StartLiteral(b: byte) returns (used: nat)
      requires b < 32 || 64 <= b < 128
      modifies this`opcode, this`state, this`indexRequired, this`noIndex
      ensures Flagged() == LiteralFlags(b)
      ensures if b == 0x40 || b == 0 || b == 0x10
              then used == 1 && opcode == OpNewname && state == NewnameCheckNamelen
              else used == 0 && opcode == OpIndname && state == ReadIndex
    {
      used := 0;
      if b == 0x40 || b == 0 || b == 0x10 {
        opcode, state, used := OpNewname, NewnameCheckNamelen, 1;
      } else {
        opcode, state := OpIndname, ReadIndex;
      }
      indexRequired := b % 128 >= 64;
      noIndex := 16 <= b < 32;
    }

    /** State READ_TABLE_SIZE. */
    method TurnTableSize(input: Bytes, pos: nat, last: nat, ghost d: Decoder, ghost s: Bytes)
      returns (turn: Turn, used: nat)
      requires Sound() && !bad && state == ReadTableSize && pos < last <= |input| && s == input[pos..last]
      requires Like(d) && left <= U32_MAX && (left == 0 ==> shift == 0)
      modifies this, ctx`max, ctx`bufsize, ctx.ring`len, ctx.ring`contents
      ensures Sound() && Shaped() && !bad && ResultOf(turn, used) == BulkInt(c, d, SizeGoal, old(left), old(shift), s)
    {
      PartialIsPositive(left, shift, s, 5);
      var rv, rfin := ReadLen(input, pos, last, 5, Min(minMax, settings));
      if rv < 0 {
        return Fail, 0;
      }
      used := rv;
      if !rfin {
        return AlmostOk, used;
      }
      minMax := U32_MAX;
      ctx.max := left;
      ctx.ShrinkTable(null);
      state := InflateStart;
      turn := Continue;
    }

    /** State READ_INDEX. */
    method TurnIndex(input: Bytes, pos: nat, last: nat, ghost d: Decoder, ghost s: Bytes)
      returns (turn: Turn, used: nat)
      requires Sound() && Shaped() && !bad && state == ReadIndex && pos < last <= |input| && s == input[pos..last]
      requires Like(d) && left <= U32_MAX && (left == 0 ==> shift == 0)
      modifies this
      ensures Sound() && Shaped() && !bad
      ensures ResultOf(turn, used) == BulkInt(c, d, old(IndexGoal()), old(left), old(shift), s)
    {
      var prefixlen := if opcode == OpIndexed then 7 else if indexRequired then 6 else 4;
      PartialIsPositive(left, shift, s, prefixlen);
      var rv, rfin := ReadLen(input, pos, last, prefixlen, ctx.ring.len + STATIC_LENGTH);
      if rv < 0 {
        return Fail, 0;
      }
      used := rv;
      if !rfin {
        return AlmostOk, used;
      }
      turn := FinishIndex(used, d);
    }

    method FinishIndex(used: nat, ghost d: Decoder) returns (turn: Turn)
      requires Sound() && Shaped() && !bad && state == ReadIndex && left <= ctx.ring.len + STATIC_LENGTH
      requires Like(d)
      modifies this`index, this`state
      ensures Sound() && Shaped() && ResultOf(turn, used) == Finished(FinishInt(c, d, old(IndexGoal()), left), used)
    {
      if left == 0 {
        return Fail;
      }
      index := left - 1;
      if opcode == OpIndexed {
        var h := TableGet(index);
        state := InOpcode;
        turn := Emit(Field(h.name, h.value, false));
      } else {
        state := CheckValuelen;
        turn := Continue;
      }
    }

    /** `nghttp2_hd_table_get`. */
    method TableGet(idx: nat) returns (h: Header)
      requires Sound() && ValidIndex(ctx.Tbl().entries, idx)
      ensures h == Lookup(c.st, ctx.Tbl().entries, idx)
    {
      if idx >= STATIC_LENGTH {
        var e := ctx.ring.Get(idx - STATIC_LENGTH);
        h := e.hdr;
      } else {
        h := c.st.table[idx];
      }
    }

    /** States NEWNAME_CHECK_NAMELEN and CHECK_VALUELEN, which fall through to the length proper. */
    method BeginLength(b: byte)
      requires Sound() && Shaped() && (state.NewnameCheckNamelen? || state.CheckValuelen?)
      modifies this`huffmanEncoded, this`state, this`left, this`shift
      ensures Sound() && Shaped()
      ensures state == if old(state) == NewnameCheckNamelen then NewnameReadNamelen else ReadValuelen
      ensures PhaseOf() == ReadInt(LengthGoal(old(PhaseOf()).str, b >= 128), 0, 0)
    {
      huffmanEncoded := b >= 128;
      state := if state == NewnameCheckNamelen then NewnameReadNamelen else ReadValuelen;
      left, shift := 0, 0;
    }

    /** State NEWNAME_READ_NAMELEN. */
    method TurnNameLen(input: Bytes, pos: nat, last: nat, ghost d: Decoder, ghost goal: Goal, ghost s: Bytes)
      returns (turn: Turn, used: nat)
      requires Sound() && Shaped() && !bad && state == NewnameReadNamelen && pos < last <= |input|
      requires s == input[pos..last]
      requires Like(d) && left <= U32_MAX && (left == 0 ==> shift == 0)
      requires goal == PhaseOf().goal && ValidStr(d.tbl.entries, goal.str)
      modifies this
      ensures Sound() && Shaped() && !bad && ResultOf(turn, used) == BulkInt(c, d, goal, old(left), old(shift), s)
    {
      PartialIsPositive(left, shift, s, 7);
      var rv, rfin := ReadLen(input, pos, last, 7, MAX_NV);
      if rv < 0 {
        return Fail, 0;
      }
      used := rv;
      if !rfin {
        return AlmostOk, used;
      }
      StartName();
      turn := Continue;
    }

    /** The length of a new name is known. */
    method StartName()
      requires state == NewnameReadNamelen && Shaped()
      modifies this`huffed, this`namebuf, this`state
      ensures Shaped() && (state == NewnameReadNamehuff || state == NewnameReadName)
      ensures var goal := old(PhaseOf()).goal; PhaseOf() == ReadStr(goal.str, goal.huffman, left, [])
    {
      if huffmanEncoded {
        huffed, state := [], NewnameReadNamehuff;
      } else {
        namebuf, state := [], NewnameReadName;
      }
    }

    /** `hd_inflate_read_huff`. */
    method ReadHuff(input: Bytes, pos: nat, last: nat, ghost s: Bytes) returns (rv: int)
      requires pos <= last <= |input| && s == input[pos..last]
      modifies this`huffed, this`left
      ensures if |s| < old(left) then
                if c.failed(old(huffed) + s) then rv < 0
                else rv == |s| && huffed == old(huffed) + s && left == old(left) - |s|
              else
                var all := old(huffed) + s[..old(left)];
                if c.failed(all) || c.decode(all) == None then rv < 0
                else rv == old(left) && huffed == all && left == 0
    {
      var readlen, fin := last - pos, false;
      if readlen >= left {
        readlen, fin := left, true;
      }
      assert input[pos..pos + readlen] == s[..readlen];
      assert readlen == |s| ==> s[..readlen] == s;
      huffed := huffed + input[pos..pos + readlen];
      if fin && c.decode(huffed) == None {
        return -1;
      }
      if c.failed(huffed) {
        return -1;
      }
      left := left - readlen;
      rv := readlen;
    }

    /** States NEWNAME_READ_NAME and NEWNAME_READ_NAMEHUFF. */
    method TurnName(input: Bytes, pos: nat, last: nat, ghost d: Decoder, ghost p: Phase, ghost s: Bytes)
      returns (turn: Turn, used: nat)
      requires Sound() && Shaped() && !bad && (state.NewnameReadName? || state.NewnameReadNamehuff?)
      requires pos <= last <= |input|
      requires s == input[pos..last] && Like(d) && p == PhaseOf()
      modifies this
      ensures Sound() && Shaped() && !bad && ResultOf(turn, used) == BulkStr(c, d, p.str, p.huffman, p.left, p.got, s)
    {
      if state == NewnameReadNamehuff {
        var rv := ReadHuff(input, pos, last, s);
        if rv < 0 {
          return Fail, 0;
        }
        used := rv;
        if left > 0 {
          return AlmostOk, used;
        }
        namebuf := c.decode(huffed).value;
      } else {
        used := Min(last - pos, left);
        namebuf := namebuf + input[pos..pos + used];
        assert input[pos..pos + used] == s[..used];
        left := left - used;
        if left > 0 {
          assert s[..used] == s;
          return AlmostOk, used;
        }
      }
      state := CheckValuelen;
      turn := Continue;
    }

    /** `hd_inflate_commit_newname` and `hd_inflate_commit_indname`. */
    method CommitValue(text: Bytes, ghost d: Decoder) returns (f: Field)
      requires Sound() && !bad && ValidStr(ctx.Tbl().entries, ValueStr(Flagged(), NameOf()))
      requires Like(d)
      modifies this`state, ctx, ctx.ring, ctx.ring.buffer
      ensures Sound() && state == InOpcode && (ctx.ring.buffer == old(ctx.ring.buffer) || fresh(ctx.ring.buffer))
      ensures (Raw(), [f]) == Commit(c, d, Flagged(), NameOf(), text)
    {
      var name := namebuf;
      if opcode != OpNewname {
        var h := TableGet(index);
        name := h.name;
      }
      if indexRequired {
        ctx.AddIncremental(Header(name, text), null, 0);
      }
      f := Field(name, text, noIndex);
      state := InOpcode;
    }

    /** `hd_inflate_read` into the value. */
    method ReadPlain(input: Bytes, pos: nat, last: nat, ghost s: Bytes) returns (used: nat)
      requires pos <= last <= |input| && s == input[pos..last]
      modifies this`valuebuf, this`left
      ensures if |s| < old(left) then used == |s| && valuebuf == old(valuebuf) + s && left == old(left) - |s|
              else used == old(left) && valuebuf == old(valuebuf) + s[..used] && left == 0
    {
      used := Min(last - pos, left);
      valuebuf := valuebuf + input[pos..pos + used];
      assert input[pos..pos + used] == s[..used] && s[..|s|] == s;
      left := left - used;
    }

    /** The value as far as it is there; Continue means that all of it is in valuebuf. */
    method ReadText(input: Bytes, pos: nat, last: nat, ghost d: Decoder, ghost p: Phase, ghost s: Bytes)
      returns (turn: Turn, used: nat)
      requires Sound() && !bad && (state.ReadValue? || state.ReadValuehuff?) && pos <= last <= |input|
      requires s == input[pos..last] && Like(d) && p == PhaseOf() && ValidStr(d.tbl.entries, p.str)
      modifies this`huffed, this`valuebuf, this`left
      ensures turn == Fail || turn == AlmostOk || turn == Continue
      ensures turn != Continue ==> ResultOf(turn, used) == BulkStr(c, d, p.str, p.huffman, p.left, p.got, s)
      ensures turn == Continue ==>
                var all := if p.left <= |s| then p.got + s[..p.left] else [];
                && used == p.left <= |s| && !(p.huffman && c.failed(all))
                && Some(valuebuf) == (if p.huffman then c.decode(all) else Some(all))
    {
      if state == ReadValuehuff {
        var rv := ReadHuff(input, pos, last, s);
        if rv < 0 {
          return Fail, 0;
        }
        used := rv;
        if left > 0 {
          return AlmostOk, used;
        }
        valuebuf := c.decode(huffed).value;
      } else {
        used := ReadPlain(input, pos, last, s);
        if left > 0 {
          return AlmostOk, used;
        }
      }
      turn := Continue;
    }

    /** States READ_VALUE and READ_VALUEHUFF. */
    method TurnValue(input: Bytes, pos: nat, last: nat, ghost d: Decoder, ghost p: Phase, ghost s: Bytes)
      returns (turn: Turn, used: nat)
      requires Sound() && !bad && (state.ReadValue? || state.ReadValuehuff?) && pos <= last <= |input|
      requires s == input[pos..last]
      requires Like(d) && p == PhaseOf()
      requires ValidStr(d.tbl.entries, p.str)
      modifies this, ctx, ctx.ring, ctx.ring.buffer
      ensures Sound() && !bad && (ctx.ring.buffer == old(ctx.ring.buffer) || fresh(ctx.ring.buffer))
      ensures ResultOf(turn, used) == BulkStr(c, d, p.str, p.huffman, p.left, p.got, s)
      ensures turn == Fail || state == InOpcode || state == old(state)
    {
      turn, used := ReadText(input, pos, last, d, p, s);
      if turn != Continue {
        return;
      }
      var f := CommitValue(valuebuf, d);
      turn := Emit(f);
    }

    /** State READ_VALUELEN proper; Continue means that the length is complete. */
    method ReadValueLength(input: Bytes, pos: nat, last: nat, ghost d: Decoder, ghost goal: Goal, ghost s: Bytes)
      returns (turn: Turn, used: nat)
      requires Sound() && !bad && state == ReadValuelen && pos < last <= |input| && s == input[pos..last]
      requires Like(d) && left <= U32_MAX && (left == 0 ==> shift == 0)
      requires goal == PhaseOf().goal && ValidStr(d.tbl.entries, goal.str)
      modifies this`left, this`shift, this`huffed, this`valuebuf, this`state
      ensures turn != Continue ==>
                state == ReadValuelen && ResultOf(turn, used) == BulkInt(c, d, goal, old(left), old(shift), s)
      ensures turn == Continue ==>
                && used <= |s| && (state == ReadValuehuff || state == ReadValue)
                && CappedInt(old(left), old(shift), s, 7, MAX_NV) == IntDone(left, used)
                && PhaseOf() == ReadStr(goal.str, goal.huffman, left, [])
    {
      PartialIsPositive(left, shift, s, 7);
      var rv, rfin := ReadLen(input, pos, last, 7, MAX_NV);
      if rv < 0 {
        return Fail, 0;
      }
      used := rv;
      if !rfin {
        return AlmostOk, used;
      }
      StartValue();
      turn := Continue;
    }

    /** The length of the value is known. */
    method StartValue()
      requires state == ReadValuelen
      modifies this`huffed, this`valuebuf, this`state
      ensures state == ReadValuehuff || state == ReadValue
      ensures var goal := old(PhaseOf()).goal; PhaseOf() == ReadStr(goal.str, goal.huffman, left, [])
    {
      if huffmanEncoded {
        huffed, state := [], ReadValuehuff;
      } else {
        valuebuf, state := [], ReadValue;
      }
    }

    /** The value follows its length, which took `before` bytes: the two together are one turn. */
    method FollowWithValue(input: Bytes, pos: nat, last: nat, before: nat, ghost d: Decoder, ghost p: Phase,
                           ghost s: Bytes, ghost whole: Result)
      returns (turn: Turn, used: nat)
      requires Sound() && !bad && (state == ReadValuehuff || state == ReadValue) && pos <= last <= |input|
      requires s == input[pos..last]
      requires p == PhaseOf() && Like(d) && ValidStr(d.tbl.entries, p.str)
      requires whole == Later(BulkStr(c, d, p.str, p.huffman, p.left, p.got, s), before)
      modifies this, ctx, ctx.ring, ctx.ring.buffer
      ensures Sound() && !bad && (ctx.ring.buffer == old(ctx.ring.buffer) || fresh(ctx.ring.buffer))
      ensures ResultOf(turn, used) == whole
      ensures turn == Fail || state == InOpcode || state == old(state)
    {
      turn, used := TurnValue(input, pos, last, d, p, s);
      used := before + used;
    }

    /** State READ_VALUELEN; with the length complete the loop is busy, so READ_VALUE follows at once. */
    method TurnValueLen(input: Bytes, pos: nat, last: nat, ghost d: Decoder, ghost goal: Goal, ghost s: Bytes)
      returns (turn: Turn, used: nat)
      requires Sound() && !bad && state == ReadValuelen && pos < last <= |input| && s == input[pos..last]
      requires Like(d) && left <= U32_MAX && (left == 0 ==> shift == 0)
      requires goal == PhaseOf().goal && ValidStr(d.tbl.entries, goal.str)
      modifies this, ctx, ctx.ring, ctx.ring.buffer
      ensures Sound() && !bad && (ctx.ring.buffer == old(ctx.ring.buffer) || fresh(ctx.ring.buffer))
      ensures ResultOf(turn, used) == BulkInt(c, d, goal, old(left), old(shift), s)
      ensures turn == Fail || state == InOpcode || state == ReadValuelen || state == ReadValue || state == ReadValuehuff
    {
      ghost var n, sh := left, shift;
      turn, used := ReadValueLength(input, pos, last, d, goal, s);
      if turn == Continue {
        assert s[used..] == input[pos + used..last];
        ValueLengthDone(c, d, goal, n, sh, s, left, used);
        turn, used := FollowWithValue(input, pos + used, last, used, d, PhaseOf(), s[used..],
                                      BulkInt(c, d, goal, n, sh, s));
      }
    }

    /** The states that read an integer. */
    method TakeIntTurn(input: Bytes, pos: nat, last: nat, ghost d: Decoder, ghost p: Phase, ghost s: Bytes)
      returns (turn: Turn, used: nat)
      requires Sound() && Shaped() && !bad && pos < last <= |input| && s == input[pos..last]
      requires p == PhaseOf() && p.ReadInt? && Like(d) && left <= U32_MAX && (left == 0 ==> shift == 0)
      requires p.goal.LengthGoal? ==> ValidStr(d.tbl.entries, p.goal.str)
      modifies this, ctx, ctx.ring, ctx.ring.buffer
      ensures Sound() && !bad && (ctx.ring.buffer == old(ctx.ring.buffer) || fresh(ctx.ring.buffer))
      ensures turn != Fail ==> Shaped()
      ensures ResultOf(turn, used) == BulkInt(c, d, p.goal, p.n, p.shift, s)
    {
      if state == ReadTableSize {
        turn, used := TurnTableSize(input, pos, last, d, s);
      } else if state == ReadIndex {
        turn, used := TurnIndex(input, pos, last, d, s);
      } else if state == NewnameReadNamelen {
        turn, used := TurnNameLen(input, pos, last, d, p.goal, s);
      } else {
        turn, used := TurnValueLen(input, pos, last, d, p.goal, s);
      }
    }

    /** The states that read a string. */
    method TakeStrTurn(input: Bytes, pos: nat, last: nat, ghost d: Decoder, ghost p: Phase, ghost s: Bytes)
      returns (turn: Turn, used: nat)
      requires Sound() && Shaped() && !bad && pos < last <= |input| && s == input[pos..last]
      requires p == PhaseOf() && p.ReadStr? && Like(d) && ValidStr(d.tbl.entries, p.str)
      modifies this, ctx, ctx.ring, ctx.ring.buffer
      ensures Sound() && !bad && (ctx.ring.buffer == old(ctx.ring.buffer) || fresh(ctx.ring.buffer))
      ensures turn != Fail ==> Shaped()
      ensures ResultOf(turn, used) == BulkStr(c, d, p.str, p.huffman, p.left, p.got, s)
    {
      if state == NewnameReadName || state == NewnameReadNamehuff {
        turn, used := TurnName(input, pos, last, d, p, s);
      } else {
        turn, used := TurnValue(input, pos, last, d, p, s);
      }
    }

    /** One turn of the loop's switch. */
    method TakeTurn(input: Bytes, pos: nat, last: nat, ghost d: Decoder, ghost s: Bytes) returns (turn: Turn, used: nat)
      requires Valid() && !bad && pos < last <= |input| && s == input[pos..last] && d == Value()
      modifies this, ctx, ctx.ring, ctx.ring.buffer
      ensures Sound() && !bad && (ctx.ring.buffer == old(ctx.ring.buffer) || fresh(ctx.ring.buffer))
      ensures turn != Fail ==> Shaped()
      ensures ResultOf(turn, used) == BulkTurn(c, d, s)
    {
      if state == ExpectTableSize || state == InflateStart || state == InOpcode {
        turn, used := TurnOpcode(input[pos], d);
      } else if state == NewnameReadName || state == NewnameReadNamehuff
             || state == ReadValue || state == ReadValuehuff {
        turn, used := TakeStrTurn(input, pos, last, d, PhaseOf(), s);
      } else {
        if state == NewnameCheckNamelen || state == CheckValuelen {
          BeginLength(input[pos]);
        }
        turn, used := TakeIntTurn(input, pos, last, d, PhaseOf(), s);
      }
    }

    /** A turn, related to reading byte by byte what the input holds from pos on. */
    method SensibleTurn(input: Bytes, pos: nat, ghost d: Decoder) returns (turn: Turn, next: nat)
      requires Valid() && !bad && Lawful(c) && pos < |input| && d == Value()
      modifies this, ctx, ctx.ring, ctx.ring.buffer
      ensures Valid() && (ctx.ring.buffer == old(ctx.ring.buffer) || fresh(ctx.ring.buffer))
      ensures bad == (turn == Fail) && pos <= next <= |input|
      ensures Sensible(c, d, input[pos..], (turn, Value(), next - pos))
    {
      BulkTurnSensible(c, d, input[pos..]);
      var used;
      turn, used := TurnOrFail(input, pos, d, input[pos..]);
      next := pos + used;
    }

    /** The turn, and what a failed one leaves. */
    method TurnOrFail(input: Bytes, pos: nat, ghost d: Decoder, ghost s: Bytes) returns (turn: Turn, used: nat)
      requires Valid() && !bad && pos < |input| && s == input[pos..] && d == Value()
      requires Healthy(c, BulkTurn(c, d, s).1)
      modifies this, ctx, ctx.ring, ctx.ring.buffer
      ensures Valid() && (ctx.ring.buffer == old(ctx.ring.buffer) || fresh(ctx.ring.buffer))
      ensures bad == (turn == Fail) && (turn, Value(), used) == BulkTurn(c, d, s)
    {
      turn, used := TakeTurn(input, pos, |input|, d, s);
      if turn == Fail {
        bad, used := true, 0;
      }
    }

    /** A turn at pos, for a decoder that has the outcome total on what the input holds from pos on. */
    method Advance(input: Bytes, pos: nat, ghost d: Decoder, ghost total: Outcome) returns (turn: Turn, next: nat)
      requires Valid() && !bad && Lawful(c) && pos < |input| && d == Value() && total == Run(c, d, input[pos..])
      modifies this, ctx, ctx.ring, ctx.ring.buffer
      ensures Valid() && (ctx.ring.buffer == old(ctx.ring.buffer) || fresh(ctx.ring.buffer))
      ensures bad == (turn == Fail)
      ensures turn != Continue ==> Stopped(c, total, Value(), input, turn, next)
      ensures turn == Continue ==> pos <= next <= |input| && total == Run(c, Value(), input[next..])
      ensures turn == Continue && next == pos ==> Rank(Value()) < Rank(d)
    {
      turn, next := SensibleTurn(input, pos, d);
      AfterTurn(c, total, d, input, pos, (turn, Value(), next - pos));
    }

    /** The loop: turns until a header is out, the input is exhausted, or an error. */
    method TakeTurns(input: Bytes, ghost total: Outcome) returns (turn: Turn, pos: nat)
      requires Valid() && !bad && Lawful(c) && total == Run(c, Value(), input)
      modifies this, ctx, ctx.ring, ctx.ring.buffer
      ensures Valid() && (ctx.ring.buffer == old(ctx.ring.buffer) || fresh(ctx.ring.buffer))
      ensures bad == (turn == Fail) && Stopped(c, total, Value(), input, turn, pos)
    {
      turn, pos := Continue, 0;
      assert input[0..] == input;
      while pos != |input|
        invariant Valid() && !bad && 0 <= pos <= |input| && turn == Continue
        invariant ctx.ring.buffer == old(ctx.ring.buffer) || fresh(ctx.ring.buffer)
        invariant total == Run(c, Value(), input[pos..])
        decreases |input| - pos, Rank(Value())
      {
        turn, pos := Advance(input, pos, Value(), total);
        if turn != Continue {
          return;
        }
      }
    }

    /** `nghttp2_hd_inflate_hd_nv`: decodes until a header is out, the input is exhausted, or an error. */
    method InflateHdNv(input: Bytes, inFinal: bool) returns (rv: int, f: Option<Field>, final: bool)
      requires Valid() && Lawful(c)
      modifies this, ctx, ctx.ring, ctx.ring.buffer
      ensures Valid() && (ctx.ring.buffer == old(ctx.ring.buffer) || fresh(ctx.ring.buffer))
      ensures var r := Run(c, old(Value()), input);
              if rv < 0 then bad && r.1 == [] && (r.0 == Bad || (inFinal && EndBlock(r.0) == Bad))
              else if f.Some? then
                && !bad && !final && 0 < rv <= |input|
                && r == Prepend([f.value], Run(c, Value(), input[rv..]))
              else !bad && rv == |input| && r == (Value(), []) && final == inFinal && (inFinal ==> EndBlock(r.0) != Bad)
    {
      if bad {
        RunBad(c, input);
        return -1, None, false;
      }
      var turn, pos := TakeTurns(input, Run(c, Value(), input));
      if turn == Fail {
        return -1, None, false;
      }
      if turn.Emit? {
        return pos, Some(turn.field), false;
      }
      if inFinal {
        if turn == AlmostOk || (state != InOpcode && state != InflateStart) {
          bad := true;
          return -1, None, false;
        }
      }
      return pos, None, inFinal && turn == Continue;
    }

    /** `nghttp2_hd_inflate_end_headers`, after a final piece. */
    method EndHeaders()
      requires Valid() && !bad && EndBlock(Value()) != Bad
      modifies this`state
      ensures Valid() && !bad && Value() == EndBlock(old(Value()))
    {
      state := InflateStart;
    }

    /** `inflate_header_block` without callbacks: decodes one piece of a block. */
    method InflateChunk(input: Bytes, final: bool) returns (ok: bool, fields: seq<Field>)
      requires Valid() && Lawful(c)
      modifies this, ctx, ctx.ring, ctx.ring.buffer
      ensures Valid() && (ctx.ring.buffer == old(ctx.ring.buffer) || fresh(ctx.ring.buffer))
      ensures var r := Run(c, old(Value()), input);
              && fields == r.1
              && ok == (r.0 != Bad && (final ==> EndBlock(r.0) != Bad))
              && (ok ==> Value() == if final then EndBlock(r.0) else r.0)
              && (!ok ==> bad)
    {
      ghost var total := Run(c, Value(), input);
      fields := [];
      var rest := input;
      while true
        invariant Valid()
        invariant ctx.ring.buffer == old(ctx.ring.buffer) || fresh(ctx.ring.buffer)
        invariant total == Prepend(fields, Run(c, Value(), rest))
        decreases |rest|
      {
        ghost var here := Run(c, Value(), rest);
        var rv, f, done := InflateHdNv(rest, final);
        if rv < 0 {
          return false, fields;
        }
        if f.None? {
          if done {
            EndHeaders();
          }
          return true, fields;
        }
        PrependTwice(fields, [f.value], Run(c, Value(), rest[rv..]));
        fields, rest := fields + [f.value], rest[rv..];
      }
    }
  }

  function Flatten(chunks: seq<Bytes>): Bytes {
    if chunks == [] then [] else Flatten(chunks[..|chunks| - 1]) + chunks[|chunks| - 1]
  }

  /**
   * A block delivered in any pieces: the headers, the verdict and the decoder afterwards are those of the block
   * decoded whole.
   */
  method InflatePieces(inflater: Inflater, chunks: seq<Bytes>) returns (ok: bool, fields: seq<Field>)
    requires inflater.Valid() && Lawful(inflater.c) && chunks != []
    modifies inflater, inflater.ctx, inflater.ctx.ring, inflater.ctx.ring.buffer
    ensures inflater.Valid()
    ensures var whole := InflateBlock(inflater.c, old(inflater.Value()), Flatten(chunks));
            && fields == whole.1
            && ok == (whole.0 != Bad)
            && (ok ==> inflater.Value() == whole.0)
  {
    ghost var c, start := inflater.c, inflater.Value();
    fields, ok := [], true;
    var i := 0;
    while i < |chunks| - 1
      invariant 0 <= i <= |chunks| - 1 && ok
      invariant inflater.Valid()
      invariant inflater.ctx.ring.buffer == old(inflater.ctx.ring.buffer) || fresh(inflater.ctx.ring.buffer)
      invariant Run(c, start, Flatten(chunks[..i])) == (inflater.Value(), fields)
    {
      var more;
      ok, more := inflater.InflateChunk(chunks[i], false);
      OneMoreChunk(c, start, chunks, i);
      fields := fields + more;
      if !ok {
        DeadEnd(c, start, chunks, i + 1);
        return;
      }
      i := i + 1;
    }
    var more;
    ok, more := inflater.InflateChunk(chunks[i], true);
    OneMoreChunk(c, start, chunks, i);
    assert chunks[..i + 1] == chunks;
    fields := fields + more;
  }

  lemma OneMoreChunk(c: Codec, d: Decoder, chunks: seq<Bytes>, i: nat)
    requires i < |chunks|
    ensures Run(c, d, Flatten(chunks[..i + 1])) ==
            Prepend(Run(c, d, Flatten(chunks[..i])).1, Run(c, Run(c, d, Flatten(chunks[..i])).0, chunks[i]))
  {
    assert chunks[..i + 1][..i] == chunks[..i];
    RunConcat(c, d, Flatten(chunks[..i]), chunks[i]);
  }

  /** After an error the rest of the block changes nothing. */
  lemma {:induction false} DeadEnd(c: Codec, d: Decoder, chunks: seq<Bytes>, i: nat)
    requires i <= |chunks| && Run(c, d, Flatten(chunks[..i])).0 == Bad
    ensures Run(c, d, Flatten(chunks)) == Run(c, d, Flatten(chunks[..i]))
    decreases |chunks| - i
  {
    if i == |chunks| {
      assert chunks[..i] == chunks;
    } else {
      OneMoreChunk(c, d, chunks, i);
      RunBad(c, chunks[i]);
      DeadEnd(c, d, chunks, i + 1);
    }
  }
}
