/**
 * The HPACK decoder's meaning, one byte at a time.  A decoder value is what `nghttp2_hd_inflater` remembers
 * between calls; Run folds Step over the input, so it is independent of how the input was cut by construction.
 * That nghttp2's bulk-reading state machine computes Run is proved in HpackInflater.
 */
module HpackDecoder {
  import opened Bytes
  import opened Huffman
  import opened HeaderTable
  import opened IntegerCodec

  /** index_required and no_index of a literal. */
  datatype Flags = Flags(indexing: bool, never: bool)

  datatype Name = NewName(name: Bytes) | IndexedName(index: nat)

  /** The string being read: a new name, or the value of a literal whose name is known. */
  datatype Str = NameStr(flags: Flags) | ValueStr(flags: Flags, name: Name)

  /** What an integer being read is for. */
  datatype Goal = SizeGoal | IndexedGoal | LiteralGoal(flags: Flags) | LengthGoal(str: Str, huffman: bool)

  datatype Phase =
    | ExpectSize
    | Start
    | Opcode
    | ReadInt(goal: Goal, n: nat, shift: nat)
    | CheckLen(str: Str)
    | ReadStr(str: Str, huffman: bool, left: nat, got: Bytes)

  datatype RawDecoder =
    | Bad
    | Decoder(tbl: Table, settings: nat, minMax: nat, phase: Phase)

  type Decoder = d: RawDecoder | Valid(d) witness Bad

  predicate ValidStr(entries: seq<Header>, str: Str) {
    str.ValueStr? && str.name.IndexedName? ==> ValidIndex(entries, str.name.index)
  }

  /** The largest value an integer may reach: the `maxlen` argument of `hd_inflate_read_len`. */
  function Cap(entries: seq<Header>, settings: nat, minMax: nat, goal: Goal): nat {
    match goal
    case SizeGoal => Min(minMax, settings)
    case LengthGoal(_, _) => MAX_NV
    case _ => |entries| + STATIC_LENGTH
  }

  predicate Valid(d: RawDecoder) {
    d.Decoder? ==>
      match d.phase
      case ReadInt(goal, n, shift) =>
        && n <= Cap(d.tbl.entries, d.settings, d.minMax, goal)
        && n <= U32_MAX
        && (n == 0 ==> shift == 0)
        && (goal.LengthGoal? ==> ValidStr(d.tbl.entries, goal.str))
      case CheckLen(str) => ValidStr(d.tbl.entries, str)
      case ReadStr(str, _, left, got) => ValidStr(d.tbl.entries, str) && (left == 0 ==> str.NameStr? && got == [])
      case _ => true
  }

  function Prefix(goal: Goal): (p: nat)
    ensures 4 <= p <= 7
  {
    match goal
    case SizeGoal => 5
    case IndexedGoal => 7
    case LiteralGoal(f) => if f.indexing then 6 else 4
    case LengthGoal(_, _) => 7
  }

  function InitDecoder(): Decoder {
    Decoder(Table([], DEFAULT_TABLE_SIZE), DEFAULT_TABLE_SIZE, U32_MAX, Start)
  }

  /** `nghttp2_hd_inflate_change_table_size`; None is NGHTTP2_ERR_INVALID_STATE. */
  function ChangeDecoder(d: Decoder, settings: nat): (r: Option<Decoder>)
    requires d.Decoder?
    ensures r.Some? <==> d.phase == Start || d.phase == ExpectSize
    ensures r.Some? ==> r.value.Decoder? && (r.value.phase == Start || r.value.phase == ExpectSize)
  {
    if d.phase != Start && d.phase != ExpectSize then None
    else if d.tbl.max > settings then
      Some(Decoder(Shrink(d.tbl.entries, settings), settings, settings, ExpectSize))
    else Some(d.(settings := settings))
  }

  type Outcome = (Decoder, seq<Field>)

  /** `hd_inflate_commit_newname` and `hd_inflate_commit_indname`: emit, and index if asked to. */
  function Commit(c: Codec, d: Decoder, flags: Flags, name: Name, value: Bytes): (r: Outcome)
    requires d.Decoder? && ValidStr(d.tbl.entries, ValueStr(flags, name))
  {
    var nm := if name.NewName? then name.name else Lookup(c.st, d.tbl.entries, name.index).name;
    var tbl := if flags.indexing then Insert(d.tbl, Header(nm, value)) else d.tbl;
    (Decoder(tbl, d.settings, d.minMax, Opcode), [Field(nm, value, flags.never)])
  }

  /** All bytes of a string are in. */
  function FinishStr(c: Codec, d: Decoder, str: Str, huffman: bool, got: Bytes): (r: Outcome)
    requires d.Decoder? && ValidStr(d.tbl.entries, str)
  {
    var text := if huffman then c.decode(got) else Some(got);
    if text.None? then (Bad, [])
    else if str.NameStr? then
      (Decoder(d.tbl, d.settings, d.minMax, CheckLen(ValueStr(str.flags, NewName(text.value)))), [])
    else Commit(c, d, str.flags, str.name, text.value)
  }

  /** An integer is complete and within its cap. */
  function FinishInt(c: Codec, d: Decoder, goal: Goal, n: nat): (r: Outcome)
    requires d.Decoder? && n <= Cap(d.tbl.entries, d.settings, d.minMax, goal)
    requires goal.LengthGoal? ==> ValidStr(d.tbl.entries, goal.str)
  {
    match goal
    case SizeGoal => (Decoder(Shrink(d.tbl.entries, n), d.settings, U32_MAX, Start), [])
    case IndexedGoal =>
      if n == 0 then (Bad, []) else
      var h := Lookup(c.st, d.tbl.entries, n - 1);
      (Decoder(d.tbl, d.settings, d.minMax, Opcode), [Field(h.name, h.value, false)])
    case LiteralGoal(f) =>
      if n == 0 then (Bad, []) else
      (Decoder(d.tbl, d.settings, d.minMax, CheckLen(ValueStr(f, IndexedName(n - 1)))), [])
    case LengthGoal(str, huffman) =>
      // a zero-length value is finished at once, a zero-length name only when its next byte arrives
      if n == 0 && str.ValueStr? then FinishStr(c, d, str, huffman, [])
      else (Decoder(d.tbl, d.settings, d.minMax, ReadStr(str, huffman, n, [])), [])
  }

  function StepInt(c: Codec, d: Decoder, goal: Goal, n: nat, shift: nat, b: byte): (r: Outcome)
    requires d.Decoder? && n <= U32_MAX && (n == 0 ==> shift == 0)
    requires goal.LengthGoal? ==> ValidStr(d.tbl.entries, goal.str)
  {
    var cap := Cap(d.tbl.entries, d.settings, d.minMax, goal);
    match IntByte(n, shift, b, Prefix(goal))
    case IntError => (Bad, [])
    case IntPartial(m, sh) =>
      if m > cap then (Bad, []) else (Decoder(d.tbl, d.settings, d.minMax, ReadInt(goal, m, sh)), [])
    case IntDone(m, _) => if m > cap then (Bad, []) else FinishInt(c, d, goal, m)
  }

  /** Representation byte of a literal. */
  function LiteralFlags(b: byte): Flags {
    Flags(b % 128 >= 64, 16 <= b < 32)
  }

  function StepOpcode(c: Codec, d: Decoder, b: byte): (r: Outcome)
    requires d.Decoder? && (d.phase.ExpectSize? || d.phase.Start? || d.phase.Opcode?)
  {
    if 32 <= b < 64 then
      if d.phase == Opcode then (Bad, []) else StepInt(c, d, SizeGoal, 0, 0, b)
    else if d.phase == ExpectSize then (Bad, [])
    else if b >= 128 then StepInt(c, d, IndexedGoal, 0, 0, b)
    else if b == 0x40 || b == 0 || b == 0x10 then
      (Decoder(d.tbl, d.settings, d.minMax, CheckLen(NameStr(LiteralFlags(b)))), [])
    else StepInt(c, d, LiteralGoal(LiteralFlags(b)), 0, 0, b)
  }

  function StepLen(c: Codec, d: Decoder, str: Str, b: byte): (r: Outcome)
    requires d.Decoder? && ValidStr(d.tbl.entries, str)
  {
    StepInt(c, d, LengthGoal(str, b >= 128), 0, 0, b)
  }

  function Step(c: Codec, d: Decoder, b: byte): (r: Outcome)
  {
    if d.Bad? then (Bad, []) else
    match d.phase
    case ReadInt(goal, n, shift) => StepInt(c, d, goal, n, shift, b)
    case CheckLen(str) => StepLen(c, d, str, b)
    case ReadStr(str, huffman, left, got) =>
      if left == 0 then
        var named := FinishStr(c, d, str, huffman, got).0;
        if named.Bad? then (Bad, []) else StepLen(c, named, named.phase.str, b)
      else if huffman && c.failed(got + [b]) then (Bad, [])
      else if left == 1 then FinishStr(c, d, str, huffman, got + [b])
      else (Decoder(d.tbl, d.settings, d.minMax, ReadStr(str, huffman, left - 1, got + [b])), [])
    case _ => StepOpcode(c, d, b)
  }

  /** Fields emitted earlier, in front of those of a later outcome. */
  function Prepend(first: seq<Field>, o: Outcome): (r: Outcome)
    ensures first == [] ==> r == o
    ensures o.1 == [] ==> r == (o.0, first)
  {
    assert first == [] ==> first + o.1 == o.1;
    assert o.1 == [] ==> first + o.1 == first;
    (o.0, first + o.1)
  }

  lemma PrependTwice(a: seq<Field>, b: seq<Field>, o: Outcome)
    ensures Prepend(a, Prepend(b, o)) == Prepend(a + b, o)
  {
    assert a + (b + o.1) == (a + b) + o.1;
  }

  function Run(c: Codec, d: Decoder, s: Bytes): (r: Outcome)
    decreases |s|
  {
    if s == [] then (d, []) else
    var one := Step(c, d, s[0]);
    Prepend(one.1, Run(c, one.0, s[1..]))
  }

  /** in_final and `nghttp2_hd_inflate_end_headers`: a block may end only between representations. */
  function EndBlock(d: Decoder): Decoder {
    if d.Decoder? && (d.phase == Opcode || d.phase == Start) then Decoder(d.tbl, d.settings, d.minMax, Start) else Bad
  }

  /** A whole header block. */
  function InflateBlock(c: Codec, d: Decoder, s: Bytes): Outcome {
    var r := Run(c, d, s);
    (EndBlock(r.0), r.1)
  }

  lemma {:induction false} RunConcat(c: Codec, d: Decoder, s: Bytes, t: Bytes)
    ensures Run(c, d, s + t) == Prepend(Run(c, d, s).1, Run(c, Run(c, d, s).0, t))
    decreases |s|
  {
    if s == [] {
      assert s + t == t;
    } else {
      assert (s + t)[0] == s[0] && (s + t)[1..] == s[1..] + t;
      var one := Step(c, d, s[0]);
      RunConcat(c, one.0, s[1..], t);
      PrependTwice(one.1, Run(c, one.0, s[1..]).1, Run(c, Run(c, one.0, s[1..]).0, t));
    }
  }

  lemma {:induction false} RunBad(c: Codec, s: Bytes)
    ensures Run(c, Bad, s) == (Bad, [])
    decreases |s|
  {
    if s != [] {
      RunBad(c, s[1..]);
    }
  }

  /** The decoder in the middle of an integer. */
  function AtInt(d: Decoder, goal: Goal, n: nat, shift: nat): (r: Decoder)
    requires d.Decoder? && n <= Cap(d.tbl.entries, d.settings, d.minMax, goal)
    requires n <= U32_MAX && (n == 0 ==> shift == 0)
    requires goal.LengthGoal? ==> ValidStr(d.tbl.entries, goal.str)
  {
    Decoder(d.tbl, d.settings, d.minMax, ReadInt(goal, n, shift))
  }

  /** What a run over bytes that begin inside an integer comes to, in terms of one bulk read. */
  function AfterInt(c: Codec, d: Decoder, goal: Goal, n: nat, shift: nat, s: Bytes): (r: Outcome)
    requires d.Decoder? && n <= Cap(d.tbl.entries, d.settings, d.minMax, goal)
    requires n <= U32_MAX && (n == 0 ==> shift == 0)
    requires goal.LengthGoal? ==> ValidStr(d.tbl.entries, goal.str)
  {
    var cap := Cap(d.tbl.entries, d.settings, d.minMax, goal);
    match DecodeInt(n, shift, s, Prefix(goal))
    case IntError => (Bad, [])
    case IntPartial(m, sh) =>
      if m > cap then (Bad, [])
      else (Decoder(d.tbl, d.settings, d.minMax, ReadInt(goal, m, if m == 0 then 0 else sh)), [])
    case IntDone(m, used) =>
      if m > cap then (Bad, []) else
      var done := FinishInt(c, d, goal, m);
      Prepend(done.1, Run(c, done.0, s[used..]))
  }

  /**
   * Checking the cap and the overflow once per bulk read, as nghttp2 does, fails on exactly the inputs on
   * which checking after every byte fails, because a partial value only grows.
   */
  lemma {:induction false} IntInBulk(c: Codec, d: Decoder, goal: Goal, n: nat, shift: nat, s: Bytes)
    requires d.Decoder? && n <= Cap(d.tbl.entries, d.settings, d.minMax, goal)
    requires n <= U32_MAX && (n == 0 ==> shift == 0)
    requires goal.LengthGoal? ==> ValidStr(d.tbl.entries, goal.str)
    ensures Run(c, AtInt(d, goal, n, shift), s) == AfterInt(c, d, goal, n, shift, s)
    decreases |s|
  {
    if s != [] {
      var r := IntByte(n, shift, s[0], Prefix(goal));
      RunBad(c, s[1..]);
      if r.IntPartial? && r.n <= Cap(d.tbl.entries, d.settings, d.minMax, goal) {
        IntInBulk(c, d, goal, r.n, r.shift, s[1..]);
        AfterIntUnrolls(c, d, goal, n, shift, s);
        assert Step(c, AtInt(d, goal, n, shift), s[0]) == (AtInt(d, goal, r.n, r.shift), []);
      }
    }
  }

  lemma AfterIntUnrolls(c: Codec, d: Decoder, goal: Goal, n: nat, shift: nat, s: Bytes)
    requires d.Decoder? && n <= Cap(d.tbl.entries, d.settings, d.minMax, goal)
    requires n <= U32_MAX && (n == 0 ==> shift == 0)
    requires goal.LengthGoal? ==> ValidStr(d.tbl.entries, goal.str)
    requires s != [] && IntByte(n, shift, s[0], Prefix(goal)).IntPartial?
    requires IntByte(n, shift, s[0], Prefix(goal)).n <= Cap(d.tbl.entries, d.settings, d.minMax, goal)
    ensures var r := IntByte(n, shift, s[0], Prefix(goal));
            AfterInt(c, d, goal, n, shift, s) == AfterInt(c, d, goal, r.n, r.shift, s[1..])
  {
    var r := IntByte(n, shift, s[0], Prefix(goal));
    var q := DecodeInt(r.n, r.shift, s[1..], Prefix(goal));
    if q.IntDone? {
      assert s[1..][q.used..] == s[q.used + 1..];
    }
  }

  /** What a run over bytes that begin inside a string comes to. */
  function AfterStr(c: Codec, d: Decoder, str: Str, huffman: bool, left: nat, got: Bytes, s: Bytes): (r: Outcome)
    requires d.Decoder? && ValidStr(d.tbl.entries, str)
  {
    if |s| < left then
      if huffman && c.failed(got + s) then (Bad, [])
      else (Decoder(d.tbl, d.settings, d.minMax, ReadStr(str, huffman, left - |s|, got + s)), [])
    else
      var done := FinishStr(c, d, str, huffman, got + s[..left]);
      Prepend(done.1, Run(c, done.0, s[left..]))
  }

  /** The decoder in the middle of a string. */
  function AtStr(d: Decoder, str: Str, huffman: bool, left: nat, got: Bytes): (r: Decoder)
    requires d.Decoder? && ValidStr(d.tbl.entries, str) && left > 0
  {
    Decoder(d.tbl, d.settings, d.minMax, ReadStr(str, huffman, left, got))
  }

  lemma AfterStrUnrolls(c: Codec, d: Decoder, str: Str, huffman: bool, left: nat, got: Bytes, s: Bytes)
    requires d.Decoder? && ValidStr(d.tbl.entries, str) && left > 1 && s != []
    ensures AfterStr(c, d, str, huffman, left, got, s) == AfterStr(c, d, str, huffman, left - 1, got + [s[0]], s[1..])
  {
    assert (got + [s[0]]) + s[1..] == got + s;
    if |s| >= left {
      assert (got + [s[0]]) + s[1..][..left - 1] == got + s[..left];
      assert s[1..][left - 1..] == s[left..];
    }
  }

  lemma AfterStrBroken(c: Codec, d: Decoder, str: Str, left: nat, got: Bytes, s: Bytes)
    requires Lawful(c)
    requires d.Decoder? && ValidStr(d.tbl.entries, str) && left > 0 && s != []
    requires c.failed(got + [s[0]])
    ensures AfterStr(c, d, str, true, left, got, s) == (Bad, [])
  {
    if |s| < left {
      assert got + [s[0]] <= got + s;
    } else {
      assert got + [s[0]] <= got + s[..left];
      RunBad(c, s[left..]);
    }
  }

  /** One byte of a string. */
  lemma StrByte(c: Codec, d: Decoder, str: Str, huffman: bool, left: nat, got: Bytes, b: byte)
    requires d.Decoder? && ValidStr(d.tbl.entries, str) && left > 0
    ensures Step(c, AtStr(d, str, huffman, left, got), b) ==
            if huffman && c.failed(got + [b]) then (Bad, [])
            else if left == 1 then FinishStr(c, d, str, huffman, got + [b])
            else (AtStr(d, str, huffman, left - 1, got + [b]), [])
  {
  }

  /** A string read in bulk: the Huffman failure state, being absorbing, may be checked once per read. */
  lemma {:induction false} StrInBulk(c: Codec, d: Decoder, str: Str, huffman: bool, left: nat, got: Bytes, s: Bytes)
    requires Lawful(c)
    requires d.Decoder? && ValidStr(d.tbl.entries, str) && left > 0
    requires !(huffman && c.failed(got))
    ensures Run(c, AtStr(d, str, huffman, left, got), s) == AfterStr(c, d, str, huffman, left, got, s)
    decreases |s|
  {
    if s == [] {
      assert got + s == got;
    } else {
      var got1 := got + [s[0]];
      StrByte(c, d, str, huffman, left, got, s[0]);
      if huffman && c.failed(got1) {
        RunBad(c, s[1..]);
        AfterStrBroken(c, d, str, left, got, s);
      } else if left == 1 {
        assert s[..1] == [s[0]];
      } else {
        StrInBulk(c, d, str, huffman, left - 1, got1, s[1..]);
        AfterStrUnrolls(c, d, str, huffman, left, got, s);
      }
    }
  }

  /** An empty name is taken up by the byte that follows it. */
  lemma EmptyNameInBulk(c: Codec, d: Decoder, str: Str, huffman: bool, s: Bytes)
    requires d.Decoder? && ValidStr(d.tbl.entries, str) && str.NameStr? && s != []
    ensures Run(c, Decoder(d.tbl, d.settings, d.minMax, ReadStr(str, huffman, 0, [])), s)
         == AfterStr(c, d, str, huffman, 0, [], s)
  {
    var reading: Decoder := Decoder(d.tbl, d.settings, d.minMax, ReadStr(str, huffman, 0, []));
    var named := FinishStr(c, d, str, huffman, []);
    assert [] + s[..0] == [] && s[0..] == s;
    assert Step(c, reading, s[0]) == Step(c, named.0, s[0]);
  }
}
