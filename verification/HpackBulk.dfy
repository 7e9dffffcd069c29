/**
 * One turn of nghttp2's decoder loop as a function of what the decoder remembers and of all the input at
 * hand: integers and strings are read in bulk, and every cap or failure check is made once per read.  The lemmas
 * show that a turn agrees with reading byte by byte.
 */
module HpackBulk {
  import opened Bytes
  import opened Huffman
  import opened HeaderTable
  import opened IntegerCodec
  import opened HpackDecoder

  /** How a turn ends: go on, a header is out, input exhausted midway, or an error. */
  datatype Turn = Continue | Emit(field: Field) | AlmostOk | Fail

  /** A turn, what the decoder remembers after it, and the bytes it consumed. */
  type Result = (Turn, Decoder, nat)

  const FAILED: Result := (Fail, Bad, 0)

  function Later(r: Result, consumed: nat): Result {
    if r.0 == Fail then FAILED else (r.0, r.1, consumed + r.2)
  }

  function Finished(done: Outcome, consumed: nat): Result {
    if done.0.Bad? then FAILED
    else (if done.1 == [] then Continue else Emit(done.1[0]), done.0, consumed)
  }

  function CappedInt(n: nat, shift: nat, s: Bytes, prefix: nat, cap: nat): (r: IntResult)
    requires 4 <= prefix <= 7
    ensures r.IntDone? ==> r.n <= cap && r.used <= |s|
    ensures r.IntPartial? ==> r.n <= cap
  {
    var r := DecodeInt(n, shift, s, prefix);
    if !r.IntError? && r.n > cap then IntError else r
  }

  /** The state for the representation byte b. */
  function BulkOpcode(d: Decoder, b: byte): (r: Result)
    requires d.Decoder?
  {
    if d.phase == ExpectSize && !(32 <= b < 64) then FAILED
    else if 32 <= b < 64 then
      if d.phase == Opcode then FAILED else (Continue, AtInt(d, SizeGoal, 0, 0), 0)
    else if b >= 128 then (Continue, AtInt(d, IndexedGoal, 0, 0), 0)
    else if b == 0x40 || b == 0 || b == 0x10 then
      (Continue, Decoder(d.tbl, d.settings, d.minMax, CheckLen(NameStr(LiteralFlags(b)))), 1)
    else (Continue, AtInt(d, LiteralGoal(LiteralFlags(b)), 0, 0), 0)
  }

  /** A string in progress. */
  function BulkStr(c: Codec, d: Decoder, str: Str, huffman: bool, left: nat, got: Bytes, s: Bytes): (r: Result)
    requires d.Decoder? && ValidStr(d.tbl.entries, str)
  {
    if |s| < left then
      if huffman && c.failed(got + s) then FAILED
      else (AlmostOk, AtStr(d, str, huffman, left - |s|, got + s), |s|)
    else if huffman && c.failed(got + s[..left]) then FAILED
    else Finished(FinishStr(c, d, str, huffman, got + s[..left]), left)
  }

  /** An integer in progress; after the length of a value the loop is busy and takes up the value at once. */
  function BulkInt(c: Codec, d: Decoder, goal: Goal, n: nat, shift: nat, s: Bytes): (r: Result)
    requires d.Decoder? && n <= U32_MAX && (n == 0 ==> shift == 0) && s != []
    requires goal.LengthGoal? ==> ValidStr(d.tbl.entries, goal.str)
  {
    PartialIsPositive(n, shift, s, Prefix(goal));
    match CappedInt(n, shift, s, Prefix(goal), Cap(d.tbl.entries, d.settings, d.minMax, goal))
    case IntError => FAILED
    case IntPartial(m, sh) => (AlmostOk, AtInt(d, goal, m, sh), |s|)
    case IntDone(m, u) =>
      if goal.LengthGoal? && goal.str.ValueStr? then Later(BulkStr(c, d, goal.str, goal.huffman, m, [], s[u..]), u)
      else Finished(FinishInt(c, d, goal, m), u)
  }

  function BulkTurn(c: Codec, d: Decoder, s: Bytes): Result
    requires d.Decoder? && s != []
  {
    match d.phase
    case ReadInt(goal, n, shift) => BulkInt(c, d, goal, n, shift, s)
    case CheckLen(str) => BulkInt(c, d, LengthGoal(str, s[0] >= 128), 0, 0, s)
    case ReadStr(str, huffman, left, got) => BulkStr(c, d, str, huffman, left, got, s)
    case _ => BulkOpcode(d, s[0])
  }

  lemma {:induction false} PartialIsPositive(n: nat, shift: nat, s: Bytes, prefix: nat)
    requires 4 <= prefix <= 7 && n <= U32_MAX && (n == 0 ==> shift == 0) && s != []
    ensures DecodeInt(n, shift, s, prefix).IntPartial? ==> DecodeInt(n, shift, s, prefix).n > 0
    decreases |s|
  {
    var r := IntByte(n, shift, s[0], prefix);
    if r.IntPartial? && |s| > 1 {
      PartialIsPositive(r.n, r.shift, s[1..], prefix);
    }
  }

  /** A turn agrees with the byte-by-byte outcome `goal` of the input s. */
  ghost predicate TurnOk(c: Codec, goal: Outcome, r: Result, s: Bytes) {
    match r.0
    case Continue => r.2 <= |s| && goal == Run(c, r.1, s[r.2..])
    case Emit(f) => r.2 <= |s| && goal == Prepend([f], Run(c, r.1, s[r.2..]))
    case AlmostOk => r.2 == |s| && goal == (r.1, []) && EndBlock(r.1) == Bad
    case Fail => goal == (Bad, [])
  }

  lemma FinishedOk(c: Codec, done: Outcome, s: Bytes, consumed: nat)
    requires consumed <= |s| && |done.1| <= 1 && (done.0 == Bad ==> done.1 == [])
    ensures TurnOk(c, Prepend(done.1, Run(c, done.0, s[consumed..])), Finished(done, consumed), s)
  {
    RunBad(c, s[consumed..]);
    if done.1 != [] {
      assert done.1 == [done.1[0]];
    }
  }

  lemma LaterOk(c: Codec, goal: Outcome, r: Result, s: Bytes, consumed: nat)
    requires consumed <= |s|
    requires TurnOk(c, goal, r, s[consumed..])
    ensures TurnOk(c, goal, Later(r, consumed), s)
  {
    if r.2 <= |s| - consumed {
      assert s[consumed..][r.2..] == s[consumed + r.2..];
    }
  }

  lemma OpcodeOk(c: Codec, d: Decoder, s: Bytes)
    requires d.Decoder? && (d.phase.ExpectSize? || d.phase.Start? || d.phase.Opcode?) && s != []
    ensures TurnOk(c, Run(c, d, s), BulkOpcode(d, s[0]), s)
  {
    RunBad(c, s[1..]);
    var r := BulkOpcode(d, s[0]);
    if r.0 == Continue && r.2 == 0 {
      assert s[0..] == s && Step(c, d, s[0]) == Step(c, r.1, s[0]);
    }
  }

  lemma StrOk(c: Codec, d: Decoder, str: Str, huffman: bool, left: nat, got: Bytes, s: Bytes)
    requires Lawful(c) && d.Decoder? && ValidStr(d.tbl.entries, str)
    ensures TurnOk(c, AfterStr(c, d, str, huffman, left, got, s), BulkStr(c, d, str, huffman, left, got, s), s)
  {
    if |s| >= left {
      if huffman && c.failed(got + s[..left]) {
        RunBad(c, s[left..]);
      } else {
        FinishedOk(c, FinishStr(c, d, str, huffman, got + s[..left]), s, left);
      }
    }
  }

  lemma ValueLengthDone(c: Codec, d: Decoder, goal: Goal, n: nat, shift: nat, s: Bytes, m: nat, u: nat)
    requires d.Decoder? && n <= U32_MAX && (n == 0 ==> shift == 0) && s != []
    requires goal.LengthGoal? && goal.str.ValueStr? && ValidStr(d.tbl.entries, goal.str)
    requires u <= |s| && CappedInt(n, shift, s, 7, MAX_NV) == IntDone(m, u)
    ensures BulkInt(c, d, goal, n, shift, s) == Later(BulkStr(c, d, goal.str, goal.huffman, m, [], s[u..]), u)
  {
  }

  lemma NotYet(c: Codec, d: Decoder, goal: Goal, m: nat, shift: nat, s: Bytes)
    requires d.Decoder? && m <= Cap(d.tbl.entries, d.settings, d.minMax, goal)
    requires m <= U32_MAX && (m == 0 ==> shift == 0)
    requires goal.LengthGoal? ==> ValidStr(d.tbl.entries, goal.str)
    ensures TurnOk(c, (AtInt(d, goal, m, shift), []), (AlmostOk, AtInt(d, goal, m, shift), |s|), s)
  {
  }

  lemma IntOk(c: Codec, d: Decoder, goal: Goal, n: nat, shift: nat, s: Bytes)
    requires Lawful(c) && d.Decoder? && n <= Cap(d.tbl.entries, d.settings, d.minMax, goal)
    requires n <= U32_MAX && (n == 0 ==> shift == 0) && s != []
    requires goal.LengthGoal? ==> ValidStr(d.tbl.entries, goal.str)
    ensures TurnOk(c, Run(c, AtInt(d, goal, n, shift), s), BulkInt(c, d, goal, n, shift, s), s)
  {
    IntInBulk(c, d, goal, n, shift, s);
    PartialIsPositive(n, shift, s, Prefix(goal));
    match CappedInt(n, shift, s, Prefix(goal), Cap(d.tbl.entries, d.settings, d.minMax, goal))
    case IntError =>
    case IntPartial(m, sh) => NotYet(c, d, goal, m, sh, s);
    case IntDone(m, u) =>
      if goal.LengthGoal? && goal.str.ValueStr? {
        ValueFollows(c, d, goal, m, s[u..]);
        StrOk(c, d, goal.str, goal.huffman, m, [], s[u..]);
        LaterOk(c, AfterStr(c, d, goal.str, goal.huffman, m, [], s[u..]),
                BulkStr(c, d, goal.str, goal.huffman, m, [], s[u..]), s, u);
      } else {
        FinishedOk(c, FinishInt(c, d, goal, m), s, u);
      }
  }

  /** A complete value length hands over to the value, even to an empty one. */
  lemma ValueFollows(c: Codec, d: Decoder, goal: Goal, m: nat, t: Bytes)
    requires Lawful(c) && d.Decoder? && m <= MAX_NV
    requires goal.LengthGoal? && goal.str.ValueStr? && ValidStr(d.tbl.entries, goal.str)
    ensures Prepend(FinishInt(c, d, goal, m).1, Run(c, FinishInt(c, d, goal, m).0, t))
         == AfterStr(c, d, goal.str, goal.huffman, m, [], t)
  {
    if m == 0 {
      assert [] + t[..0] == [] && t[0..] == t;
    } else {
      assert !c.failed([]) by {
        assert c.failed([]) ==> c.failed(c.encode([]));
      }
      StrInBulk(c, d, goal.str, goal.huffman, m, [], t);
      assert FinishInt(c, d, goal, m) == (AtStr(d, goal.str, goal.huffman, m, []), []);
    }
  }

  /** The Huffman context, if one is in use, is not in its failure state. */
  ghost predicate Healthy(c: Codec, d: Decoder) {
    d.Decoder? && d.phase.ReadStr? && d.phase.huffman ==> !c.failed(d.phase.got)
  }

  /** Every turn agrees with reading byte by byte. */
  lemma BulkTurnOk(c: Codec, d: Decoder, s: Bytes)
    requires Lawful(c) && d.Decoder? && Healthy(c, d) && s != []
    ensures TurnOk(c, Run(c, d, s), BulkTurn(c, d, s), s)
  {
    match d.phase
    case ReadInt(goal, n, shift) =>
      IntOk(c, d, goal, n, shift, s);
    case CheckLen(str) =>
      var goal := LengthGoal(str, s[0] >= 128);
      IntOk(c, d, goal, 0, 0, s);
      assert Step(c, d, s[0]) == Step(c, AtInt(d, goal, 0, 0), s[0]);
    case ReadStr(str, huffman, left, got) =>
      StrOk(c, d, str, huffman, left, got, s);
      if left == 0 {
        EmptyNameInBulk(c, d, str, huffman, s);
      } else {
        StrInBulk(c, d, str, huffman, left, got, s);
      }
    case _ =>
      OpcodeOk(c, d, s);
  }

  lemma FreshContextIsHealthy(c: Codec)
    requires Lawful(c)
    ensures !c.failed([])
  {
    assert c.failed([]) ==> c.failed(c.encode([]));
  }

  lemma IntProgress(c: Codec, d: Decoder, goal: Goal, n: nat, shift: nat, s: Bytes)
    requires Lawful(c) && d.Decoder? && n <= U32_MAX && (n == 0 ==> shift == 0) && s != []
    requires goal.LengthGoal? ==> ValidStr(d.tbl.entries, goal.str)
    ensures var r := BulkInt(c, d, goal, n, shift, s);
            r.2 <= |s| && (r.0.Emit? || r.0 == Continue ==> r.2 > 0) && Healthy(c, r.1)
  {
    FreshContextIsHealthy(c);
  }

  /** A turn makes progress: it emits or stops only after consuming, and otherwise moves to a later kind of state. */
  lemma BulkTurnProgress(c: Codec, d: Decoder, s: Bytes)
    requires Lawful(c) && d.Decoder? && Healthy(c, d) && s != []
    ensures var r := BulkTurn(c, d, s);
            && r.2 <= |s| && (r.0.Emit? ==> r.2 > 0) && Healthy(c, r.1)
            && (r.0 == Continue && r.2 == 0 ==> r.1.Decoder? && Rank(r.1) < Rank(d))
  {
    match d.phase
    case ReadInt(goal, n, shift) => IntProgress(c, d, goal, n, shift, s);
    case CheckLen(str) => IntProgress(c, d, LengthGoal(str, s[0] >= 128), 0, 0, s);
    case ReadStr(str, huffman, left, got) =>
    case _ =>
  }

  /** A turn from d that agrees with reading byte by byte, and makes progress. */
  ghost predicate Sensible(c: Codec, d: Decoder, s: Bytes, r: Result)
    requires d.Decoder?
  {
    && TurnOk(c, Run(c, d, s), r, s) && r.2 <= |s| && (r.0.Emit? ==> r.2 > 0)
    && (r.0 == Continue && r.2 == 0 ==> r.1.Decoder? && Rank(r.1) < Rank(d))
  }

  lemma BulkTurnSensible(c: Codec, d: Decoder, s: Bytes)
    requires Lawful(c) && d.Decoder? && Healthy(c, d) && s != []
    ensures Sensible(c, d, s, BulkTurn(c, d, s)) && Healthy(c, BulkTurn(c, d, s).1)
  {
    BulkTurnOk(c, d, s);
    BulkTurnProgress(c, d, s);
  }

  /** Where the loop leaves a decoder that started with the outcome total; Continue means that nothing is left. */
  ghost predicate Stopped(c: Codec, total: Outcome, d: Decoder, input: Bytes, turn: Turn, pos: nat) {
    match turn
    case Fail => total == (Bad, [])
    case Emit(f) => 0 < pos <= |input| && total == Prepend([f], Run(c, d, input[pos..]))
    case AlmostOk => pos == |input| && total == (d, []) && EndBlock(d) == Bad
    case Continue => pos == |input| && total == (d, [])
  }

  /** What is left after a turn of a decoder that has the outcome total on the input from pos on. */
  lemma AfterTurn(c: Codec, total: Outcome, d: Decoder, input: Bytes, pos: nat, r: Result)
    requires d.Decoder? && pos <= |input| && Sensible(c, d, input[pos..], r) && total == Run(c, d, input[pos..])
    ensures r.0 != Continue ==> Stopped(c, total, r.1, input, r.0, pos + r.2)
    ensures r.0 == Continue ==> pos + r.2 <= |input| && total == Run(c, r.1, input[pos + r.2..])
    ensures r.0 == Continue && r.2 == 0 ==> r.1.Decoder? && Rank(r.1) < Rank(d)
  {
    assert input[pos..][r.2..] == input[pos + r.2..];
  }

  /** Turns that consume nothing: a representation byte left for the index, or an empty name. */
  function Rank(d: Decoder): nat
    requires d.Decoder?
  {
    match d.phase
    case ExpectSize => 1
    case Start => 1
    case Opcode => 1
    case ReadStr(_, _, _, _) => 1
    case _ => 0
  }
}
