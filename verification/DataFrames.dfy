/**
 * Receiving a DATA frame in pieces: padding is taken off again, and every byte of the payload is charged to the
 * connection's window once, whatever becomes of the stream meanwhile.
 */
module DataFrames {
  import opened Bytes
  import opened FrameHeader
  import opened FramePadding
  import opened HeaderFrames

  /** What becomes of the stream when a piece comes in: it is there, it is gone, or it is found to break the rules. */
  datatype Mode = There | Gone | Refused

  datatype Stage = Pad(left: nat) | Data(left: nat, pad: nat) | Ignored(left: nat) | Over | Bad

  /** The stage, the bytes given to the application, and what was charged to the connection and to the stream. */
  datatype Intake = Intake(stage: Stage, data: Bytes, conn: nat, stream: nat)

  function Left(r: Intake): nat {
    match r.stage
    case Pad(left) => left
    case Data(left, _) => left
    case Ignored(left) => left
    case _ => 0
  }

  /** Nothing is left of the payload: the frame is over. */
  function Ended(r: Intake): Intake {
    if !r.stage.Bad? && Left(r) == 0 then r.(stage := Over) else r
  }

  /** The frame header is in (`session_on_data_received_fail_fast` may say that the payload is to be ignored). */
  function Begin(hd: FrameHd, ignore: bool): Intake {
    var r := Intake(Over, [], 0, 0);
    if ignore then Ended(r.(stage := Ignored(hd.length)))
    else if hd.Has(PADDED) then r.(stage := if hd.length < 1 then Bad else Pad(hd.length))
    else Ended(r.(stage := Data(hd.length, 0)))
  }

  function Charge(r: Intake, n: nat, stream: bool): Intake {
    r.(conn := r.conn + n, stream := r.stream + if stream then n else 0)
  }

  /** State READ_PAD_DATA. */
  function FeedPad(r: Intake, b: byte, mode: Mode): Intake
    requires r.stage.Pad? && r.stage.left > 0
  {
    var r1, left := Charge(r, 1, mode != Gone), r.stage.left - 1;
    if b > left then r1.(stage := Bad) else Ended(r1.(stage := Data(left, b)))
  }

  /** State READ_DATA, or IGN_DATA once the stream is gone or refused. */
  function FeedData(r: Intake, s: Bytes, mode: Mode): Intake
    requires (r.stage.Data? || r.stage.Ignored?) && |s| <= Left(r)
  {
    if r.stage.Ignored? || mode == Gone then Ended(Charge(r, |s|, false).(stage := Ignored(Left(r) - |s|)))
    else
      var e, left := Effective(Left(r), r.stage.pad, |s|), Left(r) - |s|;
      var r1 := Charge(r, |s|, true);
      if mode == Refused && e > 0 then Ended(r1.(stage := Ignored(left)))
      else Ended(r1.(data := r.data + s[..e], stage := Data(left, r.stage.pad)))
  }

  /** A piece of the payload. */
  function Feed(r: Intake, s: Bytes, mode: Mode): Intake
    requires |s| <= Left(r)
  {
    if s == [] then r
    else if r.stage.Pad? then
      var r1 := FeedPad(r, s[0], mode);
      if r1.stage.Data? && |s| > 1 then FeedData(r1, s[1..], mode) else r1
    else FeedData(r, s, mode)
  }

  // ---- charging

  /** Every byte of a piece is charged to the connection once, and to the stream at most once. */
  lemma ChargedOnce(r: Intake, s: Bytes, mode: Mode)
    requires |s| <= Left(r)
    ensures var t := Feed(r, s, mode);
            && (!t.stage.Bad? ==> t.conn == r.conn + |s| && Left(t) == Left(r) - |s|)
            && r.stream <= t.stream && t.stream - r.stream <= t.conn - r.conn
            && (mode == There && !t.stage.Bad? && !r.stage.Ignored? ==> t.stream == r.stream + |s|)
            && (t.stage.Bad? && !r.stage.Bad?
                ==> s != [] && r.stage.Pad? && s[0] >= r.stage.left && t.conn == r.conn + 1)
  {
  }

  /** Padding longer than what is left of the payload is refused, and nothing else is. */
  lemma PaddingIsChecked(r: Intake, s: Bytes, mode: Mode)
    requires |s| <= Left(r) && s != []
    ensures Feed(r, s, mode).stage.Bad? <==> r.stage.Bad? || (r.stage.Pad? && s[0] > r.stage.left - 1)
  {
  }

  /** A stream that is gone, or whose payload is ignored, is charged nothing, and no data is given out for it. */
  lemma IgnoredIsDropped(r: Intake, s: Bytes, mode: Mode)
    requires |s| <= Left(r) && (r.stage.Ignored? || mode != There)
    ensures var t := Feed(r, s, mode);
            && t.data == r.data && (r.stage.Ignored? || mode == Gone ==> t.stream == r.stream)
            && (r.stage.Ignored? ==> t.stage.Ignored? || t.stage.Over?)
            && (mode == Gone && s != [] && r.stage.Data? ==> t.stage.Ignored? || t.stage.Over?)
  {
  }

  datatype Piece = Piece(bytes: Bytes, mode: Mode)

  function Size(ps: seq<Piece>): nat {
    if ps == [] then 0 else |ps[0].bytes| + Size(ps[1..])
  }

  function FeedAll(r: Intake, ps: seq<Piece>): Intake
    requires Size(ps) <= Left(r)
    decreases |ps|
  {
    if ps == [] then r
    else
      var t := Feed(r, ps[0].bytes, ps[0].mode);
      ChargedOnce(r, ps[0].bytes, ps[0].mode);
      if t.stage.Bad? then t else FeedAll(t, ps[1..])
  }

  /** Over a whole frame, on every path: the connection is charged for the payload, no more and no less. */
  lemma {:induction false} FrameChargedOnce(r: Intake, ps: seq<Piece>)
    requires Size(ps) <= Left(r)
    ensures var t := FeedAll(r, ps);
            !t.stage.Bad? ==> t.conn == r.conn + Size(ps) && Left(t) == Left(r) - Size(ps)
    decreases |ps|
  {
    if ps != [] {
      ChargedOnce(r, ps[0].bytes, ps[0].mode);
      var t := Feed(r, ps[0].bytes, ps[0].mode);
      if !t.stage.Bad? {
        FrameChargedOnce(t, ps[1..]);
      }
    }
  }

  // ---- padding

  /** While the stream is there, pieces can be put together. */
  lemma DataConcat(r: Intake, s: Bytes, t: Bytes)
    requires r.stage.Data? && |s| + |t| <= r.stage.left
    requires s != [] && t != []
    ensures FeedData(r, s, There).stage == Data(r.stage.left - |s|, r.stage.pad)
    ensures FeedData(FeedData(r, s, There), t, There) == FeedData(r, s + t, There)
  {
    var left, pad := r.stage.left, r.stage.pad;
    var e, f := Effective(left, pad, |s|), Effective(left - |s|, pad, |t|);
    assert Effective(left, pad, |s + t|) == e + f;
    if f > 0 {
      assert e == |s|;
    }
    assert r.data + (s + t)[..e + f] == (r.data + s[..e]) + t[..f];
  }

  lemma FeedConcat(r: Intake, s: Bytes, t: Bytes)
    requires |s| + |t| <= Left(r) && !Feed(r, s + t, There).stage.Bad? && !r.stage.Ignored?
    ensures !Feed(r, s, There).stage.Bad? && |t| <= Left(Feed(r, s, There))
    ensures Feed(Feed(r, s, There), t, There) == Feed(r, s + t, There)
  {
    ChargedOnce(r, s, There);
    ChargedOnce(r, s + t, There);
    if s == [] {
      assert s + t == t;
    } else if t == [] {
      assert s + t == s;
    } else if r.stage.Pad? {
      var r1 := FeedPad(r, s[0], There);
      assert (s + t)[0] == s[0] && (s + t)[1..] == s[1..] + t;
      if |s| > 1 {
        DataConcat(r1, s[1..], t);
      } else {
        assert s[1..] + t == t;
      }
    } else {
      DataConcat(r, s, t);
    }
  }

  function AllThere(pieces: seq<Bytes>): seq<Piece> {
    if pieces == [] then [] else [Piece(pieces[0], There)] + AllThere(pieces[1..])
  }

  lemma {:induction false} PiecesConcat(r: Intake, pieces: seq<Bytes>)
    requires |Concat(pieces)| <= Left(r) && !Feed(r, Concat(pieces), There).stage.Bad? && !r.stage.Ignored?
    ensures Size(AllThere(pieces)) == |Concat(pieces)|
    ensures FeedAll(r, AllThere(pieces)) == Feed(r, Concat(pieces), There)
    decreases |pieces|
  {
    if pieces != [] {
      var ps := AllThere(pieces);
      assert ps[1..] == AllThere(pieces[1..]) && ps[0] == Piece(pieces[0], There);
      FeedConcat(r, pieces[0], Concat(pieces[1..]));
      NotIgnored(r, pieces[0]);
      PiecesConcat(Feed(r, pieces[0], There), pieces[1..]);
    }
  }

  lemma NotIgnored(r: Intake, s: Bytes)
    requires |s| <= Left(r) && !r.stage.Ignored?
    ensures !Feed(r, s, There).stage.Ignored?
  {
  }

  /**
   * Padding is undone: the payload of a padded frame, in any pieces, yields the original payload and nothing else,
   * and all of it is charged to both windows.
   */
  lemma PaddingUndone(hd: FrameHd, payload: Bytes, padlen: nat, pieces: seq<Bytes>)
    requires hd.Valid() && hd.length == |payload| && !hd.Has(PADDED) && padlen <= 256 && PaddedHd(hd, padlen).Valid()
    requires Concat(pieces) == FirstFrame(hd, payload, padlen)[HDLEN..]
    ensures var hd' := if padlen == 0 then hd else PaddedHd(hd, padlen);
            && Size(AllThere(pieces)) == Left(Begin(hd', false)) == |payload| + padlen
            && FeedAll(Begin(hd', false), AllThere(pieces))
               == Intake(Over, payload, |payload| + padlen, |payload| + padlen)
  {
    var hd' := if padlen == 0 then hd else PaddedHd(hd, padlen);
    WholeFed(hd, payload, padlen);
    PiecesConcat(Begin(hd', false), pieces);
  }

  lemma WholeFed(hd: FrameHd, payload: Bytes, padlen: nat)
    requires hd.Valid() && hd.length == |payload| && !hd.Has(PADDED) && padlen <= 256 && PaddedHd(hd, padlen).Valid()
    ensures var hd', s := if padlen == 0 then hd else PaddedHd(hd, padlen), FirstFrame(hd, payload, padlen)[HDLEN..];
            && |s| == Left(Begin(hd', false)) == |payload| + padlen
            && Feed(Begin(hd', false), s, There) == Intake(Over, payload, |payload| + padlen, |payload| + padlen)
  {
    var hd' := if padlen == 0 then hd else PaddedHd(hd, padlen);
    if padlen == 0 {
      UnpaddedWhole(hd, payload);
      assert FirstFrame(hd, payload, padlen)[HDLEN..] == payload;
    } else {
      PaddedSet(hd);
      PaddedWhole(hd', payload, padlen);
      assert FirstFrame(hd, payload, padlen)[HDLEN..] == [padlen - 1] + (payload + Zeros(padlen - 1));
    }
  }

  /** The payload in one piece. */
  lemma UnpaddedWhole(hd: FrameHd, payload: Bytes)
    requires hd.length == |payload| && !hd.Has(PADDED)
    ensures Left(Begin(hd, false)) == |payload|
    ensures Feed(Begin(hd, false), payload, There) == Intake(Over, payload, |payload|, |payload|)
  {
    assert payload != [] ==> FeedData(Begin(hd, false), payload, There).data == [] + payload[..|payload|];
  }

  lemma PaddedWhole(hd: FrameHd, payload: Bytes, padlen: nat)
    requires 1 <= padlen <= 256 && hd.length == |payload| + padlen && hd.Has(PADDED)
    ensures Left(Begin(hd, false)) == |payload| + padlen
    ensures Feed(Begin(hd, false), [padlen - 1] + (payload + Zeros(padlen - 1)), There)
         == Intake(Over, payload, |payload| + padlen, |payload| + padlen)
  {
    var pad: byte, rest := padlen - 1, payload + Zeros(padlen - 1);
    var s := [pad] + rest;
    assert s[0] == pad && s[1..] == rest;
    if rest != [] {
      assert Effective(|rest|, padlen - 1, |rest|) == |payload|;
      assert [] + rest[..|payload|] == payload;
    }
  }

  // ---- in place

  datatype State = ReadPadData | ReadData | IgnData | Reset | Failed

  /** The DATA states of `nghttp2_session_mem_recv`. */
  class DataFrame {
    var state: State
    var payloadleft: nat
    var padlen: nat
    // what the application has been given, and what has been charged
    var data: Bytes
    var conn: nat
    var stream: nat

    /** The frame header is in. */
    constructor (hd: FrameHd, ignore: bool)
      ensures Value() == Begin(hd, ignore) && Valid()
    {
      payloadleft, padlen, data, conn, stream := hd.length, 0, [], 0, 0;
      if ignore {
        state := if hd.length == 0 then Reset else IgnData;
      } else if hd.Has(PADDED) {
        state := if hd.length < 1 then Failed else ReadPadData;
      } else {
        state := if hd.length == 0 then Reset else ReadData;
      }
    }

    ghost predicate Valid()
      reads this
    {
      state == ReadPadData || state == ReadData || state == IgnData ==> payloadleft > 0
    }

    ghost function Value(): Intake
      reads this
    {
      Intake(match state
             case ReadPadData => Pad(payloadleft)
             case ReadData => Data(payloadleft, if padlen == 0 then 0 else padlen - 1)
             case IgnData => Ignored(payloadleft)
             case Reset => Over
             case Failed => Bad,
             data, conn, stream)
    }

    /** State READ_PAD_DATA. */
    method TurnPad(b: byte, there: bool)
      requires Valid() && state == ReadPadData
      modifies this
      ensures Valid() && Value() == FeedPad(old(Value()), b, if there then There else Gone)
    {
      payloadleft := payloadleft - 1;
      conn := conn + 1;
      if there {
        stream := stream + 1;
      }
      if b > payloadleft {
        state := Failed;
      } else {
        padlen := b + 1;
        state := if payloadleft == 0 then Reset else ReadData;
      }
    }

    /** State READ_DATA. */
    method TurnData(s: Bytes, refuse: bool)
      requires Valid() && state == ReadData && s != [] && |s| <= payloadleft
      modifies this
      ensures Valid() && Value() == FeedData(old(Value()), s, if refuse then Refused else There)
    {
      var e := Effective(payloadleft, if padlen == 0 then 0 else padlen - 1, |s|);
      payloadleft := payloadleft - |s|;
      conn, stream := conn + |s|, stream + |s|;
      if e > 0 && refuse {
        state := IgnData;
      } else {
        data := data + s[..e];
      }
      if payloadleft == 0 {
        state := Reset;
      }
    }

    /** State IGN_DATA, also for a stream that has gone in the middle of the frame. */
    method TurnIgnore(s: Bytes)
      requires Valid() && (state == ReadData || state == IgnData) && s != [] && |s| <= payloadleft
      modifies this
      ensures Valid() && Value() == FeedData(old(Value()), s, Gone)
    {
      payloadleft := payloadleft - |s|;
      conn := conn + |s|;
      state := if payloadleft == 0 then Reset else IgnData;
    }

    /** The part of a piece that belongs to this frame; n tells how long it was. */
    method MemRecv(input: Bytes, mode: Mode) returns (n: nat)
      requires Valid() && (state == ReadPadData || state == ReadData || state == IgnData)
      modifies this
      ensures Valid() && n == Min(|input|, old(payloadleft)) && Value() == Feed(old(Value()), input[..n], mode)
    {
      n := Min(|input|, payloadleft);
      var s := input[..n];
      if s == [] {
        return;
      }
      if state == ReadPadData {
        TurnPad(s[0], mode != Gone);
        if state != ReadData || |s| == 1 {
          return;
        }
        s := s[1..];
      }
      if state == IgnData || mode == Gone {
        TurnIgnore(s);
      } else {
        TurnData(s, mode == Refused);
      }
    }
  }
}
