/**
 * The sending side of flow control against any peer whatever: what the windows amount to after any run, and that no
 * stream waits for a window that is open.  A DATA frame is charged when it has been sent, so updates and settings
 * may come between packing it and charging it.
 */
module FlowSender {
  import opened Bytes
  import opened FlowLedger

  /** What a stream has to do with sending DATA; flow and user are the two reasons to defer its item. */
  datatype Out = Out(window: int, item: bool, flow: bool, user: bool, closing: bool)
  {
    /** The item is in the queues: neither reason holds it back. */
    predicate Waits() {
      item && !flow && !user
    }
  }

  datatype Packed = Packed(i: int, len: nat)

  /** The windows of the connection and the streams, and the DATA frame that is being sent. */
  datatype Sends = Sends(conn: int, initial: nat, streams: map<int, Out>, packed: Option<Packed>)

  datatype Event =
    | Open(i: int)
    | Close(i: int)
    | Attach(i: int)
    | Pack(i: int, len: nat)
    | Pause(i: int)
    | Resume(i: int)
    | Charge(eof: bool)
    | Grant(i: int, inc: nat)
    | Setting(v: nat)

  function Detached(o: Out): Out {
    o.(item := false, flow := false, user := false)
  }

  /** An item that waited for the window goes back to the queues when the window opens. */
  function Woken(o: Out): Out {
    if o.window > 0 && o.item && o.flow then o.(flow := false) else o
  }

  /** `update_remote_initial_window_size_func`: a window that does not fit 32 bits resets the stream. */
  function Moved(o: Out, to: nat, before: nat): Out {
    match Shifted(o.window, to, before)
    case Failed => o.(closing := true)
    case Ok(w) => Woken(o.(window := w))
  }

  /** What nghttp2 does to pick and to pack: a stream that waits, and the connection's window is open. */
  predicate Possible(s: Sends, e: Event) {
    match e
    case Open(i) => i !in s.streams && i != CONNECTION
    case Close(i) => true
    case Attach(i) => i in s.streams && !s.streams[i].item
    case Pack(i, len) =>
      && s.packed == None && s.conn > 0 && i in s.streams && s.streams[i].Waits()
      && (s.streams[i].window > 0 ==> len <= s.streams[i].window && len <= s.conn)
    case Pause(i) =>
      && s.packed == None && s.conn > 0 && i in s.streams && s.streams[i].Waits() && s.streams[i].window > 0
      && !s.streams[i].closing
    case Resume(i) => i in s.streams && s.streams[i].item
    case Charge(_) => s.packed.Some?
    case Grant(_, inc) => inc > 0
    case Setting(v) => v <= MAX_WINDOW
  }

  /** DATA for stream i (`session_prep_frame`): not on a stream that is closing, and deferred if the window is shut. */
  function Prepared(s: Sends, i: int, len: nat): Sends
    requires i in s.streams
  {
    var o := s.streams[i];
    if o.closing then s.(streams := s.streams[i := Detached(o)])
    else if o.window <= 0 then s.(streams := s.streams[i := o.(flow := true)])
    else s.(packed := Some(Packed(i, len)))
  }

  /** The frame is out (`session_after_frame_sent1`). */
  function Charged(s: Sends, eof: bool): Sends
    requires s.packed.Some?
  {
    var i, len := s.packed.value.i, s.packed.value.len;
    var s1 := s.(conn := s.conn - len, packed := None);
    if i !in s.streams then s1
    else
      var o := s.streams[i].(window := s.streams[i].window - len);
      s1.(streams := s.streams[i := if eof then Detached(o) else o])
  }

  /** A WINDOW_UPDATE: Failed ends the connection, and a stream's window that would overflow resets the stream. */
  function Updated(s: Sends, i: int, inc: nat): Result<Sends> {
    if i == CONNECTION then
      if MAX_WINDOW - inc < s.conn then Failed else Ok(s.(conn := s.conn + inc))
    else if i !in s.streams then Ok(s)
    else
      var o := s.streams[i];
      var o' := if MAX_WINDOW - inc < o.window then o.(closing := true) else Woken(o.(window := o.window + inc));
      Ok(s.(streams := s.streams[i := o']))
  }

  function Reset(s: Sends, v: nat): Sends {
    s.(initial := v, streams := map i | i in s.streams :: Moved(s.streams[i], v, s.initial))
  }

  function Next(s: Sends, e: Event): Result<Sends>
    requires Possible(s, e)
  {
    match e
    case Open(i) => Ok(s.(streams := s.streams[i := Out(s.initial, false, false, false, false)]))
    case Close(i) => Ok(s.(streams := s.streams - {i}))
    case Attach(i) => Ok(s.(streams := s.streams[i := s.streams[i].(item := true)]))
    case Pack(i, len) => Ok(Prepared(s, i, len))
    case Pause(i) => Ok(s.(streams := s.streams[i := s.streams[i].(user := true)]))
    case Resume(i) => Ok(s.(streams := s.streams[i := s.streams[i].(user := false)]))
    case Charge(eof) => Ok(Charged(s, eof))
    case Grant(i, inc) => Updated(s, i, inc)
    case Setting(v) => Ok(Reset(s, v))
  }

  // ---- what has been granted and sent

  /** The increments a window has taken, the bytes charged to it, and whether a setting ever failed to apply to it. */
  datatype Log = Log(incs: nat, bytes: nat, missed: bool)

  type Logs = map<int, Log>

  function Noted(s: Sends, h: Logs, e: Event): Logs
    requires Possible(s, e) && CONNECTION in h && (forall i | i in s.streams :: i in h)
  {
    match e
    case Open(i) => h[i := Log(0, 0, false)]
    case Charge(_) =>
      var i, len := s.packed.value.i, s.packed.value.len;
      var h1 := h[CONNECTION := h[CONNECTION].(bytes := h[CONNECTION].bytes + len)];
      if i in s.streams then h1[i := h1[i].(bytes := h1[i].bytes + len)] else h1
    case Grant(i, inc) =>
      var w := if i == CONNECTION then s.conn else if i in s.streams then s.streams[i].window else MAX_WINDOW;
      if MAX_WINDOW - inc < w then h else h[i := h[i].(incs := h[i].incs + inc)]
    case Setting(v) =>
      map i | i in h ::
        if i in s.streams && Shifted(s.streams[i].window, v, s.initial) == Failed then h[i].(missed := true) else h[i]
    case _ => h
  }

  // ---- the invariant

  function PackedFor(s: Sends, i: int): nat {
    if s.packed.Some? && s.packed.value.i == i then s.packed.value.len else 0
  }

  /** The connection's window is what it started with, what was granted and what was sent; the frame packed fits it. */
  predicate ConnectionOk(s: Sends, h: Logs) {
    && CONNECTION in h && s.conn == INITIAL_WINDOW + h[CONNECTION].incs - h[CONNECTION].bytes
    && 0 <= s.conn <= MAX_WINDOW && (s.packed.Some? ==> s.packed.value.len <= s.conn)
  }

  /**
   * So is a stream's window, with the initial size as it is now; and an item is deferred for flow control only while
   * the window is shut.
   */
  predicate StreamOk(s: Sends, h: Logs, i: int)
    requires i in s.streams
  {
    var o := s.streams[i];
    && i in h && o.window <= MAX_WINDOW
    && (!h[i].missed ==>
          && o.window == s.initial + h[i].incs - h[i].bytes
          && o.window - PackedFor(s, i) >= s.initial - MAX_WINDOW)
    && (h[i].missed ==> o.closing)
    && (o.flow ==> o.item && o.window <= 0) && (o.user ==> o.item)
  }

  ghost predicate Right(s: Sends, h: Logs) {
    && ConnectionOk(s, h) && s.initial <= MAX_WINDOW && CONNECTION !in s.streams
    && forall i | i in s.streams :: StreamOk(s, h, i)
  }

  lemma ChargeKeeps(s: Sends, h: Logs, eof: bool)
    requires Right(s, h) && Possible(s, Charge(eof))
    ensures Right(Next(s, Charge(eof)).value, Noted(s, h, Charge(eof)))
  {
    var t, h' := Next(s, Charge(eof)).value, Noted(s, h, Charge(eof));
    forall i | i in t.streams ensures StreamOk(t, h', i) {
      assert StreamOk(s, h, i);
    }
  }

  lemma UpdateKeeps(s: Sends, h: Logs, j: int, inc: nat)
    requires Right(s, h) && Possible(s, Grant(j, inc)) && Next(s, Grant(j, inc)).Ok?
    ensures Right(Next(s, Grant(j, inc)).value, Noted(s, h, Grant(j, inc)))
  {
    var t, h' := Next(s, Grant(j, inc)).value, Noted(s, h, Grant(j, inc));
    forall i | i in t.streams ensures StreamOk(t, h', i) {
      assert StreamOk(s, h, i);
    }
  }

  lemma SettingKeeps(s: Sends, h: Logs, v: nat)
    requires Right(s, h) && Possible(s, Setting(v))
    ensures Right(Next(s, Setting(v)).value, Noted(s, h, Setting(v)))
  {
    var t, h' := Next(s, Setting(v)).value, Noted(s, h, Setting(v));
    forall i | i in t.streams ensures StreamOk(t, h', i) {
      assert StreamOk(s, h, i);
    }
  }

  lemma OtherKeeps(s: Sends, h: Logs, e: Event)
    requires Right(s, h) && Possible(s, e) && !e.Charge? && !e.Grant? && !e.Setting?
    ensures Next(s, e).Ok? && Right(Next(s, e).value, Noted(s, h, e))
  {
    var t, h' := Next(s, e).value, Noted(s, h, e);
    forall i | i in t.streams ensures StreamOk(t, h', i) {
      assert i in s.streams ==> StreamOk(s, h, i);
    }
  }

  lemma NextRight(s: Sends, h: Logs, e: Event)
    requires Right(s, h) && Possible(s, e) && Next(s, e).Ok?
    ensures Right(Next(s, e).value, Noted(s, h, e))
  {
    match e
    case Charge(eof) => ChargeKeeps(s, h, eof);
    case Grant(i, inc) => UpdateKeeps(s, h, i, inc);
    case Setting(v) => SettingKeeps(s, h, v);
    case _ => OtherKeeps(s, h, e);
  }

  /**
   * The only connection error is an increment that takes the connection's window over the limit, and a setting is
   * missed only by a window that it takes over the limit: no window ever falls out of 32 bits.
   */
  lemma FailsOnlyOverLimit(s: Sends, h: Logs, e: Event)
    requires Right(s, h) && Possible(s, e)
    ensures Next(s, e) == Failed <==> e.Grant? && e.i == CONNECTION && s.conn + e.inc > MAX_WINDOW
    ensures e.Setting? ==>
              forall i | i in s.streams && !h[i].missed ::
                Shifted(s.streams[i].window, e.v, s.initial) == Failed
                <==> s.streams[i].window + e.v - s.initial > MAX_WINDOW
  {
    forall i | i in s.streams ensures StreamOk(s, h, i) {
    }
  }

  // ---- the two models of the sender agree

  /** The windows alone, as FlowLedger sees them. */
  function View(s: Sends, acks: nat): Sender {
    Sender(s.conn, s.initial, acks, map i | i in s.streams :: s.streams[i].window)
  }

  /** Between nghttp2's own ends, where nothing fails, the operations are those of the ledger. */
  lemma AgreesWithLedger(s: Sends, acks: nat, e: Event)
    requires Possible(s, e)
    ensures e.Grant? && Increased(View(s, acks), e.i, e.inc).Ok? ==>
              Next(s, e).Ok? && View(Next(s, e).value, acks) == Increased(View(s, acks), e.i, e.inc).value
    ensures e.Setting? && FlowLedger.Reset(View(s, acks), e.v).Ok? ==>
              View(Next(s, e).value, acks) == FlowLedger.Reset(View(s, acks), e.v).value
    ensures e.Pack? && Next(s, e).value.packed.Some? ==>
              && Conforms(View(s, acks), e.i, e.len)
              && View(Charged(Next(s, e).value, false), acks) == Spent(View(s, acks), e.i, e.len)
  {
    if e.Setting? {
      forall i | i in s.streams && FlowLedger.Reset(View(s, acks), e.v).Ok?
        ensures Moved(s.streams[i], e.v, s.initial).window == s.streams[i].window + e.v - s.initial
      {
        assert View(s, acks).windows[i] == s.streams[i].window;
      }
    }
  }

  // ---- runs

  const START: Sends := Sends(INITIAL_WINDOW, INITIAL_WINDOW, map[], None)
  const NOTHING: Logs := map[CONNECTION := Log(0, 0, false)]

  ghost predicate Runs(s: Sends, es: seq<Event>)
    decreases |es|
  {
    es == [] || (Possible(s, es[0]) && Next(s, es[0]).Ok? && Runs(Next(s, es[0]).value, es[1..]))
  }

  ghost function AfterAll(s: Sends, h: Logs, es: seq<Event>): (r: (Sends, Logs))
    requires Runs(s, es) && Right(s, h)
    ensures Right(r.0, r.1)
    decreases |es|
  {
    if es == [] then (s, h)
    else
      NextRight(s, h, es[0]);
      AfterAll(Next(s, es[0]).value, Noted(s, h, es[0]), es[1..])
  }

  /**
   * After any run, whatever the peer granted and whenever it changed its settings: the connection's window is exactly
   * what it was granted less what was sent, within 0 and 2^31-1; so is every stream's, with the initial size as it
   * is now; and a stream whose window is open and that no one paused is in the queues if it has an item.
   */
  lemma WindowsAreLedgers(es: seq<Event>)
    requires Runs(START, es)
    ensures Right(START, NOTHING)
    ensures var (s, h) := AfterAll(START, NOTHING, es);
            && CONNECTION in h && s.conn == INITIAL_WINDOW + h[CONNECTION].incs - h[CONNECTION].bytes
            && 0 <= s.conn <= MAX_WINDOW
            && forall i | i in s.streams ::
                 var o := s.streams[i];
                 && i in h
                 && (!h[i].missed ==>
                       o.window == s.initial + h[i].incs - h[i].bytes && 0 - MAX_WINDOW <= o.window <= MAX_WINDOW)
                 && (o.flow ==> o.item && o.window <= 0)
                 && (o.item && !o.user && o.window > 0 ==> o.Waits())
  {
    var (s, h) := AfterAll(START, NOTHING, es);
    forall i | i in s.streams ensures StreamOk(s, h, i) {
    }
  }

  // ---- what is sent

  /**
   * DATA is packed if and only if the stream is not closing and its window is open; otherwise the stream does not
   * wait any more.
   */
  lemma PacksIfOpen(s: Sends, i: int, len: nat)
    requires Possible(s, Pack(i, len))
    ensures Next(s, Pack(i, len)).Ok?
    ensures var t, open := Next(s, Pack(i, len)).value, !s.streams[i].closing && s.streams[i].window > 0;
            && t.packed == (if open then Some(Packed(i, len)) else None)
            && t.conn == s.conn && t.streams.Keys == s.streams.Keys
            && (open ==> t.streams == s.streams)
            && (!open ==> !t.streams[i].Waits() && t.streams[i].window == s.streams[i].window)
            && (!open && !s.streams[i].closing ==> t.streams[i].item && t.streams[i].flow)
  {
  }

  function LengthPacked(s: Sends): nat {
    if s.packed.Some? then s.packed.value.len else 0
  }

  /** The lengths of all that was to be packed when the window was open. */
  ghost function Offered(s: Sends, es: seq<Event>): nat
    requires Runs(s, es)
    decreases |es|
  {
    if es == [] then 0
    else
      var e := es[0];
      (if e.Pack? && !s.streams[e.i].closing && s.streams[e.i].window > 0 then e.len else 0)
      + Offered(Next(s, e).value, es[1..])
  }

  /** What the peer granted to the connection. */
  function Granted(es: seq<Event>): nat {
    if es == [] then 0
    else (if es[0].Grant? && es[0].i == CONNECTION then es[0].inc else 0) + Granted(es[1..])
  }

  lemma {:induction false} TotalsOverRun(s: Sends, h: Logs, es: seq<Event>)
    requires Runs(s, es) && Right(s, h)
    ensures var (t, k) := AfterAll(s, h, es);
            && CONNECTION in h && CONNECTION in k
            && k[CONNECTION].bytes + LengthPacked(t) == h[CONNECTION].bytes + LengthPacked(s) + Offered(s, es)
            && k[CONNECTION].incs == h[CONNECTION].incs + Granted(es)
    decreases |es|
  {
    if es != [] {
      NextRight(s, h, es[0]);
      NextTotals(s, h, es[0]);
      TotalsOverRun(Next(s, es[0]).value, Noted(s, h, es[0]), es[1..]);
    }
  }

  lemma NextTotals(s: Sends, h: Logs, e: Event)
    requires Right(s, h) && Possible(s, e) && Next(s, e).Ok?
    ensures var t, k := Next(s, e).value, Noted(s, h, e);
            && CONNECTION in k
            && k[CONNECTION].bytes + LengthPacked(t)
               == h[CONNECTION].bytes + LengthPacked(s)
                  + (if e.Pack? && !s.streams[e.i].closing && s.streams[e.i].window > 0 then e.len else 0)
            && k[CONNECTION].incs == h[CONNECTION].incs + if e.Grant? && e.i == CONNECTION then e.inc else 0
  {
  }

  /** The connection's window after any run, in terms of the run: what was granted less what could be sent. */
  lemma WindowOverRun(es: seq<Event>)
    requires Runs(START, es)
    ensures Right(START, NOTHING)
    ensures var s := AfterAll(START, NOTHING, es).0;
            s.conn == INITIAL_WINDOW + Granted(es) - (Offered(START, es) - LengthPacked(s))
  {
    TotalsOverRun(START, NOTHING, es);
  }

  // ---- what an event does to a stream

  /** The bytes that e charges to stream i. */
  function ChargedTo(s: Sends, e: Event, i: int): nat
    requires Possible(s, e)
  {
    if e.Charge? && s.packed.value.i == i then s.packed.value.len else 0
  }

  /** How far e moves the window of stream i the other way; a move that would take it out of its range is not made. */
  function MovedBy(s: Sends, e: Event, i: int): int
    requires i in s.streams
  {
    if e.Grant? && e.i == i && s.streams[i].window + e.inc <= MAX_WINDOW then e.inc
    else if e.Setting? && MIN_WINDOW <= s.streams[i].window + e.v - s.initial <= MAX_WINDOW then e.v - s.initial
    else 0
  }

  /** e moves the window of stream i, or would but for the distance being 0. */
  predicate Shifts(s: Sends, e: Event, i: int)
    requires i in s.streams
  {
    || (e.Grant? && e.i == i && s.streams[i].window + e.inc <= MAX_WINDOW)
    || (e.Setting? && MIN_WINDOW <= s.streams[i].window + e.v - s.initial <= MAX_WINDOW)
  }

  /** A stream that stays: its window, and what keeps its item from being sent. */
  lemma StreamFollows(s: Sends, e: Event, i: int)
    requires Possible(s, e) && Next(s, e).Ok? && i in s.streams && e != Close(i) && i != CONNECTION
    ensures var t := Next(s, e).value;
            && i in t.streams
            && var o, o' := s.streams[i], t.streams[i];
               && o'.window == o.window + MovedBy(s, e, i) - ChargedTo(s, e, i)
               && (o'.closing <==>
                     || o.closing || (e.Grant? && e.i == i && o.window + e.inc > MAX_WINDOW)
                     || (e.Setting? && !(MIN_WINDOW <= o.window + e.v - s.initial <= MAX_WINDOW)))
               && (o'.item <==>
                     || e == Attach(i)
                     || (o.item && !(e.Pack? && e.i == i && o.closing)
                         && !(e.Charge? && e.eof && s.packed.value.i == i)))
               && ((o.user ==> o.item) ==> (o'.user <==> o'.item && (e == Pause(i) || (o.user && e != Resume(i)))))
               && ((o.flow ==> o.item) ==>
                     (o'.flow <==>
                        || (e.Pack? && e.i == i && !o.closing && o.window <= 0)
                        || (o.flow && o'.item && !(Shifts(s, e, i) && o'.window > 0))))
  {
  }

  /** A stream comes with a whole window, and goes. */
  lemma StreamsComeAndGo(s: Sends, e: Event)
    requires Possible(s, e) && Next(s, e).Ok?
    ensures var t := Next(s, e).value;
            && t.streams.Keys == (match e case Open(i) => s.streams.Keys + {i}
                                          case Close(i) => s.streams.Keys - {i}
                                          case _ => s.streams.Keys)
            && (e.Open? ==> t.streams[e.i] == Out(s.initial, false, false, false, false))
            && t.initial == (if e.Setting? then e.v else s.initial)
  {
  }
}
