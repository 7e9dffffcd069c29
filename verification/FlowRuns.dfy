/**
 * Runs of flow control between two nghttp2 endpoints: the ledgers hold throughout, and FLOW_CONTROL_ERROR is
 * raised in exactly one situation, in which the peer has done nothing wrong.
 */
module FlowRuns {
  import opened FlowLedger
  import opened FlowSafety

  // ---- each event, for one stream

  lemma SendDataKeeps(l: Link, j: int, len: nat, should: Rule, i: int)
    requires Possible(l, SendData(j, len)) && SettingsOk(l) && StreamOk(l, i) && i != CONNECTION
    ensures StreamOk(Next(l, SendData(j, len), should).value, i)
  {
    var m := Next(l, SendData(j, len), should).value;
    FlightAppend(l.out, Data(j, len), i);
    UnopenedAppend(l.out, Data(j, len), i);
    GoalBounded(l.r.initial, l.r.pending[..Acks(l.out) + l.s.acks]);
    if Live(l, i) {
      WithinAppend(l.out, Data(j, len), i, Got(l, i), l.r.initial, l.r.pending);
    }
  }

  lemma SendAckKeeps(l: Link, should: Rule, i: int)
    requires Possible(l, SendAck) && SettingsOk(l) && StreamOk(l, i) && i != CONNECTION
    ensures StreamOk(Next(l, SendAck, should).value, i)
  {
    FlightAppend(l.out, Ack, i);
    UnopenedAppend(l.out, Ack, i);
    if Live(l, i) {
      WithinAppend(l.out, Ack, i, Got(l, i), l.r.initial, l.r.pending);
    }
  }

  lemma SendOpenKeeps(l: Link, j: int, should: Rule, i: int)
    requires Possible(l, SendOpen(j)) && SettingsOk(l) && StreamOk(l, i) && i != CONNECTION
    ensures StreamOk(Next(l, SendOpen(j), should).value, i)
  {
    FlightAppend(l.out, Open(j), i);
    if i == j {
      OpenAppend(l.out, i);
      SilentBackIncs(l.back, i);
      WithinSilent(l.out, i, l.r.initial, l.r.pending);
      WithinAppend(l.out, Open(j), i, 0, l.r.initial, l.r.pending);
    } else {
      UnopenedAppend(l.out, Open(j), i);
      if Live(l, i) {
        WithinAppend(l.out, Open(j), i, Got(l, i), l.r.initial, l.r.pending);
      }
    }
  }

  /** What a charged window has in all. */
  lemma ChargedHolds(w: Window, n: nat, auto: bool, should: Rule)
    requires w.recv + n <= w.local <= MAX_WINDOW
    ensures var c := Charged(w, n, auto, should);
            c.Ok? && c.value.recv + c.value.queued == w.recv + w.queued + n && c.value.recv <= w.recv + n
            && c.value.local == w.local
  {
  }

  /** n bytes of the first frame are gone: the rest of it, if any, is still to come. */
  lemma FrontTaken(out: seq<Frame>, n: nat, rest: seq<Frame>, i: int)
    requires out != [] && out[0].Data? && n <= out[0].len && i != CONNECTION
    requires rest == if n == out[0].len then out[1..] else [Data(out[0].stream, out[0].len - n)] + out[1..]
    ensures Flight(rest, i) == Flight(out, i) - if out[0].stream == i then n else 0
    ensures out[0].stream != i ==> Unopened(rest, i) == Unopened(out, i)
    ensures out[0].stream == i ==> !Unopened(out, i)
    ensures Open(i) in rest <==> Open(i) in out
    ensures Silent(out, i) ==> Silent(rest, i)
  {
    assert n < out[0].len ==> rest[1..] == out[1..];
    assert out[0] in out;
  }

  lemma FrontWithin(out: seq<Frame>, n: nat, rest: seq<Frame>, i: int, got: nat, less: nat, limit: nat,
                    pending: seq<seq<nat>>)
    requires out != [] && out[0].Data? && n <= out[0].len && i != CONNECTION
    requires rest == if n == out[0].len then out[1..] else [Data(out[0].stream, out[0].len - n)] + out[1..]
    requires Within(out, i, got, limit, pending) && less <= got + if out[0].stream == i then n else 0
    ensures Within(rest, i, less, limit, pending)
  {
    assert n < out[0].len ==> rest[1..] == out[1..];
    WithinLess(rest, i, got + if out[0].stream == i then n else 0, less, limit, pending);
  }

  lemma TakeDataKeeps(l: Link, n: nat, auto: bool, should: Rule, i: int)
    requires Possible(l, Take(n, auto)) && l.out[0].Data? && SettingsOk(l) && StreamOk(l, i) && i != CONNECTION
    requires Next(l, Take(n, auto), should).Ok?
    ensures StreamOk(Next(l, Take(n, auto), should).value, i)
  {
    var m := Next(l, Take(n, auto), should).value;
    FrontTaken(l.out, n, m.out, i);
    if i == l.out[0].stream && i in l.r.windows {
      ChargedHolds(l.r.windows[i], n, auto, should);
    }
    if Unopened(m.out, i) {
      UnopenedHasOpen(m.out, i);
    }
    if Live(l, i) {
      FrontWithin(l.out, n, m.out, i, Got(l, i), Got(m, i), l.r.initial, l.r.pending);
    }
  }

  lemma TakeAckKeeps(l: Link, n: nat, auto: bool, should: Rule, i: int)
    requires Possible(l, Take(n, auto)) && l.out[0].Ack? && SettingsOk(l) && StreamOk(l, i) && i != CONNECTION
    requires Next(l, Take(n, auto), should).Ok?
    ensures StreamOk(Next(l, Take(n, auto), should).value, i)
  {
    var m := Next(l, Take(n, auto), should).value;
    if Live(l, i) {
      WithinLess(m.out, i, Got(l, i), Got(m, i), m.r.initial, m.r.pending);
    }
  }

  lemma TakeOpenKeeps(l: Link, n: nat, auto: bool, should: Rule, i: int)
    requires Possible(l, Take(n, auto)) && l.out[0].Open? && SettingsOk(l) && StreamOk(l, i) && i != CONNECTION
    ensures StreamOk(Next(l, Take(n, auto), should).value, i)
  {
    assert l.out[0] in l.out;
    assert Open(i) in l.out ==> l.out[0] == Open(i) || Open(i) in l.out[1..];
    if Unopened(l.out[1..], i) {
      UnopenedHasOpen(l.out[1..], i);
    }
  }

  lemma SubmitKeeps(l: Link, vs: seq<nat>, should: Rule, i: int)
    requires Possible(l, Submit(vs)) && SettingsOk(l) && StreamOk(l, i) && i != CONNECTION
    ensures StreamOk(Next(l, Submit(vs), should).value, i)
  {
    if Live(l, i) {
      WithinMore(l.out, i, Got(l, i), l.r.initial, l.r.pending, vs);
    }
  }

  lemma SendSettingsKeeps(l: Link, should: Rule, i: int)
    requires Possible(l, SendSettings) && SettingsOk(l) && StreamOk(l, i) && i != CONNECTION
    ensures StreamOk(Next(l, SendSettings, should).value, i)
  {
    IncsAppend(l.back, Settings(l.r.urgent[0]), i);
  }

  lemma SendUpdateKeeps(l: Link, j: int, auto: bool, should: Rule, i: int)
    requires Possible(l, SendUpdate(j, auto)) && SettingsOk(l) && StreamOk(l, i) && i != CONNECTION
    requires j == CONNECTION || StreamOk(l, j)
    requires CONNECTION !in l.r.windows && Next(l, SendUpdate(j, auto), should).Ok?
    ensures StreamOk(Next(l, SendUpdate(j, auto), should).value, i)
  {
    var m := Next(l, SendUpdate(j, auto), should).value;
    var inc := if j == CONNECTION then l.r.conn.queued else l.r.windows[j].queued;
    IncsAppend(l.back, Update(j, inc), i);
    OpensIn(l.back, i);
    if Live(l, i) {
      WithinLess(l.out, i, Got(l, i), Got(m, i), l.r.initial, l.r.pending);
    }
  }

  lemma OpenStreamKeeps(l: Link, j: int, should: Rule, i: int)
    requires Possible(l, OpenStream(j)) && SettingsOk(l) && StreamOk(l, i) && i != CONNECTION
    ensures StreamOk(Next(l, OpenStream(j), should).value, i)
  {
    IncsAppend(l.back, OpenBack(j), i);
    if i == j {
      SilentBackIncs(l.back, i);
      WithinSilent(l.out, i, l.r.initial, l.r.pending);
    }
  }

  lemma DropKeeps(l: Link, e: Event, should: Rule, i: int)
    requires (e.DropSent? || e.DropReceived?) && SettingsOk(l) && StreamOk(l, i) && i != CONNECTION
    ensures StreamOk(Next(l, e, should).value, i)
  {
    if Unopened(l.out, i) {
      UnopenedHasOpen(l.out, i);
    }
  }

  /** A stream's window after the entries of one SETTINGS frame: it moves with the initial size. */
  lemma {:induction false} ResetAllMoves(s: Sender, vs: seq<nat>, i: int)
    requires ResetAll(s, vs).Ok?
    ensures var t := ResetAll(s, vs).value;
            && t.initial == Last(s.initial, vs) && t.windows.Keys == s.windows.Keys
            && t.conn == s.conn && t.acks == s.acks
            && (i in s.windows ==> t.windows[i] - t.initial == s.windows[i] - s.initial)
    decreases |vs|
  {
    if vs != [] {
      ResetAllMoves(Reset(s, vs[0]).value, vs[1..], i);
    }
  }

  lemma TakeReplyKeeps(l: Link, should: Rule, i: int)
    requires Possible(l, TakeReply) && SettingsOk(l) && StreamOk(l, i) && i != CONNECTION
    requires Next(l, TakeReply, should).Ok?
    ensures StreamOk(Next(l, TakeReply, should).value, i)
  {
    OpensIn(l.back, i);
    OpensIn(l.back[1..], i);
    assert l.back[0] in l.back;
    if l.back[0].Settings? {
      ResetAllMoves(l.s, l.back[0].values, i);
    }
  }

  lemma StreamKept(l: Link, e: Event, should: Rule, i: int)
    requires Balanced(l) && Possible(l, e) && i != CONNECTION && (e.Take? && l.out[0].Ack? ==> l.r.pending != [])
    requires Next(l, e, should).Ok?
    ensures StreamOk(Next(l, e, should).value, i)
  {
    assert StreamOk(l, i);
    match e
    case SendData(j, len) => SendDataKeeps(l, j, len, should, i);
    case SendAck => SendAckKeeps(l, should, i);
    case SendOpen(j) => SendOpenKeeps(l, j, should, i);
    case DropSent(_) => DropKeeps(l, e, should, i);
    case Take(n, auto) =>
      if l.out[0].Data? {
        TakeDataKeeps(l, n, auto, should, i);
      } else if l.out[0].Ack? {
        TakeAckKeeps(l, n, auto, should, i);
      } else {
        TakeOpenKeeps(l, n, auto, should, i);
      }
    case Submit(vs) => SubmitKeeps(l, vs, should, i);
    case SendSettings => SendSettingsKeeps(l, should, i);
    case SendUpdate(j, auto) =>
      assert j != CONNECTION ==> StreamOk(l, j);
      SendUpdateKeeps(l, j, auto, should, i);
    case OpenStream(j) => OpenStreamKeeps(l, j, should, i);
    case DropReceived(_) => DropKeeps(l, e, should, i);
    case TakeReply => TakeReplyKeeps(l, should, i);
  }

  // ---- each event, for the connection and the settings

  lemma ConnectionKept(l: Link, e: Event, should: Rule)
    requires Balanced(l) && Possible(l, e) && (e.Take? && l.out[0].Ack? ==> l.r.pending != [])
    requires Next(l, e, should).Ok?
    ensures ConnectionOk(Next(l, e, should).value)
  {
    var m := Next(l, e, should).value;
    match e
    case SendData(j, len) => FlightAppend(l.out, Data(j, len), CONNECTION);
    case SendAck => FlightAppend(l.out, Ack, CONNECTION);
    case SendOpen(j) => FlightAppend(l.out, Open(j), CONNECTION);
    case Take(n, auto) => assert l.out[0].Data? && n < l.out[0].len ==> m.out[1..] == l.out[1..];
    case SendSettings => IncsAppend(l.back, Settings(l.r.urgent[0]), CONNECTION);
    case SendUpdate(j, auto) =>
      IncsAppend(l.back, Update(j, if j == CONNECTION then l.r.conn.queued else l.r.windows[j].queued), CONNECTION);
    case OpenStream(j) => IncsAppend(l.back, OpenBack(j), CONNECTION);
    case TakeReply =>
      if l.back[0].Settings? {
        ResetAllMoves(l.s, l.back[0].values, CONNECTION);
      }
    case _ =>
  }

  lemma SettingsKept(l: Link, e: Event, should: Rule)
    requires SettingsOk(l) && Possible(l, e) && (e.Take? && l.out[0].Ack? ==> l.r.pending != [])
    requires Next(l, e, should).Ok?
    ensures SettingsOk(Next(l, e, should).value)
  {
    match e
    case Submit(vs) => SubmitSettings(l, vs, should);
    case Take(n, auto) => TakeSettings(l, n, auto, should);
    case TakeReply => TakeReplySettings(l, should);
    case _ =>
      SentSettings(l, e, should);
      SentSettingsSame(l, e, should);
  }

  lemma TakeSettings(l: Link, n: nat, auto: bool, should: Rule)
    requires SettingsOk(l) && Possible(l, Take(n, auto)) && (l.out[0].Ack? ==> l.r.pending != [])
    requires Next(l, Take(n, auto), should).Ok?
    ensures SettingsOk(Next(l, Take(n, auto), should).value)
  {
    var m := Next(l, Take(n, auto), should).value;
    if l.out[0].Ack? {
      TakeAckSettings(l, n, auto, should);
    } else if l.out[0].Data? {
      FrontAcks(l.out, n, m.out);
      SameSettings(l, m);
    } else {
      SameSettings(l, m);
    }
  }

  lemma TakeReplySettings(l: Link, should: Rule)
    requires SettingsOk(l) && Possible(l, TakeReply) && Next(l, TakeReply, should).Ok?
    ensures SettingsOk(Next(l, TakeReply, should).value)
  {
    if l.back[0].Settings? {
      TakeChangeSettings(l, should);
    } else {
      SameSettings(l, Next(l, TakeReply, should).value);
    }
  }

  lemma SentSettingsSame(l: Link, e: Event, should: Rule)
    requires SettingsOk(l) && Possible(l, e) && !e.Take? && !e.TakeReply? && !e.Submit? && Next(l, e, should).Ok?
    requires var m := Next(l, e, should).value;
             && Acks(m.out) + m.s.acks == Acks(l.out) + l.s.acks
             && Changes(m.back) + m.r.urgent == Changes(l.back) + l.r.urgent
    ensures SettingsOk(Next(l, e, should).value)
  {
    SameSettings(l, Next(l, e, should).value);
  }

  /** The settings that are on their way, one way or the other. */
  lemma SentSettings(l: Link, e: Event, should: Rule)
    requires Possible(l, e) && !e.Take? && !e.TakeReply? && !e.Submit? && Next(l, e, should).Ok?
    ensures var m := Next(l, e, should).value;
            && Acks(m.out) + m.s.acks == Acks(l.out) + l.s.acks
            && Changes(m.back) + m.r.urgent == Changes(l.back) + l.r.urgent
  {
    match e
    case SendData(j, len) => AcksAppend(l.out, Data(j, len));
    case SendAck => AcksAppend(l.out, Ack);
    case SendOpen(j) => AcksAppend(l.out, Open(j));
    case SendSettings =>
      IncsAppend(l.back, Settings(l.r.urgent[0]), CONNECTION);
      assert l.r.urgent == [l.r.urgent[0]] + l.r.urgent[1..];
    case SendUpdate(j, auto) =>
      IncsAppend(l.back, Update(j, if j == CONNECTION then l.r.conn.queued else l.r.windows[j].queued), CONNECTION);
    case OpenStream(j) => IncsAppend(l.back, OpenBack(j), CONNECTION);
    case _ =>
  }

  lemma SameSettings(l: Link, m: Link)
    requires SettingsOk(l) && m.r.pending == l.r.pending && m.s.initial == l.s.initial && m.r.initial == l.r.initial
    requires Acks(m.out) + m.s.acks == Acks(l.out) + l.s.acks
    requires Changes(m.back) + m.r.urgent == Changes(l.back) + l.r.urgent
    ensures SettingsOk(m)
  {
  }

  lemma FrontAcks(out: seq<Frame>, n: nat, rest: seq<Frame>)
    requires out != [] && out[0].Data? && n <= out[0].len
    requires rest == if n == out[0].len then out[1..] else [Data(out[0].stream, out[0].len - n)] + out[1..]
    ensures Acks(rest) == Acks(out)
  {
    assert n < out[0].len ==> rest[1..] == out[1..];
  }

  lemma SubmitSettings(l: Link, vs: seq<nat>, should: Rule)
    requires SettingsOk(l) && Possible(l, Submit(vs))
    ensures SettingsOk(Next(l, Submit(vs), should).value)
  {
    var a := Acks(l.out) + l.s.acks;
    assert Legal(vs);
    assert (l.r.pending + [vs])[a..] == l.r.pending[a..] + [vs];
    assert (l.r.pending + [vs])[..a] == l.r.pending[..a];
  }

  lemma TakeAckSettings(l: Link, n: nat, auto: bool, should: Rule)
    requires SettingsOk(l) && Possible(l, Take(n, auto)) && l.out[0].Ack? && l.r.pending != []
    requires Next(l, Take(n, auto), should).Ok?
    ensures SettingsOk(Next(l, Take(n, auto), should).value)
  {
    var a, pending := Acks(l.out) + l.s.acks, l.r.pending;
    assert Legal(pending[0]) && forall vs | vs in pending[1..] :: vs in pending;
    assert pending[..a][1..] == pending[1..][..a - 1];
    assert pending[1..][a - 1..] == pending[a..];
    if pending[0] != [] {
      assert pending[0][|pending[0]| - 1] in pending[0];
    }
  }

  lemma TakeChangeSettings(l: Link, should: Rule)
    requires SettingsOk(l) && Possible(l, TakeReply) && l.back[0].Settings? && Next(l, TakeReply, should).Ok?
    ensures SettingsOk(Next(l, TakeReply, should).value)
  {
    var a, vs := Acks(l.out) + l.s.acks, l.back[0].values;
    ResetAllMoves(l.s, vs, CONNECTION);
    OneMoreApplied(l.r.pending, a, vs, Changes(l.back[1..]) + l.r.urgent);
    GoalAppend(l.r.initial, l.r.pending[..a], vs);
  }

  lemma OneMoreApplied(pending: seq<seq<nat>>, a: nat, vs: seq<nat>, rest: seq<seq<nat>>)
    requires a <= |pending| && pending[a..] == [vs] + rest
    ensures a < |pending| && pending[..a + 1] == pending[..a] + [vs] && pending[a + 1..] == rest
  {
    assert pending[a] == pending[a..][0];
    assert pending[a + 1..] == pending[a..][1..];
  }

  /** Stream ids are not that of the connection. */
  lemma IdsKept(l: Link, e: Event, should: Rule)
    requires Balanced(l) && Possible(l, e) && (e.Take? && l.out[0].Ack? ==> l.r.pending != [])
    requires Next(l, e, should).Ok? && NoStreamZero(l)
    ensures var m := Next(l, e, should).value;
            CONNECTION in m.used && CONNECTION !in m.s.windows && CONNECTION !in m.r.windows && NoStreamZero(m)
  {
    assert e.Take? ==> l.out[0] in l.out;
    assert e.TakeReply? ==> l.back[0] in l.back;
    if e.TakeReply? && l.back[0].Settings? {
      ResetAllMoves(l.s, l.back[0].values, CONNECTION);
    }
  }

  /** No frame opens stream 0. */
  predicate NoStreamZero(l: Link) {
    Open(CONNECTION) !in l.out && OpenBack(CONNECTION) !in l.back
  }

  // ---- when FLOW_CONTROL_ERROR is raised

  /**
   * A queued update for stream i leaves after the receiver lowered the stream's window below what has come in
   * since: the only way to FLOW_CONTROL_ERROR.
   */
  predicate Overdrawn(l: Link, e: Event) {
    && e.SendUpdate? && e.auto && e.i != CONNECTION && e.i in l.r.windows
    && l.r.windows[e.i].recv > l.r.windows[e.i].local
  }

  lemma AckHasSettings(l: Link)
    requires SettingsOk(l) && l.out != [] && l.out[0].Ack?
    ensures l.r.pending != []
  {
  }

  lemma TakeDataFits(l: Link, n: nat, auto: bool, should: Rule)
    requires Balanced(l) && Possible(l, Take(n, auto)) && l.out[0].Data?
    ensures Next(l, Take(n, auto), should).Ok?
  {
    var j := l.out[0].stream;
    assert j != CONNECTION ==> StreamOk(l, j);
    ChargedHolds(l.r.conn, n, true, should);
    if j in l.r.windows {
      ChargedHolds(l.r.windows[j], n, auto, should);
    }
  }

  lemma TakeAckFits(l: Link, n: nat, auto: bool, should: Rule)
    requires Balanced(l) && Possible(l, Take(n, auto)) && l.out[0].Ack? && l.r.pending != []
    ensures Next(l, Take(n, auto), should).Ok?
  {
    var vs := l.r.pending[0];
    assert Legal(vs) && (vs != [] ==> vs[|vs| - 1] in vs);
    forall i | i in l.r.windows ensures Resized(l.r.windows[i], Last(0, vs), l.r.initial, should).Ok? || vs == [] {
      assert StreamOk(l, i);
    }
  }

  /** Windows within their bounds stay so, and no entry is refused. */
  lemma {:induction false} ResetAllFits(s: Sender, vs: seq<nat>)
    requires s.initial <= MAX_WINDOW && forall v | v in vs :: v <= MAX_WINDOW
    requires forall i | i in s.windows :: s.initial - MAX_WINDOW <= s.windows[i] <= s.initial
    ensures ResetAll(s, vs).Ok?
    decreases |vs|
  {
    if vs != [] {
      assert vs[0] in vs && forall v | v in vs[1..] :: v in vs;
      assert forall i | i in s.windows :: Shifted(s.windows[i], vs[0], s.initial).Ok?;
      ResetAllFits(Reset(s, vs[0]).value, vs[1..]);
    }
  }

  lemma TakeReplyFits(l: Link, should: Rule)
    requires Balanced(l) && Possible(l, TakeReply)
    ensures Next(l, TakeReply, should).Ok?
  {
    var a := Acks(l.out) + l.s.acks;
    GoalBounded(l.r.initial, l.r.pending[..a]);
    match l.back[0]
    case Update(i, inc) => assert i != CONNECTION ==> StreamOk(l, i);
    case Settings(vs) =>
      assert l.r.pending[a] == l.r.pending[a..][0] == vs && Legal(l.r.pending[a]);
      forall i | i in l.s.windows ensures l.s.initial - MAX_WINDOW <= l.s.windows[i] <= l.s.initial {
        assert StreamOk(l, i);
      }
      ResetAllFits(l.s, vs);
    case OpenBack(_) =>
  }

  lemma SendUpdateFits(l: Link, i: int, auto: bool, should: Rule)
    requires Balanced(l) && Possible(l, SendUpdate(i, auto))
    ensures Next(l, SendUpdate(i, auto), should) == Failed <==> Overdrawn(l, SendUpdate(i, auto))
  {
    assert i != CONNECTION ==> StreamOk(l, i);
  }

  /** The exact condition, for every event. */
  lemma FailsOnlyOverdrawn(l: Link, e: Event, should: Rule)
    requires Balanced(l) && Possible(l, e)
    ensures e.Take? && l.out[0].Ack? ==> l.r.pending != []
    ensures Next(l, e, should) == Failed <==> Overdrawn(l, e)
  {
    match e
    case Take(n, auto) =>
      if l.out[0].Data? {
        TakeDataFits(l, n, auto, should);
      } else if l.out[0].Ack? {
        AckHasSettings(l);
        TakeAckFits(l, n, auto, should);
      }
    case TakeReply => TakeReplyFits(l, should);
    case SendUpdate(i, auto) => SendUpdateFits(l, i, auto, should);
    case _ =>
  }

  /** And every event that does not fail keeps the ledgers. */
  lemma NextBalanced(l: Link, e: Event, should: Rule)
    requires Balanced(l) && NoStreamZero(l) && Possible(l, e) && !Overdrawn(l, e)
    ensures e.Take? && l.out[0].Ack? ==> l.r.pending != []
    ensures Next(l, e, should).Ok? && Balanced(Next(l, e, should).value) && NoStreamZero(Next(l, e, should).value)
  {
    FailsOnlyOverdrawn(l, e, should);
    ConnectionKept(l, e, should);
    SettingsKept(l, e, should);
    IdsKept(l, e, should);
    forall i | i != CONNECTION ensures StreamOk(Next(l, e, should).value, i) {
      StreamKept(l, e, should, i);
    }
  }

  lemma StartBalanced()
    ensures Balanced(START) && NoStreamZero(START)
  {
  }

  // ---- runs

  ghost predicate Sane(l: Link) {
    Balanced(l) && NoStreamZero(l)
  }

  /** What e comes to, FLOW_CONTROL_ERROR or not: the stream that it is raised on is reset, and the rest goes on. */
  function Onward(l: Link, e: Event, should: Rule): Link
    requires Possible(l, e) && (e.Take? && l.out[0].Ack? ==> l.r.pending != [])
    requires Overdrawn(l, e) || Next(l, e, should).Ok?
  {
    if Overdrawn(l, e) then StreamReset(l, e.i) else Next(l, e, should).value
  }

  /** A reset is an update that leaves without being charged again, and the end of its stream. */
  lemma ResetIsDrop(l: Link, e: Event, should: Rule)
    requires Possible(l, e) && Overdrawn(l, e)
    ensures var l1 := Next(l, SendUpdate(e.i, false), should);
            l1.Ok? && Next(l1.value, DropReceived(e.i), should) == Ok(StreamReset(l, e.i))
  {
    var l1 := Next(l, SendUpdate(e.i, false), should).value;
    assert l1.r.windows - {e.i} == l.r.windows - {e.i};
  }

  lemma OnwardSane(l: Link, e: Event, should: Rule)
    requires Sane(l) && Possible(l, e)
    ensures e.Take? && l.out[0].Ack? ==> l.r.pending != []
    ensures Overdrawn(l, e) || Next(l, e, should).Ok?
    ensures Sane(Onward(l, e, should))
  {
    if Overdrawn(l, e) {
      var update := SendUpdate(e.i, false);
      NextBalanced(l, update, should);
      ResetIsDrop(l, e, should);
      NextBalanced(Next(l, update, should).value, DropReceived(e.i), should);
    } else {
      NextBalanced(l, e, should);
    }
  }

  /** The events are possible one after the other; a stream on which FLOW_CONTROL_ERROR is raised is reset. */
  ghost predicate Runs(l: Link, es: seq<Event>, should: Rule)
    requires Sane(l)
    decreases |es|
  {
    es == [] || (Possible(l, es[0]) && (OnwardSane(l, es[0], should); Runs(Onward(l, es[0], should), es[1..], should)))
  }

  ghost function AfterAll(l: Link, es: seq<Event>, should: Rule): (m: Link)
    requires Sane(l) && Runs(l, es, should)
    ensures Sane(m)
    decreases |es|
  {
    if es == [] then l
    else
      OnwardSane(l, es[0], should);
      AfterAll(Onward(l, es[0], should), es[1..], should)
  }

  /** FLOW_CONTROL_ERROR is raised nowhere in the run. */
  ghost predicate Clean(l: Link, es: seq<Event>, should: Rule)
    requires Sane(l) && Runs(l, es, should)
    decreases |es|
  {
    es == [] ||
      (!Overdrawn(l, es[0]) && (OnwardSane(l, es[0], should); Clean(Onward(l, es[0], should), es[1..], should)))
  }

  /** The ledgers, for the connection and for the streams that both ends have. */
  predicate Ledgers(l: Link) {
    && l.s.conn + Flight(l.out, CONNECTION) + Incs(l.back, CONNECTION) + l.r.conn.queued
       == l.r.conn.local - l.r.conn.recv
    && 0 <= l.s.conn <= l.r.conn.local == INITIAL_WINDOW
    && forall i | i in l.s.windows && i in l.r.windows :: Ledger(l, i)
  }

  /** A stream's ledger, up to the changes of the initial window size that the receiver has yet to apply. */
  predicate Ledger(l: Link, i: int)
    requires i in l.s.windows && i in l.r.windows
  {
    var w := l.r.windows[i];
    && l.s.windows[i] - l.s.initial + Flight(l.out, i) + Incs(l.back, i) + w.queued
       == w.local - l.r.initial - w.recv
    && l.s.windows[i] <= l.s.initial <= MAX_WINDOW
  }

  lemma SaneLedgers(l: Link)
    requires Sane(l)
    ensures Ledgers(l)
  {
    GoalBounded(l.r.initial, l.r.pending[..Acks(l.out) + l.s.acks]);
    forall i | i in l.s.windows && i in l.r.windows ensures Ledger(l, i) {
      assert StreamOk(l, i);
    }
  }

  /**
   * At the end of every run from the start of a connection, whatever streams were reset in it, the ledgers of the
   * connection and of all other streams are exact, and whatever comes next raises FLOW_CONTROL_ERROR if and only if it
   * is an overdrawn update.
   */
  lemma LedgersHold(es: seq<Event>, should: Rule)
    requires (StartBalanced(); Runs(START, es, should))
    ensures (StartBalanced();
             var l := AfterAll(START, es, should);
             && Ledgers(l)
             && forall e | Possible(l, e) ::
                  (e.Take? && l.out[0].Ack? ==> l.r.pending != [])
                   && (Next(l, e, should) == Failed <==> Overdrawn(l, e)))
  {
    StartBalanced();
    var l := AfterAll(START, es, should);
    SaneLedgers(l);
    forall e | Possible(l, e)
      ensures e.Take? && l.out[0].Ack? ==> l.r.pending != []
      ensures Next(l, e, should) == Failed <==> Overdrawn(l, e)
    {
      FailsOnlyOverdrawn(l, e, should);
    }
  }

  // ---- a receiver that never lowers the window

  /** The settings still to be applied never lower the initial window size. */
  predicate Rises(initial: nat, changes: seq<seq<nat>>)
    decreases |changes|
  {
    changes == [] || (Last(initial, changes[0]) >= initial && Rises(Last(initial, changes[0]), changes[1..]))
  }

  lemma {:induction false} RisesOn(initial: nat, changes: seq<seq<nat>>, vs: seq<nat>)
    requires Rises(initial, changes) && Last(Goal(initial, changes), vs) >= Goal(initial, changes)
    ensures Rises(initial, changes + [vs])
    decreases |changes|
  {
    if changes == [] {
      assert [vs][1..] == [];
    } else {
      assert (changes + [vs])[1..] == changes[1..] + [vs];
      RisesOn(Last(initial, changes[0]), changes[1..], vs);
    }
  }

  /** No stream's window is below what has come in. */
  predicate Covered(l: Link) {
    Rises(l.r.initial, l.r.pending) && forall i | i in l.r.windows :: l.r.windows[i].recv <= l.r.windows[i].local
  }

  /** What a submission comes to is not lower than what was submitted before. */
  predicate Raises(l: Link, e: Event) {
    e.Submit? ==> Last(Goal(l.r.initial, l.r.pending), e.values) >= Goal(l.r.initial, l.r.pending)
  }

  lemma CoveredKept(l: Link, e: Event, should: Rule)
    requires Sane(l) && Covered(l) && Possible(l, e) && Raises(l, e)
    ensures !Overdrawn(l, e) && (e.Take? && l.out[0].Ack? ==> l.r.pending != [])
    ensures Next(l, e, should).Ok? && Covered(Next(l, e, should).value)
  {
    FailsOnlyOverdrawn(l, e, should);
    if e.Submit? {
      RisesOn(l.r.initial, l.r.pending, e.values);
    }
    forall i | i in l.r.windows ensures l.r.windows[i].local == l.r.initial {
      assert StreamOk(l, i);
    }
  }

  /** Possible events, and no submission lowers the initial window size. */
  ghost predicate Rising(l: Link, es: seq<Event>, should: Rule)
    requires Sane(l) && Covered(l)
    decreases |es|
  {
    es == [] ||
      (Possible(l, es[0]) && Raises(l, es[0]) &&
       (NextSane(l, es[0], should); Rising(Next(l, es[0], should).value, es[1..], should)))
  }

  lemma NextSane(l: Link, e: Event, should: Rule)
    requires Sane(l) && Covered(l) && Possible(l, e) && Raises(l, e)
    ensures !Overdrawn(l, e) && (e.Take? && l.out[0].Ack? ==> l.r.pending != [])
    ensures Next(l, e, should).Ok? && Sane(Next(l, e, should).value) && Covered(Next(l, e, should).value)
  {
    CoveredKept(l, e, should);
    NextBalanced(l, e, should);
  }

  /** Then FLOW_CONTROL_ERROR is never raised. */
  lemma {:induction false} RisingIsSafe(l: Link, es: seq<Event>, should: Rule)
    requires Sane(l) && Covered(l) && Rising(l, es, should)
    ensures Runs(l, es, should) && Clean(l, es, should)
    decreases |es|
  {
    if es != [] {
      NextSane(l, es[0], should);
      RisingIsSafe(Next(l, es[0], should).value, es[1..], should);
    }
  }

  lemma RisingFromStart(es: seq<Event>, should: Rule)
    requires (StartBalanced(); Covered(START) && Rising(START, es, should))
    ensures (StartBalanced();
             Runs(START, es, should) && Clean(START, es, should) && Ledgers(AfterAll(START, es, should)))
  {
    StartBalanced();
    RisingIsSafe(START, es, should);
    SaneLedgers(AfterAll(START, es, should));
  }
}
