/**
 * A run in which the receiver raises FLOW_CONTROL_ERROR against a peer that has kept to every window.  The receiver
 * has an update queued for a stream, more DATA comes in, and an acknowledgement lowers the stream's window below
 * what came in since; when the update leaves, charging no bytes fails.  The stream is reset, and the run goes on.
 */
module FlowOverdrawn {
  import opened FlowLedger
  import opened FlowRuns

  /** An update once half of the window has come in. */
  const HALF: Rule := (l, n) => n > 0 && 2 * n >= l

  /** es leads from l to m. */
  ghost predicate Leads(l: Link, es: seq<Event>, m: Link)
    decreases |es|
  {
    && Sane(l)
    && if es == [] then l == m
       else Possible(l, es[0]) && (es[0].Take? && l.out[0].Ack? ==> l.r.pending != [])
            && (Overdrawn(l, es[0]) || Next(l, es[0], HALF).Ok?) && Leads(Onward(l, es[0], HALF), es[1..], m)
  }

  lemma {:induction false} LeadsIsRun(l: Link, es: seq<Event>, m: Link)
    requires Leads(l, es, m)
    ensures Runs(l, es, HALF) && AfterAll(l, es, HALF) == m
    decreases |es|
  {
    if es != [] {
      OnwardSane(l, es[0], HALF);
      LeadsIsRun(Onward(l, es[0], HALF), es[1..], m);
    }
  }

  lemma {:induction false} OneMore(l: Link, es: seq<Event>, m: Link, e: Event, n: Link)
    requires Leads(l, es, m) && Possible(m, e) && (e.Take? && m.out[0].Ack? ==> m.r.pending != [])
    requires if Overdrawn(m, e) then n == StreamReset(m, e.i) else Next(m, e, HALF) == Ok(n)
    ensures Leads(l, es + [e], n) && Sane(n)
    decreases |es|
  {
    if es == [] {
      OnwardSane(l, e, HALF);
      assert [e][1..] == [] && es + [e] == [e];
    } else {
      OneMore(Onward(l, es[0], HALF), es[1..], m, e, n);
      assert (es + [e])[0] == es[0] && (es + [e])[1..] == es[1..] + [e];
    }
  }

  /** e is possible, goes well, and makes m of l. */
  predicate Moves(l: Link, e: Event, m: Link) {
    && Possible(l, e) && !Overdrawn(l, e) && (e.Take? && l.out[0].Ack? ==> l.r.pending != [])
    && Next(l, e, HALF) == Ok(m)
  }

  lemma Go(es: seq<Event>, l: Link, e: Event, m: Link) returns (es': seq<Event>)
    requires Leads(START, es, l) && Moves(l, e, m)
    ensures Leads(START, es', m)
  {
    OneMore(START, es, l, e, m);
    es' := es + [e];
  }

  // ---- the scene

  /** The sender, with stream 1. */
  function S(conn: int, initial: nat, acks: nat, window: int): Sender {
    Sender(conn, initial, acks, map[1 := window])
  }

  /** The receiver, with stream 1. */
  function R(conn: Window, initial: nat, pending: seq<seq<nat>>, w: Window): Receiver {
    Receiver(conn, initial, pending, [], map[1 := w])
  }

  const USED: set<int> := {CONNECTION} + {1}
  const DATA: seq<Frame> := [Data(1, 32768), Data(1, 1000)]

  /** Stream 1 is opened, and 32768 and 1000 bytes are sent. */
  const OPENED := Link(S(65535, 65535, 0, 65535), START.r, [Open(1)], [], USED)
  const HALFWAY := Link(S(32767, 65535, 0, 32767), START.r, [Open(1), Data(1, 32768)], [], USED)
  const SENT := Link(S(31767, 65535, 0, 31767), START.r, [Open(1)] + DATA, [], USED)

  lemma Sending()
    ensures Moves(START, SendOpen(1), OPENED) && Moves(OPENED, SendData(1, 32768), HALFWAY)
    ensures Moves(HALFWAY, SendData(1, 1000), SENT)
  {
    assert START.s.windows[1 := 65535] == map[1 := 65535] && START.used + {1} == USED;
    assert [] + [Open(1)] == [Open(1)] && [Open(1)] + [Data(1, 32768)] == [Open(1), Data(1, 32768)];
    assert [Open(1), Data(1, 32768)] + [Data(1, 1000)] == [Open(1)] + DATA;
    assert map[1 := 65535][1 := 32767] == map[1 := 32767];
    assert map[1 := 32767][1 := 31767] == map[1 := 31767];
  }

  /** The receiver asks for an initial window of 100; the sender applies and acknowledges it. */
  const ASKED := SENT.(r := START.r.(pending := [[100]], urgent := [[100]]))
  const LEFT := SENT.(r := START.r.(pending := [[100]]), back := [Settings([100])])
  const APPLIED := Link(S(31767, 100, 1, -33668), START.r.(pending := [[100]]), [Open(1)] + DATA, [], USED)
  const ANSWERED := Link(S(31767, 100, 0, -33668), START.r.(pending := [[100]]), [Open(1)] + DATA + [Ack], [], USED)

  lemma Asking()
    ensures Moves(SENT, Submit([100]), ASKED) && Moves(ASKED, SendSettings, LEFT)
  {
    assert [] + [[100]] == [[100]] && [[100]][1..] == [] && [] + [Settings([100])] == [Settings([100])];
  }

  lemma Answering()
    ensures Moves(LEFT, TakeReply, APPLIED) && Moves(APPLIED, SendAck, ANSWERED)
  {
    var s := LEFT.s;
    assert (map i | i in s.windows :: s.windows[i] + 100 - s.initial) == map[1 := -33668];
    assert [Settings([100])][1..] == [];
    assert Reset(s, 100) == Ok(s.(initial := 100, windows := map[1 := -33668]));
    assert [100][1..] == [];
    assert ResetAll(s, [100]) == Ok(s.(initial := 100, windows := map[1 := -33668]));
  }

  /** The receiver reads it all: an update of 32768 is queued, 1000 bytes are in, and then the window is 100. */
  const BEGUN := Link(ANSWERED.s, R(START.r.conn, 65535, [[100]], Window(65535, 0, 0)), DATA + [Ack], [], USED)
  const READ := Link(ANSWERED.s, R(Window(65535, 0, 32768), 65535, [[100]], Window(65535, 0, 32768)),
                     [Data(1, 1000), Ack], [], USED)
  const READ_ON := Link(ANSWERED.s, R(Window(65535, 1000, 32768), 65535, [[100]], Window(65535, 1000, 32768)),
                        [Ack], [], USED)
  const LOWERED := Link(ANSWERED.s, R(Window(65535, 1000, 32768), 100, [], Window(100, 1000, 32768)), [], [], USED)

  lemma Reading()
    ensures Moves(ANSWERED, Take(0, true), BEGUN) && Moves(BEGUN, Take(32768, true), READ)
    ensures Moves(READ, Take(1000, true), READ_ON)
  {
    assert ([Open(1)] + DATA + [Ack])[1..] == DATA + [Ack];
    assert (DATA + [Ack])[1..] == [Data(1, 1000), Ack];
    assert [Data(1, 1000), Ack][1..] == [Ack];
    assert START.r.windows[1 := Window(65535, 0, 0)] == map[1 := Window(65535, 0, 0)];
    assert map[1 := Window(65535, 0, 0)][1 := Window(65535, 0, 32768)] == map[1 := Window(65535, 0, 32768)];
    assert map[1 := Window(65535, 0, 32768)][1 := Window(65535, 1000, 32768)] == map[1 := Window(65535, 1000, 32768)];
  }

  lemma Lowering()
    ensures Moves(READ_ON, Take(0, true), LOWERED)
  {
    var r := READ_ON.r;
    assert Resized(r.windows[1], 100, 65535, HALF) == Ok(Window(100, 1000, 32768));
    assert [Ack][1..] == [] && [[100]][1..] == [];
    assert (map i | i in r.windows :: Resized(r.windows[i], 100, 65535, HALF).value)
           == map[1 := Window(100, 1000, 32768)];
  }

  /** The receiver has no stream any more, and the connection is as it was. */
  const AFTER_RESET := Link(LOWERED.s, Receiver(Window(65535, 1000, 32768), 100, [], [], map[]), [],
                            [Update(1, 32768)], USED)

  lemma Resetting()
    ensures Possible(LOWERED, SendUpdate(1, true)) && Overdrawn(LOWERED, SendUpdate(1, true))
    ensures StreamReset(LOWERED, 1) == AFTER_RESET
  {
    assert LOWERED.r.windows - {1} == map[];
    assert [] + [Update(1, 32768)] == [Update(1, 32768)];
  }

  /**
   * So the next update that leaves raises the error, although the sender has kept to its windows; the stream is reset
   * and the run goes on without it.
   */
  lemma UpdateFails() returns (es: seq<Event>)
    ensures Sane(START) && Runs(START, es, HALF) && AfterAll(START, es, HALF) == LOWERED
    ensures Possible(LOWERED, SendUpdate(1, true)) && Next(LOWERED, SendUpdate(1, true), HALF) == Failed
    ensures Runs(START, es + [SendUpdate(1, true)], HALF)
    ensures AfterAll(START, es + [SendUpdate(1, true)], HALF) == AFTER_RESET
  {
    StartBalanced();
    Sending();
    es := Go([], START, SendOpen(1), OPENED);
    es := Go(es, OPENED, SendData(1, 32768), HALFWAY);
    es := Go(es, HALFWAY, SendData(1, 1000), SENT);
    Asking();
    es := Go(es, SENT, Submit([100]), ASKED);
    es := Go(es, ASKED, SendSettings, LEFT);
    Answering();
    es := Go(es, LEFT, TakeReply, APPLIED);
    es := Go(es, APPLIED, SendAck, ANSWERED);
    Reading();
    es := Go(es, ANSWERED, Take(0, true), BEGUN);
    es := Go(es, BEGUN, Take(32768, true), READ);
    es := Go(es, READ, Take(1000, true), READ_ON);
    Lowering();
    es := Go(es, READ_ON, Take(0, true), LOWERED);
    LeadsIsRun(START, es, LOWERED);
    Resetting();
    OneMore(START, es, LOWERED, SendUpdate(1, true), AFTER_RESET);
    LeadsIsRun(START, es + [SendUpdate(1, true)], AFTER_RESET);
  }
}
