/** What each event does to the streams of the RFC 9218 scheduler, and whose turn it is after a frame. */
module UrgencyOutcomes {
  import opened UrgencySched

  /** Of the other streams nothing changes, and no stream comes or goes but the one that is opened or closed. */
  lemma OthersStay(s: Sched, e: Event, server: bool)
    requires Right(s) && Possible(s, e)
    ensures var t := Next(s, e, server);
            && t.streams.Keys == (match e case Open(i, _, _) => s.streams.Keys + {i}
                                          case Close(i) => s.streams.Keys - {i}
                                          case _ => s.streams.Keys)
            && forall j | j in s.streams && j != e.i :: t.streams[j] == s.streams[j]
  {
  }

  /** The item of the event's stream, what defers it, and its priority. */
  lemma StreamFollows(s: Sched, e: Event, server: bool)
    requires Right(s) && Possible(s, e) && !e.Close?
    ensures e.i in Next(s, e, server).streams
    ensures var x' := Next(s, e, server).streams[e.i];
            match e
            case Open(_, urgency, inc) => !x'.item && x'.deferred == {} && x'.urgency == urgency && x'.inc == inc
            case _ =>
              var x := s.streams[e.i];
              && x'.item == (e.Attach? || (x.item && !e.Detach?) || e.Defer? || e.Resume?)
              && x'.deferred == (match e case Attach(_, _) => {}
                                         case Detach(_) => {}
                                         case Defer(_, why) => x.deferred + why
                                         case Resume(_, why, _) => x.deferred - why
                                         case _ => x.deferred)
              && x'.urgency == (match e case Prioritize(_, urgency, _, _) => urgency case _ => x.urgency)
              && x'.inc == (match e case Prioritize(_, _, inc, _) => inc case _ => x.inc)
              && x'.writelen == (match e case Sent(_, bytes) => bytes case _ => x.writelen) && x'.seqNo == x.seqNo
  {
  }

  /** The turn of a stream that joins these: that of the first of them, later by its last frame if it is incremental. */
  ghost predicate JoinsAt(m: Streams, xs: set<int>, x: Stream, cycle: nat) {
    var lag := if x.inc then x.writelen else 0;
    if xs == {} then cycle == lag % TWO64
    else exists c | c in xs :: First(m, xs, c) && c in m && cycle == (m[c].cycle + lag) % TWO64
  }

  lemma PushJoins(s: Sched, i: int, top: int)
    requires i in s.streams && s.streams[i].urgency < |s.queues| && Top(s.streams, QueueOf(s, i), top)
    requires NONE !in s.streams
    ensures top == NONE || top in s.streams
    ensures JoinsAt(s.streams, QueueOf(s, i), s.streams[i], Push(s, i, top).streams[i].cycle)
    ensures Push(s, i, top).streams[i].queued
  {
    var x, cycle := s.streams[i], Push(s, i, top).streams[i].cycle;
    if QueueOf(s, i) != {} {
      var lag := if x.inc then x.writelen else 0;
      assert top in QueueOf(s, i) && First(s.streams, QueueOf(s, i), top) && top in s.streams;
      assert cycle == (s.streams[top].cycle + lag) % TWO64;
    }
  }

  /** A stream whose item is attached, or resumed for good, joins the queue of its urgency. */
  lemma ReadyJoins(s: Sched, e: Event, server: bool)
    requires Right(s) && Possible(s, e) && (e.Attach? || (e.Resume? && s.streams[e.i].deferred <= e.why))
    ensures var t, item := Next(s, e, server), WithItem(s, e.i, true, {});
            && e.i in t.streams && t.streams[e.i].queued
            && e.i in item.streams && item.streams[e.i].urgency < |item.queues|
            && JoinsAt(item.streams, QueueOf(item, e.i), item.streams[e.i], t.streams[e.i].cycle)
  {
    var item := WithItem(s, e.i, true, {});
    SameTurnsTop(s.streams, item.streams, QueueOf(s, e.i), e.top);
    PushJoins(item, e.i, e.top);
  }

  /** The order is that of the cycles and the sequence numbers. */
  lemma SameTurns(m: Streams, m': Streams, xs: set<int>, c: int)
    requires forall x | x in xs :: x in m && x in m' && m'[x].cycle == m[x].cycle && m'[x].seqNo == m[x].seqNo
    ensures First(m, xs, c) <==> First(m', xs, c)
  {
    assert forall x, y | x in xs && y in xs :: Less(m[x], m[y]) == Less(m'[x], m'[y]);
    assert Ordered(m, xs) <==> Ordered(m', xs);
  }

  lemma SameTurnsTop(m: Streams, m': Streams, xs: set<int>, top: int)
    requires m'.Keys == m.Keys && forall x | x in m :: m'[x].cycle == m[x].cycle && m'[x].seqNo == m[x].seqNo
    requires Top(m, xs, top)
    ensures Top(m', xs, top)
  {
    if xs != {} {
      SameTurns(m, m', xs, top);
    }
  }

  /** A stream that is not incremental is served to its end: after a frame it is its turn again. */
  lemma KeepsTurn(s: Sched, i: int, bytes: nat, server: bool)
    requires Right(s) && Possible(s, Sent(i, bytes)) && i in s.streams && !s.streams[i].inc
    ensures Picked(Next(s, Sent(i, bytes), server), i)
  {
    var t := Next(s, Sent(i, bytes), server);
    TurnKept(s, t, i);
  }

  lemma TurnKept(s: Sched, t: Sched, i: int)
    requires Picked(s, i) && t.queues == s.queues && t.streams.Keys == s.streams.Keys
    requires forall x | x in s.streams ::
               t.streams[x].cycle == s.streams[x].cycle && t.streams[x].seqNo == s.streams[x].seqNo
    ensures Picked(t, i)
  {
    var u :| 0 <= u < |s.queues| && First(s.streams, s.queues[u], i) && forall v | 0 <= v < u :: s.queues[v] == {};
    SameTurns(s.streams, t.streams, s.queues[u], i);
    assert First(t.streams, t.queues[u], i);
  }

  /** An incremental one moves on by the frame on a server if it has company, and otherwise not; no queue changes. */
  lemma MovesOn(s: Sched, i: int, bytes: nat, server: bool)
    requires Right(s) && Possible(s, Sent(i, bytes))
    ensures i in s.streams && s.streams[i].urgency < |s.queues|
    ensures var t := Next(s, Sent(i, bytes), server);
            && t.queues == s.queues && i in t.streams
            && t.streams[i].cycle ==
               if server && s.streams[i].inc && QueueOf(s, i) != {i} then (s.streams[i].cycle + bytes) % TWO64
               else s.streams[i].cycle
  {
    PickedIn(s, i);
    Single(QueueOf(s, i), i);
  }

  lemma Single(xs: set<int>, x: int)
    requires x in xs
    ensures |xs| == 1 <==> xs == {x}
  {
    assert |xs - {x}| == |xs| - 1;
    if |xs| == 1 {
      assert xs - {x} == {};
    }
  }
}
