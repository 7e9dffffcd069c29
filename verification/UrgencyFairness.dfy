/**
 * Whole runs of the RFC 9218 scheduler: it stays right, and two incremental streams of one urgency that stay queued
 * get the same number of bytes on a server, up to twice the largest frame.
 */
module UrgencyFairness {
  import Q = DepQueue
  import opened UrgencySched

  const START: Sched := Sched(map[], seq(LEVELS, _ => {}), 0)

  lemma StartRight()
    ensures Right(START)
  {
    forall u | 0 <= u < LEVELS ensures Spanned(START.streams, START.queues[u]) {
      assert InWindow(START.streams, START.queues[u], 0);
    }
  }

  ghost predicate Runs(s: Sched, es: seq<Event>, server: bool)
    requires Right(s)
    decreases |es|
  {
    es == [] || (Possible(s, es[0]) && (NextRight(s, es[0], server); Runs(Next(s, es[0], server), es[1..], server)))
  }

  ghost function AfterAll(s: Sched, es: seq<Event>, server: bool): (r: Sched)
    requires Right(s) && Runs(s, es, server)
    ensures Right(r)
    decreases |es|
  {
    if es == [] then s
    else
      NextRight(s, es[0], server);
      AfterAll(Next(s, es[0], server), es[1..], server)
  }

  /** i is an incremental stream in queue u. */
  ghost predicate Waits(s: Sched, i: int, u: nat) {
    i in s.streams && s.streams[i].queued && s.streams[i].inc && s.streams[i].urgency == u
  }

  /** And stays one all along. */
  ghost predicate Stays(s: Sched, es: seq<Event>, server: bool, i: int, u: nat)
    requires Right(s) && Runs(s, es, server)
    decreases |es|
  {
    && Waits(s, i, u)
    && (es != [] ==> (NextRight(s, es[0], server); Stays(Next(s, es[0], server), es[1..], server, i, u)))
  }

  function BytesOf(e: Event, i: int): nat {
    if e.Sent? && e.i == i then e.bytes else 0
  }

  function Bytes(es: seq<Event>, i: int): nat {
    if es == [] then 0 else BytesOf(es[0], i) + Bytes(es[1..], i)
  }

  /** How far a's turn lies after b's, in a queue whose cycles span at most one frame. */
  function Lead(a: Stream, b: Stream): int {
    var g := (a.cycle - b.cycle) % TWO64;
    if g <= MAX_GAP then g else g - TWO64
  }

  /** Then it is at most one frame. */
  lemma LeadBounded(s: Sched, i: int, j: int, u: nat)
    requires Right(s) && Waits(s, i, u) && Waits(s, j, u)
    ensures 0 - MAX_GAP <= Lead(s.streams[i], s.streams[j]) <= MAX_GAP
  {
    assert Placed(s, i) && Placed(s, j);
    var base :| InWindow(s.streams, s.queues[u], base);
    LeadInWindow(base, s.streams[i], s.streams[j]);
  }

  lemma LeadInWindow(base: nat, a: Stream, b: Stream)
    requires base < TWO64 && a.cycle < TWO64 && b.cycle < TWO64
    requires (a.cycle - base) % TWO64 <= MAX_GAP && (b.cycle - base) % TWO64 <= MAX_GAP
    ensures Lead(a, b) == (a.cycle - base) % TWO64 - (b.cycle - base) % TWO64
  {
  }

  /** Only sending moves the turns of streams that stay queued. */
  lemma QuietKeepsCycle(s: Sched, e: Event, server: bool, i: int, u: nat)
    requires Right(s) && Possible(s, e) && Waits(s, i, u) && Waits(Next(s, e, server), i, u)
    requires !(e.Sent? && e.i == i)
    ensures Next(s, e, server).streams[i].cycle == s.streams[i].cycle
  {
    assert Placed(s, i);
  }

  lemma SentMovesCycle(s: Sched, i: int, bytes: nat, j: int, u: nat)
    requires Right(s) && Possible(s, Sent(i, bytes)) && Waits(s, i, u) && Waits(s, j, u) && i != j
    ensures Next(s, Sent(i, bytes), true).streams[i].cycle == (s.streams[i].cycle + bytes) % TWO64
    ensures Next(s, Sent(i, bytes), true).streams[j].cycle == s.streams[j].cycle
  {
    assert Placed(s, i) && Placed(s, j);
    Two(s.queues[u], i, j);
  }

  lemma Two(xs: set<int>, i: int, j: int)
    requires i in xs && j in xs && i != j
    ensures |xs| != 1
  {
    assert j in xs - {i} && |xs - {i}| == |xs| - 1;
  }

  lemma LeadSent(s: Sched, i: int, bytes: nat, j: int, u: nat)
    requires Right(s) && Possible(s, Sent(i, bytes)) && i != j && Waits(s, i, u) && Waits(s, j, u)
    requires var t := Next(s, Sent(i, bytes), true); Right(t) && Waits(t, i, u) && Waits(t, j, u)
    ensures var t := Next(s, Sent(i, bytes), true);
            && Lead(t.streams[i], t.streams[j]) == Lead(s.streams[i], s.streams[j]) + bytes
            && Lead(t.streams[j], t.streams[i]) == Lead(s.streams[j], s.streams[i]) - bytes
  {
    var t := Next(s, Sent(i, bytes), true);
    LeadBounded(s, i, j, u);
    LeadBounded(s, j, i, u);
    LeadBounded(t, i, j, u);
    LeadBounded(t, j, i, u);
    SentMovesCycle(s, i, bytes, j, u);
    LeadAdds(s.streams[i], s.streams[j], bytes, t.streams[i], t.streams[j]);
    LeadTakes(s.streams[j], s.streams[i], bytes, t.streams[j], t.streams[i]);
  }

  /** The lead grows by the bytes sent for the one and shrinks by those sent for the other. */
  lemma LeadMoves(s: Sched, e: Event, i: int, j: int, u: nat)
    requires Right(s) && Possible(s, e) && i != j && Right(Next(s, e, true))
    requires Waits(s, i, u) && Waits(s, j, u) && Waits(Next(s, e, true), i, u) && Waits(Next(s, e, true), j, u)
    ensures var t := Next(s, e, true);
            Lead(t.streams[i], t.streams[j]) == Lead(s.streams[i], s.streams[j]) + BytesOf(e, i) - BytesOf(e, j)
  {
    if e.Sent? && e.i == i {
      LeadSent(s, i, e.bytes, j, u);
    } else if e.Sent? && e.i == j {
      LeadSent(s, j, e.bytes, i, u);
    } else {
      QuietKeepsCycle(s, e, true, i, u);
      QuietKeepsCycle(s, e, true, j, u);
    }
  }

  lemma LeadAdds(a: Stream, b: Stream, n: nat, a': Stream, b': Stream)
    requires 0 - MAX_GAP <= Lead(a, b) <= MAX_GAP && 0 - MAX_GAP <= Lead(a', b') <= MAX_GAP && n <= MAX_GAP
    requires a'.cycle == (a.cycle + n) % TWO64 && b'.cycle == b.cycle
    ensures Lead(a', b') == Lead(a, b) + n
  {
  }

  lemma LeadTakes(a: Stream, b: Stream, n: nat, a': Stream, b': Stream)
    requires 0 - MAX_GAP <= Lead(a, b) <= MAX_GAP && 0 - MAX_GAP <= Lead(a', b') <= MAX_GAP && n <= MAX_GAP
    requires a'.cycle == a.cycle && b'.cycle == (b.cycle + n) % TWO64
    ensures Lead(a', b') == Lead(a, b) - n
  {
  }

  lemma {:induction false} LeadOverRun(s: Sched, es: seq<Event>, i: int, j: int, u: nat)
    requires Right(s) && Runs(s, es, true) && Stays(s, es, true, i, u) && Stays(s, es, true, j, u) && i != j
    ensures var t := AfterAll(s, es, true);
            && Waits(t, i, u) && Waits(t, j, u)
            && Lead(t.streams[i], t.streams[j]) == Lead(s.streams[i], s.streams[j]) + Bytes(es, i) - Bytes(es, j)
    decreases |es|
  {
    if es != [] {
      NextRight(s, es[0], true);
      LeadMoves(s, es[0], i, j, u);
      LeadOverRun(Next(s, es[0], true), es[1..], i, j, u);
    }
  }

  /**
   * Over any run of a server in which two incremental streams stay queued at one urgency, whatever happens to the
   * others, the bytes sent for them differ by at most 2 * (2^24 - 1).
   */
  lemma IncrementalFairness(s: Sched, es: seq<Event>, i: int, j: int, u: nat)
    requires Right(s) && Runs(s, es, true) && Stays(s, es, true, i, u) && Stays(s, es, true, j, u)
    ensures 0 - 2 * MAX_GAP <= Bytes(es, i) - Bytes(es, j) <= 2 * MAX_GAP
  {
    if i != j {
      LeadBounded(s, i, j, u);
      LeadOverRun(s, es, i, j, u);
      LeadBounded(AfterAll(s, es, true), i, j, u);
    }
  }

  /**
   * After any run from the start: every ready stream is in the queue of its urgency and nowhere else, the cycles of
   * a queue span at most one frame, and a pick is first in its queue and most urgent of all.
   */
  lemma AlwaysRight(es: seq<Event>, server: bool)
    requires (StartRight(); Runs(START, es, server))
    ensures (StartRight();
             var s := AfterAll(START, es, server);
             && |s.queues| == LEVELS
             && (forall i, u | i in s.streams && 0 <= u < LEVELS ::
                   i in s.queues[u] <==> s.streams[i].Ready() && u == s.streams[i].urgency)
             && (forall u | 0 <= u < LEVELS :: Spanned(s.streams, s.queues[u]))
             && forall i, j | Picked(s, i) && j in s.streams && s.streams[j].Ready() ::
                  i in s.streams && s.streams[i].Ready() && s.streams[i].urgency <= s.streams[j].urgency)
  {
    StartRight();
    var s := AfterAll(START, es, server);
    forall i, u | i in s.streams && 0 <= u < LEVELS
      ensures i in s.queues[u] <==> s.streams[i].Ready() && u == s.streams[i].urgency
    {
      assert Placed(s, i);
    }
    forall i, j | Picked(s, i) && j in s.streams && s.streams[j].Ready()
      ensures i in s.streams && s.streams[i].Ready() && s.streams[i].urgency <= s.streams[j].urgency
    {
      PickIsMostUrgent(s, i, j);
    }
  }
}
