/**
 * The scheduler for the priorities of RFC 9218: one queue for each urgency, in which incremental streams take turns.
 * Turns are cycles modulo 2^64 again, but without a clock: a stream that joins starts at the first cycle in the
 * queue.  Whatever happens, the cycles of a queue span at most one frame, the pick is a most urgent stream, and
 * incremental streams get the same number of bytes up to two frames.
 */
module UrgencySched {
  import Q = DepQueue

  /** `NGHTTP2_EXTPRI_URGENCY_LEVELS` */
  const LEVELS: nat := 8
  /** `NGHTTP2_STREAM_MAX_CYCLE_GAP`, the largest frame */
  const MAX_GAP: nat := 0xff_ffff
  const TWO64: nat := Q.TWO64
  const NONE: int := -1

  /** The scheduling fields of a stream. */
  datatype Stream = Stream(
    urgency: nat, inc: bool, item: bool, deferred: set<Q.Cause>, queued: bool, cycle: nat, seqNo: nat, writelen: nat)
  {
    predicate Ready() {
      item && deferred == {}
    }
  }

  type Streams = map<int, Stream>

  /** The streams, the eight queues, and the next sequence number. */
  datatype Sched = Sched(streams: Streams, queues: seq<set<int>>, nextSeq: nat)

  // ---- order

  /** `stream_less` */
  predicate Less(a: Stream, b: Stream) {
    if a.cycle == b.cycle then a.seqNo < b.seqNo else (b.cycle - a.cycle) % TWO64 <= MAX_GAP
  }

  ghost predicate Ordered(m: Streams, xs: set<int>)
    requires forall x | x in xs :: x in m
  {
    && (forall x, y | x in xs && y in xs && x != y :: Less(m[x], m[y]) != Less(m[y], m[x]))
    && (forall x, y, z | x in xs && y in xs && z in xs && Less(m[x], m[y]) && Less(m[y], m[z]) ::
          x == z || Less(m[x], m[z]))
  }

  /** c is first in the queue; in a queue that is not ordered it is just some element. */
  ghost predicate First(m: Streams, xs: set<int>, c: int) {
    && c in xs && (forall x | x in xs :: x in m)
    && (Ordered(m, xs) ==> forall y | y in xs && y != c :: Less(m[c], m[y]))
  }

  /** What `nghttp2_pq_top` yields. */
  ghost predicate Top(m: Streams, xs: set<int>, top: int) {
    if xs == {} then top == NONE else First(m, xs, top)
  }

  /** The cycles lie within one frame above base. */
  predicate InWindow(m: Streams, xs: set<int>, base: nat) {
    base < TWO64 && forall x | x in xs :: x in m && m[x].cycle < TWO64 && (m[x].cycle - base) % TWO64 <= MAX_GAP
  }

  lemma LessIsGapOrder(base: nat, a: Stream, b: Stream)
    requires base < TWO64 && a.cycle < TWO64 && b.cycle < TWO64
    requires (a.cycle - base) % TWO64 <= MAX_GAP && (b.cycle - base) % TWO64 <= MAX_GAP
    ensures var ga, gb := (a.cycle - base) % TWO64, (b.cycle - base) % TWO64;
            && (Less(a, b) <==> ga < gb || (ga == gb && a.seqNo < b.seqNo))
            && (ga <= gb ==> (b.cycle - a.cycle) % TWO64 == gb - ga)
  {
  }

  /** In one window, sequence numbers that differ make the order strict and total. */
  lemma WindowOrders(m: Streams, xs: set<int>, base: nat)
    requires InWindow(m, xs, base)
    requires forall x, y | x in xs && y in xs && x != y :: m[x].seqNo != m[y].seqNo
    ensures (forall x | x in xs :: x in m) && Ordered(m, xs)
  {
    forall x, y | x in xs && y in xs
      ensures Less(m[x], m[y]) <==>
              var gx, gy := (m[x].cycle - base) % TWO64, (m[y].cycle - base) % TWO64;
              gx < gy || (gx == gy && m[x].seqNo < m[y].seqNo)
    {
      LessIsGapOrder(base, m[x], m[y]);
    }
  }

  /** Then all cycles lie in the window above the first. */
  lemma FirstIsBase(m: Streams, xs: set<int>, base: nat, c: int)
    requires InWindow(m, xs, base) && First(m, xs, c)
    requires forall x, y | x in xs && y in xs && x != y :: m[x].seqNo != m[y].seqNo
    ensures InWindow(m, xs, m[c].cycle)
  {
    WindowOrders(m, xs, base);
    forall x | x in xs ensures (m[x].cycle - m[c].cycle) % TWO64 <= MAX_GAP {
      LessIsGapOrder(base, m[c], m[x]);
    }
  }

  // ---- operations

  function Enqueued(s: Sched, i: int, cycle: nat): Sched
    requires i in s.streams && s.streams[i].urgency < |s.queues|
  {
    var u := s.streams[i].urgency;
    s.(streams := s.streams[i := s.streams[i].(cycle := cycle, queued := true)],
       queues := s.queues[u := s.queues[u] + {i}])
  }

  /** `session_ob_data_push`; top is the first in the queue. */
  function Push(s: Sched, i: int, top: int): Sched
    requires i in s.streams && s.streams[i].urgency < |s.queues| && (top == NONE || top in s.streams)
  {
    var x := s.streams[i];
    var first := if top == NONE then 0 else s.streams[top].cycle;
    Enqueued(s, i, (first + if x.inc then x.writelen else 0) % TWO64)
  }

  /** `session_ob_data_remove` */
  function Pull(s: Sched, i: int): Sched
    requires i in s.streams && s.streams[i].urgency < |s.queues|
  {
    var u := s.streams[i].urgency;
    s.(streams := s.streams[i := s.streams[i].(queued := false)], queues := s.queues[u := s.queues[u] - {i}])
  }

  /** `session_reschedule_stream` after a frame of this many bytes. */
  function Rescheduled(s: Sched, i: int, bytes: nat, server: bool): Sched
    requires i in s.streams && s.streams[i].urgency < |s.queues|
  {
    var x := s.streams[i].(writelen := bytes);
    if !server || !x.inc || |s.queues[x.urgency]| == 1 then s.(streams := s.streams[i := x])
    else s.(streams := s.streams[i := x.(cycle := (x.cycle + bytes) % TWO64)])
  }

  datatype Event =
    | Open(i: int, urgency: nat, inc: bool)
    | Close(i: int)
    | Attach(i: int, top: int)
    | Detach(i: int)
    | Defer(i: int, why: set<Q.Cause>)
    | Resume(i: int, why: set<Q.Cause>, top: int)
    | Prioritize(i: int, urgency: nat, inc: bool, top: int)
    | Sent(i: int, bytes: nat)

  /** The queue that stream i is in, or would be in. */
  function QueueOf(s: Sched, i: int): set<int>
    requires i in s.streams && s.streams[i].urgency < |s.queues|
  {
    s.queues[s.streams[i].urgency]
  }

  /** i is what `session_sched_get_next_outbound_item` picks: first in the most urgent queue that is not empty. */
  ghost predicate Picked(s: Sched, i: int) {
    exists u | 0 <= u < |s.queues| :: First(s.streams, s.queues[u], i) && forall v | 0 <= v < u :: s.queues[v] == {}
  }

  ghost predicate Possible(s: Sched, e: Event)
    requires |s.queues| == LEVELS && forall i | i in s.streams :: s.streams[i].urgency < LEVELS
  {
    match e
    case Open(i, urgency, _) => i !in s.streams && i != NONE && urgency < LEVELS
    case Close(i) => i in s.streams && !s.streams[i].item
    case Attach(i, top) =>
      && i in s.streams && !s.streams[i].item && s.streams[i].deferred == {} && Top(s.streams, QueueOf(s, i), top)
    case Detach(i) => i in s.streams
    case Defer(i, why) => i in s.streams && s.streams[i].item && why != {}
    case Resume(i, why, top) =>
      i in s.streams && s.streams[i].item && s.streams[i].deferred != {} && Top(s.streams, QueueOf(s, i), top)
    case Prioritize(i, urgency, inc, top) =>
      && i in s.streams && urgency < LEVELS
      && (s.streams[i].queued ==> Top(s.streams, (if s.streams[i].urgency == urgency then s.queues[urgency] - {i}
                                                  else s.queues[urgency]), top))
    case Sent(i, bytes) => bytes <= MAX_GAP && Picked(s, i)
  }

  function WithItem(s: Sched, i: int, item: bool, deferred: set<Q.Cause>): Sched
    requires i in s.streams
  {
    s.(streams := s.streams[i := s.streams[i].(item := item, deferred := deferred)])
  }

  /** An item that is detached or deferred leaves the queue. */
  function Lowered(s: Sched, i: int, item: bool, deferred: set<Q.Cause>): Sched
    requires i in s.streams && s.streams[i].urgency < |s.queues|
  {
    if s.streams[i].queued then Pull(WithItem(s, i, item, deferred), i) else WithItem(s, i, item, deferred)
  }

  /** `session_update_stream_priority` */
  function Prioritized(s: Sched, i: int, urgency: nat, inc: bool, top: int): Sched
    requires i in s.streams && s.streams[i].urgency < |s.queues| && urgency < |s.queues|
    requires s.streams[i].queued ==> top == NONE || top in s.streams
  {
    if s.streams[i].urgency == urgency && s.streams[i].inc == inc then s
    else if s.streams[i].queued then
      var s1 := Pull(s, i);
      Push(s1.(streams := s1.streams[i := s1.streams[i].(urgency := urgency, inc := inc)]), i, top)
    else s.(streams := s.streams[i := s.streams[i].(urgency := urgency, inc := inc)])
  }

  ghost predicate Levelled(s: Sched) {
    |s.queues| == LEVELS && forall i | i in s.streams :: s.streams[i].urgency < LEVELS
  }

  ghost function Next(s: Sched, e: Event, server: bool): Sched
    requires Levelled(s) && Possible(s, e)
  {
    match e
    case Open(i, urgency, inc) =>
      s.(streams := s.streams[i := Stream(urgency, inc, false, {}, false, 0, s.nextSeq, 0)], nextSeq := s.nextSeq + 1)
    case Close(i) => s.(streams := s.streams - {i})
    case Attach(i, top) => Push(WithItem(s, i, true, {}), i, top)
    case Detach(i) => Lowered(s, i, false, {})
    case Defer(i, why) => Lowered(s, i, true, s.streams[i].deferred + why)
    case Resume(i, why, top) =>
      var s1 := WithItem(s, i, true, s.streams[i].deferred - why);
      if s1.streams[i].deferred == {} then Push(s1, i, top) else s1
    case Prioritize(i, urgency, inc, top) => Prioritized(s, i, urgency, inc, top)
    case Sent(i, bytes) => Rescheduled(s, i, bytes, server)
  }

  // ---- the invariant

  /** A queue holds the ready streams of its urgency. */
  predicate Placed(s: Sched, i: int)
    requires i in s.streams && s.streams[i].urgency < |s.queues|
  {
    && s.streams[i].queued == s.streams[i].Ready()
    && forall u | 0 <= u < |s.queues| :: i in s.queues[u] <==> s.streams[i].queued && u == s.streams[i].urgency
  }

  predicate FieldsOk(x: Stream, nextSeq: nat) {
    x.cycle < TWO64 && x.writelen <= MAX_GAP && x.seqNo < nextSeq
  }

  ghost predicate Spanned(m: Streams, xs: set<int>) {
    exists base :: InWindow(m, xs, base)
  }

  /** All is right but perhaps the place of stream i. */
  ghost predicate RightBut(s: Sched, i: int) {
    && Levelled(s) && NONE !in s.streams
    && (forall j | j in s.streams :: (j == i || Placed(s, j)) && FieldsOk(s.streams[j], s.nextSeq))
    && (forall u, j | 0 <= u < LEVELS && j in s.queues[u] :: j in s.streams)
    && (forall j, k | j in s.streams && k in s.streams && j != k :: s.streams[j].seqNo != s.streams[k].seqNo)
    && (forall u | 0 <= u < LEVELS :: Spanned(s.streams, s.queues[u]))
  }

  /** A stream is in the queue that its urgency and its item say, and the cycles of a queue span one frame at most. */
  ghost predicate Right(s: Sched) {
    RightBut(s, NONE)
  }

  // ---- windows

  lemma WindowKept(m: Streams, xs: set<int>, m': Streams, ys: set<int>)
    requires Spanned(m, xs) && ys <= xs && forall x | x in ys :: x in m && x in m' && m'[x].cycle == m[x].cycle
    ensures Spanned(m', ys)
  {
    var base :| InWindow(m, xs, base);
    assert InWindow(m', ys, base);
  }

  /** A stream that joins at the first cycle, or at most one frame later. */
  lemma WindowJoined(m: Streams, xs: set<int>, m': Streams, i: int, top: int, more: nat)
    requires Spanned(m, xs) && Top(m, xs, top) && more <= MAX_GAP && i !in xs && i in m'
    requires forall x, y | x in xs && y in xs && x != y :: m[x].seqNo != m[y].seqNo
    requires forall x | x in xs :: x in m && x in m' && m'[x].cycle == m[x].cycle
    requires m'[i].cycle == ((if top == NONE then 0 else if top in m then m[top].cycle else 0) + more) % TWO64
    requires top in m && xs != {} ==> top != NONE
    ensures Spanned(m', xs + {i})
  {
    if xs == {} {
      assert InWindow(m', xs + {i}, m'[i].cycle);
    } else {
      var base :| InWindow(m, xs, base);
      FirstIsBase(m, xs, base, top);
      WindowGrows(m, xs, m', i, m[top].cycle, more);
    }
  }

  lemma WindowGrows(m: Streams, xs: set<int>, m': Streams, i: int, base: nat, more: nat)
    requires InWindow(m, xs, base) && i !in xs && i in m' && more <= MAX_GAP && m'[i].cycle == (base + more) % TWO64
    requires forall x | x in xs :: x in m' && m'[x].cycle == m[x].cycle
    ensures InWindow(m', xs + {i}, base) && Spanned(m', xs + {i})
  {
    Later(base, more);
    forall x | x in xs + {i}
      ensures x in m' && m'[x].cycle < TWO64 && (m'[x].cycle - base) % TWO64 <= MAX_GAP
    {
      assert x in xs ==> m[x].cycle < TWO64 && (m[x].cycle - base) % TWO64 <= MAX_GAP;
    }
  }

  lemma Later(cycle: nat, more: nat)
    requires cycle < TWO64 && more < TWO64
    ensures ((cycle + more) % TWO64 - cycle) % TWO64 == more
  {
  }

  /** The first stream moves on by at most one frame. */
  lemma WindowMoved(m: Streams, xs: set<int>, m': Streams, c: int, more: nat)
    requires Spanned(m, xs) && First(m, xs, c) && more <= MAX_GAP
    requires forall x, y | x in xs && y in xs && x != y :: m[x].seqNo != m[y].seqNo
    requires forall x | x in xs :: x in m' && (x != c ==> m'[x].cycle == m[x].cycle)
    requires m'[c].cycle == (m[c].cycle + more) % TWO64
    ensures Spanned(m', xs)
  {
    var base :| InWindow(m, xs, base);
    FirstIsBase(m, xs, base, c);
    WindowGrows(m, xs - {c}, m', c, m[c].cycle, more);
    assert xs - {c} + {c} == xs;
  }

  // ---- every event keeps it

  /** i is in no queue. */
  predicate Out(s: Sched, i: int) {
    forall u | 0 <= u < |s.queues| :: i !in s.queues[u]
  }

  /** i is in the queue of its urgency, and in no other. */
  predicate In(s: Sched, i: int)
    requires i in s.streams
  {
    forall u | 0 <= u < |s.queues| :: i in s.queues[u] <==> u == s.streams[i].urgency
  }

  /** Only stream i and queue u differ. */
  predicate OnlyAt(s: Sched, t: Sched, i: int, u: int) {
    && i in s.streams && t.streams.Keys == s.streams.Keys && |t.queues| == |s.queues| && t.nextSeq == s.nextSeq
    && (forall j | j in s.streams && j != i :: t.streams[j] == s.streams[j])
    && (forall v | 0 <= v < |s.queues| && v != u :: t.queues[v] == s.queues[v])
    && t.streams[i].seqNo == s.streams[i].seqNo && t.streams[i].urgency < LEVELS && FieldsOk(t.streams[i], s.nextSeq)
  }

  /** Such a change leaves the rest right, if queue u keeps its window and i has no other queue to upset. */
  lemma RestRight(s: Sched, t: Sched, i: int, u: int)
    requires RightBut(s, i) && OnlyAt(s, t, i, u)
    requires 0 <= u < LEVELS ==>
               (forall j | j != i :: j in t.queues[u] <==> j in s.queues[u]) && Spanned(t.streams, t.queues[u])
    requires forall v | 0 <= v < LEVELS && v != u && i in s.queues[v] :: t.streams[i].cycle == s.streams[i].cycle
    ensures RightBut(t, i)
  {
    forall j | j in t.streams ensures (j == i || Placed(t, j)) && FieldsOk(t.streams[j], t.nextSeq) {
      assert (j == i || Placed(s, j)) && FieldsOk(s.streams[j], s.nextSeq);
    }
    forall v | 0 <= v < LEVELS ensures Spanned(t.streams, t.queues[v]) {
      if v != u {
        WindowKept(s.streams, s.queues[v], t.streams, t.queues[v]);
      }
    }
  }

  lemma Settled(s: Sched, i: int)
    requires RightBut(s, i) && (i in s.streams ==> Placed(s, i))
    ensures Right(s)
  {
  }

  lemma PushRight(s: Sched, i: int, top: int)
    requires RightBut(s, i) && i in s.streams && s.streams[i].Ready() && Out(s, i)
    requires s.streams[i].urgency < |s.queues| && Top(s.streams, QueueOf(s, i), top)
    ensures (top == NONE || top in s.streams) && Right(Push(s, i, top))
  {
    var u, x, t := s.streams[i].urgency, s.streams[i], Push(s, i, top);
    WindowJoined(s.streams, s.queues[u], t.streams, i, top, if x.inc then x.writelen else 0);
    RestRight(s, t, i, u);
    Settled(t, i);
  }

  lemma PullRight(s: Sched, i: int)
    requires RightBut(s, i) && i in s.streams && s.streams[i].urgency < |s.queues| && In(s, i)
    ensures RightBut(Pull(s, i), i) && Out(Pull(s, i), i)
  {
    var u, t := s.streams[i].urgency, Pull(s, i);
    WindowKept(s.streams, s.queues[u], t.streams, t.queues[u]);
    RestRight(s, t, i, u);
  }

  lemma WithItemRight(s: Sched, i: int, item: bool, deferred: set<Q.Cause>)
    requires Right(s) && i in s.streams
    ensures RightBut(WithItem(s, i, item, deferred), i)
    ensures if s.streams[i].queued then In(WithItem(s, i, item, deferred), i)
            else Out(WithItem(s, i, item, deferred), i)
  {
    assert Placed(s, i) && FieldsOk(s.streams[i], s.nextSeq);
    RestRight(s, WithItem(s, i, item, deferred), i, NONE);
  }

  lemma LoweredRight(s: Sched, i: int, item: bool, deferred: set<Q.Cause>)
    requires Right(s) && i in s.streams && !(item && deferred == {})
    ensures s.streams[i].urgency < |s.queues| && Right(Lowered(s, i, item, deferred))
  {
    WithItemRight(s, i, item, deferred);
    if s.streams[i].queued {
      PullRight(WithItem(s, i, item, deferred), i);
    }
    Settled(Lowered(s, i, item, deferred), i);
  }

  lemma RaisedRight(s: Sched, i: int, deferred: set<Q.Cause>, top: int)
    requires Right(s) && i in s.streams && !s.streams[i].Ready() && s.streams[i].urgency < |s.queues|
    requires Top(s.streams, QueueOf(s, i), top)
    ensures var s1 := WithItem(s, i, true, deferred);
            && (top == NONE || top in s.streams)
            && Right(if deferred == {} then Push(s1, i, top) else s1)
  {
    var s1 := WithItem(s, i, true, deferred);
    assert Placed(s, i);
    WithItemRight(s, i, true, deferred);
    if deferred == {} {
      SameTop(s, s1, i, top);
      PushRight(s1, i, top);
    } else {
      Settled(s1, i);
    }
  }

  /** Whether a stream is first in a queue it is not in does not depend on it. */
  lemma SameTop(s: Sched, t: Sched, i: int, top: int)
    requires OnlyAt(s, t, i, NONE) && Out(s, i) && Levelled(s) && Levelled(t)
    requires Top(s.streams, QueueOf(t, i), top)
    ensures Top(t.streams, QueueOf(t, i), top)
  {
    var xs := QueueOf(t, i);
    if Ordered(t.streams, xs) {
      assert forall x | x in xs :: t.streams[x] == s.streams[x];
    }
  }

  lemma PrioritizedRight(s: Sched, i: int, urgency: nat, inc: bool, top: int)
    requires Right(s) && i in s.streams && s.streams[i].urgency < |s.queues| && urgency < LEVELS
    requires s.streams[i].queued ==>
               Top(s.streams, if s.streams[i].urgency == urgency then s.queues[urgency] - {i}
                   else s.queues[urgency], top)
    ensures s.streams[i].queued ==> top == NONE || top in s.streams
    ensures Right(Prioritized(s, i, urgency, inc, top))
  {
    assert Placed(s, i) && FieldsOk(s.streams[i], s.nextSeq);
    if s.streams[i].queued {
      var s1 := Pull(s, i);
      PullRight(s, i);
      var s2 := s1.(streams := s1.streams[i := s1.streams[i].(urgency := urgency, inc := inc)]);
      RestRight(s1, s2, i, NONE);
      assert QueueOf(s2, i) == if s.streams[i].urgency == urgency then s.queues[urgency] - {i} else s.queues[urgency];
      PulledTop(s, s2, i, QueueOf(s2, i), top);
      PushRight(s2, i, top);
    } else {
      var s1 := s.(streams := s.streams[i := s.streams[i].(urgency := urgency, inc := inc)]);
      RestRight(s, s1, i, NONE);
      Settled(s1, i);
    }
  }

  lemma PulledTop(s: Sched, t: Sched, i: int, xs: set<int>, top: int)
    requires t.streams.Keys == s.streams.Keys && (forall j | j in s.streams && j != i :: t.streams[j] == s.streams[j])
    requires i !in xs && Top(s.streams, xs, top)
    ensures Top(t.streams, xs, top)
  {
    if xs != {} && Ordered(t.streams, xs) {
      assert forall x | x in xs :: t.streams[x] == s.streams[x];
    }
  }

  lemma SentRight(s: Sched, i: int, bytes: nat, server: bool)
    requires Right(s) && Picked(s, i) && bytes <= MAX_GAP
    ensures i in s.streams && s.streams[i].urgency < |s.queues| && Right(Rescheduled(s, i, bytes, server))
  {
    PickedIn(s, i);
    var u, t := s.streams[i].urgency, Rescheduled(s, i, bytes, server);
    assert Placed(s, i) && FieldsOk(s.streams[i], s.nextSeq);
    if t.streams[i].cycle == s.streams[i].cycle {
      WindowKept(s.streams, s.queues[u], t.streams, t.queues[u]);
    } else {
      WindowMoved(s.streams, s.queues[u], t.streams, i, bytes);
    }
    RestRight(s, t, i, u);
    Settled(t, i);
  }

  /** What is picked is first in the queue of its urgency. */
  lemma PickedIn(s: Sched, i: int)
    requires Right(s) && Picked(s, i)
    ensures i in s.streams && s.streams[i].queued && First(s.streams, QueueOf(s, i), i)
  {
    var u :| 0 <= u < |s.queues| && First(s.streams, s.queues[u], i) && forall v | 0 <= v < u :: s.queues[v] == {};
    assert Placed(s, i);
  }

  lemma OpenRight(s: Sched, i: int, urgency: nat, inc: bool)
    requires Right(s) && i !in s.streams && i != NONE && urgency < LEVELS
    ensures Right(Next(s, Open(i, urgency, inc), true))
  {
    var t := Next(s, Open(i, urgency, inc), true);
    forall j | j in t.streams ensures Placed(t, j) && FieldsOk(t.streams[j], t.nextSeq) {
      assert j != i ==> Placed(s, j) && FieldsOk(s.streams[j], s.nextSeq);
    }
    forall u | 0 <= u < LEVELS ensures Spanned(t.streams, t.queues[u]) {
      WindowKept(s.streams, s.queues[u], t.streams, t.queues[u]);
    }
    forall j | j in s.streams ensures s.streams[j].seqNo < s.nextSeq {
      assert FieldsOk(s.streams[j], s.nextSeq);
    }
  }

  lemma CloseRight(s: Sched, i: int)
    requires Right(s) && i in s.streams && !s.streams[i].item
    ensures Right(s.(streams := s.streams - {i}))
  {
    var t := s.(streams := s.streams - {i});
    assert Placed(s, i);
    forall j | j in t.streams ensures Placed(t, j) && FieldsOk(t.streams[j], t.nextSeq) {
      assert Placed(s, j) && FieldsOk(s.streams[j], s.nextSeq);
    }
    forall u | 0 <= u < LEVELS ensures Spanned(t.streams, t.queues[u]) {
      WindowKept(s.streams, s.queues[u], t.streams, t.queues[u]);
    }
  }

  lemma NextRight(s: Sched, e: Event, server: bool)
    requires Right(s) && Possible(s, e)
    ensures Right(Next(s, e, server))
  {
    match e
    case Open(i, urgency, inc) => OpenRight(s, i, urgency, inc);
    case Close(i) => CloseRight(s, i);
    case Attach(i, top) => RaisedRight(s, i, {}, top);
    case Detach(i) => LoweredRight(s, i, false, {});
    case Defer(i, why) => LoweredRight(s, i, true, s.streams[i].deferred + why);
    case Resume(i, why, top) => RaisedRight(s, i, s.streams[i].deferred - why, top);
    case Prioritize(i, urgency, inc, top) => PrioritizedRight(s, i, urgency, inc, top);
    case Sent(i, bytes) => SentRight(s, i, bytes, server);
  }

  // ---- the pick

  /** A most urgent stream is picked. */
  lemma PickIsMostUrgent(s: Sched, i: int, j: int)
    requires Right(s) && Picked(s, i) && j in s.streams && s.streams[j].Ready()
    ensures i in s.streams && s.streams[i].Ready() && s.streams[i].urgency <= s.streams[j].urgency
  {
    PickedIn(s, i);
    assert Placed(s, i) && Placed(s, j);
    var u :| 0 <= u < |s.queues| && First(s.streams, s.queues[u], i) && forall v | 0 <= v < u :: s.queues[v] == {};
    assert s.queues[s.streams[j].urgency] != {};
  }

  /** There is nothing to pick just when no stream is ready. */
  lemma NoneReady(s: Sched)
    requires Right(s)
    ensures (forall u | 0 <= u < LEVELS :: s.queues[u] == {}) <==> forall j | j in s.streams :: !s.streams[j].Ready()
  {
    if forall u | 0 <= u < LEVELS :: s.queues[u] == {} {
      forall j | j in s.streams ensures !s.streams[j].Ready() {
        assert Placed(s, j) && s.queues[s.streams[j].urgency] == {};
      }
    } else {
      var u :| 0 <= u < LEVELS && s.queues[u] != {};
      var j := Q.Member(s.queues[u]);
      assert Placed(s, j);
    }
  }

  /** `stream_less` orders every queue. */
  lemma QueuesOrdered(s: Sched, u: nat)
    requires Right(s) && u < LEVELS
    ensures Ordered(s.streams, s.queues[u])
  {
    var base :| InWindow(s.streams, s.queues[u], base);
    WindowOrders(s.streams, s.queues[u], base);
  }
}
