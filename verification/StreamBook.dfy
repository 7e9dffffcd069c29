/**
 * Which streams a session keeps, in RFC 7540 priority mode: idle ones, which anchor others in the dependency tree,
 * closed ones, which a server retains for the same purpose, and live ones.  The counters that limits are checked
 * against are the sizes of these.
 */
module StreamBook {
  /** Where a stream stands; a live stream is reserved when it is promised and not opened yet. */
  datatype Place = Idle | Closed | Live(reserved: bool)

  /** The streams in the map, the two lists, oldest first, and the counters. */
  datatype Book = Book(
    server: bool, place: map<int, Place>, idle: seq<int>, closed: seq<int>,
    numIdle: int, numClosed: int, numOutgoing: int, numIncoming: int, numReserved: int)

  /** `nghttp2_session_is_my_stream_id` */
  predicate Mine(server: bool, i: int) {
    i != 0 && (if server then i % 2 == 0 else i % 2 == 1)
  }

  datatype Event =
    | OpenIdle(i: int)
    | Open(i: int, reserved: bool)
    | SendPushed(i: int)
    | ReceivePushed(i: int)
    | Close(i: int, keep: bool)
    | AdjustClosed(max: nat)
    | AdjustIdle(max: nat)

  predicate Possible(b: Book, e: Event) {
    match e
    case OpenIdle(i) => i !in b.place
    case Open(i, _) => i in b.place ==> b.place[i] == Idle
    case SendPushed(i) => i in b.place && b.place[i] == Live(true) && Mine(b.server, i)
    case ReceivePushed(i) => i in b.place && b.place[i] == Live(true) && !Mine(b.server, i)
    case Close(i, _) => i in b.place && b.place[i].Live?
    case _ => true
  }

  /** xs without x. */
  function Without(xs: seq<int>, x: int): (r: seq<int>)
    ensures forall y :: y in r <==> y in xs && y != x
  {
    if xs == [] then [] else (if xs[0] == x then [] else [xs[0]]) + Without(xs[1..], x)
  }

  /** `nghttp2_session_detach_idle_stream`, for a stream that may be idle. */
  function Unidled(b: Book, i: int): Book {
    if i in b.place then b.(idle := Without(b.idle, i), numIdle := b.numIdle - 1) else b
  }

  /** `nghttp2_session_keep_idle_stream` */
  function KeptIdle(b: Book, i: int): Book {
    b.(idle := b.idle + [i], numIdle := b.numIdle + 1)
  }

  /** `nghttp2_session_keep_closed_stream` */
  function KeptClosed(b: Book, i: int): Book {
    b.(closed := b.closed + [i], numClosed := b.numClosed + 1)
  }

  /** A stream in the map, at this place. */
  function PutAt(b: Book, i: int, p: Place): Book {
    b.(place := b.place[i := p])
  }

  /** One more live stream, or with -1 one fewer. */
  function Counted(b: Book, i: int, reserved: bool, n: int): Book {
    if reserved then
      if Mine(b.server, i) then b else b.(numReserved := b.numReserved + n)
    else if Mine(b.server, i) then b.(numOutgoing := b.numOutgoing + n)
    else b.(numIncoming := b.numIncoming + n)
  }

  /** The part of `nghttp2_session_open_stream` that concerns the lists and the counters. */
  function Opened(b: Book, i: int, reserved: bool): Book {
    Counted(PutAt(Unidled(b, i), i, Live(reserved)), i, reserved, 1)
  }

  /** `nghttp2_session_destroy_stream` */
  function Destroyed(b: Book, i: int): Book {
    b.(place := b.place - {i})
  }

  /** `nghttp2_session_close_stream`: a server keeps the peer's streams, unless told not to. */
  function ClosedBy(b: Book, i: int, keep: bool): Book
    requires i in b.place && b.place[i].Live?
  {
    var b1 := Counted(b, i, b.place[i].reserved, -1);
    if keep && b.server && !Mine(b.server, i) then
      KeptClosed(PutAt(b1, i, Closed), i)
    else Destroyed(b1, i)
  }

  /** The oldest closed stream leaves its list. */
  function ClosedTail(b: Book): Book
    requires b.closed != []
  {
    b.(closed := b.closed[1..], numClosed := b.numClosed - 1)
  }

  function IdleTail(b: Book): Book
    requires b.idle != []
  {
    b.(idle := b.idle[1..], numIdle := b.numIdle - 1)
  }

  function DropClosed(b: Book): Book
    requires b.closed != []
  {
    Destroyed(ClosedTail(b), b.closed[0])
  }

  function DropIdle(b: Book): Book
    requires b.idle != []
  {
    Destroyed(IdleTail(b), b.idle[0])
  }

  /** The loop of `nghttp2_session_adjust_closed_stream`. */
  function AdjustedClosed(b: Book, max: nat): Book
    decreases |b.closed|
  {
    if b.closed != [] && |b.closed| + b.numIncoming > max then AdjustedClosed(DropClosed(b), max) else b
  }

  /** The loop of `nghttp2_session_adjust_idle_stream`. */
  function AdjustedIdle(b: Book, max: nat): Book
    decreases |b.idle|
  {
    if |b.idle| > max then AdjustedIdle(DropIdle(b), max) else b
  }

  /** A promise fulfilled: the stream is not reserved any more. */
  function Fulfilled(b: Book, i: int): Book {
    PutAt(b, i, Live(false))
  }

  function FulfilledTheirs(b: Book, i: int): Book {
    Counted(Counted(Fulfilled(b, i), i, true, -1), i, false, 1)
  }

  function FulfilledMine(b: Book, i: int): Book {
    Counted(Fulfilled(b, i), i, false, 1)
  }

  function Next(b: Book, e: Event): Book
    requires Possible(b, e)
  {
    match e
    case OpenIdle(i) => KeptIdle(PutAt(b, i, Idle), i)
    case Open(i, reserved) => Opened(b, i, reserved)
    case SendPushed(i) => FulfilledMine(b, i)
    case ReceivePushed(i) => FulfilledTheirs(b, i)
    case Close(i, keep) => ClosedBy(b, i, keep)
    case AdjustClosed(max) => AdjustedClosed(b, max)
    case AdjustIdle(max) => AdjustedIdle(b, max)
  }

  // ---- the invariant

  predicate Distinct(xs: seq<int>) {
    forall j, k | 0 <= j < k < |xs| :: xs[j] != xs[k]
  }

  /** The live streams that are reserved or not, and mine or not. */
  function Kind(server: bool, place: map<int, Place>, reserved: bool, mine: bool): set<int> {
    set i | i in place && place[i] == Live(reserved) && Mine(server, i) == mine
  }

  /** The lists hold the idle and the closed streams, each once. */
  ghost predicate Listed(b: Book) {
    && Distinct(b.idle) && Distinct(b.closed)
    && (forall i :: i in b.idle <==> i in b.place && b.place[i] == Idle)
    && (forall i :: i in b.closed <==> i in b.place && b.place[i] == Closed)
    && b.numIdle == |b.idle| && b.numClosed == |b.closed|
  }

  /** And the other counters count the live streams, but for those this end has promised itself. */
  ghost predicate Right(b: Book) {
    Listed(b) && CountersRight(b)
  }

  predicate CountersRight(b: Book) {
    && b.numOutgoing == |Kind(b.server, b.place, false, true)|
    && b.numIncoming == |Kind(b.server, b.place, false, false)|
    && b.numReserved == |Kind(b.server, b.place, true, false)|
  }

  // ---- counting

  lemma {:induction false} WithoutDistinct(xs: seq<int>, x: int)
    requires Distinct(xs)
    ensures Distinct(Without(xs, x))
    ensures |Without(xs, x)| == |xs| - if x in xs then 1 else 0
  {
    if xs != [] {
      WithoutDistinct(xs[1..], x);
      var r := Without(xs[1..], x);
      if xs[0] != x {
        forall j, k | 0 <= j < k < |[xs[0]] + r| ensures ([xs[0]] + r)[j] != ([xs[0]] + r)[k] {
          assert r[k - 1] in r && r[k - 1] in xs[1..];
          assert j > 0 ==> ([xs[0]] + r)[j] == r[j - 1];
        }
      }
    }
  }

  predicate Counts(server: bool, i: int, p: Place, reserved: bool, mine: bool) {
    p == Live(reserved) && mine == Mine(server, i)
  }

  /** A new stream counts for its own kind. */
  lemma KindPut(server: bool, place: map<int, Place>, i: int, p: Place, r: bool, mine: bool)
    requires i !in place
    ensures |Kind(server, place[i := p], r, mine)|
         == |Kind(server, place, r, mine)| + if Counts(server, i, p, r, mine) then 1 else 0
  {
    var before, after := Kind(server, place, r, mine), Kind(server, place[i := p], r, mine);
    forall x ensures x in after <==> x in before || (x == i && Counts(server, i, p, r, mine)) {
    }
    if Counts(server, i, p, r, mine) {
      assert after == before + {i};
    } else {
      assert after == before;
    }
  }

  lemma KindDrop(server: bool, place: map<int, Place>, i: int, r: bool, mine: bool)
    requires i in place
    ensures |Kind(server, place - {i}, r, mine)|
         == |Kind(server, place, r, mine)| - if Counts(server, i, place[i], r, mine) then 1 else 0
  {
    KindPut(server, place - {i}, i, place[i], r, mine);
    assert (place - {i})[i := place[i]] == place;
  }

  /** A stream that changes its place counts for its new kind instead of its old one. */
  lemma KindMove(server: bool, place: map<int, Place>, i: int, p: Place, r: bool, mine: bool)
    ensures |Kind(server, place[i := p], r, mine)|
         == |Kind(server, place, r, mine)| + (if Counts(server, i, p, r, mine) then 1 else 0)
            - if i in place && Counts(server, i, place[i], r, mine) then 1 else 0
  {
    if i in place {
      KindDrop(server, place, i, r, mine);
      KindPut(server, place - {i}, i, p, r, mine);
      assert (place - {i})[i := p] == place[i := p];
    } else {
      KindPut(server, place, i, p, r, mine);
    }
  }

  lemma AllKindsMove(b: Book, i: int, p: Place)
    ensures forall r, mine ::
              |Kind(b.server, b.place[i := p], r, mine)|
              == |Kind(b.server, b.place, r, mine)| + (if Counts(b.server, i, p, r, mine) then 1 else 0)
                 - if i in b.place && Counts(b.server, i, b.place[i], r, mine) then 1 else 0
  {
    forall r, mine
      ensures |Kind(b.server, b.place[i := p], r, mine)|
              == |Kind(b.server, b.place, r, mine)| + (if Counts(b.server, i, p, r, mine) then 1 else 0)
                 - if i in b.place && Counts(b.server, i, b.place[i], r, mine) then 1 else 0
    {
      KindMove(b.server, b.place, i, p, r, mine);
    }
  }

  lemma AllKindsDrop(b: Book, i: int)
    requires i in b.place
    ensures forall r, mine ::
              |Kind(b.server, b.place - {i}, r, mine)|
              == |Kind(b.server, b.place, r, mine)| - if Counts(b.server, i, b.place[i], r, mine) then 1 else 0
  {
    forall r, mine
      ensures |Kind(b.server, b.place - {i}, r, mine)|
              == |Kind(b.server, b.place, r, mine)| - if Counts(b.server, i, b.place[i], r, mine) then 1 else 0
    {
      KindDrop(b.server, b.place, i, r, mine);
    }
  }

  lemma OpenedRight(b: Book, i: int, reserved: bool)
    requires Right(b) && Possible(b, Open(i, reserved))
    ensures Right(Opened(b, i, reserved))
  {
    AllKindsMove(b, i, Live(reserved));
    WithoutDistinct(b.idle, i);
  }

  lemma ClosedListed(b: Book, i: int, keep: bool)
    requires Listed(b) && Possible(b, Close(i, keep))
    ensures Listed(ClosedBy(b, i, keep))
  {
  }

  lemma ClosedCounted(b: Book, i: int, keep: bool)
    requires CountersRight(b) && Possible(b, Close(i, keep))
    ensures CountersRight(ClosedBy(b, i, keep))
  {
    if keep && b.server && !Mine(b.server, i) {
      AllKindsMove(b, i, Closed);
    } else {
      AllKindsDrop(b, i);
    }
  }

  lemma ClosedRight(b: Book, i: int, keep: bool)
    requires Right(b) && Possible(b, Close(i, keep))
    ensures Right(ClosedBy(b, i, keep))
  {
    ClosedListed(b, i, keep);
    ClosedCounted(b, i, keep);
  }

  /** A listed stream that is destroyed counts for no kind. */
  lemma DropRight(b: Book, i: int, idle: seq<int>, closed: seq<int>)
    requires Right(b) && i in b.place && !b.place[i].Live? && Distinct(idle) && Distinct(closed)
    requires (forall j :: j in idle <==> j in b.idle && j != i)
    requires (forall j :: j in closed <==> j in b.closed && j != i)
    ensures Right(Destroyed(b, i).(idle := idle, closed := closed, numIdle := |idle|, numClosed := |closed|))
  {
    AllKindsDrop(b, i);
  }

  lemma DropClosedRight(b: Book)
    requires Right(b) && b.closed != []
    ensures Right(DropClosed(b))
  {
    assert b.closed[0] in b.closed;
    DropRight(b, b.closed[0], b.idle, b.closed[1..]);
  }

  lemma DropIdleRight(b: Book)
    requires Right(b) && b.idle != []
    ensures Right(DropIdle(b))
  {
    assert b.idle[0] in b.idle;
    DropRight(b, b.idle[0], b.idle[1..], b.closed);
  }

  /** The loop ends at its limit, having dropped the oldest closed streams only. */
  lemma {:induction false} AdjustedClosedRight(b: Book, max: nat)
    requires Right(b)
    ensures var r := AdjustedClosed(b, max);
            && Right(r) && (r.closed == [] || |r.closed| + r.numIncoming <= max)
            && |r.closed| <= |b.closed| && r.closed == b.closed[|b.closed| - |r.closed|..]
            && r.idle == b.idle && r.numIncoming == b.numIncoming
    decreases |b.closed|
  {
    if b.closed != [] && |b.closed| + b.numIncoming > max {
      DropClosedRight(b);
      AdjustedClosedRight(DropClosed(b), max);
    }
  }

  lemma {:induction false} AdjustedIdleRight(b: Book, max: nat)
    requires Right(b)
    ensures var r := AdjustedIdle(b, max);
            && Right(r) && |r.idle| <= max && |r.idle| <= |b.idle| && r.idle == b.idle[|b.idle| - |r.idle|..]
            && r.closed == b.closed
    decreases |b.idle|
  {
    if |b.idle| > max {
      DropIdleRight(b);
      AdjustedIdleRight(DropIdle(b), max);
    }
  }

  lemma NextRight(b: Book, e: Event)
    requires Right(b) && Possible(b, e)
    ensures Right(Next(b, e))
  {
    match e
    case OpenIdle(i) => AllKindsMove(b, i, Idle);
    case Open(i, reserved) => OpenedRight(b, i, reserved);
    case SendPushed(i) => AllKindsMove(b, i, Live(false));
    case ReceivePushed(i) => AllKindsMove(b, i, Live(false));
    case Close(i, keep) => ClosedRight(b, i, keep);
    case AdjustClosed(max) => AdjustedClosedRight(b, max);
    case AdjustIdle(max) => AdjustedIdleRight(b, max);
  }

  // ---- what each operation does

  /** The loop over closed streams drops the oldest of them, and no more than it has to. */
  lemma {:induction false} AdjustedClosedDrops(b: Book, max: nat)
    ensures var r := AdjustedClosed(b, max); var n := |b.closed| - |r.closed|;
            && 0 <= n && r.closed == b.closed[n..] && r.idle == b.idle && r.server == b.server
            && r.numIncoming == b.numIncoming && (n > 0 ==> |r.closed| + 1 + b.numIncoming > max)
            && (forall i :: i in r.place <==> i in b.place && i !in b.closed[..n])
            && (forall i | i in r.place :: r.place[i] == b.place[i])
    decreases |b.closed|
  {
    if b.closed != [] && |b.closed| + b.numIncoming > max {
      AdjustedClosedDrops(DropClosed(b), max);
      var n := |b.closed| - |AdjustedClosed(b, max).closed|;
      assert b.closed[..n] == [b.closed[0]] + b.closed[1..][..n - 1];
    }
  }

  lemma {:induction false} AdjustedIdleDrops(b: Book, max: nat)
    ensures var r := AdjustedIdle(b, max); var n := |b.idle| - |r.idle|;
            && 0 <= n && r.idle == b.idle[n..] && r.closed == b.closed && r.server == b.server
            && (n > 0 ==> |r.idle| + 1 > max)
            && (forall i :: i in r.place <==> i in b.place && i !in b.idle[..n])
            && (forall i | i in r.place :: r.place[i] == b.place[i])
    decreases |b.idle|
  {
    if |b.idle| > max {
      AdjustedIdleDrops(DropIdle(b), max);
      var n := |b.idle| - |AdjustedIdle(b, max).idle|;
      assert b.idle[..n] == [b.idle[0]] + b.idle[1..][..n - 1];
    }
  }

  /**
   * Where streams stand after an event other than those loops.  A server keeps a closed stream of the peer's, behind
   * all others, unless it is told not to; every other stream that is closed is forgotten.
   */
  lemma StandsAsTold(b: Book, e: Event)
    requires Possible(b, e) && !e.AdjustClosed? && !e.AdjustIdle?
    ensures var t := Next(b, e);
            && t.server == b.server
            && (forall x :: x in b.place && x != e.i ==> x in t.place && t.place[x] == b.place[x])
            && (forall x :: x in t.place && x != e.i ==> x in b.place)
            && match e
               case OpenIdle(i) => i in t.place && t.place[i] == Idle && t.idle == b.idle + [i] && t.closed == b.closed
               case Open(i, reserved) =>
                 && i in t.place && t.place[i] == Live(reserved) && t.closed == b.closed
                 && forall x :: x in t.idle <==> x in b.idle && (i in b.place ==> x != i)
               case Close(i, keep) =>
                 && t.idle == b.idle
                 && (if keep && b.server && !Mine(b.server, i)
                     then i in t.place && t.place[i] == Closed && t.closed == b.closed + [i]
                     else i !in t.place && t.closed == b.closed)
               case _ => e.i in t.place && t.place[e.i] == Live(false) && t.idle == b.idle && t.closed == b.closed
  {
  }

  // ---- runs

  function Start(server: bool): Book {
    Book(server, map[], [], [], 0, 0, 0, 0, 0)
  }

  predicate Runs(b: Book, es: seq<Event>)
    decreases |es|
  {
    es == [] || (Possible(b, es[0]) && Runs(Next(b, es[0]), es[1..]))
  }

  function AfterAll(b: Book, es: seq<Event>): Book
    requires Runs(b, es)
    decreases |es|
  {
    if es == [] then b else AfterAll(Next(b, es[0]), es[1..])
  }

  /** In every state that a run leads to, the lists and the counters are right. */
  lemma {:induction false} AlwaysRight(b: Book, es: seq<Event>)
    requires Right(b) && Runs(b, es)
    ensures Right(AfterAll(b, es))
    decreases |es|
  {
    if es != [] {
      NextRight(b, es[0]);
      AlwaysRight(Next(b, es[0]), es[1..]);
    }
  }

  /** Any run from an empty session: who is listed where, and what the counters count. */
  lemma EverRight(server: bool, es: seq<Event>)
    requires Runs(Start(server), es)
    ensures var b := AfterAll(Start(server), es);
            && Distinct(b.idle) && Distinct(b.closed) && b.numIdle == |b.idle| && b.numClosed == |b.closed|
            && (forall i :: i in b.idle <==> i in b.place && b.place[i] == Idle)
            && (forall i :: i in b.closed <==> i in b.place && b.place[i] == Closed)
            && b.numOutgoing == |Kind(b.server, b.place, false, true)|
            && b.numIncoming == |Kind(b.server, b.place, false, false)|
            && b.numReserved == |Kind(b.server, b.place, true, false)|
  {
    AlwaysRight(Start(server), es);
  }

  lemma {:induction false} ElementsOf(xs: seq<int>)
    requires Distinct(xs)
    ensures |set x | x in xs| == |xs|
  {
    if xs != [] {
      ElementsOf(xs[1..]);
      assert (set x | x in xs) == (set x | x in xs[1..]) + {xs[0]};
    }
  }

  lemma Disjoint(a: set<int>, b: set<int>)
    requires a !! b
    ensures |a + b| == |a| + |b|
  {
  }

  lemma ListedCounted(b: Book, kept: set<int>)
    requires Right(b) && forall i :: i in kept <==> i in b.place && !b.place[i].Live?
    ensures |kept| == b.numIdle + b.numClosed
  {
    var idle, closed := set i | i in b.idle, set i | i in b.closed;
    ElementsOf(b.idle);
    ElementsOf(b.closed);
    forall i ensures i in kept <==> i in idle || i in closed {
      assert i in idle <==> i in b.idle;
      assert i in closed <==> i in b.closed;
    }
    assert kept == idle + closed;
    Disjoint(idle, closed);
  }

  lemma LiveCounted(b: Book, live: set<int>)
    requires CountersRight(b) && forall i :: i in live <==> i in b.place && b.place[i].Live?
    ensures |live| == b.numOutgoing + b.numIncoming + b.numReserved + |Kind(b.server, b.place, true, true)|
  {
    var out, inc := Kind(b.server, b.place, false, true), Kind(b.server, b.place, false, false);
    var theirs, ours := Kind(b.server, b.place, true, false), Kind(b.server, b.place, true, true);
    Disjoint(out, inc);
    Disjoint(theirs, ours);
    Disjoint(out + inc, theirs + ours);
    forall i
      ensures i in live <==> i in (out + inc) + (theirs + ours)
    {
      if i in live {
        LiveOfAKind(b, i);
      }
    }
    assert live == (out + inc) + (theirs + ours);
  }

  lemma LiveOfAKind(b: Book, i: int)
    requires i in b.place && b.place[i].Live?
    ensures i in Kind(b.server, b.place, b.place[i].reserved, Mine(b.server, i))
  {
  }

  /**
   * `session_get_num_active_streams` is the number of live streams: those that the counters count, and those this
   * end has promised.
   */
  lemma ActiveStreamsAreLive(b: Book)
    requires Right(b)
    ensures |b.place| - b.numClosed - b.numIdle
         == b.numOutgoing + b.numIncoming + b.numReserved + |Kind(b.server, b.place, true, true)|
  {
    var kept, live := set i | i in b.place && !b.place[i].Live?, set i | i in b.place && b.place[i].Live?;
    ListedCounted(b, kept);
    LiveCounted(b, live);
    Disjoint(kept, live);
    assert b.place.Keys == kept + live;
    assert |b.place| == |b.place.Keys|;
  }
}
