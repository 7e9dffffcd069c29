/**
 * The session's stream map, its two doubly linked lists and its counters, in place: each operation is proved to do
 * what StreamBook describes, and to leave the lists well formed.
 */
module StreamLists {
  import opened StreamBook

  /** `closed_prev` and `closed_next` link the idle and the closed streams; state and flags say where it stands. */
  class Stream {
    const id: int
    var prev: Stream?
    var next: Stream?
    var place: Place

    constructor (id: int, place: Place)
      ensures this.id == id && this.place == place && prev == null && next == null
    {
      this.id, this.place := id, place;
      prev, next := null, null;
    }
  }

  /** A head and a tail pointer of the session, and the streams between them. */
  class StreamList {
    var head: Stream?
    var tail: Stream?
    ghost var items: seq<Stream>

    constructor ()
      ensures Valid() && items == []
    {
      head, tail, items := null, null, [];
    }

    ghost predicate Valid()
      reads this, items`prev, items`next
    {
      && head == (if items == [] then null else items[0])
      && tail == (if items == [] then null else items[|items| - 1])
      && (forall j, k | 0 <= j < k < |items| :: items[j] != items[k])
      && forall k | 0 <= k < |items| :: LinkedAt(k)
    }

    ghost predicate LinkedAt(k: int)
      requires 0 <= k < |items|
      reads this, items`prev, items`next
    {
      && items[k].prev == (if k == 0 then null else items[k - 1])
      && items[k].next == (if k + 1 == |items| then null else items[k + 1])
    }

    /** `nghttp2_session_keep_idle_stream`, `nghttp2_session_keep_closed_stream` */
    method Keep(s: Stream)
      requires Valid() && s !in items && s.prev == null && s.next == null
      modifies this, s`prev, s`next, items`prev, items`next
      ensures Valid() && items == old(items) + [s]
    {
      ghost var was := items;
      if tail != null {
        tail.next := s;
        s.prev := tail;
      } else {
        head := s;
      }
      tail := s;
      items := items + [s];
      forall k | 0 <= k < |items| ensures LinkedAt(k) {
        assert k < |was| ==> items[k] == was[k] && was[k] != s && old(LinkedAt(k));
      }
    }

    /** `nghttp2_session_detach_idle_stream`; s is number k. */
    method Detach(s: Stream, ghost k: nat)
      requires Valid() && k < |items| && items[k] == s
      modifies this, items`prev, items`next
      ensures Valid() && items == old(items)[..k] + old(items)[k + 1..]
      ensures s.prev == null && s.next == null
    {
      assert LinkedAt(k) && (k > 0 ==> LinkedAt(k - 1)) && (k + 1 < |items| ==> LinkedAt(k + 1));
      ghost var was := items;
      if s.prev != null {
        s.prev.next := s.next;
      } else {
        head := s.next;
      }
      if s.next != null {
        s.next.prev := s.prev;
      } else {
        tail := s.prev;
      }
      s.prev, s.next := null, null;
      items := was[..k] + was[k + 1..];
      forall j | 0 <= j < |items| ensures LinkedAt(j) {
        assert items[j] == was[if j < k then j else j + 1] && items[j] != s;
        assert old(LinkedAt(if j < k then j else j + 1));
      }
    }

    /** The unlinking in the loops of the adjust functions. */
    method DropHead()
      requires Valid() && items != []
      modifies this, items`prev, items`next
      ensures Valid() && items == old(items)[1..]
    {
      assert LinkedAt(0) && (|items| > 1 ==> LinkedAt(1));
      ghost var was := items;
      head := head.next;
      if head != null {
        head.prev := null;
      } else {
        tail := null;
      }
      items := was[1..];
      forall j | 0 <= j < |items| ensures LinkedAt(j) {
        assert items[j] == was[j + 1] && (j + 1 < |items| ==> items[j + 1] == was[j + 2]);
        assert old(LinkedAt(j + 1));
      }
    }
  }

  /** Where a stream stands in a list of ids. */
  lemma {:induction false} Position(xs: seq<int>, i: int) returns (k: nat)
    requires i in xs && Distinct(xs)
    ensures k < |xs| && xs[k] == i && Without(xs, i) == xs[..k] + xs[k + 1..]
  {
    if xs[0] == i {
      k := 0;
      NotThere(xs[1..], i);
    } else {
      k := Position(xs[1..], i);
      assert xs[..k + 1] == [xs[0]] + xs[1..][..k] && xs[k + 2..] == xs[1..][k + 1..];
      k := k + 1;
    }
  }

  lemma {:induction false} NotThere(xs: seq<int>, i: int)
    requires i !in xs
    ensures Without(xs, i) == xs
  {
    if xs != [] {
      NotThere(xs[1..], i);
    }
  }

  class StreamTable {
    const server: bool
    const noClosedStreams: bool
    const idle: StreamList
    const closed: StreamList
    var streams: map<int, Stream>
    var numIdle: int
    var numClosed: int
    var numOutgoing: int
    var numIncoming: int
    var numReserved: int

    constructor (server: bool, noClosedStreams: bool)
      ensures Shown(Start(server)) && this.server == server && fresh(idle) && fresh(closed) && streams == map[]
      ensures this.noClosedStreams == noClosedStreams
    {
      this.server, this.noClosedStreams := server, noClosedStreams;
      idle := new StreamList();
      closed := new StreamList();
      streams := map[];
      numIdle, numClosed, numOutgoing, numIncoming, numReserved := 0, 0, 0, 0, 0;
    }

    ghost predicate CountersShown(b: Book)
      reads this`numIdle, this`numClosed, this`numOutgoing, this`numIncoming, this`numReserved
    {
      && server == b.server && numIdle == b.numIdle && numClosed == b.numClosed
      && numOutgoing == b.numOutgoing && numIncoming == b.numIncoming && numReserved == b.numReserved
    }

    /** The map holds the streams, each under its id, with its place. */
    ghost predicate PlacesShown(place: map<int, Place>)
      reads this`streams, streams.Values`place
    {
      streams.Keys == place.Keys && forall i | i in streams :: streams[i].place == place[i]
    }

    ghost predicate Named()
      reads this`streams
    {
      forall i | i in streams :: streams[i].id == i
    }

    /** The list holds the streams with these ids. */
    ghost predicate ListShown(list: StreamList, ids: seq<int>)
      reads this`streams, list, list.items`prev, list.items`next
    {
      && list.Valid() && |list.items| == |ids|
      && forall k | 0 <= k < |ids| :: ids[k] in streams && list.items[k] == streams[ids[k]]
    }

    /** A live stream is in no list. */
    ghost predicate LiveUnlinked(place: map<int, Place>)
      reads this`streams, streams.Values`prev, streams.Values`next
    {
      forall i | i in streams && i in place && place[i].Live? :: streams[i].prev == null && streams[i].next == null
    }

    /** Both lists, and the live streams that are in neither. */
    ghost predicate Linked(list: StreamList, other: StreamList, ids: seq<int>, others: seq<int>, place: map<int, Place>)
      reads this`streams, list, other, list.items, other.items, streams.Values
    {
      list != other && ListShown(list, ids) && ListShown(other, others) && LiveUnlinked(place)
    }

    ghost predicate Shown(b: Book)
      reads this, idle, closed, idle.items, closed.items, streams.Values
    {
      Named() && CountersShown(b) && PlacesShown(b.place) && Linked(idle, closed, b.idle, b.closed, b.place)
    }

    /** The streams of the list are not in the other one, and not live. */
    ghost predicate Separate(list: StreamList, other: StreamList, place: map<int, Place>)
      reads this`streams, list, other
    {
      && (forall s | s in list.items :: s.id in streams && streams[s.id] == s && s.id in place && !place[s.id].Live?)
      && (forall s | s in other.items :: s !in list.items)
    }

    lemma Apart(b: Book)
      requires Shown(b) && Listed(b)
      ensures Separate(idle, closed, b.place) && Separate(closed, idle, b.place)
    {
      forall s | s in idle.items
        ensures s.id in streams && s == streams[s.id] && s.id in b.place && b.place[s.id] == Idle
      {
        var k :| 0 <= k < |idle.items| && idle.items[k] == s;
        assert b.idle[k] in b.idle && s == streams[b.idle[k]];
      }
      forall s | s in closed.items
        ensures s.id in streams && s == streams[s.id] && s.id in b.place && b.place[s.id] == Closed
      {
        var k :| 0 <= k < |closed.items| && closed.items[k] == s;
        assert b.closed[k] in b.closed && s == streams[b.closed[k]];
      }
    }

    // ---- the map

    /** A new stream object. */
    method Enter(i: int, p: Place, ghost b: Book) returns (s: Stream)
      requires Shown(b) && i !in b.place && Separate(idle, closed, b.place) && Separate(closed, idle, b.place)
      modifies this`streams
      ensures fresh(s) && s.id == i && s.prev == null && s.next == null && streams == old(streams)[i := s]
      ensures Shown(PutAt(b, i, p)) && s !in idle.items && s !in closed.items
      ensures Separate(idle, closed, b.place[i := p]) && Separate(closed, idle, b.place[i := p])
    {
      s := new Stream(i, p);
      streams := streams[i := s];
    }

    /** `nghttp2_session_destroy_stream`, for a stream that is in no list any more */
    method Destroy(s: Stream, ghost b: Book)
      requires Shown(b) && s.id in b.place && streams[s.id] == s && s.id !in b.idle && s.id !in b.closed
      modifies this`streams
      ensures streams == old(streams) - {s.id} && Shown(Destroyed(b, s.id))
    {
      streams := streams - {s.id};
    }

    // ---- the lists

    method KeepIn(list: StreamList, other: StreamList, s: Stream,
                  ghost ids: seq<int>, ghost others: seq<int>, ghost place: map<int, Place>)
      requires Named() && Linked(list, other, ids, others, place) && Separate(list, other, place)
      requires s.id in streams && streams[s.id] == s && s.id in place && !place[s.id].Live?
      requires s !in list.items && s !in other.items && s.prev == null && s.next == null
      modifies list, s`prev, s`next, list.items`prev, list.items`next
      ensures Linked(list, other, ids + [s.id], others, place) && list.items == old(list.items) + [s]
    {
      list.Keep(s);
      forall j | 0 <= j < |other.items| ensures other.LinkedAt(j) {
        assert old(other.LinkedAt(j)) && other.items[j] in old(other.items);
      }
    }

    method TakeFrom(list: StreamList, other: StreamList, s: Stream, ghost k: nat,
                    ghost ids: seq<int>, ghost others: seq<int>, ghost place: map<int, Place>)
      requires Named() && Linked(list, other, ids, others, place) && Separate(list, other, place)
      requires k < |ids| && s.id in streams && ids[k] == s.id && streams[s.id] == s
      modifies list, list.items`prev, list.items`next
      ensures Linked(list, other, ids[..k] + ids[k + 1..], others, place)
      ensures s.prev == null && s.next == null
    {
      list.Detach(s, k);
      forall j | 0 <= j < |other.items| ensures other.LinkedAt(j) {
        assert old(other.LinkedAt(j)) && other.items[j] in old(other.items);
      }
    }

    method DropFrom(list: StreamList, other: StreamList,
                    ghost ids: seq<int>, ghost others: seq<int>, ghost place: map<int, Place>)
      requires Named() && Linked(list, other, ids, others, place) && Separate(list, other, place) && ids != []
      modifies list, list.items`prev, list.items`next
      ensures Linked(list, other, ids[1..], others, place) && list.items == old(list.items)[1..]
    {
      list.DropHead();
      forall j | 0 <= j < |other.items| ensures other.LinkedAt(j) {
        assert old(other.LinkedAt(j)) && other.items[j] in old(other.items);
      }
    }

    method SetPlace(s: Stream, p: Place, ghost place: map<int, Place>)
      requires Named() && PlacesShown(place) && s.id in streams && streams[s.id] == s
      modifies s`place
      ensures PlacesShown(place[s.id := p])
    {
      s.place := p;
    }

    /** `nghttp2_session_keep_idle_stream` */
    method KeepIdle(s: Stream, ghost b: Book)
      requires Shown(b) && Separate(idle, closed, b.place) && s !in idle.items && s !in closed.items
      requires s.id in b.place && streams[s.id] == s && !b.place[s.id].Live? && s.prev == null && s.next == null
      modifies this`numIdle, idle, s`prev, s`next, idle.items`prev, idle.items`next
      ensures Shown(KeptIdle(b, s.id))
    {
      KeepIn(idle, closed, s, b.idle, b.closed, b.place);
      numIdle := numIdle + 1;
    }

    // ---- the operations

    /** `nghttp2_session_open_stream` for a stream that is idle at first. */
    method OpenIdle(i: int, ghost b: Book) returns (s: Stream)
      requires Shown(b) && Listed(b) && Possible(b, StreamBook.OpenIdle(i))
      modifies this`streams, this`numIdle, idle, idle.items`prev, idle.items`next
      ensures Shown(KeptIdle(PutAt(b, i, Idle), i)) && fresh(s) && streams == old(streams)[i := s]
    {
      Apart(b);
      s := Enter(i, Idle, b);
      KeepIdle(s, PutAt(b, i, Idle));
    }

    /** `nghttp2_session_detach_idle_stream` */
    method Unidle(s: Stream, ghost k: nat, ghost b: Book, ghost b': Book)
      requires Shown(b) && Separate(idle, closed, b.place) && k < |b.idle| && b.idle[k] == s.id
      requires s.id in streams && streams[s.id] == s
      requires b' == b.(idle := b.idle[..k] + b.idle[k + 1..], numIdle := b.numIdle - 1)
      modifies this`numIdle, idle, idle.items`prev, idle.items`next
      ensures Shown(b') && s.prev == null && s.next == null
    {
      TakeFrom(idle, closed, s, k, b.idle, b.closed, b.place);
      numIdle := numIdle - 1;
    }

    /** Another state, or other flags. */
    method Relocate(s: Stream, p: Place, ghost b: Book)
      requires Shown(b) && s.id in b.place && streams[s.id] == s && (p.Live? ==> s.prev == null && s.next == null)
      modifies s`place
      ensures Shown(PutAt(b, s.id, p))
    {
      SetPlace(s, p, b.place);
    }

    /** The counters of live streams. */
    method Count(i: int, reserved: bool, n: int, ghost b: Book)
      requires Shown(b)
      modifies this`numReserved, this`numOutgoing, this`numIncoming
      ensures Shown(Counted(b, i, reserved, n))
    {
      if reserved {
        if !Mine(server, i) {
          numReserved := numReserved + n;
        }
      } else if Mine(server, i) {
        numOutgoing := numOutgoing + n;
      } else {
        numIncoming := numIncoming + n;
      }
    }

    method CountOpened(i: int, reserved: bool, ghost b: Book, ghost b': Book)
      requires Shown(b) && b' == Counted(b, i, reserved, 1)
      modifies this`numReserved, this`numOutgoing, this`numIncoming
      ensures Shown(b')
    {
      Count(i, reserved, 1, b);
    }

    /** An idle stream is opened. */
    method Reopen(s: Stream, p: Place, ghost b: Book)
      requires Shown(b) && Listed(b) && s.id in b.place && streams[s.id] == s && b.place[s.id] == Idle
      modifies this`numIdle, idle, s`place, idle.items`prev, idle.items`next
      ensures Shown(PutAt(Unidled(b, s.id), s.id, p))
    {
      Apart(b);
      ghost var k := Position(b.idle, s.id);
      ghost var b1 := Unidled(b, s.id);
      Unidle(s, k, b, b1);
      Relocate(s, p, b1);
    }

    lemma IdleIsInList(b: Book, i: int)
      requires Shown(b) && Listed(b) && i in b.place && b.place[i] == Idle
      ensures i in streams && streams[i].id == i && streams[i] in idle.items
    {
      var k := Position(b.idle, i);
      assert idle.items[k] == streams[b.idle[k]];
    }

    /** The stream to open: an idle one out of its list, or a new object. */
    method Admit(i: int, p: Place, ghost b: Book, ghost b': Book) returns (s: Stream)
      requires Shown(b) && Listed(b) && (i in b.place ==> b.place[i] == Idle) && b' == PutAt(Unidled(b, i), i, p)
      modifies this`streams, this`numIdle, idle, idle.items
      ensures Shown(b') && streams == old(streams)[i := s]
      ensures if i in b.place then s == old(streams)[i] else fresh(s)
    {
      Apart(b);
      if i in streams {
        IdleIsInList(b, i);
        s := streams[i];
        Reopen(s, p, b);
      } else {
        s := Enter(i, p, b);
      }
    }

    /** `nghttp2_session_open_stream` for a stream that is opened or reserved; it may have been idle. */
    method Open(i: int, reserved: bool, ghost b: Book, ghost b': Book) returns (s: Stream)
      requires Shown(b) && Listed(b) && (i in b.place ==> b.place[i] == Idle) && b' == Opened(b, i, reserved)
      modifies this, idle, idle.items
      ensures Shown(b') && streams == old(streams)[i := s]
      ensures if i in b.place then s == old(streams)[i] else fresh(s)
    {
      ghost var b1 := PutAt(Unidled(b, i), i, Live(reserved));
      s := Admit(i, Live(reserved), b, b1);
      CountOpened(i, reserved, b1, b');
    }

    /** `nghttp2_session_keep_closed_stream` */
    method KeepClosed(s: Stream, ghost b: Book)
      requires Shown(b) && Separate(closed, idle, b.place) && s !in idle.items && s !in closed.items
      requires s.id in b.place && streams[s.id] == s && !b.place[s.id].Live? && s.prev == null && s.next == null
      modifies this`numClosed, closed, s`prev, s`next, closed.items`prev, closed.items`next
      ensures Shown(KeptClosed(b, s.id))
    {
      KeepIn(closed, idle, s, b.closed, b.idle, b.place);
      numClosed := numClosed + 1;
    }

    /** A live stream is in neither list, nor is its id. */
    lemma LiveIsApart(b: Book, i: int)
      requires Shown(b) && Listed(b) && i in b.place && b.place[i].Live?
      ensures i in streams && streams[i].id == i && streams[i].prev == null && streams[i].next == null
      ensures streams[i] !in idle.items && streams[i] !in closed.items && i !in b.idle && i !in b.closed
      ensures Separate(closed, idle, b.place[i := Closed])
    {
      Apart(b);
      assert forall s | s in closed.items :: s.id != i;
    }

    /** The end of `nghttp2_session_close_stream`, for a stream that is kept. */
    method Retain(s: Stream, ghost b: Book)
      requires Shown(b) && Listed(b) && s.id in b.place && streams[s.id] == s && b.place[s.id].Live?
      modifies this`numClosed, closed, s, closed.items`prev, closed.items`next
      ensures Shown(KeptClosed(PutAt(b, s.id, Closed), s.id))
    {
      LiveIsApart(b, s.id);
      Relocate(s, Closed, b);
      KeepClosed(s, PutAt(b, s.id, Closed));
    }

    /**
     * `nghttp2_session_close_stream`; every stream is in the dependency tree in RFC 7540 priority mode, so it is kept
     * unless `NGHTTP2_OPTMASK_NO_CLOSED_STREAMS` is set.
     */
    method Close(i: int, ghost b: Book, ghost b': Book)
      requires Shown(b) && Listed(b) && i in b.place && b.place[i].Live? && b' == ClosedBy(b, i, !noClosedStreams)
      modifies this, closed, streams.Values
      ensures Shown(b')
    {
      LiveIsApart(b, i);
      var s := streams[i];
      ghost var b1 := Counted(b, i, b.place[i].reserved, -1);
      Count(i, s.place.reserved, -1, b);
      if !noClosedStreams && server && !Mine(server, i) {
        Apart(b1);
        Retain(s, b1);
      } else {
        Destroy(s, b1);
      }
    }

    /** A promised stream is opened by response HEADERS: this end's by sending them, the peer's by receiving them. */
    method Fulfill(i: int, ghost b: Book)
      requires Shown(b) && Listed(b) && i in b.place && b.place[i] == Live(true)
      modifies this`numReserved, this`numOutgoing, this`numIncoming, streams.Values`place
      ensures Shown(if Mine(server, i) then FulfilledMine(b, i) else FulfilledTheirs(b, i))
    {
      LiveIsApart(b, i);
      Relocate(streams[i], Live(false), b);
      ghost var b1 := Fulfilled(b, i);
      if !Mine(server, i) {
        Count(i, true, -1, b1);
        b1 := Counted(b1, i, true, -1);
      }
      Count(i, false, 1, b1);
    }

    /** The oldest closed stream leaves the list. */
    method DropHeadClosed(ghost b: Book) returns (s: Stream)
      requires Shown(b) && Separate(closed, idle, b.place) && b.closed != []
      modifies this`numClosed, closed, closed.items`prev, closed.items`next
      ensures Shown(ClosedTail(b)) && closed.items == old(closed.items)[1..]
      ensures s.id == b.closed[0] && s.id in streams && streams[s.id] == s
    {
      s := closed.head;
      assert closed.items[0] in closed.items;
      DropFrom(closed, idle, b.closed, b.idle, b.place);
      numClosed := numClosed - 1;
    }

    /** A round of the loop below; the stream is destroyed once it is out of the list. */
    method DropOldestClosed(ghost b: Book)
      requires Shown(b) && Listed(b) && b.closed != []
      modifies this`streams, this`numClosed, closed, closed.items`prev, closed.items`next
      ensures Shown(StreamBook.DropClosed(b)) && closed.items == old(closed.items)[1..]
    {
      Apart(b);
      assert b.closed[0] in b.closed && b.closed[0] !in b.closed[1..];
      var s := DropHeadClosed(b);
      Destroy(s, ClosedTail(b));
    }

    /** The objects hold a state of the loop that ends in goal. */
    ghost predicate AdjustingClosed(now: Book, max: nat, goal: Book)
      reads this, idle, closed, idle.items, closed.items, streams.Values
    {
      Shown(now) && Right(now) && AdjustedClosed(now, max) == goal
    }

    method AdjustClosedRound(max: nat, ghost now: Book, ghost goal: Book, ghost owned: set<Stream>)
      returns (ghost next: Book)
      requires AdjustingClosed(now, max, goal) && now.closed != [] && |now.closed| + now.numIncoming > max
      requires forall s | s in closed.items :: s in owned
      modifies this`streams, this`numClosed, closed, owned`prev, owned`next
      ensures AdjustingClosed(next, max, goal) && |next.closed| < |now.closed|
      ensures forall s | s in closed.items :: s in owned
    {
      DropClosedRight(now);
      DropOldestClosed(now);
      next := StreamBook.DropClosed(now);
    }

    lemma CountersOf(b: Book)
      requires Shown(b) && Listed(b)
      ensures numClosed == |b.closed| && numIdle == |b.idle| && numIncoming == b.numIncoming
    {
    }

    /** `nghttp2_session_adjust_closed_stream`, with the limit computed. */
    method AdjustClosed(max: nat, ghost b: Book)
      requires Shown(b) && Right(b)
      modifies this`streams, this`numClosed, closed, closed.items`prev, closed.items`next
      ensures Shown(AdjustedClosed(b, max)) && (numClosed == 0 || numClosed + numIncoming <= max)
    {
      ghost var now, goal, owned := b, AdjustedClosed(b, max), set s | s in closed.items;
      CountersOf(now);
      while numClosed > 0 && numClosed + numIncoming > max
        invariant AdjustingClosed(now, max, goal)
        invariant numClosed == |now.closed| && numIncoming == now.numIncoming
        invariant forall s | s in closed.items :: s in owned
        decreases |now.closed|
      {
        now := AdjustClosedRound(max, now, goal, owned);
        CountersOf(now);
      }
    }

    method DropHeadIdle(ghost b: Book) returns (s: Stream)
      requires Shown(b) && Separate(idle, closed, b.place) && b.idle != []
      modifies this`numIdle, idle, idle.items`prev, idle.items`next
      ensures Shown(IdleTail(b)) && idle.items == old(idle.items)[1..]
      ensures s.id == b.idle[0] && s.id in streams && streams[s.id] == s
    {
      s := idle.head;
      assert idle.items[0] in idle.items;
      DropFrom(idle, closed, b.idle, b.closed, b.place);
      numIdle := numIdle - 1;
    }

    method DropOldestIdle(ghost b: Book)
      requires Shown(b) && Listed(b) && b.idle != []
      modifies this`streams, this`numIdle, idle, idle.items`prev, idle.items`next
      ensures Shown(StreamBook.DropIdle(b)) && idle.items == old(idle.items)[1..]
    {
      Apart(b);
      assert b.idle[0] in b.idle && b.idle[0] !in b.idle[1..];
      var s := DropHeadIdle(b);
      Destroy(s, IdleTail(b));
    }

    ghost predicate AdjustingIdle(now: Book, max: nat, goal: Book)
      reads this, idle, closed, idle.items, closed.items, streams.Values
    {
      Shown(now) && Right(now) && AdjustedIdle(now, max) == goal
    }

    method AdjustIdleRound(max: nat, ghost now: Book, ghost goal: Book, ghost owned: set<Stream>)
      returns (ghost next: Book)
      requires AdjustingIdle(now, max, goal) && |now.idle| > max
      requires forall s | s in idle.items :: s in owned
      modifies this`streams, this`numIdle, idle, owned`prev, owned`next
      ensures AdjustingIdle(next, max, goal) && |next.idle| < |now.idle|
      ensures forall s | s in idle.items :: s in owned
    {
      DropIdleRight(now);
      DropOldestIdle(now);
      next := StreamBook.DropIdle(now);
    }

    /** `nghttp2_session_adjust_idle_stream`, with the limit computed. */
    method AdjustIdle(max: nat, ghost b: Book)
      requires Shown(b) && Right(b)
      modifies this`streams, this`numIdle, idle, idle.items`prev, idle.items`next
      ensures Shown(AdjustedIdle(b, max)) && numIdle <= max
    {
      ghost var now, goal, owned := b, AdjustedIdle(b, max), set s | s in idle.items;
      CountersOf(now);
      while numIdle > max
        invariant AdjustingIdle(now, max, goal) && numIdle == |now.idle|
        invariant forall s | s in idle.items :: s in owned
        decreases |now.idle|
      {
        now := AdjustIdleRound(max, now, goal, owned);
        CountersOf(now);
      }
    }
  }
}
