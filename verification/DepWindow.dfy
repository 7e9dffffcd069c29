/**
 * In any run of attaching, detaching, deferring, resuming, picking, rescheduling and reweighing, all cycles of a
 * queue lie in the window above the parent's clock, so that the modular comparison orders every queue totally.
 * (Moving subtrees is not among these: it resets clocks of streams whose children stay queued.)
 */
module DepWindow {
  import opened DepForest
  import opened DepQueue
  import opened DepClock
  import opened DepItems

  ghost predicate ClocksOk(w: Weights, q: QueueMap) {
    NONE !in q && forall x | x in q :: x in w && ClockOk(q[x], w[x]) && (q[x].queued || q[x].penalty == 0)
  }

  /** c's turn lies in the window above p's clock. */
  ghost predicate TurnFits(w: Weights, q: QueueMap, p: int, c: int)
    requires p in q
  {
    c in q && c in w && w[c] > 0 && Gap(q[p].lastCycle, q[c]) <= Reach(q[c], w[c])
  }

  /** All turns fit, but perhaps that of the stream `but`, which is about to get a new one. */
  ghost predicate Windowed(w: Weights, q: QueueMap, but: int) {
    forall p, c | p in q && c in q[p].obq :: c in q && (c == but || TurnFits(w, q, p, c))
  }

  /** Sequence numbers in p's queue differ and are below the next one. */
  ghost predicate SeqsIn(q: QueueMap, p: int)
    requires p in q
  {
    && (forall c | c in q[p].obq :: c in q && q[c].seqNo < q[p].nextSeq)
    && (forall c, d | c in q[p].obq && d in q[p].obq && c != d :: q[c].seqNo != q[d].seqNo)
  }

  ghost predicate SeqsOk(q: QueueMap) {
    forall p | p in q :: SeqsIn(q, p)
  }

  /** No counter of sequence numbers is about to wrap. */
  predicate Room(q: QueueMap) {
    forall x | x in q :: q[x].nextSeq + 1 < TWO64
  }

  /** Places in time are right. */
  ghost predicate Timed(w: Weights, q: QueueMap) {
    ClocksOk(w, q) && Windowed(w, q, NONE) && SeqsOk(q)
  }

  /** Then every queue is totally ordered. */
  lemma TimedOrders(w: Weights, q: QueueMap, p: int)
    requires Timed(w, q) && p in q
    ensures (forall c | c in q[p].obq :: c in q) && Ordered(q, q[p].obq)
  {
    forall c | c in q[p].obq
      ensures c in q && q[c].cycle < TWO64 && Gap(q[p].lastCycle, q[c]) <= MAX_CYCLE_DISTANCE
    {
      assert TurnFits(w, q, p, c) || c == NONE;
      assert ClockOk(q[c], w[c]);
      ReachInWindow(q[c], w[c]);
    }
    assert SeqsIn(q, p);
    WindowOrders(q, q[p].obq, q[p].lastCycle);
  }

  // ---- joining and leaving a queue

  predicate SameTurn(a: Queue, b: Queue) {
    b.cycle == a.cycle && b.writelen == a.writelen && b.penalty == a.penalty
  }

  lemma TurnKept(w: Weights, q: QueueMap, r: QueueMap, p: int, c: int)
    requires p in q && TurnFits(w, q, p, c) && p in r && c in r
    requires SameTurn(q[c], r[c]) && r[p].lastCycle == q[p].lastCycle
    ensures TurnFits(w, r, p, c)
  {
    ReachIgnores(q[c], r[c], w[c]);
  }

  /** Reach goes by the length written and the carry only. */
  lemma ReachIgnores(x: Queue, y: Queue, weight: int)
    requires weight > 0 && x.writelen == y.writelen && x.penalty == y.penalty
    ensures Reach(x, weight) == Reach(y, weight)
  {
  }

  /** x holds the turn just computed for what was y. */
  lemma TurnFresh(w: Weights, r: QueueMap, p: int, c: int, y: Queue)
    requires p in r && c in r && c in w && ClockOk(y, w[c]) && r[p].lastCycle < TWO64
    requires SameTurn(NextCycle(y, w[c], r[p].lastCycle), r[c]) && r[c].lastCycle < TWO64
    ensures TurnFits(w, r, p, c) && ClockOk(r[c], w[c])
  {
    FreshTurn(y, w[c], r[p].lastCycle);
    ReachIgnores(NextCycle(y, w[c], r[p].lastCycle), r[c], w[c]);
  }

  lemma EnqueueSeqs(w: Weights, q: QueueMap, p: int, s: int)
    requires SeqsOk(q) && p in q && s in q && p != s && q[p].nextSeq + 1 < TWO64 && s in w && w[s] > 0
    requires forall x | x in q :: s !in q[x].obq
    ensures SeqsOk(Enqueue(w, q, p, s))
  {
    var r := Enqueue(w, q, p, s);
    forall x | x in r ensures SeqsIn(r, x) {
      assert SeqsIn(q, x) && s !in q[x].obq;
      assert forall c | c in q[x].obq :: r[c].seqNo == q[c].seqNo;
      assert r[x].obq == if x == p then q[x].obq + {s} else q[x].obq;
    }
  }

  lemma EnqueueTimed(w: Weights, q: QueueMap, p: int, s: int)
    requires Timed(w, q) && p in q && s in q && p != s && q[p].nextSeq + 1 < TWO64
    requires forall x | x in q :: s !in q[x].obq
    ensures s in w && w[s] > 0 && Timed(w, Enqueue(w, q, p, s))
  {
    assert ClockOk(q[s], w[s]) && ClockOk(q[p], w[p]);
    var r := Enqueue(w, q, p, s);
    EnqueueSeqs(w, q, p, s);
    TurnFresh(w, r, p, s, q[s]);
    forall x | x in r ensures ClockOk(r[x], w[x]) && (r[x].queued || r[x].penalty == 0) {
      assert ClockOk(q[x], w[x]);
    }
    forall x, c | x in r && c in r[x].obq ensures TurnFits(w, r, x, c) {
      if c != s {
        assert TurnFits(w, q, x, c);
        TurnKept(w, q, r, x, c);
      }
    }
  }

  /** No counter on the way up from x is about to wrap. */
  ghost predicate RoomAbove(u: Parents, rank: Ranks, q: QueueMap, x: int)
    requires Ranked(u, rank) && q.Keys == u.Keys && x in u
  {
    forall y | y in u && Under(u, rank, y, x) && y != x :: q[y].nextSeq + 1 < TWO64
  }

  lemma Unheld(u: Parents, q: QueueMap, apart: set<int>, s: int)
    requires QueuesOk(u, q, apart) && s in q && !q[s].queued
    ensures forall x | x in q :: s !in q[x].obq
  {
    forall x | x in q ensures s !in q[x].obq {
      assert Holds(u, q, x);
    }
  }

  lemma {:induction false} PushTimed(u: Parents, rank: Ranks, w: Weights, q: QueueMap, s: int, apart: set<int>)
    requires Sized(u, rank, w, q) && s in q && QueuesOk(u, q, apart) && s in apart && q[s].Busy()
    requires Timed(w, q) && RoomAbove(u, rank, q, s)
    ensures u[s] == NONE || u[s] in q
    ensures Timed(w, PushUp(u, rank, w, q, u[s], s))
    decreases rank[s]
  {
    var p := u[s];
    if p != NONE {
      assert Below(u, rank, s);
      if !q[s].queued {
        var q1 := Enqueue(w, q, p, s);
        assert Under(u, rank, p, p) && Under(u, rank, p, s);
        EnqueueKeeps(u, w, q, p, s, apart);
        Unheld(u, q, apart, s);
        EnqueueTimed(w, q, p, s);
        RoomFurther(u, rank, w, q, p, s);
        PushTimed(u, rank, w, q1, p, apart - {s} + {p});
      }
    }
  }

  lemma RoomFurther(u: Parents, rank: Ranks, w: Weights, q: QueueMap, p: int, s: int)
    requires Sized(u, rank, w, q) && s in q && p in q && u[s] == p && RoomAbove(u, rank, q, s)
    ensures s in w && w[s] > 0 && RoomAbove(u, rank, Enqueue(w, q, p, s), p)
  {
    assert Below(u, rank, s);
    forall y | y in u && Under(u, rank, y, p) && y != p ensures Enqueue(w, q, p, s)[y].nextSeq + 1 < TWO64 {
      UnderRank(u, rank, y, p);
      assert Under(u, rank, y, s);
    }
  }

  lemma DequeueTimed(u: Parents, w: Weights, q: QueueMap, p: int, s: int, apart: set<int>)
    requires Timed(w, q) && QueuesOk(u, q, apart) && p in q && s in q && p != s && u[s] == p && q[s].obq == {}
    ensures Timed(w, Dequeue(q, p, s))
  {
    var r := Dequeue(q, p, s);
    assert ClockOk(q[s], w[s]);
    forall x | x in r ensures ClockOk(r[x], w[x]) && (r[x].queued || r[x].penalty == 0) {
      assert ClockOk(q[x], w[x]);
    }
    DequeueSeqs(u, q, p, s, apart);
    forall x, c | x in r && c in r[x].obq ensures TurnFits(w, r, x, c) {
      DequeueMembers(u, q, p, s, apart, x, c);
      assert TurnFits(w, q, x, c);
      TurnKept(w, q, r, x, c);
    }
  }

  lemma DequeueMembers(u: Parents, q: QueueMap, p: int, s: int, apart: set<int>, x: int, c: int)
    requires QueuesOk(u, q, apart) && p in q && s in q && p != s && u[s] == p && q[s].obq == {}
    requires x in q && c in Dequeue(q, p, s)[x].obq
    ensures c in q[x].obq && c in q && c != s && x != s
  {
    assert Holds(u, q, x);
  }

  lemma DequeueSeqs(u: Parents, q: QueueMap, p: int, s: int, apart: set<int>)
    requires SeqsOk(q) && QueuesOk(u, q, apart) && p in q && s in q && p != s && u[s] == p && q[s].obq == {}
    ensures SeqsOk(Dequeue(q, p, s))
  {
    var r := Dequeue(q, p, s);
    forall x | x in r ensures SeqsIn(r, x) {
      assert SeqsIn(q, x) && r[x].obq <= q[x].obq;
    }
  }

  lemma {:induction false} PullTimed(u: Parents, rank: Ranks, w: Weights, q: QueueMap, s: int, apart: set<int>)
    requires Ranked(u, rank) && q.Keys == u.Keys && s in q && u[s] != NONE && q[s].obq == {}
    requires QueuesOk(u, q, apart) && s in apart && q[s].queued && Timed(w, q)
    requires forall e | e in apart :: e in rank && rank[s] <= rank[e]
    ensures u[s] in q
    ensures Timed(w, PullUp(u, rank, q, u[s], s))
    decreases rank[s]
  {
    assert Below(u, rank, s);
    var p := u[s];
    var q1 := Dequeue(q, p, s);
    assert p !in apart;
    DequeueKeeps(u, q, p, s, apart);
    DequeueTimed(u, w, q, p, s, apart);
    if !q1[p].Busy() && u[p] != NONE {
      assert Below(u, rank, p);
      PullTimed(u, rank, w, q1, p, apart + {p});
    }
  }

  lemma WithItemTimed(w: Weights, q: QueueMap, s: int, item: bool, deferred: set<Cause>)
    requires Timed(w, q) && s in q
    ensures Timed(w, WithItem(q, s, item, deferred))
  {
    var r := WithItem(q, s, item, deferred);
    forall x | x in r ensures ClockOk(r[x], w[x]) && (r[x].queued || r[x].penalty == 0) && SeqsIn(r, x) {
      assert ClockOk(q[x], w[x]) && SeqsIn(q, x);
    }
    forall x, c | x in r && c in r[x].obq ensures TurnFits(w, r, x, c) {
      assert TurnFits(w, q, x, c);
      TurnKept(w, q, r, x, c);
    }
  }

  /** Attaching and resuming keep places in time right. */
  lemma RaisedTimed(u: Parents, rank: Ranks, w: Weights, q: QueueMap, s: int, deferred: set<Cause>)
    requires Sized(u, rank, w, q) && QueuesOk(u, q, {}) && s in q && Timed(w, q) && RoomAbove(u, rank, q, s)
    ensures Timed(w, RaisedQueue(u, rank, w, q, s, deferred))
  {
    WithItemTimed(w, q, s, true, deferred);
    WithItemKeeps(u, q, s, true, deferred);
    if deferred == {} {
      PushTimed(u, rank, w, WithItem(q, s, true, deferred), s, {s});
    }
  }

  /** Detaching and deferring keep places in time right. */
  lemma LoweredTimed(u: Parents, rank: Ranks, w: Weights, q: QueueMap, s: int, item: bool, deferred: set<Cause>)
    requires Ranked(u, rank) && QueuesOk(u, q, {}) && s in q && Timed(w, q) && !(item && deferred == {})
    ensures q[s].queued ==> u[s] in q
    ensures Timed(w, LoweredQueue(u, rank, q, s, item, deferred))
  {
    var q1 := WithItem(q, s, item, deferred);
    WithItemTimed(w, q, s, item, deferred);
    WithItemKeeps(u, q, s, item, deferred);
    assert Held(u, q, s);
    if q1[s].queued && q1[s].obq == {} {
      PullTimed(u, rank, w, q1, s, {s});
    }
  }

  // ---- picking

  function ClockSet(q: QueueMap, p: int, cycle: nat): QueueMap
    requires p in q
  {
    q[p := q[p].(lastCycle := cycle)]
  }

  lemma GapShrinks(last: nat, a: Queue, b: Queue)
    requires last < TWO64 && a.cycle < TWO64 && b.cycle < TWO64
    requires Gap(last, a) <= MAX_CYCLE_DISTANCE && Gap(last, b) <= MAX_CYCLE_DISTANCE && (a == b || !Less(b, a))
    ensures Gap(a.cycle, b) <= Gap(last, b)
  {
    LessIsGapOrder(last, b, a);
  }

  /** Moving the clock of a queue to its first turn keeps every turn in the window. */
  lemma NoteOne(w: Weights, q: QueueMap, p: int, s: int)
    requires Timed(w, q) && p in q && s in q && (forall x | x in q[p].obq :: x in q) && First(q, p, s)
    ensures Timed(w, ClockSet(q, p, q[s].cycle))
  {
    var r := ClockSet(q, p, q[s].cycle);
    assert ClockOk(q[s], w[s]) && ClockOk(q[p], w[p]);
    TimedOrders(w, q, p);
    forall x | x in r ensures ClockOk(r[x], w[x]) && (r[x].queued || r[x].penalty == 0) && SeqsIn(r, x) {
      assert ClockOk(q[x], w[x]) && SeqsIn(q, x);
    }
    forall x, c | x in r && c in r[x].obq ensures TurnFits(w, r, x, c) {
      assert c in q[x].obq && TurnFits(w, q, x, c);
      NotedFits(w, q, p, s, x, c);
    }
  }

  lemma NotedFits(w: Weights, q: QueueMap, p: int, s: int, x: int, c: int)
    requires ClocksOk(w, q) && p in q && s in q && s in q[p].obq && TurnFits(w, q, p, s) && x in q && c in q
    requires TurnFits(w, q, x, c) && c in q[x].obq && (x == p ==> c == s || !Less(q[c], q[s]))
    ensures TurnFits(w, ClockSet(q, p, q[s].cycle), x, c)
  {
    var r := ClockSet(q, p, q[s].cycle);
    if x == p {
      NotedTurn(w, q, p, s, c);
      ReachIgnores(q[c], r[c], w[c]);
    } else {
      TurnKept(w, q, r, x, c);
    }
  }

  lemma NotedTurn(w: Weights, q: QueueMap, p: int, s: int, c: int)
    requires ClocksOk(w, q) && p in q && s in q && s in q[p].obq && c in q[p].obq
    requires TurnFits(w, q, p, c) && TurnFits(w, q, p, s) && (c == s || !Less(q[c], q[s]))
    ensures Gap(q[s].cycle, q[c]) <= Reach(q[c], w[c])
  {
    assert ClockOk(q[c], w[c]) && ClockOk(q[s], w[s]) && ClockOk(q[p], w[p]);
    ReachInWindow(q[c], w[c]);
    ReachInWindow(q[s], w[s]);
    GapShrinks(q[p].lastCycle, q[s], q[c]);
  }

  /** The order goes by cycles and sequence numbers only. */
  lemma OrderedSame(q: QueueMap, r: QueueMap, xs: set<int>)
    requires forall x | x in xs :: x in q && x in r && r[x].cycle == q[x].cycle && r[x].seqNo == q[x].seqNo
    requires Ordered(r, xs)
    ensures Ordered(q, xs)
  {
    forall x, y | x in xs && y in xs ensures Less(q[x], q[y]) == Less(r[x], r[y]) {
    }
    forall x, y, z | x in xs && y in xs && z in xs && Less(q[x], q[y]) && Less(q[y], q[z])
      ensures x == z || Less(q[x], q[z])
    {
      assert Less(r[x], r[y]) && Less(r[y], r[z]);
    }
  }

  lemma FirstSame(q: QueueMap, p: int, clock: nat, x: int, c: int)
    requires p in q && x in q && (forall y | y in q[x].obq :: y in q) && First(q, x, c)
    ensures First(ClockSet(q, p, clock), x, c)
  {
    var r := ClockSet(q, p, clock);
    if Ordered(r, r[x].obq) {
      OrderedSame(q, r, q[x].obq);
      forall y | y in r[x].obq && y != c ensures Less(r[c], r[y]) {
        assert Less(q[c], q[y]);
      }
    }
  }

  /** Picking keeps places in time right, when from s up to the root each stream is first in its queue. */
  lemma {:induction false} NotedTimed(u: Parents, rank: Ranks, w: Weights, q: QueueMap, s: int)
    requires Ranked(u, rank) && q.Keys == u.Keys && s in q && Timed(w, q)
    requires forall x | x in u && Under(u, rank, x, s) && u[x] != NONE :: FirstChosen(u, q, x)
    ensures Timed(w, Noted(u, rank, q, s))
    decreases rank[s]
  {
    var p := u[s];
    if p != NONE {
      assert Below(u, rank, s) && Under(u, rank, s, s) && FirstChosen(u, q, s);
      var q1 := ClockSet(q, p, q[s].cycle);
      NoteOne(w, q, p, s);
      forall x | x in u && Under(u, rank, x, p) && u[x] != NONE ensures FirstChosen(u, q1, x) {
        assert Under(u, rank, x, s) && FirstChosen(u, q, x);
        FirstSame(q, p, q[s].cycle, u[x], x);
      }
      NotedTimed(u, rank, w, q1, p);
    }
  }

  // ---- rescheduling

  /** Right but for the turn of s, whose bytes have just been counted. */
  ghost predicate TimedBut(w: Weights, q: QueueMap, s: int) {
    ClocksOk(w, q) && Windowed(w, q, s) && SeqsOk(q)
  }

  lemma RequeueSeqs(u: Parents, w: Weights, q: QueueMap, p: int, s: int)
    requires SeqsOk(q) && QueuesOk(u, q, {}) && p in q && s in q && p != s && u[s] == p && s in w && w[s] > 0
    requires q[p].nextSeq + 1 < TWO64 && s in q[p].obq
    ensures SeqsOk(Requeue(w, q, p, s))
  {
    var r := Requeue(w, q, p, s);
    assert r[s].seqNo == q[p].nextSeq && r[p].nextSeq == q[p].nextSeq + 1;
    forall x | x in r ensures SeqsIn(r, x) {
      assert SeqsIn(q, x) && Holds(u, q, x);
      RequeueFrame(w, q, p, s, x);
      assert s in q[x].obq ==> x == p;
    }
  }

  lemma RequeueFrame(w: Weights, q: QueueMap, p: int, s: int, x: int)
    requires p in q && s in q && p != s && s in w && w[s] > 0 && s in q[p].obq && x in q
    ensures var r := Requeue(w, q, p, s);
            && r[x].obq == q[x].obq && (x != p ==> r[x].nextSeq == q[x].nextSeq)
            && forall c | c in q && c != s :: r[c].seqNo == q[c].seqNo
  {
  }

  lemma RequeueTimed(u: Parents, w: Weights, q: QueueMap, p: int, s: int)
    requires TimedBut(w, q, s) && QueuesOk(u, q, {}) && p in q && s in q && p != s && u[s] == p
    requires q[p].nextSeq + 1 < TWO64 && s in q[p].obq
    ensures s in w && w[s] > 0 && TimedBut(w, Requeue(w, q, p, s), p)
  {
    assert ClockOk(q[s], w[s]) && ClockOk(q[p], w[p]);
    var r := Requeue(w, q, p, s);
    RequeueSeqs(u, w, q, p, s);
    TurnFresh(w, r, p, s, q[s]);
    forall x | x in r ensures ClockOk(r[x], w[x]) && (r[x].queued || r[x].penalty == 0) {
      assert ClockOk(q[x], w[x]);
    }
    forall x, c | x in r && c in r[x].obq && c != p ensures TurnFits(w, r, x, c) {
      RequeueMembers(u, w, q, p, s, x, c);
      if c != s {
        assert TurnFits(w, q, x, c);
        TurnKept(w, q, r, x, c);
      }
    }
  }

  lemma RequeueMembers(u: Parents, w: Weights, q: QueueMap, p: int, s: int, x: int, c: int)
    requires QueuesOk(u, q, {}) && p in q && s in q && p != s && u[s] == p && s in w && w[s] > 0 && s in q[p].obq
    requires x in q && c in Requeue(w, q, p, s)[x].obq
    ensures c in q[x].obq && c in q && (c == s ==> x == p)
  {
    assert Holds(u, q, x);
  }

  /** Rescheduling keeps places in time right, whatever bytes s has just sent. */
  lemma {:induction false} ReschedTimed(u: Parents, rank: Ranks, w: Weights, q: QueueMap, s: int)
    requires Sized(u, rank, w, q) && QueuesOk(u, q, {}) && s in q && (u[s] == NONE || q[s].queued)
    requires TimedBut(w, q, s) && RoomAbove(u, rank, q, s)
    ensures Timed(w, Resched(u, rank, w, q, s))
    decreases rank[s]
  {
    var p := u[s];
    if p == NONE {
      forall x, c | x in q && c in q[x].obq ensures TurnFits(w, q, x, c) {
        assert Holds(u, q, x);
      }
    } else {
      assert Below(u, rank, s) && Held(u, q, s) && Under(u, rank, p, p) && Under(u, rank, p, s);
      var q1 := Requeue(w, q, p, s);
      RequeueTimed(u, w, q, p, s);
      assert q1[p].obq == q[p].obq;
      assert OnlyClocks(q, q1);
      OnlyClocksKeeps(u, q, q1);
      assert Settled(u, q, p);
      RequeueRoom(u, rank, w, q, p, s);
      ReschedTimed(u, rank, w, q1, p);
    }
  }

  lemma RequeueRoom(u: Parents, rank: Ranks, w: Weights, q: QueueMap, p: int, s: int)
    requires Sized(u, rank, w, q) && s in q && p in q && u[s] == p && RoomAbove(u, rank, q, s)
    ensures s in w && w[s] > 0 && RoomAbove(u, rank, Requeue(w, q, p, s), p)
  {
    assert Below(u, rank, s);
    forall y | y in u && Under(u, rank, y, p) && y != p ensures Requeue(w, q, p, s)[y].nextSeq + 1 < TWO64 {
      UnderRank(u, rank, y, p);
      assert Under(u, rank, y, s);
    }
  }

  /** s has sent some bytes of a frame. */
  function Sent(q: QueueMap, s: int, bytes: nat): (r: QueueMap)
    requires s in q
    ensures r.Keys == q.Keys
  {
    q[s := q[s].(writelen := bytes)]
  }

  lemma SentTimed(w: Weights, q: QueueMap, s: int, bytes: nat)
    requires Timed(w, q) && s in q && bytes <= MAX_FRAME
    ensures TimedBut(w, Sent(q, s, bytes), s)
  {
    var r := Sent(q, s, bytes);
    forall x | x in r ensures ClockOk(r[x], w[x]) && (r[x].queued || r[x].penalty == 0) && SeqsIn(r, x) {
      assert ClockOk(q[x], w[x]) && SeqsIn(q, x);
    }
    forall x, c | x in r && c in r[x].obq && c != s ensures TurnFits(w, r, x, c) {
      assert TurnFits(w, q, x, c);
      TurnKept(w, q, r, x, c);
    }
  }

  // ---- changing a weight

  lemma ReweighTimed(u: Parents, w: Weights, q: QueueMap, s: int, weight: int)
    requires Timed(w, q) && QueuesOk(u, q, {}) && s in q && s in w && u[s] in q && u[s] != s
    requires 1 <= weight <= MAX_WEIGHT && w[s] > 0 && q[s].queued
    ensures Timed(w[s := weight], ReweighedQueue(q, u[s], s, w[s], weight))
  {
    var p, w', r := u[s], w[s := weight], ReweighedQueue(q, u[s], s, w[s], weight);
    assert ClockOk(q[s], w[s]) && ClockOk(q[p], w[p]) && Held(u, q, s) && TurnFits(w, q, p, s);
    ReweighedInWindow(q[s], w[s], weight, q[p].lastCycle);
    ReweighedMembers(u, q, s, w[s], weight);
    forall x | x in r ensures ClockOk(r[x], w'[x]) && (r[x].queued || r[x].penalty == 0) && SeqsIn(r, x) {
      assert ClockOk(q[x], w[x]) && SeqsIn(q, x);
    }
    forall x, c | x in r && c in r[x].obq ensures TurnFits(w', r, x, c) {
      assert TurnFits(w, q, x, c) && Holds(u, q, x);
      if c != s {
        TurnKept(w, q, r, x, c);
      }
    }
  }

  lemma ReweighedMembers(u: Parents, q: QueueMap, s: int, before: int, weight: int)
    requires QueuesOk(u, q, {}) && s in q && u[s] in q && u[s] != s && before > 0 && weight > 0 && q[s].queued
    ensures var r := ReweighedQueue(q, u[s], s, before, weight);
            && r == q[s := Reweighed(q[s], before, weight, q[u[s]].lastCycle)]
            && r[s] == Reweighed(q[s], before, weight, q[u[s]].lastCycle)
            && r[s].seqNo == q[s].seqNo && r[s].obq == q[s].obq
            && r[s].lastCycle == q[s].lastCycle && r[s].nextSeq == q[s].nextSeq
  {
    assert Held(u, q, s);
    assert q[u[s]].obq - {s} + {s} == q[u[s]].obq;
  }
}
