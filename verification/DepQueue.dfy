/**
 * The queues of the dependency tree.  Every stream has a queue (`obq`) of those of its children that have
 * something to send, or have a descendant that has.  The functions give what nghttp2's loops along the
 * parents do; the lemmas show that they keep a stream queued exactly when its subtree is active.
 */
module DepQueue {
  import opened DepForest

  const MAX_WEIGHT: nat := 256
  const TWO64: nat := 0x1_0000_0000_0000_0000

  /** What holds a stream's item back. */
  datatype Cause = FlowControl | User

  /** The scheduling fields of a stream; `obq` is the content of its priority queue. */
  datatype Queue = Queue(
    item: bool, deferred: set<Cause>, queued: bool, obq: set<int>,
    cycle: nat, seqNo: nat, penalty: nat, lastCycle: nat, nextSeq: nat, writelen: nat)
  {
    /** `stream_active` */
    predicate Active() {
      item && deferred == {}
    }

    /** `stream_subtree_active` */
    predicate Busy() {
      Active() || obq != {}
    }
  }

  type QueueMap = map<int, Queue>
  type Weights = map<int, int>

  predicate WeightsOk(w: Weights) {
    forall x | x in w :: 1 <= w[x] <= MAX_WEIGHT
  }

  // ---- the invariant

  /** x is queued just when it or a descendant has something to send. */
  predicate Settled(u: Parents, q: QueueMap, x: int)
    requires x in u && x in q
  {
    u[x] == NONE || q[x].queued == q[x].Busy()
  }

  /** Queues hold queued children. */
  ghost predicate Holds(u: Parents, q: QueueMap, p: int)
    requires p in q
  {
    forall c | c in q[p].obq :: c in u && c in q && u[c] == p && q[c].queued
  }

  /** A queued stream is in its parent's queue. */
  predicate Held(u: Parents, q: QueueMap, x: int)
    requires x in u && x in q
  {
    q[x].queued ==> u[x] in q && x in q[u[x]].obq
  }

  /** The queues fit the tree, but for the streams in `apart`, whose own flag may be out of date. */
  ghost predicate QueuesOk(u: Parents, q: QueueMap, apart: set<int>) {
    && q.Keys == u.Keys && NONE !in u
    && (forall p | p in q :: Holds(u, q, p))
    && (forall x | x in q :: Held(u, q, x))
    && (forall x | x in q && x !in apart :: Settled(u, q, x))
  }

  // ---- pushing

  /** `stream_next_cycle` */
  function NextCycle(x: Queue, weight: int, last: nat): Queue
    requires weight > 0
  {
    var penalty := x.writelen * MAX_WEIGHT + x.penalty;
    x.(cycle := (last + penalty / weight) % TWO64, penalty := penalty % weight)
  }

  /** s takes the next sequence number of p's queue. */
  function Sequenced(q: QueueMap, p: int, s: int): (r: QueueMap)
    requires p in q && s in q
    ensures r.Keys == q.Keys
  {
    var q1 := q[s := q[s].(seqNo := q[p].nextSeq)];
    q1[p := q1[p].(nextSeq := (q1[p].nextSeq + 1) % TWO64)]
  }

  /** s joins p's queue. */
  function Enqueue(w: Weights, q: QueueMap, p: int, s: int): (r: QueueMap)
    requires p in q && s in q && s in w && w[s] > 0
    ensures r.Keys == q.Keys
  {
    var q1 := Sequenced(q[s := NextCycle(q[s], w[s], q[p].lastCycle)], p, s);
    var q2 := q1[p := q1[p].(obq := q1[p].obq + {s})];
    q2[s := q2[s].(queued := true)]
  }

  ghost predicate Sized(u: Parents, rank: Ranks, w: Weights, q: QueueMap) {
    Ranked(u, rank) && q.Keys == u.Keys && w.Keys == u.Keys && WeightsOk(w)
  }

  /** `stream_obq_push`: from s, of which p is or is to be the parent, upwards until a stream that is queued already. */
  ghost function PushUp(u: Parents, rank: Ranks, w: Weights, q: QueueMap, p: int, s: int): (r: QueueMap)
    requires Sized(u, rank, w, q) && s in q && (p == NONE || p in q)
    ensures r.Keys == q.Keys
    decreases if p == NONE then 0 else rank[p] + 1
  {
    if p == NONE || q[s].queued then q
    else
      assert u[p] == NONE || Below(u, rank, p);
      PushUp(u, rank, w, Enqueue(w, q, p, s), u[p], p)
  }

  /** Pushing s at p makes goal of the queues. */
  ghost predicate Pushing(u: Parents, rank: Ranks, w: Weights, q: QueueMap, p: int, s: int, goal: QueueMap) {
    Sized(u, rank, w, q) && s in q && (p == NONE || p in q) && goal == PushUp(u, rank, w, q, p, s)
  }

  lemma PushStep(u: Parents, rank: Ranks, w: Weights, q: QueueMap, p: int, s: int, goal: QueueMap)
    requires Pushing(u, rank, w, q, p, s, goal) && p != NONE && !q[s].queued
    ensures s in w && w[s] > 0 && u[p] != p
    ensures Pushing(u, rank, w, Enqueue(w, q, p, s), u[p], p, goal) && Height(rank, u[p]) < Height(rank, p)
  {
    assert u[p] == NONE || Below(u, rank, p);
  }

  /** What every climb makes smaller. */
  ghost function Height(rank: Ranks, p: int): nat {
    if p in rank then rank[p] + 1 else 0
  }

  /** Pushing s, the last thing amiss with s itself, sets it right. */
  lemma {:induction false} PushSettles(u: Parents, rank: Ranks, w: Weights, q: QueueMap, s: int, apart: set<int>)
    requires Sized(u, rank, w, q) && s in q && QueuesOk(u, q, apart) && s in apart && q[s].Busy()
    ensures u[s] == NONE || u[s] in q
    ensures QueuesOk(u, PushUp(u, rank, w, q, u[s], s), apart - {s})
    decreases rank[s]
  {
    var p := u[s];
    if p != NONE {
      assert Below(u, rank, s);
      if !q[s].queued {
        var q1 := Enqueue(w, q, p, s);
        EnqueueKeeps(u, w, q, p, s, apart);
        assert u[p] == NONE || Below(u, rank, p);
        PushSettles(u, rank, w, q1, p, apart - {s} + {p});
        assert apart - {s} + {p} - {p} <= apart - {s};
      }
    }
  }

  lemma EnqueueKeeps(u: Parents, w: Weights, q: QueueMap, p: int, s: int, apart: set<int>)
    requires QueuesOk(u, q, apart) && s in q && u[s] == p && p in q && p != s && q[s].Busy() && !q[s].queued
    requires s in w && w[s] > 0
    ensures QueuesOk(u, Enqueue(w, q, p, s), apart - {s} + {p}) && Enqueue(w, q, p, s)[p].Busy()
  {
    var q1 := Enqueue(w, q, p, s);
    forall x | x in q1
      ensures Holds(u, q1, x) && Held(u, q1, x)
      ensures x !in apart - {s} + {p} ==> Settled(u, q1, x)
    {
      assert Holds(u, q, x) && Held(u, q, x) && (x !in apart ==> Settled(u, q, x));
    }
  }

  /** No stream gained or lost anything to send. */
  predicate SameItems(q: QueueMap, q': QueueMap) {
    q'.Keys == q.Keys && forall x | x in q :: q'[x].item == q[x].item && q'[x].deferred == q[x].deferred
  }

  lemma {:induction false} PushKeepsItems(u: Parents, rank: Ranks, w: Weights, q: QueueMap, p: int, s: int)
    requires Sized(u, rank, w, q) && s in q && (p == NONE || p in q)
    ensures SameItems(q, PushUp(u, rank, w, q, p, s))
    decreases if p == NONE then 0 else rank[p] + 1
  {
    if p != NONE && !q[s].queued {
      assert u[p] == NONE || Below(u, rank, p);
      assert SameItems(q, Enqueue(w, q, p, s));
      PushKeepsItems(u, rank, w, Enqueue(w, q, p, s), u[p], p);
    }
  }

  // ---- pulling

  /** s leaves p's queue and loses its place in time. */
  function Dequeue(q: QueueMap, p: int, s: int): (r: QueueMap)
    requires p in q && s in q
    ensures r.Keys == q.Keys
  {
    var q1 := q[p := q[p].(obq := q[p].obq - {s})];
    q1[s := q1[s].(queued := false, cycle := 0, penalty := 0, lastCycle := 0, writelen := 0)]
  }

  /** The loop of `stream_obq_remove`: from the queued stream s up to a stream that stays busy. */
  ghost function PullUp(u: Parents, rank: Ranks, q: QueueMap, p: int, s: int): (r: QueueMap)
    requires Ranked(u, rank) && q.Keys == u.Keys && s in q && p in q
    ensures r.Keys == q.Keys
    decreases rank[p]
  {
    var q1 := Dequeue(q, p, s);
    if q1[p].Busy() || u[p] == NONE then q1
    else
      assert Below(u, rank, p);
      PullUp(u, rank, q1, u[p], p)
  }

  /** Every stream from x up to the root is queued. */
  ghost predicate QueuedUp(u: Parents, rank: Ranks, q: QueueMap, x: int)
    requires Ranked(u, rank) && q.Keys == u.Keys && x in u
  {
    forall y | y in u && Under(u, rank, y, x) && u[y] != NONE :: q[y].queued
  }

  /** Pulling s out of p's queue makes goal of the queues, and only queued streams are pulled. */
  ghost predicate Pulling(u: Parents, rank: Ranks, q: QueueMap, p: int, s: int, goal: QueueMap) {
    && Ranked(u, rank) && q.Keys == u.Keys && s in q && p in q && u[s] == p
    && QueuedUp(u, rank, q, s) && goal == PullUp(u, rank, q, p, s)
  }

  lemma PullStep(u: Parents, rank: Ranks, q: QueueMap, p: int, s: int, goal: QueueMap)
    requires Pulling(u, rank, q, p, s, goal)
    ensures q[s].queued
    ensures var q1 := Dequeue(q, p, s);
            if q1[p].Busy() || u[p] == NONE then goal == q1
            else Pulling(u, rank, q1, u[p], p, goal) && Height(rank, u[p]) < Height(rank, p)
  {
    assert Below(u, rank, s) && Under(u, rank, s, s);
    var q1 := Dequeue(q, p, s);
    if !q1[p].Busy() && u[p] != NONE {
      assert Below(u, rank, p);
      forall y | y in u && Under(u, rank, y, p) && u[y] != NONE ensures q1[y].queued {
        UnderRank(u, rank, y, p);
        assert Under(u, rank, y, s);
      }
    }
  }

  /** A queued stream's ancestors are queued. */
  lemma {:induction false} QueuedMeansUp(u: Parents, rank: Ranks, q: QueueMap, apart: set<int>, x: int)
    requires Ranked(u, rank) && QueuesOk(u, q, apart) && x in u && q[x].queued
    requires forall e | e in apart && e in rank :: rank[e] >= rank[x]
    ensures QueuedUp(u, rank, q, x)
    decreases rank[x]
  {
    assert Held(u, q, x);
    assert Below(u, rank, x);
    var p := u[x];
    assert p !in apart && Settled(u, q, p);
    if u[p] != NONE {
      QueuedMeansUp(u, rank, q, apart, p);
    }
    forall y | y in u && Under(u, rank, y, x) && u[y] != NONE ensures q[y].queued {
      if y != x && y != p {
        assert Under(u, rank, y, p);
      }
    }
  }

  lemma DequeueKeeps(u: Parents, q: QueueMap, p: int, s: int, apart: set<int>)
    requires QueuesOk(u, q, apart) && s in q && u[s] == p && p in q && p != s && q[s].queued && s in apart
    ensures QueuesOk(u, Dequeue(q, p, s), apart + {p})
    ensures p !in apart ==> q[p].queued || u[p] == NONE
  {
    var q1 := Dequeue(q, p, s);
    assert Holds(u, q, p) && Held(u, q, p) && Held(u, q, s) && (p !in apart ==> Settled(u, q, p));
    forall x | x in q1
      ensures Holds(u, q1, x) && Held(u, q1, x)
      ensures x !in apart + {p} ==> Settled(u, q1, x)
    {
      assert Holds(u, q, x) && Held(u, q, x) && (x !in apart ==> Settled(u, q, x));
    }
  }

  /** Pulling s leaves at most s amiss.  Every stream that nghttp2's loop dequeues is queued, as it asserts. */
  lemma {:induction false} PullSettles(u: Parents, rank: Ranks, q: QueueMap, s: int, apart: set<int>)
    requires Ranked(u, rank) && q.Keys == u.Keys && s in q && u[s] != NONE
    requires QueuesOk(u, q, apart) && s in apart && q[s].queued
    requires forall e | e in apart :: e in rank && rank[s] <= rank[e]
    ensures u[s] in q
    ensures var r := PullUp(u, rank, q, u[s], s);
            && QueuesOk(u, r, apart) && SameItems(q, r)
            && !r[s].queued && r[s].obq == q[s].obq
            && (forall x | x in q && rank[x] > rank[s] :: r[x] == q[x])
    decreases rank[s]
  {
    assert Below(u, rank, s);
    var p := u[s];
    var q1 := Dequeue(q, p, s);
    assert p !in apart;
    DequeueKeeps(u, q, p, s, apart);
    if q1[p].Busy() || u[p] == NONE {
      assert Settled(u, q1, p);
    } else {
      assert Below(u, rank, p);
      PullSettles(u, rank, q1, p, apart + {p});
      var r := PullUp(u, rank, q1, u[p], p);
      assert Settled(u, r, p);
    }
  }

  /** Nothing is amiss once the streams that stood apart are settled. */
  lemma AllSettled(u: Parents, q: QueueMap, apart: set<int>)
    requires QueuesOk(u, q, apart) && forall x | x in apart && x in q :: Settled(u, q, x)
    ensures QueuesOk(u, q, {})
  {
  }

  // ---- what the flag means

  /** s or a stream below it has something to send and is not held back. */
  ghost predicate ActiveBelow(u: Parents, rank: Ranks, q: QueueMap, s: int)
    requires Ranked(u, rank) && q.Keys == u.Keys
  {
    exists y :: y in q && Under(u, rank, s, y) && q[y].Active()
  }

  lemma {:induction false} ActiveMakesBusy(u: Parents, rank: Ranks, q: QueueMap, s: int, y: int)
    requires Ranked(u, rank) && QueuesOk(u, q, {}) && y in q && Under(u, rank, s, y) && q[y].Busy()
    ensures s in q && q[s].Busy()
    decreases rank[y]
  {
    if y != s {
      assert Below(u, rank, y) && Settled(u, q, y) && Held(u, q, y);
      ActiveMakesBusy(u, rank, q, s, u[y]);
    }
  }

  lemma Member(s: set<int>) returns (c: int)
    requires s != {}
    ensures c in s
  {
    assert (forall d :: d !in s) ==> s == {};
    c :| c in s;
  }

  lemma {:induction false} BusyHasActive(u: Parents, rank: Ranks, q: QueueMap, s: int, bound: nat) returns (y: int)
    requires Ranked(u, rank) && QueuesOk(u, q, {}) && s in q && q[s].Busy()
    requires forall x | x in rank :: rank[x] <= bound
    ensures y in q && Under(u, rank, s, y) && q[y].Active()
    decreases bound - rank[s]
  {
    if q[s].Active() {
      y := s;
    } else {
      var c := Member(q[s].obq);
      assert Holds(u, q, s) && Below(u, rank, c) && Settled(u, q, c);
      y := BusyHasActive(u, rank, q, c, bound);
      assert Under(u, rank, s, c);
      UnderTransitive(u, rank, s, c, y);
    }
  }

  lemma {:induction false} RankBound(rank: Ranks) returns (bound: nat)
    ensures forall x | x in rank :: rank[x] <= bound
    decreases |rank|
  {
    if forall x | x in rank :: false {
      bound := 0;
    } else {
      var x :| x in rank;
      var less := rank - {x};
      assert forall y | y in rank :: y == x || (y in less && less[y] == rank[y]);
      assert |less.Keys| < |rank.Keys| by {
        assert less.Keys == rank.Keys - {x};
      }
      bound := RankBound(less);
      bound := if bound < rank[x] then rank[x] else bound;
    }
  }

  /** The invariant that nghttp2's debug build checks, in one sentence. */
  lemma QueuedIffActiveBelow(u: Parents, rank: Ranks, q: QueueMap, s: int)
    requires Ranked(u, rank) && QueuesOk(u, q, {}) && s in q
    ensures q[s].Busy() <==> ActiveBelow(u, rank, q, s)
    ensures q[s].queued <==> u[s] != NONE && ActiveBelow(u, rank, q, s)
  {
    assert Settled(u, q, s) && Held(u, q, s);
    if q[s].Busy() {
      var bound := RankBound(rank);
      var y := BusyHasActive(u, rank, q, s, bound);
    }
    if ActiveBelow(u, rank, q, s) {
      var y :| y in q && Under(u, rank, s, y) && q[y].Active();
      ActiveMakesBusy(u, rank, q, s, y);
    }
  }

  // ---- the tree operations

  /** Only the climb above p matters to a push at p. */
  lemma {:induction false} PushAgrees(u: Parents, rank: Ranks, u': Parents, rank': Ranks, w: Weights, q: QueueMap,
                                      p: int, s: int)
    requires Sized(u, rank, w, q) && Sized(u', rank', w, q) && s in q && (p == NONE || p in q)
    requires p != NONE ==> forall y | y in u && Under(u, rank, y, p) :: u'[y] == u[y]
    ensures PushUp(u, rank, w, q, p, s) == PushUp(u', rank', w, q, p, s)
    decreases if p == NONE then 0 else rank[p] + 1
  {
    if p != NONE && !q[s].queued {
      assert Under(u, rank, p, p);
      assert u[p] == NONE || Below(u, rank, p);
      assert u'[p] == NONE || Below(u', rank', p);
      if u[p] != NONE {
        forall y | y in u && Under(u, rank, y, u[p]) ensures u'[y] == u[y] {
          UnderTransitive(u, rank, y, u[p], p);
        }
      }
      PushAgrees(u, rank, u', rank', w, Enqueue(w, q, p, s), u[p], p);
    }
  }

  /** A pushed stream is queued, and so is its parent. */
  lemma {:induction false} PushedIsQueued(u: Parents, rank: Ranks, w: Weights, q: QueueMap, p: int, s: int)
    requires Sized(u, rank, w, q) && s in q && p in q && s != p && !Under(u, rank, s, p)
    requires q[s].queued ==> u[p] == NONE || q[p].queued
    ensures var r := PushUp(u, rank, w, q, p, s); r[s].queued && (u[p] == NONE || r[p].queued)
    ensures q[s].Busy() ==> PushUp(u, rank, w, q, p, s)[s].Busy()
    decreases rank[p]
  {
    if !q[s].queued {
      assert u[p] == NONE || Below(u, rank, p);
      var q1 := Enqueue(w, q, p, s);
      PushLeaves(u, rank, w, q1, u[p], p, s);
      if u[p] != NONE && !q1[p].queued {
        if Under(u, rank, p, u[p]) {
          UnderRank(u, rank, p, u[p]);
        }
        PushedIsQueued(u, rank, w, q1, u[p], p);
      }
    }
  }

  /** A push leaves alone what is neither pushed nor above. */
  lemma {:induction false} PushLeaves(u: Parents, rank: Ranks, w: Weights, q: QueueMap, p: int, s: int, x: int)
    requires Sized(u, rank, w, q) && s in q && (p == NONE || p in q) && x in q && x != s
    requires p != NONE ==> !Under(u, rank, x, p)
    ensures PushUp(u, rank, w, q, p, s)[x] == q[x]
    decreases if p == NONE then 0 else rank[p] + 1
  {
    if p != NONE && !q[s].queued {
      assert u[p] == NONE || Below(u, rank, p);
      PushLeaves(u, rank, w, Enqueue(w, q, p, s), u[p], p, x);
    }
  }

  /** s leaves src's queue for another. */
  function Leave(q: QueueMap, src: int, s: int): (r: QueueMap)
    requires src in q && s in q
    ensures r.Keys == q.Keys
  {
    var q1 := q[src := q[src].(obq := q[src].obq - {s})];
    q1[s := q1[s].(queued := false)]
  }

  /** `stream_obq_move` */
  ghost function MoveTo(u: Parents, rank: Ranks, w: Weights, q: QueueMap, dest: int, src: int, s: int): (r: QueueMap)
    requires Sized(u, rank, w, q) && s in q && src in q && dest in q
    ensures r.Keys == q.Keys
  {
    if !q[s].queued then q else PushUp(u, rank, w, Leave(q, src, s), dest, s)
  }

  /** All of ks move from src's queue to dest's. */
  ghost function MoveAll(u: Parents, rank: Ranks, w: Weights, q: QueueMap, ks: seq<int>, dest: int,
                         src: int): (r: QueueMap)
    requires Sized(u, rank, w, q) && src in q && dest in q && forall k | k in ks :: k in q
    ensures r.Keys == q.Keys
  {
    if ks == [] then q
    else MoveTo(u, rank, w, MoveAll(u, rank, w, q, ks[..|ks| - 1], dest, src), dest, src, ks[|ks| - 1])
  }

  /** A child moves with its place in the tree: src, which it leaves, may no longer be settled. */
  lemma MoveKeeps(u: Parents, u': Parents, rank': Ranks, w: Weights, q: QueueMap, dest: int, src: int, c: int,
                  apart: set<int>)
    requires Sized(u', rank', w, q) && QueuesOk(u, q, apart) && c in q && c !in apart
    requires u[c] == src && src in q && dest in q && src in apart && c != src && c != dest && u' == u[c := dest]
    ensures QueuesOk(u', MoveTo(u', rank', w, q, dest, src, c), apart)
    ensures SameItems(q, MoveTo(u', rank', w, q, dest, src, c))
  {
    assert Holds(u, q, src) && Held(u, q, c) && Settled(u, q, c);
    var q1 := if q[c].queued then Leave(q, src, c) else q;
    forall x | x in q1
      ensures Holds(u', q1, x) && Held(u', q1, x)
      ensures x !in apart + {c} ==> Settled(u', q1, x)
    {
      assert Holds(u, q, x) && Held(u, q, x) && (x !in apart ==> Settled(u, q, x));
    }
    if q[c].queued {
      assert QueuesOk(u', q1, apart + {c});
      PushSettles(u', rank', w, q1, c, apart + {c});
      PushKeepsItems(u', rank', w, q1, dest, c);
      assert apart + {c} - {c} == apart;
    } else {
      assert Settled(u', q1, c);
    }
  }

  /** A stream that is not queued may be cut off, or may have been. */
  lemma UprootKeeps(u: Parents, q: QueueMap, s: int)
    requires QueuesOk(u, q, {s}) && s in q && !q[s].queued
    ensures QueuesOk(CutUp(u, s), q, {})
  {
    var u' := CutUp(u, s);
    forall x | x in q ensures Holds(u', q, x) && Held(u', q, x) && Settled(u', q, x) {
      assert Holds(u, q, x) && Held(u, q, x) && (x != s ==> Settled(u, q, x));
    }
  }

  /** A stream that stands alone may be put anywhere; its own flag is then to be looked at. */
  lemma PlantKeeps(u: Parents, q: QueueMap, p: int, s: int, apart: set<int>)
    requires QueuesOk(u, q, apart) && s in q && u[s] == NONE && p in q
    ensures !q[s].queued && QueuesOk(AddUp(u, p, s), q, apart + {s})
  {
    var u' := AddUp(u, p, s);
    assert Held(u, q, s);
    forall x | x in q ensures Holds(u', q, x) && Held(u', q, x) && (x !in apart + {s} ==> Settled(u', q, x)) {
      assert Holds(u, q, x) && Held(u, q, x) && (x !in apart ==> Settled(u, q, x));
    }
  }

  /** Where the children of src are while ks move to dest one after the other. */
  function MovedUp(u: Parents, ks: seq<int>, dest: int): (r: Parents)
    requires forall k | k in ks :: k in u
    ensures r.Keys == u.Keys
  {
    if ks == [] then u
    else
      var k := ks[|ks| - 1];
      assert k in u;
      MovedUp(u, ks[..|ks| - 1], dest)[k := dest]
  }

  lemma {:induction false} MovedUpAt(u: Parents, ks: seq<int>, dest: int, x: int)
    requires (forall k | k in ks :: k in u) && x in u
    ensures MovedUp(u, ks, dest)[x] == if x in ks then dest else u[x]
  {
    if ks != [] {
      MovedUpAt(u, ks[..|ks| - 1], dest, x);
      assert x in ks <==> x in ks[..|ks| - 1] || x == ks[|ks| - 1];
    }
  }

  /** Moving children of src to dest, which is above src or not below it. */
  ghost predicate Movable(u: Parents, rank: Ranks, ks: seq<int>, dest: int, src: int) {
    && Ranked(u, rank) && src in u && dest in u && dest != src
    && (forall k | k in ks :: k in u && u[k] == src && rank[dest] < rank[k])
    && (forall i, j | 0 <= i < j < |ks| :: ks[i] != ks[j])
  }

  lemma MovedKeepsRanked(u: Parents, rank: Ranks, ks: seq<int>, dest: int, src: int)
    requires Movable(u, rank, ks, dest, src)
    ensures Ranked(MovedUp(u, ks, dest), rank)
  {
    var u' := MovedUp(u, ks, dest);
    forall x | x in u' ensures u'[x] == NONE || Below(u', rank, x) {
      MovedUpAt(u, ks, dest, x);
      assert u[x] == NONE || Below(u, rank, x);
    }
  }

  /** Nothing above dest moves. */
  lemma AboveStays(u: Parents, rank: Ranks, ks: seq<int>, dest: int, src: int, y: int)
    requires Movable(u, rank, ks, dest, src) && y in u && Under(u, rank, y, dest)
    ensures MovedUp(u, ks, dest)[y] == u[y]
  {
    MovedUpAt(u, ks, dest, y);
    UnderRank(u, rank, y, dest);
  }

  lemma {:induction false} MoveAllKeeps(u: Parents, rank: Ranks, w: Weights, q: QueueMap, ks: seq<int>, dest: int,
                                        src: int, apart: set<int>)
    requires Sized(u, rank, w, q) && Movable(u, rank, ks, dest, src) && QueuesOk(u, q, apart) && src in apart
    requires forall k | k in ks :: k !in apart
    ensures QueuesOk(MovedUp(u, ks, dest), MoveAll(u, rank, w, q, ks, dest, src), apart)
    ensures SameItems(q, MoveAll(u, rank, w, q, ks, dest, src))
    decreases |ks|
  {
    if ks != [] {
      var n, c := |ks| - 1, ks[|ks| - 1];
      MoveAllKeeps(u, rank, w, q, ks[..n], dest, src, apart);
      var q1, u1, u2 := MoveAll(u, rank, w, q, ks[..n], dest, src), MovedUp(u, ks[..n], dest), MovedUp(u, ks, dest);
      MovedUpAt(u, ks[..n], dest, c);
      MovedKeepsRanked(u, rank, ks, dest, src);
      MoveToAgrees(u, rank, w, q1, ks, dest, src, c);
      assert Below(u, rank, c);
      MoveKeeps(u1, u2, rank, w, q1, dest, src, c, apart);
    }
  }

  lemma MoveToAgrees(u: Parents, rank: Ranks, w: Weights, q: QueueMap, ks: seq<int>, dest: int, src: int, c: int)
    requires Sized(u, rank, w, q) && Movable(u, rank, ks, dest, src) && c in q
    ensures Sized(MovedUp(u, ks, dest), rank, w, q)
    ensures MoveTo(u, rank, w, q, dest, src, c) == MoveTo(MovedUp(u, ks, dest), rank, w, q, dest, src, c)
  {
    MovedKeepsRanked(u, rank, ks, dest, src);
    if q[c].queued {
      forall y | y in u && Under(u, rank, y, dest) ensures MovedUp(u, ks, dest)[y] == u[y] {
        AboveStays(u, rank, ks, dest, src, y);
      }
      PushAgrees(u, rank, MovedUp(u, ks, dest), rank, w, Leave(q, src, c), dest, c);
    }
  }

  lemma PlantIdle(u: Parents, q: QueueMap, p: int, s: int)
    requires QueuesOk(u, q, {}) && s in q && u[s] == NONE && p in q && !q[s].Busy()
    ensures QueuesOk(AddUp(u, p, s), q, {})
  {
    PlantKeeps(u, q, p, s, {});
    AllSettled(AddUp(u, p, s), q, {} + {s});
  }

  /** As soon as a child moves to s, s is busy; if s has a parent p, both are queued by then. */
  lemma {:induction false} MoveAllEffect(u: Parents, rank: Ranks, w: Weights, q: QueueMap, ks: seq<int>, s: int, p: int)
    requires Sized(u, rank, w, q) && Movable(u, rank, ks, s, p) && !q[s].queued
    requires u[s] == NONE || u[s] == p
    ensures var r := MoveAll(u, rank, w, q, ks, s, p);
            && (r[s].Busy() || r == q)
            && (u[s] == NONE ==> !r[s].queued)
            && (r[s].queued ==> r[s].Busy() && (u[p] == NONE || r[p].queued))
    decreases |ks|
  {
    if ks != [] {
      var c := ks[|ks| - 1];
      MoveAllEffect(u, rank, w, q, ks[..|ks| - 1], s, p);
      var q1 := MoveAll(u, rank, w, q, ks[..|ks| - 1], s, p);
      if q1[c].queued {
        MoveEffect(u, rank, w, q1, c, s, p);
      }
    }
  }

  lemma MoveEffect(u: Parents, rank: Ranks, w: Weights, q: QueueMap, c: int, s: int, p: int)
    requires Sized(u, rank, w, q) && s in q && p in q && c in q && s != p && c != s && c != p && q[c].queued
    requires u[s] == NONE || u[s] == p
    requires u[s] == NONE ==> !q[s].queued
    requires q[s].queued ==> u[p] == NONE || q[p].queued
    ensures var r := MoveTo(u, rank, w, q, s, p, c);
            && r[s].Busy()
            && (u[s] == NONE ==> !r[s].queued)
            && (r[s].queued ==> u[p] == NONE || r[p].queued)
  {
    var q1 := Enqueue(w, Leave(q, p, c), s, c);
    assert c in q1[s].obq;
    assert MoveTo(u, rank, w, q, s, p, c) == PushUp(u, rank, w, q1, u[s], s);
    if u[s] == p {
      assert Below(u, rank, s);
      if Under(u, rank, s, p) {
        UnderRank(u, rank, s, p);
      }
      PushedIsQueued(u, rank, w, q1, p, s);
    }
  }

  /** The last step of an insertion: s, now p's child, goes into p's queue if it is busy. */
  lemma InsertSettles(u: Parents, rank: Ranks, w: Weights, q0: QueueMap, q: QueueMap, p: int, s: int)
    requires Sized(u, rank, w, q) && SameItems(q0, q) && QueuesOk(u, q, {p} + {s}) && s in q && u[s] == p && p in q
    requires q[s].queued ==> q[s].Busy() && (u[p] == NONE || q[p].queued)
    requires !q[s].Busy() ==> Settled(u, q, p)
    ensures var r := if q[s].Busy() then PushUp(u, rank, w, q, p, s) else q;
            QueuesOk(u, r, {}) && SameItems(q0, r)
  {
    assert Below(u, rank, s);
    var apart := {p} + {s};
    if q[s].Busy() {
      PushSettles(u, rank, w, q, s, apart);
      PushKeepsItems(u, rank, w, q, p, s);
      if Under(u, rank, s, p) {
        UnderRank(u, rank, s, p);
      }
      PushedIsQueued(u, rank, w, q, p, s);
      var r := PushUp(u, rank, w, q, p, s);
      assert Held(u, r, s) && r[p].obq != {};
      AllSettled(u, r, apart - {s});
    } else {
      AllSettled(u, q, apart);
    }
  }

  /** ks are p's children. */
  ghost predicate Children(u: Parents, p: int, ks: seq<int>) {
    && (forall x | x in u :: x in ks <==> u[x] == p) && (forall k | k in ks :: k in u)
    && (forall i, j | 0 <= i < j < |ks| :: ks[i] != ks[j])
  }

  /** The queues after `nghttp2_stream_dep_insert`, which looks at s only if p has children. */
  ghost function InsertQueue(u: Parents, rank: Ranks, w: Weights, q: QueueMap, ks: seq<int>, p: int, s: int): QueueMap
    requires Sized(u, rank, w, q) && p in q && s in q && forall k | k in ks :: k in q
  {
    if ks == [] then q
    else
      var q1 := MoveAll(u, rank, w, q, ks, s, p);
      if q1[s].Busy() then PushUp(u, rank, w, q1, p, s) else q1
  }

  lemma InsertQueueOk(u: Parents, rank: Ranks, w: Weights, q: QueueMap, ks: seq<int>, p: int, s: int)
    requires Sized(u, rank, w, q) && Movable(u, rank, ks, s, p) && Children(u, p, ks) && u[s] == NONE && !q[s].Busy()
    requires Ranked(InsertUp(u, p, s), rank) && QueuesOk(u, q, {})
    ensures QueuesOk(InsertUp(u, p, s), InsertQueue(u, rank, w, q, ks, p, s), {})
    ensures SameItems(q, InsertQueue(u, rank, w, q, ks, p, s))
  {
    var q1, u2 := MoveAll(u, rank, w, q, ks, s, p), InsertUp(u, p, s);
    InsertMoves(u, rank, w, q, ks, p, s);
    InsertSettles(u2, rank, w, q, q1, p, s);
    InsertPushAgrees(u, rank, w, q1, p, s);
  }

  lemma InsertMoves(u: Parents, rank: Ranks, w: Weights, q: QueueMap, ks: seq<int>, p: int, s: int)
    requires Sized(u, rank, w, q) && Movable(u, rank, ks, s, p) && Children(u, p, ks) && u[s] == NONE
    requires Ranked(InsertUp(u, p, s), rank) && QueuesOk(u, q, {})
    ensures var q1 := MoveAll(u, rank, w, q, ks, s, p);
            && SameItems(q, q1) && QueuesOk(InsertUp(u, p, s), q1, {p} + {s}) && !q1[s].queued
            && (!q1[s].Busy() ==> Settled(InsertUp(u, p, s), q1, p))
  {
    assert Held(u, q, s) && Settled(u, q, p);
    var q1, u1 := MoveAll(u, rank, w, q, ks, s, p), MovedUp(u, ks, s);
    MoveAllKeeps(u, rank, w, q, ks, s, p, {p});
    MoveAllEffect(u, rank, w, q, ks, s, p);
    MovedUpAt(u, ks, s, s);
    PlantKeeps(u1, q1, p, s, {p});
    MovedAllIsInsert(u, ks, p, s);
    assert u[p] == NONE || Below(u, rank, p);
  }

  lemma MovedAllIsInsert(u: Parents, ks: seq<int>, p: int, s: int)
    requires Children(u, p, ks) && s in u
    ensures MovedUp(u, ks, s)[s := p] == InsertUp(u, p, s)
  {
    forall x | x in u ensures MovedUp(u, ks, s)[s := p][x] == InsertUp(u, p, s)[x] {
      MovedUpAt(u, ks, s, x);
    }
  }

  lemma PlantedMoveIsInsert(u: Parents, ks: seq<int>, p: int, s: int)
    requires Children(u, p, ks) && s in u && u[s] != p
    ensures MovedUp(AddUp(u, p, s), ks, s) == InsertUp(u, p, s)
  {
    forall x | x in u ensures MovedUp(AddUp(u, p, s), ks, s)[x] == InsertUp(u, p, s)[x] {
      MovedUpAt(AddUp(u, p, s), ks, s, x);
    }
  }

  lemma MovedAllIsRemove(u: Parents, ks: seq<int>, s: int)
    requires Children(u, s, ks) && s in u
    ensures CutUp(MovedUp(u, ks, u[s]), s) == RemoveUp(u, s)
  {
    forall x | x in u ensures CutUp(MovedUp(u, ks, u[s]), s)[x] == RemoveUp(u, s)[x] {
      MovedUpAt(u, ks, u[s], x);
    }
  }

  lemma InsertPushAgrees(u: Parents, rank: Ranks, w: Weights, q: QueueMap, p: int, s: int)
    requires Sized(u, rank, w, q) && Ranked(InsertUp(u, p, s), rank) && p in u && s in u && p != s
    ensures PushUp(u, rank, w, q, p, s) == PushUp(InsertUp(u, p, s), rank, w, q, p, s)
  {
    ClimbUnmoved(u, rank, p, s);
    PushAgrees(u, rank, InsertUp(u, p, s), rank, w, q, p, s);
  }

  lemma ClimbUnmoved(u: Parents, rank: Ranks, p: int, s: int)
    requires Ranked(u, rank) && Ranked(InsertUp(u, p, s), rank) && p in u && s in u
    ensures forall y | y in u && Under(u, rank, y, p) :: y != s ==> InsertUp(u, p, s)[y] == u[y]
    ensures !Under(u, rank, s, p) || s == p
  {
    assert Below(InsertUp(u, p, s), rank, s);
    if Under(u, rank, s, p) {
      UnderRank(u, rank, s, p);
    }
    forall y | y in u && Under(u, rank, y, p) && y != s ensures InsertUp(u, p, s)[y] == u[y] {
      UnderRank(u, rank, y, p);
      assert u[y] == NONE || Below(u, rank, y);
    }
  }

  /** The queues after `nghttp2_stream_dep_insert_subtree`: s is linked below p before p's children move. */
  ghost function InsertSubtreeQueue(u: Parents, rank: Ranks, w: Weights, q: QueueMap, ks: seq<int>, p: int,
                                    s: int): QueueMap
    requires Sized(AddUp(u, p, s), rank, w, q) && p in q && s in q && forall k | k in ks :: k in q
  {
    var q1 := MoveAll(AddUp(u, p, s), rank, w, q, ks, s, p);
    if q1[s].Busy() then PushUp(AddUp(u, p, s), rank, w, q1, p, s) else q1
  }

  lemma InsertSubtreeQueueOk(u: Parents, rank: Ranks, w: Weights, q: QueueMap, ks: seq<int>, p: int, s: int)
    requires Sized(u, rank, w, q) && Movable(u, rank, ks, s, p) && Children(u, p, ks) && u[s] == NONE
    requires Ranked(InsertUp(u, p, s), rank) && Ranked(AddUp(u, p, s), rank) && QueuesOk(u, q, {})
    ensures QueuesOk(InsertUp(u, p, s), InsertSubtreeQueue(u, rank, w, q, ks, p, s), {})
    ensures SameItems(q, InsertSubtreeQueue(u, rank, w, q, ks, p, s))
  {
    var u1, u2 := AddUp(u, p, s), InsertUp(u, p, s);
    var q1 := MoveAll(u1, rank, w, q, ks, s, p);
    InsertSubtreeMoves(u, rank, w, q, ks, p, s);
    InsertSettles(u2, rank, w, q, q1, p, s);
    PlantedPushAgrees(u, rank, w, q1, p, s);
  }

  lemma PlantedPushAgrees(u: Parents, rank: Ranks, w: Weights, q: QueueMap, p: int, s: int)
    requires Sized(AddUp(u, p, s), rank, w, q) && Ranked(u, rank) && Ranked(InsertUp(u, p, s), rank)
    requires p in u && s in u && p != s
    ensures PushUp(AddUp(u, p, s), rank, w, q, p, s) == PushUp(InsertUp(u, p, s), rank, w, q, p, s)
  {
    ClimbUnmoved(u, rank, p, s);
    UnderPlanted(u, rank, p, s);
    PushAgrees(AddUp(u, p, s), rank, InsertUp(u, p, s), rank, w, q, p, s);
  }

  /** Planting s below p does not change what is above p. */
  lemma UnderPlanted(u: Parents, rank: Ranks, p: int, s: int)
    requires Ranked(u, rank) && Ranked(AddUp(u, p, s), rank) && p in u && s in u && !Under(u, rank, s, p)
    ensures forall y | y in u :: Under(AddUp(u, p, s), rank, y, p) == Under(u, rank, y, p)
  {
    forall y | y in u ensures Under(AddUp(u, p, s), rank, y, p) == Under(u, rank, y, p) {
      UnderUnchanged(u, rank, AddUp(u, p, s), rank, y, p);
    }
  }

  lemma InsertSubtreeMoves(u: Parents, rank: Ranks, w: Weights, q: QueueMap, ks: seq<int>, p: int, s: int)
    requires Sized(u, rank, w, q) && Movable(u, rank, ks, s, p) && Children(u, p, ks) && u[s] == NONE
    requires Ranked(AddUp(u, p, s), rank) && QueuesOk(u, q, {})
    ensures var q1 := MoveAll(AddUp(u, p, s), rank, w, q, ks, s, p);
            && SameItems(q, q1) && QueuesOk(InsertUp(u, p, s), q1, {p} + {s})
            && (q1[s].queued ==> q1[s].Busy() && (u[p] == NONE || q1[p].queued))
            && (!q1[s].Busy() ==> Settled(InsertUp(u, p, s), q1, p))
  {
    assert Held(u, q, s) && Settled(u, q, p);
    var u1 := AddUp(u, p, s);
    PlantKeeps(u, q, p, s, {p});
    MoveAllKeeps(u1, rank, w, q, ks, s, p, {p} + {s});
    MoveAllEffect(u1, rank, w, q, ks, s, p);
    PlantedMoveIsInsert(u, ks, p, s);
    assert u[p] == NONE || Below(u, rank, p);
  }

  /** The queues after s, busy or not, was put below p: `nghttp2_stream_dep_add_subtree`. */
  ghost function AddSubtreeQueue(u: Parents, rank: Ranks, w: Weights, q: QueueMap, p: int, s: int): QueueMap
    requires Sized(u, rank, w, q) && p in q && s in q
  {
    if q[s].Busy() then PushUp(u, rank, w, q, p, s) else q
  }

  lemma AddSubtreeQueueOk(u: Parents, rank: Ranks, w: Weights, q: QueueMap, p: int, s: int)
    requires Sized(AddUp(u, p, s), rank, w, q) && QueuesOk(u, q, {}) && s in q && p in q && u[s] == NONE
    ensures QueuesOk(AddUp(u, p, s), AddSubtreeQueue(AddUp(u, p, s), rank, w, q, p, s), {})
    ensures SameItems(q, AddSubtreeQueue(AddUp(u, p, s), rank, w, q, p, s))
  {
    PlantKeeps(u, q, p, s, {});
    if q[s].Busy() {
      PushSettles(AddUp(u, p, s), rank, w, q, s, {} + {s});
      PushKeepsItems(AddUp(u, p, s), rank, w, q, p, s);
      AllSettled(AddUp(u, p, s), PushUp(AddUp(u, p, s), rank, w, q, p, s), {} + {s} - {s});
    } else {
      AllSettled(AddUp(u, p, s), q, {} + {s});
    }
  }

  /** The queues after s was cut off: `nghttp2_stream_dep_remove_subtree`. */
  ghost function CutQueue(u: Parents, rank: Ranks, q: QueueMap, s: int): QueueMap
    requires Ranked(u, rank) && q.Keys == u.Keys && s in q && (q[s].queued ==> u[s] in q)
  {
    if q[s].queued then PullUp(u, rank, q, u[s], s) else q
  }

  lemma CutQueueOk(u: Parents, rank: Ranks, q: QueueMap, s: int)
    requires Ranked(u, rank) && QueuesOk(u, q, {}) && s in q && u[s] in q
    ensures QueuesOk(CutUp(u, s), CutQueue(u, rank, q, s), {})
    ensures SameItems(q, CutQueue(u, rank, q, s))
  {
    if q[s].queued {
      PullSettles(u, rank, q, s, {s});
    }
    UprootKeeps(u, CutQueue(u, rank, q, s), s);
  }

  /** The queues after s was taken out, its children ks in its place: `nghttp2_stream_dep_remove`. */
  ghost function RemoveQueue(u: Parents, rank: Ranks, w: Weights, q: QueueMap, ks: seq<int>, s: int): QueueMap
    requires Sized(u, rank, w, q) && s in q && u[s] in q && forall k | k in ks :: k in q
  {
    CutQueue(u, rank, MoveAll(u, rank, w, q, ks, u[s], s), s)
  }

  lemma RemoveQueueOk(u: Parents, rank: Ranks, w: Weights, q: QueueMap, ks: seq<int>, s: int)
    requires Sized(u, rank, w, q) && s in q && u[s] in q && Movable(u, rank, ks, u[s], s) && Children(u, s, ks)
    requires QueuesOk(u, q, {})
    ensures QueuesOk(RemoveUp(u, s), RemoveQueue(u, rank, w, q, ks, s), {})
    ensures SameItems(q, RemoveQueue(u, rank, w, q, ks, s))
  {
    var p := u[s];
    assert Below(u, rank, s);
    var q1, u1 := MoveAll(u, rank, w, q, ks, p, s), MovedUp(u, ks, p);
    MoveAllKeeps(u, rank, w, q, ks, p, s, {s});
    MovedKeepsRanked(u, rank, ks, p, s);
    MovedUpAt(u, ks, p, s);
    if q1[s].queued {
      PullSettles(u1, rank, q1, s, {s});
      forall y | y in u && Under(u, rank, y, p) ensures u1[y] == u[y] {
        AboveStays(u, rank, ks, p, s, y);
      }
      PullAgrees(u, rank, u1, q1, p, s);
    }
    UprootKeeps(u1, RemoveQueue(u, rank, w, q, ks, s), s);
    MovedAllIsRemove(u, ks, s);
  }

  lemma {:induction false} PullAgrees(u: Parents, rank: Ranks, u': Parents, q: QueueMap, p: int, s: int)
    requires Ranked(u, rank) && Ranked(u', rank) && q.Keys == u.Keys == u'.Keys && s in q && p in q
    requires forall y | y in u && Under(u, rank, y, p) :: u'[y] == u[y]
    ensures PullUp(u, rank, q, p, s) == PullUp(u', rank, q, p, s)
    decreases rank[p]
  {
    var q1 := Dequeue(q, p, s);
    assert Under(u, rank, p, p);
    if !q1[p].Busy() && u[p] != NONE {
      assert Below(u, rank, p);
      forall y | y in u && Under(u, rank, y, u[p]) ensures u'[y] == u[y] {
        UnderTransitive(u, rank, y, u[p], p);
      }
      PullAgrees(u, rank, u', q1, u[p], p);
    }
  }

  /** A push looks at the weights of the pushed stream and of those above only. */
  lemma {:induction false} PushWeighs(u: Parents, rank: Ranks, w: Weights, w': Weights, q: QueueMap, p: int, s: int)
    requires Sized(u, rank, w, q) && Sized(u, rank, w', q) && s in q && (p == NONE || p in q) && w[s] == w'[s]
    requires p != NONE ==> forall y | y in u && Under(u, rank, y, p) :: w[y] == w'[y]
    ensures PushUp(u, rank, w, q, p, s) == PushUp(u, rank, w', q, p, s)
    decreases if p == NONE then 0 else rank[p] + 1
  {
    if p != NONE && !q[s].queued {
      assert Under(u, rank, p, p);
      assert u[p] == NONE || Below(u, rank, p);
      if u[p] != NONE {
        forall y | y in u && Under(u, rank, y, u[p]) ensures w[y] == w'[y] {
          UnderTransitive(u, rank, y, u[p], p);
        }
      }
      PushWeighs(u, rank, w, w', Enqueue(w, q, p, s), u[p], p);
    }
  }

  /** With its children gone up, s may still leave its parent's queue: all above it are queued if it is. */
  lemma MovedStaysUp(u: Parents, rank: Ranks, w: Weights, q: QueueMap, ks: seq<int>, s: int)
    requires Sized(u, rank, w, q) && s in q && u[s] in q && Movable(u, rank, ks, u[s], s) && QueuesOk(u, q, {})
    ensures var q1 := MoveAll(u, rank, w, q, ks, u[s], s); q1[s].queued ==> QueuedUp(u, rank, q1, s)
  {
    var q1, u1 := MoveAll(u, rank, w, q, ks, u[s], s), MovedUp(u, ks, u[s]);
    MoveAllKeeps(u, rank, w, q, ks, u[s], s, {s});
    MovedKeepsRanked(u, rank, ks, u[s], s);
    if q1[s].queued {
      QueuedMeansUp(u1, rank, q1, {s}, s);
      forall y | y in u && Under(u, rank, y, s) && u[y] != NONE ensures q1[y].queued {
        UnmovedAbove(u, rank, ks, u[s], s, y);
      }
    }
  }

  lemma UnmovedAbove(u: Parents, rank: Ranks, ks: seq<int>, dest: int, s: int, y: int)
    requires Movable(u, rank, ks, dest, s) && Ranked(MovedUp(u, ks, dest), rank) && y in u && Under(u, rank, y, s)
    ensures Under(MovedUp(u, ks, dest), rank, y, s) && MovedUp(u, ks, dest)[y] == u[y]
  {
    forall z | z in u && Under(u, rank, z, s) ensures MovedUp(u, ks, dest)[z] == u[z] {
      MovedUpAt(u, ks, dest, z);
      UnderRank(u, rank, z, s);
      assert z in ks ==> Below(u, rank, z);
    }
    UnderUnchanged(u, rank, MovedUp(u, ks, dest), rank, y, s);
  }
}
