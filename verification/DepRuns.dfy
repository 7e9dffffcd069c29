/**
 * Whole runs over a dependency tree whose shape stays: whatever is attached, detached, deferred, resumed, picked,
 * sent and reweighed, and in whatever order, the tree stays sound, and every queue stays in one window of its
 * clock and totally ordered.
 */
module DepRuns {
  import opened DepForest
  import opened DepQueue
  import opened DepWeights
  import opened DepOperations
  import opened DepClock
  import opened DepItems
  import opened DepWindow

  datatype Event =
    | Attach(s: int)
    | Detach(s: int)
    | Defer(s: int, why: set<Cause>)
    | Resume(s: int, why: set<Cause>)
    | Pick(s: int)
    | Send(s: int, bytes: nat)
    | Reweigh(s: int, weight: int)

  /** What nghttp2's assertions ask for, and that a pick is what NextOutboundItem finds from the root. */
  ghost predicate Possible(f: Forest, rank: Ranks, e: Event)
    requires Sound(f, rank)
  {
    && e.s in f.q
    && match e
       case Attach(s) => !f.q[s].item && f.q[s].deferred == {}
       case Detach(s) => true
       case Defer(s, why) => f.q[s].item && why != {}
       case Resume(s, why) => f.q[s].item
       case Pick(s) => f.q[s].Active() && PickedPath(f.u, rank, f.q, ROOT, s)
       case Send(s, bytes) => f.q[s].queued && bytes <= MAX_FRAME
       case Reweigh(s, weight) => 1 <= weight <= MAX_WEIGHT
  }

  /** The weights change only by a reweighing, the queues as the event's operation says. */
  ghost function Next(f: Forest, rank: Ranks, e: Event): Forest
    requires Sound(f, rank) && Possible(f, rank, e)
  {
    assert SumOf(f.w, f.sums, f.kids, e.s);
    match e
    case Attach(s) => RaisedSound(f, rank, s, {}); Raised(f, rank, s, {})
    case Detach(s) => LoweredSound(f, rank, s, false, {}); Lowered(f, rank, s, false, {})
    case Defer(s, why) =>
      LoweredSound(f, rank, s, true, f.q[s].deferred + why);
      Lowered(f, rank, s, true, f.q[s].deferred + why)
    case Resume(s, why) => RaisedSound(f, rank, s, f.q[s].deferred - why); Raised(f, rank, s, f.q[s].deferred - why)
    case Pick(s) => f.(q := Noted(f.u, rank, f.q, s))
    case Send(s, bytes) => f.(q := Resched(f.u, rank, f.w, Sent(f.q, s, bytes), s))
    case Reweigh(s, weight) => WithWeightSound(f, rank, s, weight); WithWeight(f, s, weight)
  }

  lemma SentOnlyClocks(u: Parents, rank: Ranks, w: Weights, q: QueueMap, s: int, bytes: nat)
    requires Sized(u, rank, w, q) && QueuesOk(u, q, {}) && s in q && q[s].queued
    ensures QueuesOk(u, Sent(q, s, bytes), {})
    ensures OnlyClocks(q, Resched(u, rank, w, Sent(q, s, bytes), s))
  {
    assert OnlyClocks(q, Sent(q, s, bytes));
    OnlyClocksKeeps(u, q, Sent(q, s, bytes));
    ReschedOnlyClocks(u, rank, w, Sent(q, s, bytes), s);
    var r := Resched(u, rank, w, Sent(q, s, bytes), s);
    forall x | x in q ensures ClockOnly(q[x], r[x]) {
      assert ClockOnly(q[x], Sent(q, s, bytes)[x]) && ClockOnly(Sent(q, s, bytes)[x], r[x]);
    }
  }

  /** Every event keeps the tree sound, and its shape as it is. */
  lemma NextSound(f: Forest, rank: Ranks, e: Event)
    requires Sound(f, rank) && Possible(f, rank, e)
    ensures Sound(Next(f, rank, e), rank) && Next(f, rank, e).u == f.u && Next(f, rank, e).kids == f.kids
  {
    match e
    case Attach(s) => RaisedSound(f, rank, s, {});
    case Detach(s) => LoweredSound(f, rank, s, false, {});
    case Defer(s, why) => LoweredSound(f, rank, s, true, f.q[s].deferred + why);
    case Resume(s, why) => RaisedSound(f, rank, s, f.q[s].deferred - why);
    case Pick(s) =>
      NotedOnlyClocks(f.u, rank, f.q, s);
      OnlyClocksKeeps(f.u, f.q, Noted(f.u, rank, f.q, s));
    case Send(s, bytes) =>
      SentOnlyClocks(f.u, rank, f.w, f.q, s, bytes);
      OnlyClocksKeeps(f.u, f.q, Resched(f.u, rank, f.w, Sent(f.q, s, bytes), s));
    case Reweigh(s, weight) => WithWeightSound(f, rank, s, weight);
  }

  // ---- sequence numbers run up by one an event at most

  ghost predicate Grows(q: QueueMap, r: QueueMap) {
    r.Keys == q.Keys && forall x | x in q :: r[x].nextSeq <= q[x].nextSeq + 1
  }

  predicate SameSeq(q: QueueMap, r: QueueMap, x: int)
    requires x in q && x in r
  {
    r[x].nextSeq == q[x].nextSeq
  }

  lemma {:induction false} PushSeqs(u: Parents, rank: Ranks, w: Weights, q: QueueMap, p: int, s: int)
    requires Sized(u, rank, w, q) && s in q && (p == NONE || p in q)
    ensures Grows(q, PushUp(u, rank, w, q, p, s))
    ensures forall x | x in q && (p == NONE || !Under(u, rank, x, p)) :: SameSeq(q, PushUp(u, rank, w, q, p, s), x)
    decreases if p == NONE then 0 else rank[p] + 1
  {
    if p != NONE && !q[s].queued {
      assert u[p] == NONE || Below(u, rank, p);
      var q1, r := Enqueue(w, q, p, s), PushUp(u, rank, w, q, p, s);
      PushSeqs(u, rank, w, q1, u[p], p);
      if u[p] != NONE && Under(u, rank, p, u[p]) {
        UnderRank(u, rank, p, u[p]);
      }
      forall x | x in q
        ensures r[x].nextSeq <= q[x].nextSeq + 1
        ensures !Under(u, rank, x, p) ==> SameSeq(q, r, x)
      {
        assert x == p ==> SameSeq(q1, r, x);
        assert !Under(u, rank, x, p) ==> SameSeq(q1, r, x);
      }
    }
  }

  lemma {:induction false} PullSeqs(u: Parents, rank: Ranks, q: QueueMap, p: int, s: int)
    requires Ranked(u, rank) && q.Keys == u.Keys && s in q && p in q
    ensures forall x | x in q :: SameSeq(q, PullUp(u, rank, q, p, s), x)
    decreases rank[p]
  {
    var q1, r := Dequeue(q, p, s), PullUp(u, rank, q, p, s);
    if !q1[p].Busy() && u[p] != NONE {
      assert Below(u, rank, p);
      PullSeqs(u, rank, q1, u[p], p);
      forall x | x in q ensures SameSeq(q, r, x) {
        assert SameSeq(q1, r, x);
      }
    }
  }

  lemma {:induction false} NotedSeqs(u: Parents, rank: Ranks, q: QueueMap, s: int)
    requires Ranked(u, rank) && q.Keys == u.Keys && s in q
    ensures forall x | x in q :: SameSeq(q, Noted(u, rank, q, s), x)
    decreases rank[s]
  {
    if u[s] != NONE {
      assert Below(u, rank, s);
      var q1 := q[u[s] := q[u[s]].(lastCycle := q[s].cycle)];
      NotedSeqs(u, rank, q1, u[s]);
      forall x | x in q ensures SameSeq(q, Noted(u, rank, q, s), x) {
        assert SameSeq(q1, Noted(u, rank, q1, u[s]), x);
      }
    }
  }

  lemma {:induction false} ReschedSeqs(u: Parents, rank: Ranks, w: Weights, q: QueueMap, s: int)
    requires Sized(u, rank, w, q) && s in q
    ensures Grows(q, Resched(u, rank, w, q, s))
    ensures forall x | x in q && (u[s] == NONE || !Under(u, rank, x, u[s])) :: SameSeq(q, Resched(u, rank, w, q, s), x)
    decreases rank[s]
  {
    var p := u[s];
    if p != NONE {
      assert Below(u, rank, s);
      assert u[p] == NONE || Below(u, rank, p);
      var q1, r := Requeue(w, q, p, s), Resched(u, rank, w, q, s);
      ReschedSeqs(u, rank, w, q1, p);
      if u[p] != NONE && Under(u, rank, p, u[p]) {
        UnderRank(u, rank, p, u[p]);
      }
      forall x | x in q
        ensures r[x].nextSeq <= q[x].nextSeq + 1
        ensures !Under(u, rank, x, p) ==> SameSeq(q, r, x)
      {
        assert x == p ==> SameSeq(q1, r, x);
        assert !Under(u, rank, x, p) ==> SameSeq(q1, r, x);
      }
    }
  }

  lemma NextGrows(f: Forest, rank: Ranks, e: Event)
    requires Sound(f, rank) && Possible(f, rank, e)
    ensures Grows(f.q, Next(f, rank, e).q)
  {
    match e
    case Attach(s) => RaisedSound(f, rank, s, {}); RaisedGrows(f, rank, s, {});
    case Resume(s, why) =>
      RaisedSound(f, rank, s, f.q[s].deferred - why);
      RaisedGrows(f, rank, s, f.q[s].deferred - why);
    case Detach(s) => LoweredSound(f, rank, s, false, {}); LoweredGrows(f, rank, s, false, {});
    case Defer(s, why) =>
      LoweredSound(f, rank, s, true, f.q[s].deferred + why);
      LoweredGrows(f, rank, s, true, f.q[s].deferred + why);
    case Pick(s) => PickGrows(f.u, rank, f.q, s);
    case Send(s, bytes) => SendGrows(f.u, rank, f.w, f.q, s, bytes);
    case Reweigh(s, weight) => WithWeightSound(f, rank, s, weight); ReweighGrows(f, s, weight);
  }

  lemma PickGrows(u: Parents, rank: Ranks, q: QueueMap, s: int)
    requires Ranked(u, rank) && q.Keys == u.Keys && s in q
    ensures Grows(q, Noted(u, rank, q, s))
  {
    NotedSeqs(u, rank, q, s);
    assert forall x | x in q :: SameSeq(q, Noted(u, rank, q, s), x);
  }

  lemma SendGrows(u: Parents, rank: Ranks, w: Weights, q: QueueMap, s: int, bytes: nat)
    requires Sized(u, rank, w, q) && s in q
    ensures Grows(q, Resched(u, rank, w, Sent(q, s, bytes), s))
  {
    ReschedSeqs(u, rank, w, Sent(q, s, bytes), s);
  }

  lemma ReweighGrows(f: Forest, s: int, weight: int)
    requires CanReweigh(f, s, weight)
    ensures Grows(f.q, WithWeight(f, s, weight).q)
  {
  }

  lemma RaisedGrows(f: Forest, rank: Ranks, s: int, deferred: set<Cause>)
    requires CanRaise(f, rank, s)
    ensures Grows(f.q, Raised(f, rank, s, deferred).q)
  {
    var q1 := WithItem(f.q, s, true, deferred);
    if deferred == {} {
      PushSeqs(f.u, rank, f.w, q1, f.u[s], s);
    }
  }

  lemma LoweredGrows(f: Forest, rank: Ranks, s: int, item: bool, deferred: set<Cause>)
    requires CanLower(f, rank, s, item, deferred)
    ensures Grows(f.q, Lowered(f, rank, s, item, deferred).q)
  {
    var q1 := WithItem(f.q, s, item, deferred);
    if q1[s].obq == {} && q1[s].queued {
      PullSeqs(f.u, rank, q1, f.u[s], s);
      assert forall x | x in q1 :: SameSeq(q1, PullUp(f.u, rank, q1, f.u[s], s), x);
    }
  }

  // ---- places in time

  predicate RoomFor(q: QueueMap, n: nat) {
    forall x | x in q :: q[x].nextSeq + n < TWO64
  }

  lemma ReweighIdleTimed(u: Parents, w: Weights, q: QueueMap, s: int, weight: int)
    requires Timed(w, q) && QueuesOk(u, q, {}) && s in q && !q[s].queued && 1 <= weight <= MAX_WEIGHT
    ensures Timed(w[s := weight], q)
  {
    Unheld(u, q, {}, s);
    forall x | x in q ensures ClockOk(q[x], w[s := weight][x]) && (q[x].queued || q[x].penalty == 0) {
      assert ClockOk(q[x], w[x]);
    }
    forall x, c | x in q && c in q[x].obq ensures TurnFits(w[s := weight], q, x, c) {
      assert TurnFits(w, q, x, c);
    }
  }

  lemma WithWeightTimed(f: Forest, rank: Ranks, s: int, weight: int)
    requires Sound(f, rank) && Timed(f.w, f.q) && s in f.q && CanReweigh(f, s, weight)
    ensures Timed(WithWeight(f, s, weight).w, WithWeight(f, s, weight).q)
  {
    if f.w[s] != weight {
      assert Held(f.u, f.q, s);
      if f.q[s].queued {
        ReweighTimed(f.u, f.w, f.q, s, weight);
      } else {
        ReweighIdleTimed(f.u, f.w, f.q, s, weight);
      }
    }
  }

  lemma PickTimed(f: Forest, rank: Ranks, s: int)
    requires Sound(f, rank) && Timed(f.w, f.q) && s in f.q && PickedPath(f.u, rank, f.q, ROOT, s)
    ensures Timed(f.w, Noted(f.u, rank, f.q, s))
  {
    forall x | x in f.u && Under(f.u, rank, x, s) && f.u[x] != NONE ensures FirstChosen(f.u, f.q, x) {
      UnderLinear(f.u, rank, ROOT, x, s);
      if x != s {
        assert Between(f.u, rank, ROOT, x, s);
      }
    }
    NotedTimed(f.u, rank, f.w, f.q, s);
  }

  lemma SendTimed(u: Parents, rank: Ranks, w: Weights, q: QueueMap, s: int, bytes: nat)
    requires Sized(u, rank, w, q) && QueuesOk(u, q, {}) && Timed(w, q) && RoomFor(q, 1)
    requires s in q && q[s].queued && bytes <= MAX_FRAME
    ensures Timed(w, Resched(u, rank, w, Sent(q, s, bytes), s))
  {
    SentTimed(w, q, s, bytes);
    SentOnlyClocks(u, rank, w, q, s, bytes);
    ReschedTimed(u, rank, w, Sent(q, s, bytes), s);
  }

  /** Every event keeps places in time right. */
  lemma NextTimed(f: Forest, rank: Ranks, e: Event)
    requires Sound(f, rank) && Possible(f, rank, e) && Timed(f.w, f.q) && RoomFor(f.q, 1)
    ensures Timed(Next(f, rank, e).w, Next(f, rank, e).q)
  {
    match e
    case Attach(s) => RaisedSound(f, rank, s, {}); RaisedTimed(f.u, rank, f.w, f.q, s, {});
    case Resume(s, why) =>
      RaisedSound(f, rank, s, f.q[s].deferred - why);
      RaisedTimed(f.u, rank, f.w, f.q, s, f.q[s].deferred - why);
    case Detach(s) => LoweredSound(f, rank, s, false, {}); LoweredTimed(f.u, rank, f.w, f.q, s, false, {});
    case Defer(s, why) =>
      LoweredSound(f, rank, s, true, f.q[s].deferred + why);
      LoweredTimed(f.u, rank, f.w, f.q, s, true, f.q[s].deferred + why);
    case Pick(s) => PickTimed(f, rank, s);
    case Send(s, bytes) => SendTimed(f.u, rank, f.w, f.q, s, bytes);
    case Reweigh(s, weight) => WithWeightSound(f, rank, s, weight); WithWeightTimed(f, rank, s, weight);
  }

  // ---- runs

  ghost predicate Runs(f: Forest, rank: Ranks, es: seq<Event>)
    requires Sound(f, rank)
    decreases |es|
  {
    es == [] || (Possible(f, rank, es[0]) && (NextSound(f, rank, es[0]); Runs(Next(f, rank, es[0]), rank, es[1..])))
  }

  ghost function AfterAll(f: Forest, rank: Ranks, es: seq<Event>): (g: Forest)
    requires Sound(f, rank) && Runs(f, rank, es)
    ensures Sound(g, rank)
    decreases |es|
  {
    if es == [] then f
    else
      NextSound(f, rank, es[0]);
      AfterAll(Next(f, rank, es[0]), rank, es[1..])
  }

  /**
   * In every run the tree keeps its shape and stays sound, and every queue stays in the window of its clock and
   * totally ordered, as long as fewer than 2^64 sequence numbers have been handed out.
   */
  lemma {:induction false} RunKeepsAll(f: Forest, rank: Ranks, es: seq<Event>)
    requires Sound(f, rank) && Runs(f, rank, es) && Timed(f.w, f.q) && RoomFor(f.q, |es|)
    ensures var g := AfterAll(f, rank, es);
            && Sound(g, rank) && g.u == f.u && g.kids == f.kids && Timed(g.w, g.q)
            && forall p | p in g.q :: (forall c | c in g.q[p].obq :: c in g.q) && Ordered(g.q, g.q[p].obq)
    decreases |es|
  {
    if es == [] {
      forall p | p in f.q ensures (forall c | c in f.q[p].obq :: c in f.q) && Ordered(f.q, f.q[p].obq) {
        TimedOrders(f.w, f.q, p);
      }
    } else {
      var h := Next(f, rank, es[0]);
      NextSound(f, rank, es[0]);
      NextTimed(f, rank, es[0]);
      NextGrows(f, rank, es[0]);
      RunKeepsAll(h, rank, es[1..]);
    }
  }
}
