/**
 * A stream that is not queued has no bytes to pay for: it joins its parent's queue exactly at the time the
 * queue's clock shows, with no carry, whatever it did before.
 */
module DepRest {
  import opened Modular
  import opened DepForest
  import opened DepQueue
  import opened DepOperations
  import opened DepClock
  import opened DepItems
  import opened DepWindow
  import opened DepRuns
  import opened DepFairness

  predicate Rests(x: Queue) {
    x.queued || (x.writelen == 0 && x.penalty == 0)
  }

  ghost predicate Rested(u: Parents, q: QueueMap) {
    forall x | x in q && x in u && u[x] != NONE :: Rests(q[x])
  }

  /** Then who joins a queue joins it at its clock. */
  lemma JoinsAtClock(u: Parents, w: Weights, q: QueueMap, p: int, s: int)
    requires Rested(u, q) && Timed(w, q) && p in q && s in q && p != s && s in u && u[s] == p && p != NONE
    requires !q[s].queued
    ensures s in w && w[s] > 0
    ensures var r := Enqueue(w, q, p, s); r[s].cycle == r[p].lastCycle == q[p].lastCycle && r[s].penalty == 0
  {
    assert ClockOk(q[s], w[s]) && ClockOk(q[p], w[p]) && Rests(q[s]);
    NoDelay(q[s], w[s], q[p].lastCycle);
  }

  lemma NoDelay(x: Queue, weight: int, last: nat)
    requires weight > 0 && x.writelen == 0 && x.penalty == 0 && last < TWO64
    ensures NextCycle(x, weight, last).cycle == last && NextCycle(x, weight, last).penalty == 0
  {
    DivMod(0, weight);
    QuotientUnique(weight, 0 / weight, 0 % weight, 0, 0);
  }

  lemma {:induction false} PushRests(u: Parents, rank: Ranks, w: Weights, q: QueueMap, p: int, s: int)
    requires Sized(u, rank, w, q) && s in q && (p == NONE || p in q) && Rested(u, q)
    ensures Rested(u, PushUp(u, rank, w, q, p, s))
    decreases if p == NONE then 0 else rank[p] + 1
  {
    if p != NONE && !q[s].queued {
      assert u[p] == NONE || Below(u, rank, p);
      var q1 := Enqueue(w, q, p, s);
      forall x | x in q1 && x in u && u[x] != NONE ensures Rests(q1[x]) {
        assert Rests(q[x]);
      }
      PushRests(u, rank, w, q1, u[p], p);
    }
  }

  lemma {:induction false} PullRests(u: Parents, rank: Ranks, q: QueueMap, p: int, s: int)
    requires Ranked(u, rank) && q.Keys == u.Keys && s in q && p in q && Rested(u, q)
    ensures Rested(u, PullUp(u, rank, q, p, s))
    decreases rank[p]
  {
    var q1 := Dequeue(q, p, s);
    forall x | x in q1 && x in u && u[x] != NONE ensures Rests(q1[x]) {
      assert Rests(q[x]);
    }
    if !q1[p].Busy() && u[p] != NONE {
      assert Below(u, rank, p);
      PullRests(u, rank, q1, u[p], p);
    }
  }

  lemma {:induction false} ReschedRests(u: Parents, rank: Ranks, w: Weights, q: QueueMap, s: int)
    requires Sized(u, rank, w, q) && QueuesOk(u, q, {}) && s in q && (u[s] == NONE || q[s].queued) && Rested(u, q)
    ensures Rested(u, Resched(u, rank, w, q, s))
    decreases rank[s]
  {
    if u[s] != NONE {
      assert Below(u, rank, s) && Held(u, q, s);
      var p, q1 := u[s], Requeue(w, q, u[s], s);
      assert q1[p].obq == q[p].obq;
      assert OnlyClocks(q, q1);
      OnlyClocksKeeps(u, q, q1);
      assert Settled(u, q, p);
      forall x | x in q1 && x in u && u[x] != NONE ensures Rests(q1[x]) {
        assert Rests(q[x]);
      }
      ReschedRests(u, rank, w, q1, p);
    }
  }

  lemma WithItemRests(u: Parents, q: QueueMap, s: int, item: bool, deferred: set<Cause>)
    requires s in q && Rested(u, q)
    ensures Rested(u, WithItem(q, s, item, deferred))
  {
  }

  lemma SendRests(u: Parents, rank: Ranks, w: Weights, q: QueueMap, s: int, bytes: nat)
    requires Sized(u, rank, w, q) && QueuesOk(u, q, {}) && s in q && q[s].queued && Rested(u, q)
    ensures Rested(u, Resched(u, rank, w, Sent(q, s, bytes), s))
  {
    SentOnlyClocks(u, rank, w, q, s, bytes);
    ReschedRests(u, rank, w, Sent(q, s, bytes), s);
  }

  lemma PickRests(u: Parents, rank: Ranks, q: QueueMap, s: int)
    requires Ranked(u, rank) && q.Keys == u.Keys && s in q && Rested(u, q)
    ensures Rested(u, Noted(u, rank, q, s))
  {
    NotedKeepsTurns(u, rank, q, s);
  }

  lemma RaisedRests(f: Forest, rank: Ranks, s: int, deferred: set<Cause>)
    requires CanRaise(f, rank, s) && Rested(f.u, f.q)
    ensures Rested(f.u, Raised(f, rank, s, deferred).q)
  {
    WithItemRests(f.u, f.q, s, true, deferred);
    if deferred == {} {
      PushRests(f.u, rank, f.w, WithItem(f.q, s, true, deferred), f.u[s], s);
    }
  }

  lemma LoweredRests(f: Forest, rank: Ranks, s: int, item: bool, deferred: set<Cause>)
    requires CanLower(f, rank, s, item, deferred) && Rested(f.u, f.q)
    ensures Rested(f.u, Lowered(f, rank, s, item, deferred).q)
  {
    var q1 := WithItem(f.q, s, item, deferred);
    WithItemRests(f.u, f.q, s, item, deferred);
    if q1[s].obq == {} && q1[s].queued {
      PullRests(f.u, rank, q1, f.u[s], s);
    }
  }

  lemma ReweighRests(f: Forest, s: int, weight: int)
    requires CanReweigh(f, s, weight) && Rested(f.u, f.q)
    ensures Rested(f.u, WithWeight(f, s, weight).q)
  {
  }

  /** Every event keeps it so. */
  lemma NextRested(f: Forest, rank: Ranks, e: Event)
    requires Sound(f, rank) && Possible(f, rank, e) && Rested(f.u, f.q)
    ensures Rested(Next(f, rank, e).u, Next(f, rank, e).q)
  {
    NextSound(f, rank, e);
    match e
    case Attach(s) => RaisedSound(f, rank, s, {}); RaisedRests(f, rank, s, {});
    case Resume(s, why) =>
      RaisedSound(f, rank, s, f.q[s].deferred - why);
      RaisedRests(f, rank, s, f.q[s].deferred - why);
    case Detach(s) => LoweredSound(f, rank, s, false, {}); LoweredRests(f, rank, s, false, {});
    case Defer(s, why) =>
      LoweredSound(f, rank, s, true, f.q[s].deferred + why);
      LoweredRests(f, rank, s, true, f.q[s].deferred + why);
    case Pick(s) => PickRests(f.u, rank, f.q, s);
    case Send(s, bytes) => SendRests(f.u, rank, f.w, f.q, s, bytes);
    case Reweigh(s, weight) => WithWeightSound(f, rank, s, weight); ReweighRests(f, s, weight);
  }

  lemma {:induction false} RunRests(f: Forest, rank: Ranks, es: seq<Event>)
    requires Sound(f, rank) && Runs(f, rank, es) && Rested(f.u, f.q)
    ensures Rested(AfterAll(f, rank, es).u, AfterAll(f, rank, es).q)
    decreases |es|
  {
    if es != [] {
      NextSound(f, rank, es[0]);
      NextRested(f, rank, es[0]);
      RunRests(Next(f, rank, es[0]), rank, es[1..]);
    }
  }
}
