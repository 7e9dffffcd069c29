/**
 * Weighted fairness in the tree.  Two children of one stream that both stay queued get bytes in proportion to
 * their weights, up to a bound that does not depend on how long they stay: whatever else is attached, detached,
 * deferred, resumed, reweighed, picked and sent meanwhile, anywhere in the tree.
 */
module DepFairness {
  import opened Modular
  import opened DepForest
  import opened DepQueue
  import opened DepOperations
  import opened DepClock
  import opened DepItems
  import opened DepWindow
  import opened DepRuns

  // ---- what the operations do to clocks

  /** A queued stream's place in time, and the clock of its own queue. */
  predicate SameClock(a: Queue, b: Queue) {
    b.cycle == a.cycle && b.penalty == a.penalty && b.lastCycle == a.lastCycle
  }

  /** A push leaves the clocks of the streams that are queued already. */
  lemma {:induction false} PushKeepsClocks(u: Parents, rank: Ranks, w: Weights, q: QueueMap, p: int, s: int)
    requires Sized(u, rank, w, q) && s in q && (p == NONE || p in q)
    ensures var r := PushUp(u, rank, w, q, p, s);
            forall x | x in q ::
              r[x].lastCycle == q[x].lastCycle && (q[x].queued ==> r[x].queued && SameClock(q[x], r[x]))
    decreases if p == NONE then 0 else rank[p] + 1
  {
    if p != NONE && !q[s].queued {
      assert u[p] == NONE || Below(u, rank, p);
      var q1 := Enqueue(w, q, p, s);
      assert forall x | x in q ::
          q1[x].lastCycle == q[x].lastCycle && (q[x].queued ==> q1[x].queued && SameClock(q[x], q1[x]));
      PushKeepsClocks(u, rank, w, q1, u[p], p);
    }
  }

  /** A pull leaves the clocks of the streams that stay queued, and of the roots. */
  lemma {:induction false} PullKeepsClocks(u: Parents, rank: Ranks, q: QueueMap, p: int, s: int)
    requires Ranked(u, rank) && q.Keys == u.Keys && s in q && p in q && u[s] != NONE
    ensures var r := PullUp(u, rank, q, p, s);
            forall x | x in q ::
              (r[x].queued ==> q[x].queued) && (u[x] == NONE || r[x].queued ==> SameClock(q[x], r[x]))
    decreases rank[p]
  {
    var q1 := Dequeue(q, p, s);
    assert forall x | x in q ::
        (q1[x].queued ==> q[x].queued) && (u[x] == NONE || q1[x].queued ==> SameClock(q[x], q1[x]));
    if !q1[p].Busy() && u[p] != NONE {
      assert Below(u, rank, p);
      PullKeepsClocks(u, rank, q1, u[p], p);
    }
  }

  /** Picking changes nothing but clocks of queues. */
  lemma {:induction false} NotedKeepsTurns(u: Parents, rank: Ranks, q: QueueMap, s: int)
    requires Ranked(u, rank) && q.Keys == u.Keys && s in q
    ensures var r := Noted(u, rank, q, s); forall x | x in q :: r[x] == q[x].(lastCycle := r[x].lastCycle)
    decreases rank[s]
  {
    if u[s] != NONE {
      assert Below(u, rank, s);
      NotedKeepsTurns(u, rank, q[u[s] := q[u[s]].(lastCycle := q[s].cycle)], u[s]);
    }
  }

  /** A stream that is not above s keeps its clock. */
  lemma {:induction false} NotedElsewhere(u: Parents, rank: Ranks, q: QueueMap, s: int, x: int)
    requires Ranked(u, rank) && q.Keys == u.Keys && s in q && x in q && (x == s || !Under(u, rank, x, s))
    ensures Noted(u, rank, q, s)[x].lastCycle == q[x].lastCycle
    decreases rank[s]
  {
    if u[s] != NONE {
      assert Below(u, rank, s);
      if Under(u, rank, x, u[s]) {
        UnderRank(u, rank, x, u[s]);
      }
      NotedElsewhere(u, rank, q[u[s] := q[u[s]].(lastCycle := q[s].cycle)], u[s], x);
    }
  }

  /** The parent of a stream on the way from the root to s has that stream's turn for its clock. */
  lemma {:induction false} NotedThrough(u: Parents, rank: Ranks, q: QueueMap, s: int, c: int)
    requires Ranked(u, rank) && q.Keys == u.Keys && s in q && Under(u, rank, c, s) && c in u && u[c] != NONE
    ensures u[c] in q && Noted(u, rank, q, s)[u[c]].lastCycle == q[c].cycle
    decreases rank[s]
  {
    assert Below(u, rank, c);
    if u[s] != NONE {
      assert Below(u, rank, s);
      var q1 := q[u[s] := q[u[s]].(lastCycle := q[s].cycle)];
      if s == c {
        NotedElsewhere(u, rank, q1, u[s], u[s]);
      } else {
        NotedThrough(u, rank, q1, u[s], c);
      }
    }
  }

  /** Rescheduling leaves the clocks of queues, and the turns of the streams not above s. */
  lemma {:induction false} ReschedElsewhere(u: Parents, rank: Ranks, w: Weights, q: QueueMap, s: int, x: int)
    requires Sized(u, rank, w, q) && s in q && x in q
    ensures var r := Resched(u, rank, w, q, s);
            r[x].lastCycle == q[x].lastCycle && (!Under(u, rank, x, s) ==> SameClock(q[x], r[x]))
    decreases rank[s]
  {
    if u[s] != NONE {
      assert Below(u, rank, s);
      ReschedElsewhere(u, rank, w, Requeue(w, q, u[s], s), u[s], x);
    }
  }

  /** Every stream on the way from the root to s gets its next turn, for the bytes that s has written. */
  lemma {:induction false} ReschedThrough(u: Parents, rank: Ranks, w: Weights, q: QueueMap, s: int, i: int)
    requires Sized(u, rank, w, q) && s in q && i in q && Under(u, rank, i, s) && u[i] != NONE
    ensures u[i] in q && w[i] > 0
    ensures var r, y := Resched(u, rank, w, q, s), NextCycle(q[i].(writelen := q[s].writelen), w[i], q[u[i]].lastCycle);
            r[i].cycle == y.cycle && r[i].penalty == y.penalty
    decreases rank[s]
  {
    assert Below(u, rank, i);
    if u[s] != NONE {
      assert Below(u, rank, s);
      var q1 := Requeue(w, q, u[s], s);
      if s == i {
        if Under(u, rank, i, u[i]) {
          UnderRank(u, rank, i, u[i]);
        }
        ReschedElsewhere(u, rank, w, q1, u[s], i);
      } else {
        ReschedThrough(u, rank, w, q1, u[s], i);
      }
    }
  }

  // ---- one event

  /** The stream picked last whose frame is still to be counted. */
  function Current(now: int, e: Event): int {
    match e
    case Pick(s) => s
    case Send(_, _) => NONE
    case _ => now
  }

  /** If what was picked is below i, i has the turn that p's clock shows. */
  ghost predicate OnTurn(f: Forest, rank: Ranks, p: int, i: int, now: int)
    requires Ranked(f.u, rank) && p in f.q && i in f.q
  {
    now in f.u && Under(f.u, rank, i, now) ==> f.q[p].lastCycle == f.q[i].cycle
  }

  /** The bytes that e sends for i or for a stream below it. */
  ghost function BytesOf(u: Parents, rank: Ranks, e: Event, i: int): nat
    requires Ranked(u, rank) && e.s in u
  {
    if e.Send? && Under(u, rank, i, e.s) then e.bytes else 0
  }

  /** How far p's clock moves. */
  function Tick(q: QueueMap, r: QueueMap, p: int): nat
    requires p in q && p in r
  {
    (r[p].lastCycle - q[p].lastCycle) % TWO64
  }

  /** weight * turn + carry, with turns counted from p's clock as it was before. */
  function Account(q: QueueMap, p: int, i: int, weight: int, elapsed: nat): int
    requires p in q && i in q
  {
    weight * (elapsed + Gap(q[p].lastCycle, q[i])) + q[i].penalty
  }

  /** i's account grew by 256 times these bytes while p's clock moved on by `elapsed`. */
  predicate Paid(q: QueueMap, r: QueueMap, p: int, i: int, weight: int, elapsed: nat, bytes: nat) {
    && p in q && i in q && p in r && i in r
    && Account(r, p, i, weight, elapsed) == Account(q, p, i, weight, 0) + MAX_WEIGHT * bytes
  }

  /** i's turn, and its carry, are where they were. */
  lemma NothingPaid(q: QueueMap, r: QueueMap, p: int, i: int, weight: int)
    requires p in q && i in q && p in r && i in r && r[i].penalty == q[i].penalty
    requires Tick(q, r, p) + Gap(r[p].lastCycle, r[i]) == Gap(q[p].lastCycle, q[i])
    ensures Paid(q, r, p, i, weight, Tick(q, r, p), 0)
  {
  }

  lemma AccountKept(q: QueueMap, r: QueueMap, p: int, i: int, weight: int)
    requires p in q && i in q && p in r && i in r
    requires r[p].lastCycle == q[p].lastCycle && r[i].cycle == q[i].cycle && r[i].penalty == q[i].penalty
    ensures Paid(q, r, p, i, weight, Tick(q, r, p), 0)
  {
    NothingPaid(q, r, p, i, weight);
  }

  lemma PaidNever(q: QueueMap, p: int, i: int, weight: int)
    requires p in q && i in q
    ensures Paid(q, q, p, i, weight, 0, 0)
  {
  }

  lemma PaidTwice(q: QueueMap, h: QueueMap, r: QueueMap, p: int, i: int, weight: int,
                  t1: nat, n1: nat, t2: nat, n2: nat, t: nat, n: nat)
    requires Paid(q, h, p, i, weight, t1, n1) && Paid(h, r, p, i, weight, t2, n2) && t == t1 + t2 && n == n1 + n2
    ensures Paid(q, r, p, i, weight, t, n)
  {
    MulSub(t1 + t2 + Gap(r[p].lastCycle, r[i]), t1, weight);
    MulSub(t1 + Gap(h[p].lastCycle, h[i]), t1, weight);
  }

  /** The clock moves on to the first turn c, and i's turn is as far away as before. */
  lemma ClockMoves(last: nat, c: Queue, i: Queue, after: Queue)
    requires last < TWO64 && c.cycle < TWO64 && i.cycle < TWO64 && after.cycle == i.cycle
    requires Gap(last, c) <= MAX_CYCLE_DISTANCE && Gap(last, i) <= MAX_CYCLE_DISTANCE && (c == i || !Less(i, c))
    ensures (c.cycle - last) % TWO64 + Gap(c.cycle, after) == Gap(last, i)
  {
    LessIsGapOrder(last, i, c);
  }

  lemma InWindow(w: Weights, q: QueueMap, p: int, i: int)
    requires Timed(w, q) && p in q && i in q[p].obq
    ensures i in q && i in w && ClockOk(q[i], w[i]) && ClockOk(q[p], w[p]) && p in w
    ensures Gap(q[p].lastCycle, q[i]) <= MAX_CYCLE_DISTANCE && InTurn(q, p, i)
  {
    assert TurnFits(w, q, p, i) || i == NONE;
    assert ClockOk(q[i], w[i]) && ClockOk(q[p], w[p]);
    ReachInWindow(q[i], w[i]);
  }

  /** i's account and turn after a pick. */
  ghost predicate PickedExactly(u: Parents, rank: Ranks, w: Weights, q: QueueMap, r: QueueMap, s: int, p: int, i: int)
    requires Ranked(u, rank) && s in u && p in q && i in q && p in r && i in r && i in w
  {
    && Paid(q, r, p, i, w[i], Tick(q, r, p), 0)
    && (Under(u, rank, i, s) ==> r[p].lastCycle == r[i].cycle)
  }

  /** A pick below p moves p's clock to the turn of the child that was picked. */
  lemma PickBelowExact(u: Parents, rank: Ranks, w: Weights, q: QueueMap, s: int, p: int, c: int, i: int)
    requires Ranked(u, rank) && q.Keys == u.Keys && Timed(w, q) && s in q
    requires p in q && i in q && i in w && i in q[p].obq && u[i] == p
    requires c in u && u[c] == p && p != NONE && Under(u, rank, c, s) && FirstChosen(u, q, c)
    ensures PickedExactly(u, rank, w, q, Noted(u, rank, q, s), s, p, i)
  {
    var r := Noted(u, rank, q, s);
    NotedKeepsTurns(u, rank, q, s);
    NotedThrough(u, rank, q, s, c);
    InWindow(w, q, p, i);
    InWindow(w, q, p, c);
    NotBefore(w, q, p, c, i);
    ClockMovesOn(q, r, p, c, i, w[i]);
    if Under(u, rank, i, s) {
      OneChildToward(u, rank, p, s, i, c);
    }
  }

  /** i's turn is in the window above p's clock. */
  predicate InTurn(q: QueueMap, p: int, i: int) {
    && p in q && i in q && q[p].lastCycle < TWO64 && q[i].cycle < TWO64
    && Gap(q[p].lastCycle, q[i]) <= MAX_CYCLE_DISTANCE
  }

  lemma ClockMovesOn(q: QueueMap, r: QueueMap, p: int, c: int, i: int, weight: int)
    requires InTurn(q, p, c) && InTurn(q, p, i) && (c == i || !Less(q[i], q[c])) && p in r && i in r
    requires r[p].lastCycle == q[c].cycle && r[i].cycle == q[i].cycle && r[i].penalty == q[i].penalty
    ensures Paid(q, r, p, i, weight, Tick(q, r, p), 0)
  {
    ClockMoves(q[p].lastCycle, q[c], q[i], r[i]);
    NothingPaid(q, r, p, i, weight);
  }

  /** The chosen child is not after any other. */
  lemma NotBefore(w: Weights, q: QueueMap, p: int, c: int, i: int)
    requires Timed(w, q) && p in q && (forall x | x in q[p].obq :: x in q) && First(q, p, c) && i in q[p].obq
    ensures c == i || !Less(q[i], q[c])
  {
    TimedOrders(w, q, p);
    assert c != i ==> Less(q[c], q[i]) != Less(q[i], q[c]);
  }

  /** A pick in p's queue or in another. */
  lemma PickExact(f: Forest, rank: Ranks, s: int, p: int, i: int)
    requires Sound(f, rank) && Timed(f.w, f.q) && s in f.q && PickedPath(f.u, rank, f.q, ROOT, s)
    requires p in f.q && i in f.q && i in f.w && i in f.q[p].obq
    ensures PickedExactly(f.u, rank, f.w, f.q, Noted(f.u, rank, f.q, s), s, p, i)
  {
    assert Holds(f.u, f.q, p);
    if p != s && Under(f.u, rank, p, s) {
      var c := ChildToward(f.u, rank, p, s);
      ChosenOnPath(f, rank, s, c);
      PickBelowExact(f.u, rank, f.w, f.q, s, p, c, i);
    } else {
      NotedKeepsTurns(f.u, rank, f.q, s);
      NotedElsewhere(f.u, rank, f.q, s, p);
      AccountKept(f.q, Noted(f.u, rank, f.q, s), p, i, f.w[i]);
      if Under(f.u, rank, i, s) {
        ParentToo(f.u, rank, i, s);
      }
    }
  }

  lemma ChosenOnPath(f: Forest, rank: Ranks, s: int, c: int)
    requires Sound(f, rank) && PickedPath(f.u, rank, f.q, ROOT, s) && Under(f.u, rank, c, s) && c in f.u
    requires f.u[c] != NONE
    ensures FirstChosen(f.u, f.q, c)
  {
    UnderLinear(f.u, rank, ROOT, c, s);
    if c != s {
      assert Between(f.u, rank, ROOT, c, s);
    }
  }

  /** The child of p on the way to s. */
  lemma {:induction false} ChildToward(u: Parents, rank: Ranks, p: int, s: int) returns (c: int)
    requires Ranked(u, rank) && s in u && p != s && Under(u, rank, p, s)
    ensures c in u && u[c] == p && p != NONE && Under(u, rank, c, s)
    decreases rank[s]
  {
    assert Below(u, rank, s);
    if u[s] == p {
      c := s;
    } else {
      c := ChildToward(u, rank, p, u[s]);
    }
  }

  lemma OneChildToward(u: Parents, rank: Ranks, p: int, s: int, c: int, d: int)
    requires Ranked(u, rank) && s in u && c in u && d in u && u[c] == p && u[d] == p && p != NONE
    requires Under(u, rank, c, s) && Under(u, rank, d, s)
    ensures c == d
  {
    assert Below(u, rank, c) && Below(u, rank, d);
    UnderLinear(u, rank, c, d, s);
    if c != d && Under(u, rank, c, d) {
      UnderRank(u, rank, c, p);
    }
    if c != d && Under(u, rank, d, c) {
      UnderRank(u, rank, d, p);
    }
  }

  lemma ParentToo(u: Parents, rank: Ranks, i: int, s: int)
    requires Ranked(u, rank) && s in u && Under(u, rank, i, s) && i in u && u[i] != NONE
    ensures u[i] != s && Under(u, rank, u[i], s)
  {
    assert Below(u, rank, i);
    UnderRank(u, rank, i, s);
    assert Under(u, rank, u[i], i);
    UnderTransitive(u, rank, u[i], i, s);
  }

  /** Bytes sent: i's account grows by 256 times those that are its own. */
  lemma SendExact(u: Parents, rank: Ranks, w: Weights, q: QueueMap, s: int, bytes: nat, p: int, i: int)
    requires Sized(u, rank, w, q) && Timed(w, q) && s in q && bytes <= MAX_FRAME && p in q && i in q[p].obq
    requires i in q && i in w && u[i] == p && p != NONE && (Under(u, rank, i, s) ==> q[p].lastCycle == q[i].cycle)
    ensures var r := Resched(u, rank, w, Sent(q, s, bytes), s);
            Paid(q, r, p, i, w[i], Tick(q, r, p), BytesOf(u, rank, Send(s, bytes), i))
  {
    var q1 := Sent(q, s, bytes);
    var r := Resched(u, rank, w, q1, s);
    InWindow(w, q, p, i);
    ReschedElsewhere(u, rank, w, q1, s, p);
    if Under(u, rank, i, s) {
      ReschedThrough(u, rank, w, q1, s, i);
      TurnPaid(q, r, p, i, w[i], bytes);
    } else {
      ReschedElsewhere(u, rank, w, q1, s, i);
      AccountKept(q, r, p, i, w[i]);
    }
  }

  lemma TurnPaid(q: QueueMap, r: QueueMap, p: int, i: int, weight: int, bytes: nat)
    requires p in q && i in q && p in r && i in r && ClockOk(q[i], weight) && bytes <= MAX_FRAME
    requires q[p].lastCycle == q[i].cycle && r[p].lastCycle == q[p].lastCycle
    requires var y := NextCycle(q[i].(writelen := bytes), weight, q[p].lastCycle);
             r[i].cycle == y.cycle && r[i].penalty == y.penalty
    ensures Paid(q, r, p, i, weight, Tick(q, r, p), bytes)
  {
    NextTurnExact(q[i].(writelen := bytes), weight, q[p].lastCycle, r[i]);
  }

  /** From a turn that the clock shows, the next one is as far away as 256 times the bytes ask for. */
  lemma NextTurnExact(x: Queue, weight: int, last: nat, y: Queue)
    requires ClockOk(x, weight) && last == x.cycle
    requires y.cycle == NextCycle(x, weight, last).cycle && y.penalty == NextCycle(x, weight, last).penalty
    ensures weight * Gap(last, y) + y.penalty == x.penalty + MAX_WEIGHT * x.writelen
  {
    ClockIsExact(x, weight, last);
    MulAtLeast(weight, Delay(x, weight));
    GapOfDelay(last, Delay(x, weight), y);
  }

  lemma GapOfDelay(last: nat, d: nat, y: Queue)
    requires last < TWO64 && d < TWO64 && y.cycle == (last + d) % TWO64
    ensures Gap(last, y) == d
  {
  }

  /** Events that change no clock of a stream that stays queued, and none of its parent. */
  lemma QuietExact(f: Forest, rank: Ranks, e: Event, p: int, i: int)
    requires Sound(f, rank) && Possible(f, rank, e) && !e.Pick? && !e.Send? && p in f.q && i in f.q[p].obq
    requires i in f.q && i in f.w
    requires var g := Next(f, rank, e); p in g.q && i in g.q[p].obq && i in g.q && i in g.w && g.w[i] == f.w[i]
    ensures var r := Next(f, rank, e).q; r[p].lastCycle == f.q[p].lastCycle
    ensures var r := Next(f, rank, e).q; r[i].cycle == f.q[i].cycle && r[i].penalty == f.q[i].penalty
  {
    var g := Next(f, rank, e);
    assert Holds(f.u, f.q, p);
    NextSound(f, rank, e);
    assert Holds(g.u, g.q, p) && Settled(g.u, g.q, p);
    match e
    case Attach(s) => RaisedSound(f, rank, s, {}); RaisedQuiet(f, rank, s, {}, p, i);
    case Resume(s, why) =>
      RaisedSound(f, rank, s, f.q[s].deferred - why);
      RaisedQuiet(f, rank, s, f.q[s].deferred - why, p, i);
    case Detach(s) => LoweredSound(f, rank, s, false, {}); LoweredQuiet(f, rank, s, false, {}, p, i);
    case Defer(s, why) =>
      LoweredSound(f, rank, s, true, f.q[s].deferred + why);
      LoweredQuiet(f, rank, s, true, f.q[s].deferred + why, p, i);
    case Reweigh(s, weight) => ReweighQuiet(f, rank, s, weight, p, i);
    case _ =>
  }

  lemma RaisedQuiet(f: Forest, rank: Ranks, s: int, deferred: set<Cause>, p: int, i: int)
    requires CanRaise(f, rank, s) && p in f.q && i in f.q && f.q[i].queued
    ensures var r := Raised(f, rank, s, deferred).q; r[p].lastCycle == f.q[p].lastCycle && SameClock(f.q[i], r[i])
  {
    if deferred == {} {
      PushKeepsClocks(f.u, rank, f.w, WithItem(f.q, s, true, deferred), f.u[s], s);
    }
  }

  lemma LoweredQuiet(f: Forest, rank: Ranks, s: int, item: bool, deferred: set<Cause>, p: int, i: int)
    requires CanLower(f, rank, s, item, deferred) && p in f.q && i in f.q
    requires var r := Lowered(f, rank, s, item, deferred).q;
             p in r && (f.u[p] == NONE || r[p].queued) && i in r && r[i].queued
    ensures var r := Lowered(f, rank, s, item, deferred).q;
            r[p].lastCycle == f.q[p].lastCycle && SameClock(f.q[i], r[i])
  {
    var q1 := WithItem(f.q, s, item, deferred);
    if q1[s].obq == {} && q1[s].queued {
      PullKeepsClocks(f.u, rank, q1, f.u[s], s);
    }
  }

  lemma ReweighQuiet(f: Forest, rank: Ranks, s: int, weight: int, p: int, i: int)
    requires Sound(f, rank) && s in f.q && 1 <= weight <= MAX_WEIGHT && p in f.q && i in f.q && i in f.w
    requires CanReweigh(f, s, weight) && WithWeight(f, s, weight).w[i] == f.w[i]
    ensures var r := WithWeight(f, s, weight).q;
            r[p].lastCycle == f.q[p].lastCycle && r[i].cycle == f.q[i].cycle && r[i].penalty == f.q[i].penalty
  {
  }

  /** i's account grows by exactly 256 times the bytes sent for it, and its turn is still right. */
  ghost predicate Exactly(f: Forest, rank: Ranks, e: Event, g: Forest, p: int, i: int, now: int)
    requires Ranked(f.u, rank) && e.s in f.u && p in f.q && i in f.q && i in f.w && p in g.q && i in g.q && g.u == f.u
  {
    && Paid(f.q, g.q, p, i, f.w[i], Tick(f.q, g.q, p), BytesOf(f.u, rank, e, i))
    && OnTurn(g, rank, p, i, Current(now, e))
  }

  lemma QuietStep(f: Forest, rank: Ranks, e: Event, g: Forest, p: int, i: int, now: int)
    requires Ranked(f.u, rank) && e.s in f.u && p in f.q && i in f.q && i in f.w && p in g.q && i in g.q && g.u == f.u
    requires !e.Pick? && !e.Send? && OnTurn(f, rank, p, i, now)
    requires g.q[p].lastCycle == f.q[p].lastCycle && g.q[i].cycle == f.q[i].cycle && g.q[i].penalty == f.q[i].penalty
    ensures Exactly(f, rank, e, g, p, i, now)
  {
    AccountKept(f.q, g.q, p, i, f.w[i]);
  }

  /** i is in p's queue before and after e, with the same weight. */
  ghost predicate StaysBy(f: Forest, rank: Ranks, e: Event, p: int, i: int)
    requires Sound(f, rank) && Possible(f, rank, e)
  {
    var g := Next(f, rank, e);
    && p in f.q && i in f.q[p].obq && i in f.q && i in f.w
    && p in g.q && i in g.q[p].obq && i in g.q && i in g.w && g.w[i] == f.w[i]
  }

  lemma PickStep(f: Forest, rank: Ranks, s: int, p: int, i: int, now: int)
    requires Sound(f, rank) && Possible(f, rank, Pick(s)) && Timed(f.w, f.q) && StaysBy(f, rank, Pick(s), p, i)
    ensures Next(f, rank, Pick(s)).u == f.u && Exactly(f, rank, Pick(s), Next(f, rank, Pick(s)), p, i, now)
  {
    PickExact(f, rank, s, p, i);
  }

  lemma SendStep(f: Forest, rank: Ranks, s: int, bytes: nat, p: int, i: int, now: int)
    requires Sound(f, rank) && Possible(f, rank, Send(s, bytes)) && Timed(f.w, f.q)
    requires StaysBy(f, rank, Send(s, bytes), p, i)
    requires OnTurn(f, rank, p, i, now) && s == now
    ensures Next(f, rank, Send(s, bytes)).u == f.u
    ensures Exactly(f, rank, Send(s, bytes), Next(f, rank, Send(s, bytes)), p, i, now)
  {
    assert Holds(f.u, f.q, p);
    SendExact(f.u, rank, f.w, f.q, s, bytes, p, i);
  }

  lemma StepExact(f: Forest, rank: Ranks, e: Event, p: int, i: int, now: int)
    requires Sound(f, rank) && Possible(f, rank, e) && Timed(f.w, f.q) && StaysBy(f, rank, e, p, i)
    requires OnTurn(f, rank, p, i, now) && (e.Send? ==> e.s == now)
    ensures Next(f, rank, e).u == f.u && Exactly(f, rank, e, Next(f, rank, e), p, i, now)
  {
    NextSound(f, rank, e);
    match e
    case Pick(s) => PickStep(f, rank, s, p, i, now);
    case Send(s, bytes) => SendStep(f, rank, s, bytes, p, i, now);
    case _ =>
      QuietExact(f, rank, e, p, i);
      QuietStep(f, rank, e, Next(f, rank, e), p, i, now);
  }

  // ---- runs

  /** What is sent was picked before, with no other pick since; `now` is what was picked last. */
  predicate Paired(es: seq<Event>, now: int) {
    es == [] || ((es[0].Send? ==> es[0].s == now) && Paired(es[1..], Current(now, es[0])))
  }

  /** i is in p's queue and has the same weight all along. */
  ghost predicate Stays(f: Forest, rank: Ranks, es: seq<Event>, p: int, i: int)
    requires Sound(f, rank) && Runs(f, rank, es)
    decreases |es|
  {
    && p in f.q && i in f.q && i in f.w && i in f.q[p].obq
    && (es != [] ==>
          (NextSound(f, rank, es[0]);
          var g := Next(f, rank, es[0]);
          Stays(g, rank, es[1..], p, i) && g.w[i] == f.w[i]))
  }

  /** The bytes sent for i and the streams below it. */
  ghost function Bytes(u: Parents, rank: Ranks, es: seq<Event>, i: int): nat
    requires Ranked(u, rank) && forall e | e in es :: e.s in u
  {
    if es == [] then 0 else BytesOf(u, rank, es[0], i) + Bytes(u, rank, es[1..], i)
  }

  lemma {:induction false} EventsKnown(f: Forest, rank: Ranks, es: seq<Event>)
    requires Sound(f, rank) && Runs(f, rank, es)
    ensures forall e | e in es :: e.s in f.u
    decreases |es|
  {
    if es != [] {
      NextSound(f, rank, es[0]);
      EventsKnown(Next(f, rank, es[0]), rank, es[1..]);
      assert forall e | e in es :: e == es[0] || e in es[1..];
    }
  }

  /** How far p's clock moves in all. */
  ghost function Elapsed(f: Forest, rank: Ranks, es: seq<Event>, p: int): nat
    requires Sound(f, rank) && Runs(f, rank, es) && p in f.q
    decreases |es|
  {
    if es == [] then 0
    else
      NextSound(f, rank, es[0]);
      var g := Next(f, rank, es[0]);
      Tick(f.q, g.q, p) + Elapsed(g, rank, es[1..], p)
  }

  /** Over any run, weight * turn + carry grows by exactly 256 times the bytes: no rounding loss, ever. */
  lemma {:induction false} ServiceIsExact(f: Forest, rank: Ranks, es: seq<Event>, p: int, i: int, now: int)
    requires Sound(f, rank) && Runs(f, rank, es) && Timed(f.w, f.q) && RoomFor(f.q, |es|)
    requires Stays(f, rank, es, p, i) && Paired(es, now) && OnTurn(f, rank, p, i, now)
    ensures forall e | e in es :: e.s in f.u
    ensures var g := AfterAll(f, rank, es);
            && p in g.q && i in g.q && i in g.w && i in g.q[p].obq && g.w[i] == f.w[i]
            && Paid(f.q, g.q, p, i, f.w[i], Elapsed(f, rank, es, p), Bytes(f.u, rank, es, i))
    decreases |es|
  {
    EventsKnown(f, rank, es);
    if es != [] {
      var e, h := es[0], Next(f, rank, es[0]);
      NextSound(f, rank, e);
      NextTimed(f, rank, e);
      NextGrows(f, rank, e);
      StepExact(f, rank, e, p, i, now);
      ServiceIsExact(h, rank, es[1..], p, i, Current(now, e));
      RunUnrolls(f, rank, es, p, i);
      var g := AfterAll(f, rank, es);
      PaidTwice(f.q, h.q, g.q, p, i, f.w[i], Tick(f.q, h.q, p), BytesOf(f.u, rank, e, i),
                Elapsed(h, rank, es[1..], p), Bytes(f.u, rank, es[1..], i),
                Elapsed(f, rank, es, p), Bytes(f.u, rank, es, i));
    } else {
      PaidNever(f.q, p, i, f.w[i]);
    }
  }

  lemma RunUnrolls(f: Forest, rank: Ranks, es: seq<Event>, p: int, i: int)
    requires Sound(f, rank) && Runs(f, rank, es) && es != [] && p in f.q && forall e | e in es :: e.s in f.u
    ensures (NextSound(f, rank, es[0]);
             var h := Next(f, rank, es[0]);
             && Runs(h, rank, es[1..]) && AfterAll(f, rank, es) == AfterAll(h, rank, es[1..])
             && Elapsed(f, rank, es, p) == Tick(f.q, h.q, p) + Elapsed(h, rank, es[1..], p)
             && Bytes(f.u, rank, es, i) == BytesOf(f.u, rank, es[0], i) + Bytes(f.u, rank, es[1..], i))
  {
    NextSound(f, rank, es[0]);
  }

  /** How far one stream may get ahead of another, over 256 times the product of their weights. */
  const BOUND: nat := 2 * MAX_CYCLE_DISTANCE + 2

  /**
   * Over any run in which i and j stay in p's queue, the bytes sent for them and the streams below them are
   * proportional to their weights up to a fixed bound: |bytes(i) / weight(i) - bytes(j) / weight(j)| <= BOUND / 256.
   */
  lemma WeightedFairness(f: Forest, rank: Ranks, es: seq<Event>, p: int, i: int, j: int)
    requires Sound(f, rank) && Runs(f, rank, es) && Timed(f.w, f.q) && RoomFor(f.q, |es|)
    requires Stays(f, rank, es, p, i) && Stays(f, rank, es, p, j) && Paired(es, NONE)
    ensures i in f.w && j in f.w && forall e | e in es :: e.s in f.u
    ensures var wi, wj := f.w[i], f.w[j];
            var lead := MAX_WEIGHT * (wj * Bytes(f.u, rank, es, i) - wi * Bytes(f.u, rank, es, j));
            -(wi * wj * BOUND) <= lead <= wi * wj * BOUND
  {
    EventsKnown(f, rank, es);
    ServiceIsExact(f, rank, es, p, i, NONE);
    ServiceIsExact(f, rank, es, p, j, NONE);
    RunKeepsAll(f, rank, es);
    var g, t := AfterAll(f, rank, es), Elapsed(f, rank, es, p);
    SideExact(f.w, f.q, g.w, g.q, p, i, t, Bytes(f.u, rank, es, i));
    SideExact(f.w, f.q, g.w, g.q, p, j, t, Bytes(f.u, rank, es, j));
    Proportion(SideOf(f.q, g.q, p, i, f.w[i], t, Bytes(f.u, rank, es, i)),
               SideOf(f.q, g.q, p, j, f.w[j], t, Bytes(f.u, rank, es, j)));
  }

  /** What a run comes to for i. */
  function SideOf(q: QueueMap, r: QueueMap, p: int, i: int, weight: int, elapsed: nat, bytes: nat): Side
    requires p in q && i in q && p in r && i in r
  {
    Side(weight, Gap(q[p].lastCycle, q[i]), elapsed + Gap(r[p].lastCycle, r[i]), q[i].penalty, r[i].penalty, bytes)
  }

  lemma SideExact(w: Weights, q: QueueMap, w': Weights, r: QueueMap, p: int, i: int, elapsed: nat, bytes: nat)
    requires Timed(w, q) && Timed(w', r) && p in q && p in r && i in q[p].obq && i in r[p].obq
    requires i in q && i in r && i in w && i in w' && w'[i] == w[i] && Paid(q, r, p, i, w[i], elapsed, bytes)
    ensures var a := SideOf(q, r, p, i, w[i], elapsed, bytes);
            a.Exact() && a.turn <= MAX_CYCLE_DISTANCE && elapsed <= a.turn' <= elapsed + MAX_CYCLE_DISTANCE
  {
    InWindow(w, q, p, i);
    InWindow(w', r, p, i);
  }

  // ---- the arithmetic

  /** A stream's turn and carry before and after a run, and the bytes sent for it. */
  datatype Side = Side(weight: int, turn: nat, turn': nat, carry: nat, carry': nat, bytes: nat) {
    predicate Exact() {
      && carry < weight && carry' < weight
      && weight * turn' + carry' == weight * turn + carry + MAX_WEIGHT * bytes
    }
  }

  lemma Proportion(a: Side, b: Side)
    requires a.Exact() && b.Exact()
    requires a.turn <= b.turn + MAX_CYCLE_DISTANCE && b.turn <= a.turn + MAX_CYCLE_DISTANCE
    requires a.turn' <= b.turn' + MAX_CYCLE_DISTANCE && b.turn' <= a.turn' + MAX_CYCLE_DISTANCE
    ensures var p := a.weight * b.weight;
            -(p * BOUND) <= MAX_WEIGHT * (b.weight * a.bytes - a.weight * b.bytes) <= p * BOUND
  {
    var wa, wb := a.weight, b.weight;
    var d := (a.turn' - b.turn') - (a.turn - b.turn);
    var p := wa * wb;
    ScaleUp(a, wb);
    ScaleUp(b, wa);
    assert wb * wa == p;
    assert MAX_WEIGHT * (wb * a.bytes - wa * b.bytes) == MAX_WEIGHT * (wb * a.bytes) - MAX_WEIGHT * (wa * b.bytes);
    assert p * (a.turn' - a.turn) - p * (b.turn' - b.turn) == p * d by {
      MulSub(a.turn' - a.turn, b.turn' - b.turn, p);
    }
    BoundedProduct(p, d, 2 * MAX_CYCLE_DISTANCE);
    BoundedProduct(wb, a.carry' - a.carry, wa);
    BoundedProduct(wa, b.carry' - b.carry, wb);
  }

  lemma ScaleUp(a: Side, other: int)
    requires a.Exact()
    ensures a.weight * other * (a.turn' - a.turn) + other * (a.carry' - a.carry) == MAX_WEIGHT * (other * a.bytes)
  {
    assert MAX_WEIGHT * a.bytes == a.weight * (a.turn' - a.turn) + (a.carry' - a.carry) by {
      MulSub(a.turn', a.turn, a.weight);
    }
    assert other * (MAX_WEIGHT * a.bytes) == other * (a.weight * (a.turn' - a.turn)) + other * (a.carry' - a.carry);
  }

  lemma BoundedProduct(p: nat, d: int, bound: int)
    requires -bound <= d <= bound
    ensures -(p * bound) <= p * d <= p * bound
  {
  }
}
