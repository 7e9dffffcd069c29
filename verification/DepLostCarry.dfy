/**
 * A change of weight can lose the carry.  In a tree of the root and one stream, a run leaves the stream a carry of
 * 200 at weight 255; with its weight changed to 1, the next change starts from a carry of 0 and a base that is 200
 * too late.  DepClock.RecoveryNeedsSmallCarry says exactly when this happens.
 */
module DepLostCarry {
  import opened DepForest
  import opened DepQueue
  import opened DepOperations
  import opened DepClock
  import opened DepItems
  import opened DepWindow
  import opened DepRuns
  import opened DepTree
  import opened DepPriority
  import opened DepHistory

  /** Stream 1, with the fields x and the weight, is a child of the root, which has the fields r. */
  ghost predicate Pair(f: Forest, rank: Ranks, r: Queue, x: Queue, weight: int) {
    Sound(f, rank) && weight > 0 && 1 in f.u && f.u[1] == ROOT && Fields(f.w, f.q, r, x, weight)
  }

  predicate Fields(w: Weights, q: QueueMap, r: Queue, x: Queue, weight: int) {
    ROOT in q && q[ROOT] == r && 1 in q && q[1] == x && 1 in w && w[1] == weight
  }

  lemma AttachFields(u: Parents, rank: Ranks, w: Weights, q: QueueMap, r: Queue, x: Queue, weight: int)
    requires Sized(u, rank, w, q) && 1 in u && u[1] == ROOT && Rooted(u) && weight > 0
    requires Fields(w, q, r, x, weight) && !x.queued
    ensures Fields(w, RaisedQueue(u, rank, w, q, 1, {}), r.(obq := r.obq + {1}, nextSeq := (r.nextSeq + 1) % TWO64),
                   NextCycle(x.(item := true, deferred := {}), weight, r.lastCycle).(
                     seqNo := r.nextSeq, queued := true),
                   weight)
  {
    assert DepForest.Below(u, rank, 1);
    var q1 := WithItem(q, 1, true, {});
    assert PushUp(u, rank, w, q1, ROOT, 1) == Enqueue(w, q1, ROOT, 1);
  }

  lemma AttachPair(f: Forest, rank: Ranks, r: Queue, x: Queue, weight: int)
    requires Pair(f, rank, r, x, weight) && !x.item && x.deferred == {} && !x.queued
    ensures Possible(f, rank, Attach(1))
    ensures Pair(Next(f, rank, Attach(1)), rank, r.(obq := r.obq + {1}, nextSeq := (r.nextSeq + 1) % TWO64),
                 NextCycle(x.(item := true), weight, r.lastCycle).(seqNo := r.nextSeq, queued := true), weight)
  {
    RaisedSound(f, rank, 1, {});
    NextSound(f, rank, Attach(1));
    AttachFields(f.u, rank, f.w, f.q, r, x, weight);
    assert x.(item := true, deferred := {}) == x.(item := true);
  }

  lemma PickFields(u: Parents, rank: Ranks, w: Weights, q: QueueMap, r: Queue, x: Queue, weight: int)
    requires Ranked(u, rank) && q.Keys == u.Keys && 1 in u && u[1] == ROOT && Rooted(u) && Fields(w, q, r, x, weight)
    ensures Fields(w, Noted(u, rank, q, 1), r.(lastCycle := x.cycle), x, weight)
  {
    assert DepForest.Below(u, rank, 1);
    var q1 := q[ROOT := r.(lastCycle := x.cycle)];
    assert Noted(u, rank, q1, ROOT) == q1;
  }

  lemma PickPath(u: Parents, rank: Ranks, q: QueueMap, r: Queue)
    requires Ranked(u, rank) && QueuesOk(u, q, {}) && Rooted(u) && ROOT in q && q[ROOT] == r && !r.Active()
    requires r.obq == {1}
    ensures PickedPath(u, rank, q, ROOT, 1)
  {
    assert Holds(u, q, ROOT);
    PathStarts(u, rank, q, ROOT);
    PathDown(u, rank, q, ROOT, ROOT, 1);
  }

  lemma PickPair(f: Forest, rank: Ranks, r: Queue, x: Queue, weight: int)
    requires Pair(f, rank, r, x, weight) && x.Active() && !r.Active() && r.obq == {1}
    ensures Possible(f, rank, Pick(1)) && Pair(Next(f, rank, Pick(1)), rank, r.(lastCycle := x.cycle), x, weight)
  {
    PickPath(f.u, rank, f.q, r);
    NextSound(f, rank, Pick(1));
    PickFields(f.u, rank, f.w, f.q, r, x, weight);
  }

  lemma SendFields(u: Parents, rank: Ranks, w: Weights, q: QueueMap, r: Queue, x: Queue, weight: int, bytes: nat)
    requires Sized(u, rank, w, q) && 1 in u && u[1] == ROOT && Rooted(u) && weight > 0
    requires Fields(w, q, r, x, weight) && 1 in r.obq
    ensures Fields(w, Resched(u, rank, w, Sent(q, 1, bytes), 1),
                   r.(nextSeq := (r.nextSeq + 1) % TWO64, writelen := bytes),
                   NextCycle(x.(writelen := bytes), weight, r.lastCycle).(seqNo := r.nextSeq), weight)
  {
    assert DepForest.Below(u, rank, 1);
    var q1 := Sent(q, 1, bytes);
    var q2 := Requeue(w, q1, ROOT, 1);
    assert Resched(u, rank, w, q2, ROOT) == q2;
    assert r.obq - {1} + {1} == r.obq;
  }

  lemma SendPair(f: Forest, rank: Ranks, r: Queue, x: Queue, weight: int, bytes: nat)
    requires Pair(f, rank, r, x, weight) && x.queued && 1 in r.obq && bytes <= MAX_FRAME
    ensures Possible(f, rank, Send(1, bytes))
    ensures Pair(Next(f, rank, Send(1, bytes)), rank, r.(nextSeq := (r.nextSeq + 1) % TWO64, writelen := bytes),
                 NextCycle(x.(writelen := bytes), weight, r.lastCycle).(seqNo := r.nextSeq), weight)
  {
    NextSound(f, rank, Send(1, bytes));
    SendFields(f.u, rank, f.w, f.q, r, x, weight, bytes);
  }

  lemma ReweighPair(f: Forest, rank: Ranks, r: Queue, x: Queue, weight: int, weight': int)
    requires Pair(f, rank, r, x, weight) && 1 <= weight' <= MAX_WEIGHT && weight' != weight && (x.queued ==> 1 in r.obq)
    ensures Possible(f, rank, Reweigh(1, weight'))
    ensures Pair(Next(f, rank, Reweigh(1, weight')), rank, r,
                 if x.queued then Reweighed(x, weight, weight', r.lastCycle) else x, weight')
  {
    NextSound(f, rank, Reweigh(1, weight'));
    assert x.queued ==> r.obq - {1} + {1} == r.obq;
  }

  /** The events lead from f to g. */
  ghost predicate Leads(f: Forest, rank: Ranks, es: seq<Event>, g: Forest)
    decreases |es|
  {
    && Sound(f, rank)
    && if es == [] then f == g else Possible(f, rank, es[0]) && Leads(Next(f, rank, es[0]), rank, es[1..], g)
  }

  lemma {:induction false} LeadsIsRun(f: Forest, rank: Ranks, es: seq<Event>, g: Forest)
    requires Leads(f, rank, es, g)
    ensures Sound(f, rank) && Runs(f, rank, es) && AfterAll(f, rank, es) == g
    decreases |es|
  {
    if es != [] {
      NextSound(f, rank, es[0]);
      LeadsIsRun(Next(f, rank, es[0]), rank, es[1..], g);
    }
  }

  /** One more event in a run. */
  lemma {:induction false} OneMore(f: Forest, rank: Ranks, es: seq<Event>, g: Forest, e: Event)
    requires Leads(f, rank, es, g) && Sound(g, rank) && Possible(g, rank, e)
    ensures Leads(f, rank, es + [e], Next(g, rank, e))
    decreases |es|
  {
    if es == [] {
      NextSound(f, rank, e);
      OneBefore(f, rank, e, [], Next(f, rank, e));
      Shifted(es, e);
    } else {
      OneMore(Next(f, rank, es[0]), rank, es[1..], g, e);
      OneBefore(f, rank, es[0], es[1..] + [e], Next(g, rank, e));
      Shifted(es, e);
    }
  }

  lemma Shifted(es: seq<Event>, e: Event)
    ensures es + [e] == if es == [] then [e] + [] else [es[0]] + (es[1..] + [e])
  {
  }

  lemma OneBefore(f: Forest, rank: Ranks, e: Event, es: seq<Event>, g: Forest)
    requires Sound(f, rank) && Possible(f, rank, e) && Leads(Next(f, rank, e), rank, es, g)
    ensures Leads(f, rank, [e] + es, g)
  {
    assert ([e] + es)[1..] == es;
  }

  /** The tree after stream 1 was put below the root. */
  lemma PairTree() returns (f: Forest, rank: Ranks)
    ensures Pair(f, rank, IDLE, IDLE, DEFAULT_WEIGHT) && Timed(f.w, f.q)
  {
    AloneSound();
    AnchorTimed(ALONE, ALONE_RANK, 1);
    rank := AnchorSound(ALONE, ALONE_RANK, 1);
    f := Add(WithStream(ALONE, 1), ROOT, 1);
  }

  /** A run from f has led to g, where stream 1 and the root look like this. */
  ghost predicate Stage(f: Forest, rank: Ranks, es: seq<Event>, g: Forest, r: Queue, x: Queue, weight: int) {
    Leads(f, rank, es, g) && Pair(g, rank, r, x, weight)
  }

  lemma OneStage(f: Forest, rank: Ranks, es: seq<Event>, g: Forest, e: Event, r: Queue, x: Queue, weight: int)
    requires Leads(f, rank, es, g) && Sound(g, rank) && Possible(g, rank, e)
    requires Pair(Next(g, rank, e), rank, r, x, weight)
    ensures Stage(f, rank, es + [e], Next(g, rank, e), r, x, weight)
  {
    OneMore(f, rank, es, g, e);
  }

  lemma PickStage(f: Forest, rank: Ranks, es: seq<Event>, g: Forest, r: Queue, x: Queue, weight: int)
    returns (g': Forest)
    requires Stage(f, rank, es, g, r, x, weight) && x.Active() && !r.Active() && r.obq == {1}
    ensures Stage(f, rank, es + [Pick(1)], g', r.(lastCycle := x.cycle), x, weight)
  {
    PickPair(g, rank, r, x, weight);
    OneStage(f, rank, es, g, Pick(1), r.(lastCycle := x.cycle), x, weight);
    g' := Next(g, rank, Pick(1));
  }

  lemma SendStage(f: Forest, rank: Ranks, es: seq<Event>, g: Forest, r: Queue, x: Queue, weight: int, bytes: nat)
    returns (g': Forest)
    requires Stage(f, rank, es, g, r, x, weight) && x.queued && 1 in r.obq && bytes <= MAX_FRAME && weight > 0
    ensures Stage(f, rank, es + [Send(1, bytes)], g', r.(nextSeq := (r.nextSeq + 1) % TWO64, writelen := bytes),
                  NextCycle(x.(writelen := bytes), weight, r.lastCycle).(seqNo := r.nextSeq), weight)
  {
    SendPair(g, rank, r, x, weight, bytes);
    OneStage(f, rank, es, g, Send(1, bytes), r.(nextSeq := (r.nextSeq + 1) % TWO64, writelen := bytes),
             NextCycle(x.(writelen := bytes), weight, r.lastCycle).(seqNo := r.nextSeq), weight);
    g' := Next(g, rank, Send(1, bytes));
  }

  lemma ReweighStage(f: Forest, rank: Ranks, es: seq<Event>, g: Forest, r: Queue, x: Queue, weight: int, weight': int)
    returns (g': Forest)
    requires Stage(f, rank, es, g, r, x, weight) && 1 <= weight' <= MAX_WEIGHT && weight' != weight && weight > 0
    requires x.queued ==> 1 in r.obq
    ensures Stage(f, rank, es + [Reweigh(1, weight')], g', r,
                  if x.queued then Reweighed(x, weight, weight', r.lastCycle) else x, weight')
  {
    ReweighPair(g, rank, r, x, weight, weight');
    OneStage(f, rank, es, g, Reweigh(1, weight'), r,
             if x.queued then Reweighed(x, weight, weight', r.lastCycle) else x, weight');
    g' := Next(g, rank, Reweigh(1, weight'));
  }

  lemma AttachStage(f: Forest, rank: Ranks, es: seq<Event>, g: Forest, r: Queue, x: Queue, weight: int)
    returns (g': Forest)
    requires Stage(f, rank, es, g, r, x, weight) && !x.item && x.deferred == {} && !x.queued && weight > 0
    ensures Stage(f, rank, es + [Attach(1)], g', r.(obq := r.obq + {1}, nextSeq := (r.nextSeq + 1) % TWO64),
                  NextCycle(x.(item := true), weight, r.lastCycle).(seqNo := r.nextSeq, queued := true), weight)
  {
    AttachPair(g, rank, r, x, weight);
    OneStage(f, rank, es, g, Attach(1), r.(obq := r.obq + {1}, nextSeq := (r.nextSeq + 1) % TWO64),
             NextCycle(x.(item := true), weight, r.lastCycle).(seqNo := r.nextSeq, queued := true), weight);
    g' := Next(g, rank, Attach(1));
  }

  lemma FirstStage() returns (f: Forest, rank: Ranks)
    ensures Timed(f.w, f.q) && Stage(f, rank, [], f, IDLE, IDLE, DEFAULT_WEIGHT)
  {
    f, rank := PairTree();
  }

  /** At weight 255, stream 1 has an item. */
  lemma Started() returns (f: Forest, rank: Ranks, es: seq<Event>, g: Forest, r: Queue, x: Queue)
    ensures Timed(f.w, f.q) && Stage(f, rank, es, g, r, x, 255)
    ensures x == IDLE.(item := true, queued := true) && r == IDLE.(obq := {1}, nextSeq := 1)
  {
    f, rank := FirstStage();
    es, r, x := [], IDLE, IDLE;
    g := ReweighStage(f, rank, es, f, r, x, DEFAULT_WEIGHT, 255);
    es := es + [Reweigh(1, 255)];
    g := AttachStage(f, rank, es, g, r, x, 255);
    es := es + [Attach(1)];
    FirstTurn(r, x);
    r, x := r.(obq := {1}, nextSeq := 1), x.(item := true, queued := true);
  }

  lemma FirstTurn(r: Queue, x: Queue)
    requires r == IDLE && x == IDLE
    ensures r.(obq := r.obq + {1}, nextSeq := (r.nextSeq + 1) % TWO64) == r.(obq := {1}, nextSeq := 1)
    ensures NextCycle(x.(item := true), 255, r.lastCycle).(seqNo := r.nextSeq, queued := true)
         == x.(item := true, queued := true)
  {
    assert r.obq + {1} == {1};
  }

  lemma SecondTurn(r: Queue, x: Queue)
    requires x == IDLE.(item := true, queued := true) && r == IDLE.(obq := {1}, nextSeq := 1)
    ensures NextCycle(x.(writelen := 200), 255, x.cycle).(seqNo := r.nextSeq)
         == x.(cycle := 200, penalty := 200, writelen := 200, seqNo := 1)
    ensures r.(lastCycle := x.cycle, nextSeq := (r.nextSeq + 1) % TWO64, writelen := 200)
         == r.(nextSeq := 2, writelen := 200)
  {
  }

  lemma ThirdTurn(r: Queue, x: Queue)
    requires x.cycle == 200 && x.penalty == 200 && r.nextSeq == 2
    ensures NextCycle(x.(writelen := 0), 255, x.cycle).(seqNo := r.nextSeq) == x.(writelen := 0, seqNo := 2)
    ensures r.(lastCycle := x.cycle, nextSeq := (r.nextSeq + 1) % TWO64, writelen := 0)
         == r.(lastCycle := 200, nextSeq := 3, writelen := 0)
  {
  }

  /** 200 bytes and a frame without bytes later, its turn is 200, with a carry of 200. */
  lemma CarryOf200() returns (f: Forest, rank: Ranks, es: seq<Event>, g: Forest, r: Queue, x: Queue)
    ensures Timed(f.w, f.q) && Stage(f, rank, es, g, r, x, 255)
    ensures x.queued && x.cycle == 200 && x.penalty == 200 && x.writelen == 0 && r.lastCycle == 200 && r.obq == {1}
  {
    f, rank, es, g, r, x := Started();
    g := PickStage(f, rank, es, g, r, x, 255);
    g := SendStage(f, rank, es + [Pick(1)], g, r.(lastCycle := x.cycle), x, 255, 200);
    es := es + [Pick(1)] + [Send(1, 200)];
    SecondTurn(r, x);
    r, x := r.(nextSeq := 2, writelen := 200), x.(cycle := 200, penalty := 200, writelen := 200, seqNo := 1);
    g := PickStage(f, rank, es, g, r, x, 255);
    g := SendStage(f, rank, es + [Pick(1)], g, r.(lastCycle := x.cycle), x, 255, 0);
    es := es + [Pick(1)] + [Send(1, 0)];
    ThirdTurn(r, x);
    r, x := r.(lastCycle := 200, nextSeq := 3, writelen := 0), x.(writelen := 0, seqNo := 2);
  }

  /** The change to weight 1 loses the carry, in a run from a tree's start. */
  lemma CarryIsLost() returns (f: Forest, rank: Ranks, es: seq<Event>, g: Forest, h: Forest)
    ensures Sound(f, rank) && Timed(f.w, f.q)
    ensures Runs(f, rank, es) && AfterAll(f, rank, es) == g
    ensures Runs(f, rank, es + [Reweigh(1, 1)]) && AfterAll(f, rank, es + [Reweigh(1, 1)]) == h
    ensures 1 in g.q && 1 in g.w && g.w[1] == 255 && OldCarry(g.q[1], 255) == 200 && OldLast(g.q[1], 255) == 200
    ensures 1 in h.q && 1 in h.w && h.w[1] == 1 && OldCarry(h.q[1], 1) == 0 && OldLast(h.q[1], 1) == 400
  {
    var r, x;
    f, rank, es, g, r, x := CarryOf200();
    h := ReweighStage(f, rank, es, g, r, x, 255, 1);
    LeadsIsRun(f, rank, es, g);
    LeadsIsRun(f, rank, es + [Reweigh(1, 1)], h);
    LostHere(x, r.lastCycle);
  }

  lemma LostHere(x: Queue, last: nat)
    requires x.cycle == 200 && x.penalty == 200 && x.writelen == 0 && last == 200
    ensures OldCarry(x, 255) == 200 && OldLast(x, 255) == 200
    ensures var z := Reweighed(x, 255, 1, last); OldCarry(z, 1) == 0 && OldLast(z, 1) == 400
  {
  }
}
