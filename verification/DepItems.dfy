/**
 * A stream's outbound item in the dependency tree: attaching, detaching, deferring and resuming it keep the
 * queues right; picking walks down to an item if there is one; rescheduling renews places in time all the way up.
 */
module DepItems {
  import opened DepClock
  import opened DepForest
  import opened DepLinks
  import opened DepQueue
  import opened DepWeights
  import opened Modular
  import opened DepOperations
  import opened DepTree

  // ---- items

  /** s, with another item or other reasons to wait. */
  function WithItem(q: QueueMap, s: int, item: bool, deferred: set<Cause>): (r: QueueMap)
    requires s in q
    ensures r.Keys == q.Keys
  {
    q[s := q[s].(item := item, deferred := deferred)]
  }

  lemma WithItemKeeps(u: Parents, q: QueueMap, s: int, item: bool, deferred: set<Cause>)
    requires QueuesOk(u, q, {}) && s in q
    ensures QueuesOk(u, WithItem(q, s, item, deferred), {s})
    ensures q[s].obq != {} ==> QueuesOk(u, WithItem(q, s, item, deferred), {})
  {
    var q1 := WithItem(q, s, item, deferred);
    forall x | x in q1 ensures Holds(u, q1, x) && Held(u, q1, x) && (x != s || q[s].obq != {} ==> Settled(u, q1, x)) {
      assert Holds(u, q, x) && Held(u, q, x) && Settled(u, q, x);
    }
  }

  /** The queues after `nghttp2_stream_attach_item` or `nghttp2_stream_resume_deferred_item`. */
  ghost function RaisedQueue(u: Parents, rank: Ranks, w: Weights, q: QueueMap, s: int, deferred: set<Cause>): QueueMap
    requires Sized(u, rank, w, q) && s in q
  {
    var q1 := WithItem(q, s, true, deferred);
    assert u[s] == NONE || Below(u, rank, s);
    if deferred == {} then PushUp(u, rank, w, q1, u[s], s) else q1
  }

  /** The queues after `nghttp2_stream_detach_item` or `nghttp2_stream_defer_item`. */
  ghost function LoweredQueue(u: Parents, rank: Ranks, q: QueueMap, s: int, item: bool, deferred: set<Cause>): QueueMap
    requires Ranked(u, rank) && q.Keys == u.Keys && s in q && (q[s].queued ==> u[s] in q)
  {
    var q1 := WithItem(q, s, item, deferred);
    if q1[s].obq == {} then CutQueue(u, rank, q1, s) else q1
  }

  /** Only s's item and reasons to wait changed. */
  predicate ItemsBut(q: QueueMap, q': QueueMap, s: int, item: bool, deferred: set<Cause>) {
    && q'.Keys == q.Keys && s in q && q'[s].item == item && q'[s].deferred == deferred
    && forall x | x in q && x != s :: q'[x].item == q[x].item && q'[x].deferred == q[x].deferred
  }

  /** Attaching, or taking away reasons to wait, keeps the queues right. */
  lemma RaisedQueueOk(u: Parents, rank: Ranks, w: Weights, q: QueueMap, s: int, deferred: set<Cause>)
    requires Sized(u, rank, w, q) && QueuesOk(u, q, {}) && s in q && (q[s].Active() ==> deferred == {})
    ensures QueuesOk(u, RaisedQueue(u, rank, w, q, s, deferred), {})
    ensures ItemsBut(q, RaisedQueue(u, rank, w, q, s, deferred), s, true, deferred)
  {
    var q1 := WithItem(q, s, true, deferred);
    WithItemKeeps(u, q, s, true, deferred);
    assert u[s] == NONE || Below(u, rank, s);
    if deferred == {} {
      PushSettles(u, rank, w, q1, s, {s});
      PushKeepsItems(u, rank, w, q1, u[s], s);
      AllSettled(u, RaisedQueue(u, rank, w, q, s, deferred), {s} - {s});
    } else {
      assert Settled(u, q, s);
      AllSettled(u, q1, {s});
    }
  }

  /** Detaching, or giving a reason to wait, keeps the queues right. */
  lemma LoweredQueueOk(u: Parents, rank: Ranks, q: QueueMap, s: int, item: bool, deferred: set<Cause>)
    requires Ranked(u, rank) && QueuesOk(u, q, {}) && s in q && !(item && deferred == {})
    ensures q[s].queued ==> u[s] in q && QueuedUp(u, rank, WithItem(q, s, item, deferred), s)
    ensures QueuesOk(u, LoweredQueue(u, rank, q, s, item, deferred), {})
    ensures ItemsBut(q, LoweredQueue(u, rank, q, s, item, deferred), s, item, deferred)
  {
    var q1 := WithItem(q, s, item, deferred);
    WithItemKeeps(u, q, s, item, deferred);
    assert Held(u, q, s);
    if q1[s].queued {
      QueuedMeansUp(u, rank, q1, {s}, s);
      if q1[s].obq == {} {
        PullSettles(u, rank, q1, s, {s});
        AllSettled(u, LoweredQueue(u, rank, q, s, item, deferred), {s});
      }
    } else if q1[s].obq == {} {
      AllSettled(u, q1, {s});
    }
  }

  ghost predicate CanRaise(f: Forest, rank: Ranks, s: int) {
    Sized(f.u, rank, f.w, f.q) && s in f.q && f.u == Up(f.l) && (f.u[s] == NONE || f.u[s] in f.q)
  }

  ghost function Raised(f: Forest, rank: Ranks, s: int, deferred: set<Cause>): Forest
    requires CanRaise(f, rank, s)
  {
    f.(q := RaisedQueue(f.u, rank, f.w, f.q, s, deferred))
  }

  ghost predicate CanLower(f: Forest, rank: Ranks, s: int, item: bool, deferred: set<Cause>) {
    && Sized(f.u, rank, f.w, f.q) && s in f.q && f.u == Up(f.l)
    && (f.q[s].queued ==> f.u[s] in f.q && QueuedUp(f.u, rank, WithItem(f.q, s, item, deferred), s))
  }

  ghost function Lowered(f: Forest, rank: Ranks, s: int, item: bool, deferred: set<Cause>): Forest
    requires CanLower(f, rank, s, item, deferred)
  {
    f.(q := LoweredQueue(f.u, rank, f.q, s, item, deferred))
  }

  lemma RaisedSound(f: Forest, rank: Ranks, s: int, deferred: set<Cause>)
    requires Sound(f, rank) && s in f.q && (f.q[s].Active() ==> deferred == {})
    ensures CanRaise(f, rank, s) && Sound(Raised(f, rank, s, deferred), rank)
    ensures ItemsBut(f.q, Raised(f, rank, s, deferred).q, s, true, deferred)
  {
    assert f.u[s] == NONE || Below(f.u, rank, s);
    RaisedQueueOk(f.u, rank, f.w, f.q, s, deferred);
  }

  lemma LoweredSound(f: Forest, rank: Ranks, s: int, item: bool, deferred: set<Cause>)
    requires Sound(f, rank) && s in f.q && !(item && deferred == {})
    ensures CanLower(f, rank, s, item, deferred) && Sound(Lowered(f, rank, s, item, deferred), rank)
    ensures ItemsBut(f.q, Lowered(f, rank, s, item, deferred).q, s, item, deferred)
  {
    LoweredQueueOk(f.u, rank, f.q, s, item, deferred);
  }

  // ---- the same on the stream objects

  method StoreItem(t: DepTree, s: Stream, item: bool, deferred: set<Cause>, ghost f: Forest) returns (ghost g: Forest)
    requires t.Shown(f) && t.Known(s)
    modifies s`sched
    ensures t.Shown(g) && g == f.(q := WithItem(f.q, s.id, item, deferred))
  {
    s.sched := s.sched.(item := item, deferred := deferred);
    g := f.(q := WithItem(f.q, s.id, item, deferred));
  }

  /** `nghttp2_stream_attach_item` */
  method AttachItem(t: DepTree, s: Stream, ghost f: Forest, ghost rank: Ranks) returns (ghost g: Forest)
    requires t.Shown(f) && t.Known(s) && CanRaise(f, rank, s.id) && s.sched.deferred == {} && !s.sched.item
    modifies t.all`sched
    ensures t.Shown(g) && g == Raised(f, rank, s.id, {})
  {
    g := StoreItem(t, s, true, {}, f);
    g := t.ObqPush(s.depPrev, s, g, rank);
  }

  /** `nghttp2_stream_resume_deferred_item` */
  method ResumeItem(t: DepTree, s: Stream, causes: set<Cause>, ghost f: Forest, ghost rank: Ranks)
    returns (ghost g: Forest)
    requires t.Shown(f) && t.Known(s) && CanRaise(f, rank, s.id) && s.sched.item
    modifies t.all`sched
    ensures t.Shown(g) && g == Raised(f, rank, s.id, f.q[s.id].deferred - causes)
  {
    g := StoreItem(t, s, true, s.sched.deferred - causes, f);
    if s.sched.deferred == {} {
      g := t.ObqPush(s.depPrev, s, g, rank);
    }
  }

  /** `stream_update_dep_on_detach_item` */
  method UpdateOnDetach(t: DepTree, s: Stream, ghost f: Forest, ghost rank: Ranks) returns (ghost g: Forest)
    requires t.Climbable(f, rank) && t.Known(s) && MayLeave(f, rank, s.id)
    modifies t.all`sched
    ensures t.Shown(g) && g == if f.q[s.id].obq == {} then f.(q := CutQueue(f.u, rank, f.q, s.id)) else f
  {
    g := f;
    if s.sched.obq == {} {
      g := t.ObqRemove(s, g, rank);
    }
  }

  /** `nghttp2_stream_detach_item` */
  method DetachItem(t: DepTree, s: Stream, ghost f: Forest, ghost rank: Ranks) returns (ghost g: Forest)
    requires t.Shown(f) && t.Known(s) && CanLower(f, rank, s.id, false, {})
    modifies t.all`sched
    ensures t.Shown(g) && g == Lowered(f, rank, s.id, false, {})
  {
    g := StoreItem(t, s, false, {}, f);
    g := UpdateOnDetach(t, s, g, rank);
  }

  /** `nghttp2_stream_defer_item` */
  method DeferItem(t: DepTree, s: Stream, causes: set<Cause>, ghost f: Forest, ghost rank: Ranks)
    returns (ghost g: Forest)
    requires t.Shown(f) && t.Known(s) && s.sched.item && CanLower(f, rank, s.id, true, f.q[s.id].deferred + causes)
    modifies t.all`sched
    ensures t.Shown(g) && g == Lowered(f, rank, s.id, true, f.q[s.id].deferred + causes)
  {
    g := StoreItem(t, s, true, s.sched.deferred + causes, f);
    g := UpdateOnDetach(t, s, g, rank);
  }

  // ---- picking

  /** c is first in p's queue. */
  ghost predicate First(q: QueueMap, p: int, c: int)
    requires p in q && (forall x | x in q[p].obq :: x in q)
  {
    c in q[p].obq && (Ordered(q, q[p].obq) ==> forall y | y in q[p].obq && y != c :: Less(q[c], q[y]))
  }

  /** `nghttp2_pq_top` */
  method PqTop(t: DepTree, p: Stream, ghost f: Forest) returns (top: Stream?)
    requires t.Shown(f) && t.Known(p) && forall x | x in p.sched.obq :: x in f.q
    ensures t.Known(top) && (top == null <==> f.q[p.id].obq == {})
    ensures top != null ==> First(f.q, p.id, top.id)
  {
    top := null;
    var rest := p.sched.obq;
    while rest != {}
      invariant rest <= p.sched.obq && t.Known(top) && (top == null ==> rest == p.sched.obq)
      invariant top != null ==> top.id in p.sched.obq - rest
      invariant top != null && Ordered(f.q, p.sched.obq) ==>
        forall y | y in p.sched.obq - rest && y != top.id :: Less(f.q[top.id], f.q[y])
      decreases rest
    {
      ghost var some := Member(rest);
      var i :| i in rest;
      var s := t.streams[i];
      if top == null || Less(s.sched, top.sched) {
        top := s;
      }
      rest := rest - {i};
    }
  }

  /** The loop that notes the chosen cycles: each ancestor of s learns the cycle of its child on the way to s. */
  ghost function Noted(u: Parents, rank: Ranks, q: QueueMap, s: int): (r: QueueMap)
    requires Ranked(u, rank) && q.Keys == u.Keys && s in q
    ensures r.Keys == q.Keys
    decreases rank[s]
  {
    if u[s] == NONE then q
    else
      assert Below(u, rank, s);
      Noted(u, rank, q[u[s] := q[u[s]].(lastCycle := q[s].cycle)], u[s])
  }

  method NotePick(t: DepTree, s: Stream, ghost f: Forest, ghost rank: Ranks) returns (ghost g: Forest)
    requires t.Climbable(f, rank) && t.Known(s)
    modifies t.all`sched
    ensures t.Shown(g) && g == f.(q := Noted(f.u, rank, f.q, s.id))
  {
    ghost var goal := Noted(f.u, rank, f.q, s.id);
    g := f;
    var si: Stream := s;
    while si.depPrev != null
      invariant t.Known(si) && t.Climbable(g, rank) && g == f.(q := g.q) && goal == Noted(f.u, rank, g.q, si.id)
      decreases rank[si.id]
    {
      g := NoteRound(t, si, g, rank);
      si := si.depPrev;
    }
  }

  method NoteRound(t: DepTree, si: Stream, ghost f: Forest, ghost rank: Ranks) returns (ghost g: Forest)
    requires t.Climbable(f, rank) && t.Known(si) && si.depPrev != null
    modifies si.depPrev`sched
    ensures t.Climbable(g, rank) && t.Known(si.depPrev) && si.depPrev == old(si.depPrev)
    ensures g == f.(q := f.q[f.u[si.id] := f.q[f.u[si.id]].(lastCycle := f.q[si.id].cycle)])
    ensures f.u[si.id] == si.depPrev.id && rank[f.u[si.id]] < rank[si.id]
  {
    assert f.u[si.id] == NONE || Below(f.u, rank, si.id);
    si.depPrev.sched := si.depPrev.sched.(lastCycle := si.sched.cycle);
    g := f.(q := f.q[f.u[si.id] := f.q[f.u[si.id]].(lastCycle := f.q[si.id].cycle)]);
  }

  /** x stands between top and s, above s. */
  ghost predicate Between(u: Parents, rank: Ranks, top: int, x: int, s: int)
    requires Ranked(u, rank) && s in u
  {
    x in u && Under(u, rank, top, x) && Under(u, rank, x, s) && x != s
  }

  /** From top down to s every stream is first in its parent's queue, and none above s has anything to send. */
  ghost predicate PickedPath(u: Parents, rank: Ranks, q: QueueMap, top: int, s: int)
    requires Ranked(u, rank) && q.Keys == u.Keys
  {
    && s in u && Under(u, rank, top, s)
    && (forall x | Between(u, rank, top, x, s) :: !q[x].Active())
    && (forall x | (x == s || Between(u, rank, top, x, s)) && x != top :: FirstChosen(u, q, x))
  }

  ghost predicate FirstChosen(u: Parents, q: QueueMap, x: int) {
    x in u && u[x] in q && (forall y | y in q[u[x]].obq :: y in q) && First(q, u[x], x)
  }

  lemma PathStarts(u: Parents, rank: Ranks, q: QueueMap, top: int)
    requires Ranked(u, rank) && q.Keys == u.Keys && top in u
    ensures PickedPath(u, rank, q, top, top)
  {
    forall x | Between(u, rank, top, x, top) ensures false {
      UnderRank(u, rank, top, x);
      UnderRank(u, rank, x, top);
    }
  }

  lemma PathDown(u: Parents, rank: Ranks, q: QueueMap, top: int, s: int, c: int)
    requires Ranked(u, rank) && QueuesOk(u, q, {}) && PickedPath(u, rank, q, top, s) && !q[s].Active()
    requires (forall y | y in q[s].obq :: y in q) && First(q, s, c)
    ensures c in u && u[c] == s && rank[s] < rank[c] && PickedPath(u, rank, q, top, c)
  {
    assert Holds(u, q, s) && Below(u, rank, c);
    if c == top {
      UnderRank(u, rank, top, s);
    }
    forall x | Between(u, rank, top, x, c) ensures x == s || Between(u, rank, top, x, s) {
    }
  }

  lemma NoneBelow(u: Parents, rank: Ranks, q: QueueMap, s: int)
    requires Ranked(u, rank) && QueuesOk(u, q, {}) && s in q && !q[s].Busy()
    ensures !ActiveBelow(u, rank, q, s)
  {
    if ActiveBelow(u, rank, q, s) {
      var y :| y in q && Under(u, rank, s, y) && q[y].Active();
      ActiveMakesBusy(u, rank, q, s, y);
    }
  }

  /**
   * `nghttp2_stream_next_outbound_item`: ends, finds a stream just when one below root (or root) has an item to
   * send, never one below another that has, and goes from queue head to queue head.
   */
  method NextOutboundItem(t: DepTree, root: Stream, ghost f: Forest, ghost rank: Ranks)
    returns (found: Stream?, ghost g: Forest)
    requires t.Climbable(f, rank) && t.Known(root) && QueuesOk(f.u, f.q, {})
    modifies t.all`sched
    ensures t.Shown(g) && t.Known(found)
    ensures found != null <==> ActiveBelow(f.u, rank, f.q, root.id)
    ensures found == null ==> g == f
    ensures found != null ==> f.q[found.id].Active() && PickedPath(f.u, rank, f.q, root.id, found.id)
    ensures found != null ==> g == f.(q := Noted(f.u, rank, f.q, found.id))
  {
    g := f;
    ghost var bound := RankBound(rank);
    var s: Stream := root;
    PathStarts(f.u, rank, f.q, root.id);
    while !s.sched.Active()
      invariant t.Known(s) && t.Climbable(f, rank) && PickedPath(f.u, rank, f.q, root.id, s.id)
      invariant s == root || f.q[s.id].Busy()
      decreases bound - rank[s.id]
    {
      assert Holds(f.u, f.q, s.id);
      found := PqTop(t, s, f);
      if found == null {
        NoneBelow(f.u, rank, f.q, root.id);
        return;
      }
      PathDown(f.u, rank, f.q, root.id, s.id, found.id);
      assert Settled(f.u, f.q, found.id);
      s := found;
    }
    found := s;
    g := NotePick(t, s, f, rank);
  }

  // ---- places in time

  predicate ClockOnly(a: Queue, b: Queue) {
    b.item == a.item && b.deferred == a.deferred && b.queued == a.queued && b.obq == a.obq
  }

  /** Nothing changed but places in time: the queues are as right as before. */
  predicate OnlyClocks(q: QueueMap, q': QueueMap) {
    q'.Keys == q.Keys && forall x | x in q :: ClockOnly(q[x], q'[x])
  }

  lemma OnlyClocksKeeps(u: Parents, q: QueueMap, q': QueueMap)
    requires QueuesOk(u, q, {}) && OnlyClocks(q, q')
    ensures QueuesOk(u, q', {})
  {
    forall x | x in q' ensures Holds(u, q', x) && Held(u, q', x) && Settled(u, q', x) {
      assert Holds(u, q, x) && Held(u, q, x) && Settled(u, q, x) && ClockOnly(q[x], q'[x]);
      if q[x].queued {
        assert ClockOnly(q[u[x]], q'[u[x]]);
      }
    }
  }

  lemma {:induction false} NotedOnlyClocks(u: Parents, rank: Ranks, q: QueueMap, s: int)
    requires Ranked(u, rank) && q.Keys == u.Keys && s in q
    ensures OnlyClocks(q, Noted(u, rank, q, s))
    decreases rank[s]
  {
    if u[s] != NONE {
      assert Below(u, rank, s);
      NotedOnlyClocks(u, rank, q[u[s] := q[u[s]].(lastCycle := q[s].cycle)], u[s]);
    }
  }

  /** s leaves p's queue and joins it again at its next turn; p takes over the length written. */
  function Requeue(w: Weights, q: QueueMap, p: int, s: int): (r: QueueMap)
    requires p in q && s in q && s in w && w[s] > 0
    ensures r.Keys == q.Keys
  {
    var q1 := q[p := q[p].(obq := q[p].obq - {s})];
    var q2 := Sequenced(q1[s := NextCycle(q1[s], w[s], q1[p].lastCycle)], p, s);
    var q3 := q2[p := q2[p].(obq := q2[p].obq + {s})];
    q3[p := q3[p].(writelen := q3[s].writelen)]
  }

  /** The loop of `nghttp2_stream_reschedule`. */
  ghost function Resched(u: Parents, rank: Ranks, w: Weights, q: QueueMap, s: int): (r: QueueMap)
    requires Sized(u, rank, w, q) && s in q
    ensures r.Keys == q.Keys
    decreases rank[s]
  {
    if u[s] == NONE then q
    else
      assert Below(u, rank, s);
      Resched(u, rank, w, Requeue(w, q, u[s], s), u[s])
  }

  lemma {:induction false} ReschedOnlyClocks(u: Parents, rank: Ranks, w: Weights, q: QueueMap, s: int)
    requires Sized(u, rank, w, q) && QueuesOk(u, q, {}) && s in q && (u[s] == NONE || q[s].queued)
    ensures OnlyClocks(q, Resched(u, rank, w, q, s))
    decreases rank[s]
  {
    if u[s] != NONE {
      assert Below(u, rank, s) && Held(u, q, s);
      var p, q1 := u[s], Requeue(w, q, u[s], s);
      assert q1[p].obq == q[p].obq;
      assert OnlyClocks(q, q1);
      OnlyClocksKeeps(u, q, q1);
      assert Settled(u, q, p);
      ReschedOnlyClocks(u, rank, w, q1, p);
    }
  }

  method RequeueIn(t: DepTree, p: Stream, s: Stream, ghost f: Forest) returns (ghost g: Forest)
    requires t.Shown(f) && t.Known(p) && t.Known(s) && WeightsOk(f.w)
    modifies p`sched, s`sched
    ensures t.Shown(g) && g == f.(q := Requeue(f.w, f.q, p.id, s.id))
  {
    RequeueFields(t, p, s, f.w, f.sums, f.q);
    g := f.(q := Requeue(f.w, f.q, p.id, s.id));
  }

  /** A round of the loop of `nghttp2_stream_reschedule`. */
  method RequeueFields(t: DepTree, p: Stream, s: Stream, ghost w: Weights, ghost sums: Sums, ghost q: QueueMap)
    requires t.Named() && t.QueuesShown(q) && t.WeightsShown(w, sums) && WeightsOk(w) && t.Known(p) && t.Known(s)
    modifies p`sched, s`sched
    ensures t.QueuesShown(Requeue(w, q, p.id, s.id))
  {
    t.PqRemove(p, s, q);
    ghost var q1 := q[p.id := q[p.id].(obq := q[p.id].obq - {s.id})];
    t.TakeTurn(s, p.sched.lastCycle, w, sums, q1);
    ghost var q2 := q1[s.id := NextCycle(q1[s.id], w[s.id], q1[p.id].lastCycle)];
    t.TakeSeq(p, s, q2);
    t.PqPush(p, s, Sequenced(q2, p.id, s.id));
    p.sched := p.sched.(writelen := s.sched.writelen);
  }

  /** `nghttp2_stream_reschedule`, for a queued stream */
  method Reschedule(t: DepTree, s: Stream, ghost f: Forest, ghost rank: Ranks) returns (ghost g: Forest)
    requires t.Climbable(f, rank) && t.Known(s) && s.sched.queued
    modifies t.all`sched
    ensures t.Shown(g) && g == f.(q := Resched(f.u, rank, f.w, f.q, s.id))
  {
    ghost var goal := Resched(f.u, rank, f.w, f.q, s.id);
    g := f;
    var si: Stream := s;
    while si.depPrev != null
      invariant t.Known(si) && t.Climbable(g, rank) && g == f.(q := g.q) && goal == Resched(f.u, rank, f.w, g.q, si.id)
      decreases rank[si.id]
    {
      var dep := si.depPrev;
      assert f.u[si.id] == NONE || Below(f.u, rank, si.id);
      g := RequeueIn(t, dep, si, g);
      si := dep;
    }
  }

  // ---- a change of weight

  /** The queues after s, a child of p, got a new weight. */
  function ReweighedQueue(q: QueueMap, p: int, s: int, before: int, weight: int): (r: QueueMap)
    requires p in q && s in q && before > 0 && weight > 0
    ensures r.Keys == q.Keys
  {
    if !q[s].queued then q
    else
      var q1 := q[p := q[p].(obq := q[p].obq - {s})];
      var q2 := q1[s := Reweighed(q1[s], before, weight, q1[p].lastCycle)];
      q2[p := q2[p].(obq := q2[p].obq + {s})]
  }

  ghost predicate CanReweigh(f: Forest, s: int, weight: int) {
    && WeightsOk(f.w) && 1 <= weight <= MAX_WEIGHT && s in f.w && s in f.q && s in f.u && s in f.l
    && f.l[s].depPrev == f.u[s]
    && (f.u[s] != NONE ==> f.u[s] in f.q && f.u[s] in f.sums && f.u[s] != s)
  }

  /** After `nghttp2_stream_change_weight`. */
  ghost function WithWeight(f: Forest, s: int, weight: int): Forest
    requires CanReweigh(f, s, weight)
  {
    var p, before := f.u[s], f.w[s];
    if before == weight then f
    else if p == NONE then f.(w := f.w[s := weight])
    else
      f.(w := f.w[s := weight], sums := f.sums[p := f.sums[p] + (weight - before)],
        q := ReweighedQueue(f.q, p, s, before, weight))
  }

  lemma ReweighedOnlyClocks(u: Parents, q: QueueMap, s: int, before: int, weight: int)
    requires QueuesOk(u, q, {}) && s in q && u[s] in q && u[s] != s && before > 0 && weight > 0
    ensures OnlyClocks(q, ReweighedQueue(q, u[s], s, before, weight))
  {
    assert Held(u, q, s);
    if q[s].queued {
      assert q[u[s]].obq - {s} + {s} == q[u[s]].obq;
    }
  }

  lemma WithWeightSums(f: Forest, rank: Ranks, s: int, weight: int)
    requires Sound(f, rank) && CanReweigh(f, s, weight)
    ensures SumsOk(WithWeight(f, s, weight).w, WithWeight(f, s, weight).sums, f.kids)
  {
    forall x | x in f.kids && x != f.u[s] ensures s !in f.kids[x] {
      ChildHasParent(f.l, f.kids, x, s);
    }
    if f.u[s] == NONE {
      RootWeightFree(f.w, f.sums, f.kids, s, weight);
    } else {
      var p := f.u[s];
      var j := Position(f.l, f.kids, s);
      assert ChildrenOf(f.l, p, f.kids[p]);
      DistinctAll(f.l, p, f.kids[p]);
      ReweighKeepsSums(f.w, f.sums, f.kids, p, s, j, weight);
    }
  }

  lemma WithWeightSound(f: Forest, rank: Ranks, s: int, weight: int)
    requires Sound(f, rank) && s in f.u && 1 <= weight <= MAX_WEIGHT
    ensures CanReweigh(f, s, weight) && Sound(WithWeight(f, s, weight), rank)
    ensures SameItems(f.q, WithWeight(f, s, weight).q)
  {
    assert f.u[s] == NONE || Below(f.u, rank, s);
    WithWeightSums(f, rank, s, weight);
    if f.u[s] != NONE {
      ReweighedOnlyClocks(f.u, f.q, s, f.w[s], weight);
      OnlyClocksKeeps(f.u, f.q, ReweighedQueue(f.q, f.u[s], s, f.w[s], weight));
    }
  }

  /** The clock of a queued stream under its new weight. */
  method Replay(t: DepTree, p: Stream, s: Stream, before: int, ghost q: QueueMap)
    requires t.Named() && t.QueuesShown(q) && t.Known(p) && t.Known(s) && p != s && before > 0 && s.weight > 0
    modifies s`sched
    ensures t.QueuesShown(q[s.id := Reweighed(q[s.id], before, s.weight, q[p.id].lastCycle)])
  {
    var x := s.sched;
    var wlen := x.writelen * MAX_WEIGHT;
    DivMod(wlen, before);
    var carry := (x.penalty + before - wlen % before) % before;
    var lastCycle := (x.cycle - (wlen + carry) / before) % TWO64;
    var penalty := wlen + carry;
    x := x.(cycle := (lastCycle + penalty / s.weight) % TWO64, penalty := penalty % s.weight);
    if (p.sched.lastCycle - x.cycle) % TWO64 <= MAX_CYCLE_DISTANCE {
      x := x.(cycle := p.sched.lastCycle);
    }
    s.sched := x;
  }

  /** The queue part of `nghttp2_stream_change_weight`. */
  method ReplayIn(t: DepTree, p: Stream, s: Stream, before: int, ghost q: QueueMap)
    requires t.Named() && t.QueuesShown(q) && t.Known(p) && t.Known(s) && p != s && before > 0 && s.weight > 0
    modifies p`sched, s`sched
    ensures t.QueuesShown(ReweighedQueue(q, p.id, s.id, before, s.weight))
  {
    if s.sched.queued {
      t.PqRemove(p, s, q);
      ghost var q1 := q[p.id := q[p.id].(obq := q[p.id].obq - {s.id})];
      Replay(t, p, s, before, q1);
      t.PqPush(p, s, q1[s.id := Reweighed(q1[s.id], before, s.weight, q1[p.id].lastCycle)]);
    }
  }

  method StoreWeight(t: DepTree, s: Stream, weight: int, ghost f: Forest) returns (ghost g: Forest)
    requires t.Shown(f) && t.Known(s)
    modifies s`weight
    ensures t.Shown(g) && g == f.(w := f.w[s.id := weight])
  {
    s.weight := weight;
    g := f.(w := f.w[s.id := weight]);
  }

  method StepReplay(t: DepTree, p: Stream, s: Stream, before: int, ghost f: Forest) returns (ghost g: Forest)
    requires t.Shown(f) && t.Known(p) && t.Known(s) && p != s && before > 0 && s.weight > 0
    modifies p`sched, s`sched
    ensures t.Shown(g) && g == f.(q := ReweighedQueue(f.q, p.id, s.id, before, s.weight))
  {
    ReplayIn(t, p, s, before, f.q);
    g := f.(q := ReweighedQueue(f.q, p.id, s.id, before, s.weight));
  }

  /** `nghttp2_stream_change_weight` */
  method ChangeWeight(t: DepTree, s: Stream, weight: int, ghost f: Forest) returns (ghost g: Forest)
    requires t.Shown(f) && t.Known(s) && CanReweigh(f, s.id, weight)
    modifies t.all
    ensures t.Shown(g) && g == WithWeight(f, s.id, weight)
  {
    g := f;
    if s.weight == weight {
      return;
    }
    var before, dep := s.weight, s.depPrev;
    g := StoreWeight(t, s, weight, g);
    if dep == null {
      return;
    }
    g := PassWeightOn(t, dep, s, before, g);
  }

  /** A change of weight that has been made, as seen by the parent: its sum, and the place in its queue. */
  method PassWeightOn(t: DepTree, dep: Stream, s: Stream, before: int, ghost f: Forest) returns (ghost g: Forest)
    requires t.Shown(f) && t.Known(dep) && t.Known(s) && dep != s && before > 0 && s.weight > 0
    modifies dep`sumDepWeight, dep`sched, s`sched
    ensures t.Shown(g)
    ensures dep.id in f.sums && g == f.(sums := f.sums[dep.id := f.sums[dep.id] + s.weight - before],
                                        q := ReweighedQueue(f.q, dep.id, s.id, before, s.weight))
  {
    g := t.StepSumUp(dep, s.weight - before, f);
    g := StepReplay(t, dep, s, before, g);
  }
}
