/**
 * The life of a dependency tree, from the one-root tree that a session starts with: in every run of all the
 * operations, streams that come and go and subtrees that move included, the tree is sound.
 */
module DepHistory {
  import opened DepForest
  import opened DepLinks
  import opened DepQueue
  import opened DepWeights
  import opened DepOperations
  import opened DepClock
  import opened DepWindow
  import opened DepRuns
  import opened DepRest
  import opened DepTree
  import opened DepPriority

  // ---- the start

  /** The root alone, as `nghttp2_session_client_new` leaves it. */
  const ALONE: Forest := Forest(map[ROOT := UNLINKED], map[ROOT := NONE], map[ROOT := []],
                                map[ROOT := DEFAULT_WEIGHT], map[ROOT := 0], map[ROOT := IDLE])
  const ALONE_RANK: Ranks := map[ROOT := 0]

  lemma AloneShape()
    ensures Shape(ALONE, ALONE_RANK) && SumsOk(ALONE.w, ALONE.sums, ALONE.kids)
  {
    assert ChildrenOf(ALONE.l, ROOT, []);
    assert Placed(ALONE.l, ALONE.kids, ROOT);
    assert SumOf(ALONE.w, ALONE.sums, ALONE.kids, ROOT);
    assert ALONE.u == Up(ALONE.l);
  }

  lemma AloneQueues(u: Parents, w: Weights, q: QueueMap)
    requires u == map[ROOT := NONE] && w == map[ROOT := DEFAULT_WEIGHT] && q == map[ROOT := IDLE]
    ensures QueuesOk(u, q, {}) && Timed(w, q) && Rested(u, q) && Whole(u)
  {
    assert Holds(u, q, ROOT) && Held(u, q, ROOT) && SeqsIn(q, ROOT) && ClockOk(q[ROOT], w[ROOT]);
  }

  lemma AloneSound()
    ensures Sound(ALONE, ALONE_RANK) && Whole(ALONE.u)
    ensures Timed(ALONE.w, ALONE.q) && Rested(ALONE.u, ALONE.q)
  {
    AloneShape();
    AloneQueues(ALONE.u, ALONE.w, ALONE.q);
  }

  /** The tree part of `session_new`. */
  method NewTree() returns (t: DepTree, root: Stream)
    ensures fresh(t.all) && t.all == {root} && t.Known(root) && root.id == ROOT
    ensures t.Valid(ALONE, ALONE_RANK) && Whole(ALONE.u)
    ensures Timed(ALONE.w, ALONE.q) && Rested(ALONE.u, ALONE.q)
  {
    root := new Stream(ROOT, DEFAULT_WEIGHT);
    t := new DepTree(map[ROOT := root], {root});
    AloneSound();
  }

  lemma OneMoreTimed(w: Weights, q: QueueMap, id: int)
    requires Timed(w, q) && id !in q && id != NONE
    ensures Timed(w[id := DEFAULT_WEIGHT], q[id := IDLE])
  {
    var w', q' := w[id := DEFAULT_WEIGHT], q[id := IDLE];
    forall x | x in q' ensures ClockOk(q'[x], w'[x]) && (q'[x].queued || q'[x].penalty == 0) && SeqsIn(q', x) {
      assert x != id ==> ClockOk(q[x], w[x]) && SeqsIn(q, x);
    }
    forall x, c | x in q' && c in q'[x].obq ensures TurnFits(w', q', x, c) {
      assert TurnFits(w, q, x, c);
    }
  }

  lemma OneMoreRested(u: Parents, q: QueueMap, id: int, p: int)
    requires Rested(u, q) && q.Keys == u.Keys && id !in q
    ensures Rested(u[id := p], q[id := IDLE])
  {
    var u', q' := u[id := p], q[id := IDLE];
    forall x | x in q' && x in u' && u'[x] != NONE ensures Rests(q'[x]) {
      assert x != id ==> Rests(q[x]);
    }
  }

  /** An idle stream put in below the root keeps places in time right. */
  lemma AnchorTimed(f: Forest, rank: Ranks, id: int)
    requires Sound(f, rank) && Timed(f.w, f.q) && Rested(f.u, f.q) && id !in f.u && id != NONE
    ensures AddReady(WithStream(f, id), ROOT, id)
    ensures var g := Add(WithStream(f, id), ROOT, id); Timed(g.w, g.q) && Rested(g.u, g.q)
  {
    var r := AnchorSound(f, rank, id);
    OneMoreTimed(f.w, f.q, id);
    OneMoreRested(f.u, f.q, id, ROOT);
  }

  // ---- a stream that is destroyed

  /** The forest without s. */
  function WithoutStream(f: Forest, s: int): Forest {
    Forest(f.l - {s}, f.u - {s}, f.kids - {s}, f.w - {s}, f.sums - {s}, f.q - {s})
  }

  lemma WithoutStreamLinked(l: LinkMap, kids: Kids, s: int)
    requires Linked(l, kids) && s in l && l[s].depPrev == NONE && kids[s] == []
    ensures Linked(l - {s}, kids - {s})
    ensures forall x | x in l :: l[x].depPrev != s
  {
    var l', kids' := l - {s}, kids - {s};
    forall x | x in l ensures l[x].depPrev != s && (x != s ==> Placed(l', kids', x)) {
      assert Placed(l, kids, x) && NONE !in l;
    }
    forall p | p in kids' ensures ChildrenOf(l', p, kids'[p]) {
      assert ChildrenOf(l, p, kids[p]);
      ChildHasParent(l, kids, p, s);
      KidsKnown(l, kids, p);
      SameChildren(l, l', p, kids[p]);
    }
  }

  lemma WithoutStreamSums(w: Weights, sums: Sums, kids: Kids, s: int)
    requires SumsOk(w, sums, kids) && forall p | p in kids :: s !in kids[p]
    ensures SumsOk(w - {s}, sums - {s}, kids - {s})
  {
    var w', sums', kids' := w - {s}, sums - {s}, kids - {s};
    forall x | x in kids' ensures SumOf(w', sums', kids', x) {
      assert SumOf(w, sums, kids, x);
      TotalSame(w, w', kids[x]);
    }
  }

  lemma WithoutStreamQueues(u: Parents, q: QueueMap, s: int)
    requires QueuesOk(u, q, {}) && s in u && u[s] == NONE && forall x | x in u :: u[x] != s
    ensures QueuesOk(u - {s}, q - {s}, {})
  {
    var u', q' := u - {s}, q - {s};
    forall x | x in q' ensures Holds(u', q', x) && Held(u', q', x) && Settled(u', q', x) {
      assert Holds(u, q, x) && Held(u, q, x) && Settled(u, q, x);
    }
  }

  lemma WithoutStreamShape(f: Forest, rank: Ranks, s: int)
    requires Shape(f, rank) && s in f.u && f.u[s] == NONE && f.kids[s] == [] && s != ROOT
    ensures Shape(WithoutStream(f, s), rank - {s})
  {
    WithoutStreamLinked(f.l, f.kids, s);
    var u', r := f.u - {s}, rank - {s};
    forall x | x in u' ensures u'[x] == NONE || DepForest.Below(u', r, x) {
      assert f.u[x] == NONE || DepForest.Below(f.u, rank, x);
      assert f.l[x].depPrev != s;
    }
    assert u' == Up(f.l - {s});
  }

  lemma WithoutStreamSound(f: Forest, rank: Ranks, s: int)
    requires Sound(f, rank) && s in f.u && f.u[s] == NONE && f.kids[s] == [] && s != ROOT
    ensures Sound(WithoutStream(f, s), rank - {s})
  {
    WithoutStreamLinked(f.l, f.kids, s);
    WithoutStreamShape(f, rank, s);
    NoOnesChild(f, rank, s);
    WithoutStreamSums(f.w, f.sums, f.kids, s);
    forall x | x in f.u ensures f.u[x] != s {
      assert f.l[x].depPrev != s;
    }
    WithoutStreamQueues(f.u, f.q, s);
  }

  // ---- all operations

  /** Besides what DepRuns has: streams that come and go, and subtrees that move. */
  datatype Op =
    | Work(e: Event)
    | Open(id: int, parent: int, exclusive: bool)
    | Close(s: int)
    | Destroy(s: int)
    | CutAway(s: int)
    | Hang(p: int, s: int, exclusive: bool)

  /** What the assertions of nghttp2 ask for. */
  ghost predicate Allowed(f: Forest, rank: Ranks, op: Op)
    requires Sound(f, rank)
  {
    match op
    case Work(e) => Possible(f, rank, e)
    case Open(id, parent, exclusive) => id !in f.u && id != NONE && parent in f.u
    case Close(s) => s in f.u && f.u[s] != NONE
    case Destroy(s) => s in f.u && f.u[s] == NONE && f.kids[s] == [] && s != ROOT
    case CutAway(s) => s in f.u && f.u[s] != NONE
    case Hang(p, s, exclusive) => MayGoBelow(f, rank, p, s)
  }

  lemma Stands(f: Forest, rank: Ranks, s: int)
    requires Sound(f, rank) && s in f.u && f.u[s] != NONE
    ensures f.u[s] in f.u && exists j: nat :: StandsAt(f, f.u[s], s, j)
  {
    assert DepForest.Below(f.u, rank, s);
    var j := StandsSomewhere(f, rank, s);
  }

  ghost function PlaceOf(f: Forest, rank: Ranks, s: int): (j: nat)
    requires Sound(f, rank) && s in f.u && f.u[s] != NONE
    ensures f.u[s] in f.u && StandsAt(f, f.u[s], s, j)
  {
    Stands(f, rank, s);
    var j: nat :| StandsAt(f, f.u[s], s, j);
    j
  }

  lemma NewMayGoBelow(f: Forest, rank: Ranks, id: int, parent: int)
    requires Sound(f, rank) && id !in f.u && id != NONE && parent in f.u
    ensures var h, r := WithStream(f, id), WithRank(rank, id);
            Sound(h, r) && MayGoBelow(h, r, parent, id) && h.kids[id] == [] && !h.q[id].Busy()
  {
    var h, r := WithStream(f, id), WithRank(rank, id);
    WithStreamSound(f, rank, id);
    if Under(h.u, r, id, parent) {
      UnderRank(h.u, r, id, parent);
      ChildAbove(h.u, r, id, parent);
    }
  }

  /** Who has a stream above it has a stream whose parent that is. */
  lemma {:induction false} ChildAbove(u: Parents, rank: Ranks, s: int, x: int)
    requires Ranked(u, rank) && x in u && s != x && Under(u, rank, s, x)
    ensures exists c | c in u :: u[c] == s
    decreases rank[x]
  {
    assert DepForest.Below(u, rank, x);
    if u[x] != s {
      ChildAbove(u, rank, s, u[x]);
    }
  }

  /** The tree and its ranks after an operation. */
  ghost function Done(f: Forest, rank: Ranks, op: Op): (Forest, Ranks)
    requires Sound(f, rank) && Allowed(f, rank, op)
  {
    match op
    case Work(e) => (Next(f, rank, e), rank)
    case Open(id, parent, exclusive) =>
      NewMayGoBelow(f, rank, id, parent);
      var h, r := WithStream(f, id), WithRank(rank, id);
      if exclusive then
        InsertSound(h, r, parent, id);
        (Insert(h, InsertRank(h.u, r, parent, id), parent, id), InsertRank(h.u, r, parent, id))
      else
        AddSound(h, r, parent, id);
        (Add(h, parent, id), AddRank(h.u, r, parent, id))
    case Close(s) => RemoveSound(f, rank, s, PlaceOf(f, rank, s)); (Remove(f, rank, s, PlaceOf(f, rank, s)), rank)
    case Destroy(s) => (WithoutStream(f, s), rank - {s})
    case CutAway(s) => CutSound(f, rank, s, PlaceOf(f, rank, s)); (Cut(f, rank, s, PlaceOf(f, rank, s)), rank)
    case Hang(p, s, exclusive) =>
      if exclusive then
        InsertSubtreeSound(f, rank, p, s);
        (InsertSubtree(f, InsertRank(f.u, rank, p, s), p, s), InsertRank(f.u, rank, p, s))
      else
        AddSubtreeSound(f, rank, p, s);
        (AddSubtree(f, AddRank(f.u, rank, p, s), p, s), AddRank(f.u, rank, p, s))
  }

  lemma DoneSound(f: Forest, rank: Ranks, op: Op)
    requires Sound(f, rank) && Allowed(f, rank, op)
    ensures Sound(Done(f, rank, op).0, Done(f, rank, op).1)
  {
    match op
    case Work(e) => NextSound(f, rank, e);
    case Open(id, parent, exclusive) =>
      NewMayGoBelow(f, rank, id, parent);
      var h, r := WithStream(f, id), WithRank(rank, id);
      if exclusive {
        InsertSound(h, r, parent, id);
      } else {
        AddSound(h, r, parent, id);
      }
    case Close(s) => RemoveSound(f, rank, s, PlaceOf(f, rank, s));
    case Destroy(s) => WithoutStreamSound(f, rank, s);
    case CutAway(s) => CutSound(f, rank, s, PlaceOf(f, rank, s));
    case Hang(p, s, exclusive) =>
      if exclusive {
        InsertSubtreeSound(f, rank, p, s);
      } else {
        AddSubtreeSound(f, rank, p, s);
      }
  }

  ghost predicate AllAllowed(f: Forest, rank: Ranks, ops: seq<Op>)
    requires Sound(f, rank)
    decreases |ops|
  {
    ops == [] ||
      (Allowed(f, rank, ops[0]) &&
       (DoneSound(f, rank, ops[0]); AllAllowed(Done(f, rank, ops[0]).0, Done(f, rank, ops[0]).1, ops[1..])))
  }

  ghost function AllDone(f: Forest, rank: Ranks, ops: seq<Op>): (r: (Forest, Ranks))
    requires Sound(f, rank) && AllAllowed(f, rank, ops)
    ensures Sound(r.0, r.1)
    decreases |ops|
  {
    if ops == [] then (f, rank)
    else
      DoneSound(f, rank, ops[0]);
      AllDone(Done(f, rank, ops[0]).0, Done(f, rank, ops[0]).1, ops[1..])
  }

  /**
   * Whatever happens to a tree from its start on, it is sound; no stream is its own ancestor; every weight sum is
   * right; and a stream is queued just when it is below another and something in its subtree waits to be sent.
   */
  lemma EverSound(ops: seq<Op>)
    requires (AloneSound(); AllAllowed(ALONE, ALONE_RANK, ops))
    ensures (AloneSound(); var (g, r) := AllDone(ALONE, ALONE_RANK, ops);
             && Sound(g, r)
             && (forall x | x in g.u :: SumOf(g.w, g.sums, g.kids, x) && 1 <= g.w[x] <= MAX_WEIGHT)
             && forall x | x in g.u :: g.q[x].queued <==> g.u[x] != NONE && ActiveBelow(g.u, r, g.q, x))
  {
    AloneSound();
    var (g, r) := AllDone(ALONE, ALONE_RANK, ops);
    forall x | x in g.u ensures g.q[x].queued <==> g.u[x] != NONE && ActiveBelow(g.u, r, g.q, x) {
      QueuedIffActiveBelow(g.u, r, g.q, x);
    }
    assert g.w.Keys == g.u.Keys;
  }
}
