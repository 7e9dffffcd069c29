/**
 * Changing a stream's place in the dependency tree, `nghttp2_session_reprioritize_stream`: whatever parent is
 * asked for, the streams form a tree again, with the stream where it was asked to be.
 */
module DepPriority {
  import opened DepForest
  import opened DepLinks
  import opened DepQueue
  import opened DepWeights
  import opened DepOperations
  import opened DepTree
  import opened DepItems

  /** `NGHTTP2_DEFAULT_WEIGHT` */
  const DEFAULT_WEIGHT := 16

  /** `nghttp2_priority_spec` */
  datatype Spec = Spec(parent: int, weight: int, exclusive: bool)

  /** `nghttp2_priority_spec_default_init` */
  const DEFAULT_SPEC := Spec(ROOT, DEFAULT_WEIGHT, false)

  /** Everything but places in time and the order of siblings. */
  ghost predicate Same(f: Forest, g: Forest, u: Parents, w: Weights) {
    g.u == u && g.w == w && SameItems(f.q, g.q)
  }

  /** s is cut off. */
  method CutStream(t: DepTree, s: Stream, ghost f: Forest, ghost rank: Ranks) returns (ghost g: Forest)
    requires t.Valid(f, rank) && t.Known(s) && s.depPrev != null
    modifies t.all
    ensures t.Valid(g, rank) && f.u[s.id] in f.u && MayGoBelow(g, rank, f.u[s.id], s.id)
    ensures Same(f, g, CutUp(f.u, s.id), f.w)
  {
    ghost var j := StandsSomewhere(f, rank, s.id);
    CutSound(f, rank, s.id, j);
    g := t.DepRemoveSubtree(s, f, rank, j);
  }

  ghost predicate Inserts(f: Forest, r: Ranks, p: int, s: int, g: Forest) {
    InsertSubtreeReady(f, r, p, s) && g == InsertSubtree(f, r, p, s)
  }

  lemma InsertIsGood(f: Forest, rank: Ranks, p: int, s: int, r: Ranks, g: Forest)
    requires Sound(f, rank) && MayGoBelow(f, rank, p, s) && r == InsertRank(f.u, rank, p, s) && Inserts(f, r, p, s, g)
    ensures Sound(g, r) && Same(f, g, InsertUp(f.u, p, s), f.w)
  {
    InsertSubtreeSound(f, rank, p, s);
  }

  lemma MayInsert(f: Forest, rank: Ranks, p: int, s: int) returns (r: Ranks)
    requires Sound(f, rank) && MayGoBelow(f, rank, p, s)
    ensures InsertSubtreeReady(f, r, p, s) && r == InsertRank(f.u, rank, p, s)
  {
    InsertSubtreeSound(f, rank, p, s);
    r := InsertRank(f.u, rank, p, s);
  }

  lemma MayAdd(f: Forest, rank: Ranks, p: int, s: int) returns (r: Ranks)
    requires Sound(f, rank) && MayGoBelow(f, rank, p, s)
    ensures AddSubtreeReady(f, r, p, s) && Sound(AddSubtree(f, r, p, s), r)
    ensures Same(f, AddSubtree(f, r, p, s), AddUp(f.u, p, s), f.w)
  {
    AddSubtreeSound(f, rank, p, s);
    r := AddRank(f.u, rank, p, s);
  }

  /** s, which heads a tree, becomes p's only child. */
  method PlaceExclusive(t: DepTree, p: Stream, s: Stream, ghost f: Forest, ghost rank: Ranks)
    returns (ghost g: Forest, ghost r: Ranks)
    requires t.Valid(f, rank) && t.Known(p) && t.Known(s) && MayGoBelow(f, rank, p.id, s.id)
    modifies t.all
    ensures t.Valid(g, r) && Same(f, g, InsertUp(f.u, p.id, s.id), f.w)
  {
    r := MayInsert(f, rank, p.id, s.id);
    g := t.DepInsertSubtree(p, s, f, r);
    InsertIsGood(f, rank, p.id, s.id, r, g);
  }

  /** s, which heads a tree, becomes a child of p. */
  method PlaceShared(t: DepTree, p: Stream, s: Stream, ghost f: Forest, ghost rank: Ranks)
    returns (ghost g: Forest, ghost r: Ranks)
    requires t.Valid(f, rank) && t.Known(p) && t.Known(s) && MayGoBelow(f, rank, p.id, s.id)
    modifies t.all
    ensures t.Valid(g, r) && Same(f, g, AddUp(f.u, p.id, s.id), f.w)
  {
    r := MayAdd(f, rank, p.id, s.id);
    g := t.DepAddSubtree(p, s, f, r);
  }

  /** The weight of a stream that heads a tree. */
  method SetWeight(t: DepTree, s: Stream, weight: int, ghost f: Forest, ghost rank: Ranks) returns (ghost g: Forest)
    requires t.Valid(f, rank) && t.Known(s) && f.u[s.id] == NONE && 1 <= weight <= MAX_WEIGHT
    modifies s`weight
    ensures t.Valid(g, rank) && Same(f, g, f.u, f.w[s.id := weight])
    ensures g.l == f.l && g.kids == f.kids
  {
    g := StoreWeight(t, s, weight, f);
    NoOnesChild(f, rank, s.id);
    RootWeightFree(f.w, f.sums, f.kids, s.id, weight);
  }

  lemma NoOnesChild(f: Forest, rank: Ranks, s: int)
    requires Shape(f, rank) && s in f.u && f.u[s] == NONE
    ensures forall x | x in f.kids :: s !in f.kids[x]
  {
    forall x | x in f.kids ensures s !in f.kids[x] {
      ChildHasParent(f.l, f.kids, x, s);
    }
  }

  /** `nghttp2_stream_dep_find_ancestor` */
  method FindAncestor(t: DepTree, stream: Stream, target: Stream, ghost f: Forest, ghost rank: Ranks)
    returns (found: bool)
    requires t.Climbable(f, rank) && t.Known(stream) && t.Known(target)
    ensures found == Under(f.u, rank, target.id, stream.id)
  {
    var x: Stream? := stream;
    while x != null
      invariant t.Known(x)
      invariant Under(f.u, rank, target.id, stream.id) == (x != null && Under(f.u, rank, target.id, x.id))
      decreases Height(rank, IdOf(x))
    {
      if x == target {
        return true;
      }
      assert f.u[x.id] == NONE || DepForest.Below(f.u, rank, x.id);
      x := x.depPrev;
    }
    found := false;
  }

  /** `nghttp2_stream_in_dep_tree` */
  predicate InDepTree(s: Stream)
    reads s
  {
    s.depPrev != null || s.depNext != null || s.sibPrev != null || s.sibNext != null
  }

  /** Whoever has children hangs below the root: there is one tree. */
  ghost predicate Whole(u: Parents) {
    ROOT in u && u[ROOT] == NONE && forall y | y in u && u[y] != NONE :: u[y] in u && (u[y] == ROOT || u[u[y]] != NONE)
  }

  lemma InTreeHasParent(t: DepTree, s: Stream, f: Forest, rank: Ranks)
    requires t.Valid(f, rank) && t.Known(s) && Whole(f.u) && s.id != ROOT
    ensures InDepTree(s) <==> f.u[s.id] != NONE
  {
    if f.u[s.id] == NONE {
      assert Placed(f.l, f.kids, s.id);
      FirstChild(f.l, f.kids, s.id);
    }
  }

  /** In one tree everything that has a parent is below the root. */
  lemma {:induction false} WholeIsRooted(u: Parents, rank: Ranks, x: int)
    requires Ranked(u, rank) && Whole(u) && x in u && (x == ROOT || u[x] != NONE)
    ensures Under(u, rank, ROOT, x)
    decreases rank[x]
  {
    if x != ROOT {
      assert DepForest.Below(u, rank, x);
      WholeIsRooted(u, rank, u[x]);
    }
  }

  // ---- moving

  lemma SiblingNotBelow(u: Parents, rank: Ranks, s: int, p: int)
    requires Ranked(u, rank) && s in u && p in u && s != p && u[p] == u[s] && u[s] in u
    ensures !Under(u, rank, s, p)
  {
    assert DepForest.Below(u, rank, s);
    if Under(u, rank, s, p) {
      UnderRank(u, rank, s, u[s]);
    }
  }

  lemma SameThen(f: Forest, g: Forest, h: Forest, u: Parents, w: Weights, u': Parents, w': Weights)
    requires Same(f, g, u, w) && Same(g, h, u', w')
    ensures Same(f, h, u', w')
  {
  }

  lemma MoveUpFacts(u: Parents, rank: Ranks, s: int, p: int)
    requires Ranked(u, rank) && s in u && p in u && s != p && Under(u, rank, s, p) && u[s] != NONE
    ensures u[s] in u && u[p] != NONE && CutUp(u, p)[s] == u[s] && AddUp(CutUp(u, p), u[s], p)[s] == u[s]
    ensures Ranked(CutUp(u, p), rank) && !Under(CutUp(u, p), rank, p, u[s])
  {
    assert DepForest.Below(u, rank, s);
    CutKeepsRanked(u, rank, p);
    MayMoveUp(u, rank, s, p);
  }

  /** The new parent p is below s: it moves to s's place. */
  method MoveUp(t: DepTree, p: Stream, s: Stream, ghost f: Forest, ghost rank: Ranks)
    returns (ghost g: Forest, ghost r: Ranks)
    requires t.Valid(f, rank) && t.Known(p) && t.Known(s) && p != s && s.depPrev != null && Under(f.u, rank, s.id, p.id)
    modifies t.all
    ensures t.Valid(g, r) && Same(f, g, AddUp(CutUp(f.u, p.id), f.u[s.id], p.id), f.w)
  {
    MoveUpFacts(f.u, rank, s.id, p.id);
    ghost var above := f.u[s.id];
    g := CutStream(t, p, f, rank);
    ghost var h := g;
    g, r := PlaceShared(t, s.depPrev, p, g, rank);
    SameThen(f, h, g, CutUp(f.u, p.id), f.w, AddUp(CutUp(f.u, p.id), above, p.id), f.w);
  }

  /** s moves below p, with a new weight. */
  method MoveBelow(t: DepTree, p: Stream, s: Stream, weight: int, exclusive: bool, ghost f: Forest, ghost rank: Ranks)
    returns (ghost g: Forest, ghost r: Ranks)
    requires t.Valid(f, rank) && t.Known(p) && t.Known(s) && p != s && s.depPrev != null && s.id != ROOT
    requires !Under(f.u, rank, s.id, p.id) && 1 <= weight <= MAX_WEIGHT
    modifies t.all
    ensures t.Valid(g, r)
    ensures Same(f, g,
                 if exclusive then InsertUp(CutUp(f.u, s.id), p.id, s.id) else AddUp(CutUp(f.u, s.id), p.id, s.id),
                 f.w[s.id := weight])
  {
    g := CutAndWeigh(t, s, weight, f, rank);
    CutKeepsRanked(f.u, rank, s.id);
    CutOff(f.u, rank, s.id, p.id);
    g, r := Place(t, p, s, exclusive, g, rank, f);
  }

  method CutAndWeigh(t: DepTree, s: Stream, weight: int, ghost f: Forest, ghost rank: Ranks) returns (ghost g: Forest)
    requires t.Valid(f, rank) && t.Known(s) && s.depPrev != null && 1 <= weight <= MAX_WEIGHT
    modifies t.all
    ensures t.Valid(g, rank) && Same(f, g, CutUp(f.u, s.id), f.w[s.id := weight])
  {
    g := CutStream(t, s, f, rank);
    ghost var h := g;
    g := SetWeight(t, s, weight, g, rank);
    SameThen(f, h, g, CutUp(f.u, s.id), f.w, CutUp(f.u, s.id), f.w[s.id := weight]);
  }

  method Place(t: DepTree, p: Stream, s: Stream, exclusive: bool, ghost f: Forest, ghost rank: Ranks,
               ghost first: Forest)
    returns (ghost g: Forest, ghost r: Ranks)
    requires t.Valid(f, rank) && t.Known(p) && t.Known(s) && MayGoBelow(f, rank, p.id, s.id) && Same(first, f, f.u, f.w)
    modifies t.all
    ensures t.Valid(g, r)
    ensures Same(first, g, if exclusive then InsertUp(f.u, p.id, s.id) else AddUp(f.u, p.id, s.id), f.w)
  {
    if exclusive {
      g, r := PlaceExclusive(t, p, s, f, rank);
      SameThen(first, f, g, f.u, f.w, InsertUp(f.u, p.id, s.id), f.w);
    } else {
      g, r := PlaceShared(t, p, s, f, rank);
      SameThen(first, f, g, f.u, f.w, AddUp(f.u, p.id, s.id), f.w);
    }
  }

  // ---- the anchor

  /** The forest with one more stream, alone. */
  function WithStream(f: Forest, id: int): Forest {
    Forest(f.l[id := UNLINKED], f.u[id := NONE], f.kids[id := []],
           f.w[id := DEFAULT_WEIGHT], f.sums[id := 0], f.q[id := IDLE])
  }

  function WithRank(rank: Ranks, id: int): Ranks {
    rank[id := 0]
  }

  lemma WithStreamLinked(l: LinkMap, kids: Kids, id: int)
    requires Linked(l, kids) && id !in l && id != NONE
    ensures Linked(l[id := UNLINKED], kids[id := []])
  {
    var l', kids' := l[id := UNLINKED], kids[id := []];
    forall p | p in kids' ensures ChildrenOf(l', p, kids'[p]) {
      if p != id {
        assert ChildrenOf(l, p, kids[p]);
        KidsKnown(l, kids, p);
        SameChildren(l, l', p, kids[p]);
      }
    }
    forall x | x in l' ensures Placed(l', kids', x) {
      if x != id {
        assert Placed(l, kids, x);
      }
    }
  }

  lemma WithStreamSums(w: Weights, sums: Sums, kids: Kids, id: int)
    requires SumsOk(w, sums, kids) && id !in w
    ensures SumsOk(w[id := DEFAULT_WEIGHT], sums[id := 0], kids[id := []])
  {
    var w', sums', kids' := w[id := DEFAULT_WEIGHT], sums[id := 0], kids[id := []];
    forall x | x in kids' ensures SumOf(w', sums', kids', x) {
      if x != id {
        assert SumOf(w, sums, kids, x);
        TotalSame(w, w', kids[x]);
      }
    }
  }

  lemma WithStreamQueues(u: Parents, q: QueueMap, id: int)
    requires QueuesOk(u, q, {}) && id !in u && id != NONE && forall x | x in u :: u[x] == NONE || u[x] in u
    ensures QueuesOk(u[id := NONE], q[id := IDLE], {})
  {
    var u', q' := u[id := NONE], q[id := IDLE];
    forall x | x in q' ensures Holds(u', q', x) && Held(u', q', x) && Settled(u', q', x) {
      if x != id {
        assert Holds(u, q, x) && Held(u, q, x) && Settled(u, q, x);
      }
    }
  }

  lemma WithStreamShape(f: Forest, rank: Ranks, id: int)
    requires Shape(f, rank) && id !in f.u && id != NONE
    ensures Shape(WithStream(f, id), WithRank(rank, id))
  {
    var g, r := WithStream(f, id), WithRank(rank, id);
    WithStreamLinked(f.l, f.kids, id);
    forall x | x in g.u ensures g.u[x] == NONE || DepForest.Below(g.u, r, x) {
      assert x != id ==> f.u[x] == NONE || DepForest.Below(f.u, rank, x);
    }
    assert g.u == Up(g.l);
  }

  lemma ParentsKnown(u: Parents, rank: Ranks)
    requires Ranked(u, rank)
    ensures forall x | x in u :: u[x] == NONE || u[x] in u
  {
    forall x | x in u ensures u[x] == NONE || u[x] in u {
      assert u[x] == NONE || DepForest.Below(u, rank, x);
    }
  }

  lemma WithStreamSound(f: Forest, rank: Ranks, id: int)
    requires Sound(f, rank) && id !in f.u && id != NONE
    ensures Sound(WithStream(f, id), WithRank(rank, id))
  {
    ParentsKnown(f.u, rank);
    WithStreamShape(f, rank, id);
    WithStreamSums(f.w, f.sums, f.kids, id);
    WithStreamQueues(f.u, f.q, id);
  }

  /** No pointer leads out of the tree. */
  ghost predicate Closed(l: LinkMap) {
    forall x | x in l ::
      && (l[x].depPrev == NONE || l[x].depPrev in l) && (l[x].depNext == NONE || l[x].depNext in l)
      && (l[x].sibPrev == NONE || l[x].sibPrev in l) && (l[x].sibNext == NONE || l[x].sibNext in l)
  }

  lemma LinkedIsClosed(l: LinkMap, kids: Kids)
    requires Linked(l, kids)
    ensures Closed(l)
  {
    forall x | x in l
      ensures l[x].depPrev == NONE || l[x].depPrev in l
      ensures l[x].depNext == NONE || l[x].depNext in l
      ensures l[x].sibPrev == NONE || l[x].sibPrev in l
      ensures l[x].sibNext == NONE || l[x].sibNext in l
    {
      assert Placed(l, kids, x);
      FirstChild(l, kids, x);
      if l[x].depPrev != NONE {
        var j := Position(l, kids, x);
      }
    }
  }

  /** A new object takes its place among the others. */
  method Admit(t: DepTree, id: int, ghost f: Forest) returns (t': DepTree, s: Stream)
    requires t.Shown(f) && id !in t.streams && id != NONE && Closed(f.l)
    ensures fresh(s) && s.id == id && t'.streams == t.streams[id := s] && t'.all == t.all + {s}
    ensures t'.Shown(WithStream(f, id)) && t'.Known(s) && s.sched == IDLE
  {
    s := new Stream(id, DEFAULT_WEIGHT);
    t' := new DepTree(t.streams[id := s], t.all + {s});
  }

  lemma AnchorSound(f: Forest, rank: Ranks, id: int) returns (r: Ranks)
    requires Sound(f, rank) && id !in f.u && id != NONE
    ensures AddReady(WithStream(f, id), ROOT, id) && Sound(Add(WithStream(f, id), ROOT, id), r)
    ensures Same(WithStream(f, id), Add(WithStream(f, id), ROOT, id),
                 AddUp(f.u[id := NONE], ROOT, id), f.w[id := DEFAULT_WEIGHT])
  {
    var h, rank' := WithStream(f, id), WithRank(rank, id);
    WithStreamSound(f, rank, id);
    assert !Under(h.u, rank', id, ROOT);
    AddSound(h, rank', ROOT, id);
    r := AddRank(h.u, rank', ROOT, id);
  }

  /** `nghttp2_session_open_stream` for an idle stream with default priority: a new anchor below the root. */
  method OpenIdle(t: DepTree, root: Stream, id: int, ghost f: Forest, ghost rank: Ranks)
    returns (t': DepTree, s: Stream, ghost g: Forest, ghost r: Ranks)
    requires t.Valid(f, rank) && t.Known(root) && root.id == ROOT && id !in t.streams && id != NONE
    modifies t.all
    ensures fresh(s) && s.id == id && t'.streams == t.streams[id := s] && t'.all == t.all + {s} && t'.Known(s)
    ensures t'.Valid(g, r) && Same(WithStream(f, id), g, AddUp(f.u[id := NONE], ROOT, id), f.w[id := DEFAULT_WEIGHT])
  {
    LinkedIsClosed(f.l, f.kids);
    t', s := Admit(t, id, f);
    r := AnchorSound(f, rank, id);
    g := t'.DepAdd(root, s, WithStream(f, id));
  }

  // ---- reprioritisation

  /** The specification that counts: a parent that is not in the tree, and not idle, stands for the default. */
  function Effective(u: Parents, spec: Spec, idle: bool): Spec {
    if spec.parent != ROOT && (if spec.parent in u then u[spec.parent] == NONE else !idle) then DEFAULT_SPEC else spec
  }

  /** An unknown parent that is idle becomes an anchor below the root. */
  function Anchored(u: Parents, spec: Spec, idle: bool): Parents {
    if spec.parent != ROOT && spec.parent !in u && idle then AddUp(u[spec.parent := NONE], ROOT, spec.parent) else u
  }

  method ReweighOnly(t: DepTree, s: Stream, weight: int, ghost f: Forest, ghost rank: Ranks) returns (ghost g: Forest)
    requires t.Valid(f, rank) && t.Known(s) && 1 <= weight <= MAX_WEIGHT
    modifies t.all
    ensures t.Valid(g, rank) && Same(f, g, f.u, f.w[s.id := weight])
  {
    WithWeightSound(f, rank, s.id, weight);
    assert f.w[s.id] == weight ==> f.w[s.id := weight] == f.w;
    g := ChangeWeight(t, s, weight, f);
  }

  method MoveOrReweigh(t: DepTree, p: Stream, s: Stream, weight: int, exclusive: bool, ghost f: Forest,
                       ghost rank: Ranks)
    returns (ghost g: Forest, ghost r: Ranks)
    requires t.Valid(f, rank) && t.Known(p) && t.Known(s) && p != s && s.depPrev != null && s.id != ROOT
    requires !Under(f.u, rank, s.id, p.id) && 1 <= weight <= MAX_WEIGHT
    modifies t.all
    ensures t.Valid(g, r) && Same(f, g, MovedBelow(f.u, s.id, p.id, exclusive), f.w[s.id := weight])
  {
    if p == s.depPrev && !exclusive {
      r := rank;
      g := ReweighOnly(t, s, weight, f, rank);
    } else {
      g, r := MoveBelow(t, p, s, weight, exclusive, f, rank);
    }
  }

  /** p moves up if it is below s. */
  method MoveUpIfBelow(t: DepTree, p: Stream, s: Stream, ghost f: Forest, ghost rank: Ranks)
    returns (ghost g: Forest, ghost r: Ranks)
    requires t.Valid(f, rank) && t.Known(p) && t.Known(s) && p != s && s.depPrev != null
    modifies t.all
    ensures t.Valid(g, r) && !Under(g.u, r, s.id, p.id) && g.u[s.id] == f.u[s.id]
    ensures Same(f, g, if Under(f.u, rank, s.id, p.id) then AddUp(CutUp(f.u, p.id), f.u[s.id], p.id) else f.u, f.w)
  {
    var below := FindAncestor(t, p, s, f, rank);
    if below {
      MoveUpFacts(f.u, rank, s.id, p.id);
      g, r := MoveUp(t, p, s, f, rank);
      SiblingNotBelow(g.u, r, s.id, p.id);
    } else {
      g, r := f, rank;
    }
  }

  /** The moves of `nghttp2_session_reprioritize_stream`. */
  method MoveTo(t: DepTree, p: Stream, s: Stream, weight: int, exclusive: bool, ghost f: Forest, ghost rank: Ranks)
    returns (ghost g: Forest, ghost r: Ranks)
    requires t.Valid(f, rank) && t.Known(p) && t.Known(s) && p != s && s.depPrev != null && s.id != ROOT
    requires 1 <= weight <= MAX_WEIGHT
    modifies t.all
    ensures t.Valid(g, r)
    ensures Same(f, g, Reprioritized(f.u, rank, s.id, p.id, exclusive), f.w[s.id := weight])
  {
    g, r := MoveUpIfBelow(t, p, s, f, rank);
    ghost var h := g;
    g, r := MoveOrReweigh(t, p, s, weight, exclusive, g, r);
    SameThen(f, h, g, h.u, f.w, MovedBelow(h.u, s.id, p.id, exclusive), f.w[s.id := weight]);
  }

  /** The streams keep their items; a stream that is new has none. */
  ghost predicate ItemsKept(q: QueueMap, q': QueueMap) {
    forall x | x in q' :: if x in q then q'[x].item == q[x].item && q'[x].deferred == q[x].deferred else !q'[x].item
  }

  /** What reprioritisation comes to: e is the specification that counts, u the parents with the anchor. */
  ghost predicate Reordered(f: Forest, g: Forest, u: Parents, rank: Ranks, s: int, e: Spec) {
    && Ranked(u, rank) && s in u && e.parent in u && s in f.w && g.u == Reprioritized(u, rank, s, e.parent, e.exclusive)
    && g.w.Keys == u.Keys && g.w[s] == e.weight && (forall x | x in f.w && x != s :: x in g.w && g.w[x] == f.w[x])
    && ItemsKept(f.q, g.q)
  }

  lemma MovedIsReordered(f: Forest, h: Forest, g: Forest, u: Parents, rank: Ranks, s: int, e: Spec)
    requires Ranked(u, rank) && s in u && e.parent in u && h.u == u && h.w.Keys == u.Keys && s in f.w
    requires Same(h, g, Reprioritized(u, rank, s, e.parent, e.exclusive), h.w[s := e.weight])
    requires Extends(f, h)
    ensures Reordered(f, g, u, rank, s, e)
  {
  }

  lemma AnchorKeeps(f: Forest, h: Forest, id: int, s: int)
    requires id !in f.u && f.w.Keys == f.q.Keys == f.u.Keys && s in f.u
    requires Same(WithStream(f, id), h, AddUp(f.u[id := NONE], ROOT, id), f.w[id := DEFAULT_WEIGHT]) && ROOT in f.u
    ensures Extends(f, h) && h.u[s] == f.u[s] && s != id
  {
  }

  /** h has the streams of f, with their weights and items, and perhaps more. */
  ghost predicate Extends(f: Forest, h: Forest) {
    && (forall x | x in f.w :: x in h.w && h.w[x] == f.w[x]) && ItemsKept(f.q, h.q) && h.w.Keys == h.u.Keys
    && forall x | x in f.u :: x in h.u
  }

  /** The streams of t stand in t', the same objects. */
  ghost predicate Keeps(t: DepTree, t': DepTree) {
    forall x | x in t.streams :: x in t'.streams && t'.streams[x] == t.streams[x]
  }

  lemma OneMoreKept(t: DepTree, t': DepTree, s: Stream)
    requires s.id !in t.streams && t'.streams == t.streams[s.id := s]
    ensures Keeps(t, t')
  {
  }

  /** A stream that has a parent in f has a parent pointer. */
  lemma HasParentPointer(t: DepTree, s: Stream, f: Forest, rank: Ranks)
    requires t.Valid(f, rank) && t.Known(s)
    ensures s.depPrev != null <==> f.u[s.id] != NONE
  {
    assert f.u[s.id] == NONE || DepForest.Below(f.u, rank, s.id);
  }

  /** An idle parent that is not in memory. */
  method OpenAnchor(t: DepTree, root: Stream, s: Stream, id: int, ghost f: Forest, ghost rank: Ranks)
    returns (t': DepTree, p: Stream, ghost h: Forest, ghost r: Ranks)
    requires t.Valid(f, rank) && t.Known(root) && root.id == ROOT && t.Known(s) && id !in t.streams && id != NONE
    modifies t.all
    ensures t'.Valid(h, r) && h.u == AddUp(f.u[id := NONE], ROOT, id) && h.u[s.id] == f.u[s.id]
    ensures t'.Known(p) && p.id == id && t'.Known(s) && p != s && fresh(t'.all - t.all)
    ensures Extends(f, h) && Keeps(t, t')
  {
    t', p, h, r := OpenIdle(t, root, id, f, rank);
    OneMoreKept(t, t', p);
    AnchorKeeps(f, h, id, s.id);
  }

  /** The parent that counts, and the tree with it. */
  method FindParent(t: DepTree, root: Stream, s: Stream, spec: Spec, idle: bool, ghost f: Forest, ghost rank: Ranks)
    returns (t': DepTree, p: Stream, e: Spec, ghost h: Forest, ghost r: Ranks)
    requires t.Valid(f, rank) && t.Known(root) && root.id == ROOT && t.Known(s) && s.id != ROOT && Whole(f.u)
    requires spec.parent != s.id && spec.parent != NONE && 1 <= spec.weight <= MAX_WEIGHT
    modifies t.all
    ensures 1 <= e.weight <= MAX_WEIGHT
    ensures t'.Valid(h, r) && h.u == Anchored(f.u, spec, idle) && e == Effective(f.u, spec, idle)
    ensures h.u[s.id] == f.u[s.id]
    ensures t'.Known(p) && p.id == e.parent && t'.Known(s) && p != s && fresh(t'.all - t.all)
    ensures Extends(f, h) && Keeps(t, t')
  {
    t', p, e, h, r := t, root, spec, f, rank;
    if spec.parent != ROOT {
      var dep := t.Ptr(spec.parent);
      if dep == null {
        if idle {
          t', p, h, r := OpenAnchor(t, root, s, spec.parent, f, rank);
        } else {
          e := DEFAULT_SPEC;
        }
      } else {
        InTreeHasParent(t, dep, f, rank);
        if InDepTree(dep) {
          p := dep;
        } else {
          e := DEFAULT_SPEC;
        }
      }
    }
  }

  method ReprioritizeInTree(t: DepTree, root: Stream, s: Stream, spec: Spec, idle: bool, ghost f: Forest,
                            ghost rank: Ranks)
    returns (t': DepTree, ghost g: Forest, ghost r: Ranks, ghost between: Ranks)
    requires t.Valid(f, rank) && t.Known(root) && root.id == ROOT && t.Known(s) && s.id != ROOT && Whole(f.u)
    requires spec.parent != s.id && spec.parent != NONE && 1 <= spec.weight <= MAX_WEIGHT && f.u[s.id] != NONE
    modifies t.all
    ensures t'.Valid(g, r) && Whole(g.u)
    ensures Keeps(t, t') && t'.streams.Keys == Anchored(f.u, spec, idle).Keys && fresh(t'.all - t.all)
    ensures Reordered(f, g, Anchored(f.u, spec, idle), between, s.id, Effective(f.u, spec, idle))
  {
    var p, e;
    t', p, e, g, between := FindParent(t, root, s, spec, idle, f, rank);
    HasParentPointer(t', s, g, between);
    ghost var h := g;
    g, r := MoveTo(t', p, s, e.weight, e.exclusive, g, between);
    MovedIsReordered(f, h, g, h.u, between, s.id, e);
    WholeAgain(f.u, rank, h.u, between, s.id, spec, idle, g.u);
  }

  lemma WholeAgain(u: Parents, rank: Ranks, u1: Parents, between: Ranks, s: int, spec: Spec, idle: bool, r: Parents)
    requires Ranked(u, rank) && Whole(u) && s in u && s != ROOT && u[s] != NONE && spec.parent != s
    requires spec.parent != NONE
    requires u1 == Anchored(u, spec, idle) && Ranked(u1, between)
    requires var e := Effective(u, spec, idle);
             s in u1 && e.parent in u1 && r == Reprioritized(u1, between, s, e.parent, e.exclusive)
    ensures Whole(r) && r.Keys == u1.Keys
  {
    var e := Effective(u, spec, idle);
    AnchoredWhole(u, rank, s, spec, idle);
    ReprioritizedWhole(u1, between, s, e.parent, e.exclusive);
  }

  /** The parent asked for can be had: the root, a stream that is in the tree, or an idle one not in memory yet. */
  predicate MayBeParent(u: Parents, p: int, idle: bool) {
    p == ROOT || if p in u then u[p] != NONE else idle
  }

  /**
   * What was asked for happens: s is below the parent asked for with the weight asked for, and if exclusive it is the
   * only one there.  With a parent that cannot be had it is below the root with the default weight.
   */
  ghost predicate PlacedAsAsked(u: Parents, g: Forest, s: int, spec: Spec, idle: bool) {
    var p, taken := spec.parent, MayBeParent(u, spec.parent, idle);
    && s in g.u && s in g.w
    && (if taken then g.u[s] == p && g.w[s] == spec.weight else g.u[s] == ROOT && g.w[s] == 16)
    && (taken && spec.exclusive ==> forall x | x in g.u && x != s :: g.u[x] != p)
  }

  /** Of the others, the parent may move to where s was, and its children to s; a new stream hangs below the root. */
  ghost predicate OthersAsAsked(u: Parents, r: Parents, s: int, spec: Spec, idle: bool)
    requires s in u
  {
    var p, taken := spec.parent, MayBeParent(u, spec.parent, idle);
    && (forall x | x in u :: x in r) && (forall x | x in r && x !in u :: x == p && r[x] == ROOT)
    && (forall x | x in u && x != s && x != p :: r[x] == if taken && spec.exclusive && u[x] == p then s else u[x])
    && (p in u ==> r[p] == u[p] || (taken && r[p] == u[s]))
  }

  lemma ReorderedAsAsked(f: Forest, rank: Ranks, g: Forest, between: Ranks, s: int, spec: Spec, idle: bool)
    requires Ranked(f.u, rank) && Whole(f.u) && s in f.u && s != ROOT && f.u[s] != NONE
    requires spec.parent != s && spec.parent != NONE
    requires Reordered(f, g, Anchored(f.u, spec, idle), between, s, Effective(f.u, spec, idle))
    ensures PlacedAsAsked(f.u, g, s, spec, idle) && OthersAsAsked(f.u, g.u, s, spec, idle)
  {
    AnchoredWhole(f.u, rank, s, spec, idle);
    PlacedThere(f, g, between, s, spec, idle);
    OthersMoved(f.u, Anchored(f.u, spec, idle), between, s, spec, idle);
  }

  lemma PlacedThere(f: Forest, g: Forest, between: Ranks, s: int, spec: Spec, idle: bool)
    requires s in f.u && s != ROOT && f.u[s] != NONE && spec.parent != s && spec.parent != NONE
    requires var u1, e := Anchored(f.u, spec, idle), Effective(f.u, spec, idle);
             && Reordered(f, g, u1, between, s, e) && Whole(u1) && u1[s] == f.u[s]
             && e.parent in u1 && e.parent != s && (e.parent == ROOT || u1[e.parent] != NONE)
    ensures PlacedAsAsked(f.u, g, s, spec, idle)
  {
    var u1, e := Anchored(f.u, spec, idle), Effective(f.u, spec, idle);
    ReprioritizedWhole(u1, between, s, e.parent, e.exclusive);
    forall x | e.exclusive && x in g.u && x != s
      ensures g.u[x] != e.parent
    {
      if x == e.parent && Under(u1, between, s, x) {
        UnderRank(u1, between, s, x);
        assert DepForest.Below(u1, between, s);
      }
    }
  }

  lemma RootChildNotBelow(u: Parents, rank: Ranks, s: int, p: int)
    requires Ranked(u, rank) && Whole(u) && p in u && (p == ROOT || u[p] == ROOT) && s != p && s != ROOT
    ensures !Under(u, rank, s, p)
  {
    assert !Under(u, rank, s, ROOT);
  }

  lemma OthersMoved(u: Parents, u1: Parents, between: Ranks, s: int, spec: Spec, idle: bool)
    requires s in u && s != ROOT && u[s] != NONE && spec.parent != s && spec.parent != NONE
    requires u1 == Anchored(u, spec, idle) && Whole(u1) && Ranked(u1, between) && s in u1 && u1[s] == u[s]
    requires var e := Effective(u, spec, idle);
             e.parent in u1 && e.parent != s && (e.parent == ROOT || u1[e.parent] != NONE)
    ensures var e := Effective(u, spec, idle);
            OthersAsAsked(u, Reprioritized(u1, between, s, e.parent, e.exclusive), s, spec, idle)
  {
    var e := Effective(u, spec, idle);
    ReprioritizedWhole(u1, between, s, e.parent, e.exclusive);
    if e.parent == ROOT || u1[e.parent] == ROOT {
      RootChildNotBelow(u1, between, s, e.parent);
    }
    MovedAsAsked(u, u1, Reprioritized(u1, between, s, e.parent, e.exclusive), s, spec, idle);
  }

  lemma MovedAsAsked(u: Parents, u1: Parents, r: Parents, s: int, spec: Spec, idle: bool)
    requires s in u && s != ROOT && spec.parent != s && spec.parent != NONE && u1 == Anchored(u, spec, idle)
    requires r.Keys == u1.Keys && ROOT in u && u[ROOT] == NONE
    requires var e := Effective(u, spec, idle);
             forall x | x in u1 && x != s ::
               if x != e.parent then r[x] == if e.exclusive && u1[x] == e.parent then s else u1[x]
               else r[x] == u1[x] || (r[x] == u[s] && e.parent != ROOT && u1[x] != ROOT)
    ensures OthersAsAsked(u, r, s, spec, idle)
  {
  }

  /**
   * `nghttp2_session_reprioritize_stream`: for every parent asked for, one of its own descendants, an idle or an
   * unknown id included.  `idle` is `session_detect_idle_stream`.
   */
  method Reprioritize(t: DepTree, root: Stream, s: Stream, spec: Spec, idle: bool, ghost f: Forest, ghost rank: Ranks)
    returns (t': DepTree, ghost g: Forest, ghost r: Ranks, ghost between: Ranks)
    requires t.Valid(f, rank) && t.Known(root) && root.id == ROOT && t.Known(s) && s.id != ROOT && Whole(f.u)
    requires spec.parent != s.id && spec.parent != NONE && 1 <= spec.weight <= MAX_WEIGHT
    modifies t.all
    ensures t'.Valid(g, r) && Whole(g.u)
    ensures Keeps(t, t') && t'.Known(root) && t'.Known(s) && fresh(t'.all - t.all)
    ensures f.u[s.id] == NONE ==> t' == t && g == f
    ensures f.u[s.id] != NONE ==>
              && t'.streams.Keys == Anchored(f.u, spec, idle).Keys
              && Reordered(f, g, Anchored(f.u, spec, idle), between, s.id, Effective(f.u, spec, idle))
    ensures f.u[s.id] != NONE ==>
              PlacedAsAsked(f.u, g, s.id, spec, idle) && OthersAsAsked(f.u, g.u, s.id, spec, idle)
  {
    InTreeHasParent(t, s, f, rank);
    if InDepTree(s) {
      t', g, r, between := ReprioritizeInTree(t, root, s, spec, idle, f, rank);
      ReorderedAsAsked(f, rank, g, between, s.id, spec, idle);
    } else {
      t', g, r, between := t, f, rank, rank;
    }
  }

  /** The parent that counts is in the tree, anchor included, and the tree with the anchor is one tree. */
  lemma AnchoredWhole(u: Parents, rank: Ranks, s: int, spec: Spec, idle: bool)
    requires Ranked(u, rank) && Whole(u) && s in u && s != ROOT && u[s] != NONE && spec.parent != s
    requires spec.parent != NONE
    ensures var u1, e := Anchored(u, spec, idle), Effective(u, spec, idle);
            && Whole(u1) && s in u1 && u1[s] == u[s] && e.parent in u1 && e.parent != s
            && (e.parent == ROOT || u1[e.parent] != NONE)
            && u1.Keys == if u1 == u then u.Keys else u.Keys + {spec.parent}
  {
    var u1 := Anchored(u, spec, idle);
    forall y | y in u1 && u1[y] != NONE ensures u1[y] in u1 && (u1[y] == ROOT || u1[u1[y]] != NONE) {
      assert y in u && u[y] != NONE ==> u[y] in u && (u[y] == ROOT || u[u[y]] != NONE);
    }
  }

  /**
   * Safety of reprioritisation: the result is again one tree, over the same streams and at most one new anchor.
   * Every stream that hung below the root still does; s has the parent that counts; that parent, if it was below
   * s, has s's old one; with exclusivity the other children of that parent are s's; no other parent changed.
   */
  lemma ReprioritizedWhole(u: Parents, rank: Ranks, s: int, p: int, exclusive: bool)
    requires Ranked(u, rank) && Whole(u) && s in u && s != ROOT && u[s] != NONE
    requires p in u && p != s && (p == ROOT || u[p] != NONE)
    ensures var r := Reprioritized(u, rank, s, p, exclusive);
            && Whole(r) && r.Keys == u.Keys
            && (forall x | x in u :: u[x] != NONE <==> r[x] != NONE)
            && (forall x | x in u && (x == ROOT || r[x] != NONE) ::
                  Under(r, RanksAfter(u, rank, s, p, exclusive), ROOT, x))
            && forall x | x in u ::
                 r[x] == if x == s then p
                         else if x == p && Under(u, rank, s, p) then u[s]
                         else if exclusive && u[x] == p then s
                         else u[x]
  {
    var r, rank' := Reprioritized(u, rank, s, p, exclusive), RanksAfter(u, rank, s, p, exclusive);
    forall x | x in u
      ensures x in r && (u[x] != NONE <==> r[x] != NONE)
      ensures r[x] == if x == s then p
                      else if x == p && Under(u, rank, s, p) then u[s]
                      else if exclusive && u[x] == p then s
                      else u[x]
    {
      ReprioritizedAt(u, rank, s, p, exclusive, x);
      assert DepForest.Below(u, rank, s);
    }
    ReprioritizedAt(u, rank, s, p, exclusive, s);
    if ROOT == p && Under(u, rank, s, p) {
      UnderRank(u, rank, s, ROOT);
    }
    forall x | x in u && (x == ROOT || r[x] != NONE) ensures Under(r, rank', ROOT, x) {
      WholeIsRooted(r, rank', x);
    }
  }
}
