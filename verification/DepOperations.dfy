/**
 * The operations on the dependency tree as functions of everything its streams store, and the theorem of each:
 * links, ranks, weights and queues stay sound.
 */
module DepOperations {
  import opened DepForest
  import opened DepLinks
  import opened DepQueue
  import opened DepWeights

  /** What the streams store, under their ids; u repeats the parents from the links. */
  datatype Forest = Forest(l: LinkMap, u: Parents, kids: Kids, w: Weights, sums: Sums, q: QueueMap)

  /** The links: a forest in which no one is its own ancestor, and the root has no parent. */
  ghost predicate Shape(f: Forest, rank: Ranks) {
    && Linked(f.l, f.kids) && f.u == Up(f.l) && Ranked(f.u, rank)
    && Rooted(f.u)
  }

  /** The invariant: a forest, with sums and queues that fit it. */
  ghost predicate Sound(f: Forest, rank: Ranks) {
    Shape(f, rank) && SumsOk(f.w, f.sums, f.kids) && QueuesOk(f.u, f.q, {})
  }

  /** s may go below p: it heads a tree of its own, in which p is not. */
  ghost predicate MayGoBelow(f: Forest, rank: Ranks, p: int, s: int) {
    && Ranked(f.u, rank) && f.u.Keys == f.l.Keys
    && p in f.u && s in f.u && f.u[s] == NONE && s != ROOT && !Under(f.u, rank, s, p)
  }

  lemma BelowFacts(f: Forest, rank: Ranks, p: int, s: int)
    requires Shape(f, rank) && MayGoBelow(f, rank, p, s)
    ensures s != p && f.l[p].depPrev != p && f.l[p].depPrev != s
    ensures f.l[p].depNext == NONE || f.l[p].depNext in f.l
    ensures f.l[s].depNext == NONE || f.l[s].depNext in f.l
    ensures f.l[s] == Links(NONE, f.l[s].depNext, NONE, NONE)
    ensures (forall k | k in f.kids[p] :: k in f.l) && (forall k | k in f.kids[s] :: k in f.l)
  {
    FirstChild(f.l, f.kids, p);
    FirstChild(f.l, f.kids, s);
    KidsKnown(f.l, f.kids, p);
    KidsKnown(f.l, f.kids, s);
    assert Placed(f.l, f.kids, s);
    assert f.u[p] == NONE || DepForest.Below(f.u, rank, p);
    if f.l[p].depPrev == s {
      assert Under(f.u, rank, s, s);
    }
  }

  /** What putting s below p touches is there. */
  ghost predicate AddReady(f: Forest, p: int, s: int) {
    && p in f.l && s in f.l && (f.l[p].depNext == NONE || f.l[p].depNext in f.l)
    && p in f.kids && p in f.sums && s in f.w && p in f.q && s in f.q
  }

  /** `nghttp2_stream_dep_add` */
  ghost function Add(f: Forest, p: int, s: int): Forest
    requires AddReady(f, p, s)
  {
    f.(l := AddLinks(f.l, p, s), u := AddUp(f.u, p, s), kids := AddKids(f.kids, p, s),
      sums := AddSums(f.w, f.sums, p, s))
  }

  /** A predicate of its own, so that the solver does not look into the maps for the root. */
  predicate Rooted(u: Parents) {
    ROOT in u && u[ROOT] == NONE
  }

  lemma AddKeepsRoot(u: Parents, p: int, s: int)
    requires Rooted(u) && s != ROOT
    ensures Rooted(AddUp(u, p, s))
  {
  }

  lemma AddShape(f: Forest, rank: Ranks, p: int, s: int)
    requires Sound(f, rank) && MayGoBelow(f, rank, p, s)
    ensures AddReady(f, p, s) && Shape(Add(f, p, s), AddRank(f.u, rank, p, s))
  {
    BelowFacts(f, rank, p, s);
    AddKeepsLinked(f.l, f.kids, p, s);
    AddMovesUp(f.l, f.kids, p, s);
    AddKeepsRanked(f.u, rank, p, s);
    AddKeepsRoot(f.u, p, s);
  }

  lemma AddSound(f: Forest, rank: Ranks, p: int, s: int)
    requires Sound(f, rank) && MayGoBelow(f, rank, p, s) && !f.q[s].Busy()
    ensures AddReady(f, p, s) && Sound(Add(f, p, s), AddRank(f.u, rank, p, s))
  {
    AddShape(f, rank, p, s);
    AddKeepsSums(f.w, f.sums, f.kids, p, s);
    PlantIdle(f.u, f.q, p, s);
  }

  ghost predicate AddSubtreeReady(f: Forest, r: Ranks, p: int, s: int) {
    AddReady(f, p, s) && Sized(AddUp(f.u, p, s), r, f.w, f.q) && Up(AddLinks(f.l, p, s)) == AddUp(f.u, p, s)
  }

  /** `nghttp2_stream_dep_add_subtree` */
  ghost function AddSubtree(f: Forest, r: Ranks, p: int, s: int): Forest
    requires AddSubtreeReady(f, r, p, s)
  {
    Add(f, p, s).(q := AddSubtreeQueue(AddUp(f.u, p, s), r, f.w, f.q, p, s))
  }

  lemma AddSubtreeSound(f: Forest, rank: Ranks, p: int, s: int)
    requires Sound(f, rank) && MayGoBelow(f, rank, p, s)
    ensures AddSubtreeReady(f, AddRank(f.u, rank, p, s), p, s)
    ensures Sound(AddSubtree(f, AddRank(f.u, rank, p, s), p, s), AddRank(f.u, rank, p, s))
    ensures SameItems(f.q, AddSubtree(f, AddRank(f.u, rank, p, s), p, s).q)
  {
    AddShape(f, rank, p, s);
    AddKeepsSums(f.w, f.sums, f.kids, p, s);
    AddSubtreeQueueOk(f.u, AddRank(f.u, rank, p, s), f.w, f.q, p, s);
  }

  /** p's children, as the queues see them. */
  lemma KidsAreChildren(f: Forest, rank: Ranks, p: int)
    requires Shape(f, rank) && p in f.l
    ensures Children(f.u, p, f.kids[p])
  {
    assert ChildrenOf(f.l, p, f.kids[p]);
    DistinctAll(f.l, p, f.kids[p]);
    forall x | x in f.l ensures x in f.kids[p] <==> f.l[x].depPrev == p {
      ChildHasParent(f.l, f.kids, p, x);
    }
    KidsKnown(f.l, f.kids, p);
  }

  /** What s's taking over p's children touches is there. */
  ghost predicate TakeReady(f: Forest, p: int, s: int) {
    && f.l.Keys == f.u.Keys == f.q.Keys && p in f.l && s in f.l && s != p
    && p in f.kids && s in f.kids && p in f.sums && s in f.sums && s in f.w
    && (forall k | k in f.kids[p] :: k in f.l && k != p && k != s) && (forall k | k in f.kids[s] :: k in f.l)
    && f.l[p].depNext == At(f.kids[p], 0) && f.l[s].depNext == At(f.kids[s], 0) && NONE !in f.l
  }

  /** The tree in which s took over p's children. */
  ghost function Taken(f: Forest, p: int, s: int): Forest
    requires TakeReady(f, p, s)
  {
    f.(l := InsertLinks(f.l, p, s, f.kids[s], f.kids[p]), u := InsertUp(f.u, p, s), kids := InsertKids(f.kids, p, s),
      sums := InsertSums(f.w, f.sums, p, s))
  }

  ghost predicate InsertReady(f: Forest, r: Ranks, p: int, s: int) {
    && TakeReady(f, p, s) && CanMove(f, r, f.kids[p], s, p) && Up(f.l) == f.u && f.kids[s] == [] && f.sums[s] == 0
  }

  /** `nghttp2_stream_dep_insert`, for a stream without children */
  ghost function Insert(f: Forest, r: Ranks, p: int, s: int): Forest
    requires InsertReady(f, r, p, s)
  {
    Taken(f, p, s).(q := InsertQueue(f.u, r, f.w, f.q, f.kids[p], p, s))
  }

  /** own is a chain of siblings. */
  ghost predicate Chained(l: LinkMap, own: seq<int>) {
    NONE !in own && forall j | 0 <= j < |own| :: own[j] in l && l[own[j]].sibNext == At(own, j + 1)
  }

  ghost predicate InsertSubtreeReady(f: Forest, r: Ranks, p: int, s: int) {
    && TakeReady(f, p, s) && Sized(AddUp(f.u, p, s), r, f.w, f.q) && Movable(AddUp(f.u, p, s), r, f.kids[p], s, p)
    && Up(f.l) == f.u && Ranked(f.u, r) && Ranked(InsertUp(f.u, p, s), r) && f.u[s] == NONE
    && Children(f.u, p, f.kids[p]) && Chained(f.l, f.kids[p]) && Chained(f.l, f.kids[s])
    && forall k | k in f.kids[s] :: k !in f.kids[p]
  }

  /** `nghttp2_stream_dep_insert_subtree` */
  ghost function InsertSubtree(f: Forest, r: Ranks, p: int, s: int): Forest
    requires InsertSubtreeReady(f, r, p, s)
  {
    Taken(f, p, s).(q := InsertSubtreeQueue(f.u, r, f.w, f.q, f.kids[p], p, s))
  }

  lemma TakenShape(f: Forest, rank: Ranks, p: int, s: int)
    requires Sound(f, rank) && MayGoBelow(f, rank, p, s)
    ensures TakeReady(f, p, s) && Shape(Taken(f, p, s), InsertRank(f.u, rank, p, s))
  {
    BelowFacts(f, rank, p, s);
    KidsAreChildren(f, rank, p);
    ChainOf(f, p);
    ChainOf(f, s);
    InsertKeepsLinked(f.l, f.kids, p, s);
    InsertMovesUp(f.l, f.kids, p, s);
    InsertKeepsRanked(f.u, rank, p, s);
  }

  /** Ranks under which s may take over p's children. */
  lemma InsertRanks(f: Forest, rank: Ranks, p: int, s: int)
    requires Sound(f, rank) && MayGoBelow(f, rank, p, s)
    ensures var u, r := f.u, InsertRank(f.u, rank, p, s);
            && Sized(u, r, f.w, f.q) && Sized(AddUp(u, p, s), r, f.w, f.q) && Ranked(InsertUp(u, p, s), r)
            && Movable(u, r, f.kids[p], s, p)
  {
    BelowFacts(f, rank, p, s);
    KidsAreChildren(f, rank, p);
    InsertKeepsRanked(f.u, rank, p, s);
    InsertRankFits(f.u, rank, p, s);
  }

  lemma InsertIsReady(f: Forest, rank: Ranks, p: int, s: int)
    requires Sound(f, rank) && MayGoBelow(f, rank, p, s) && f.kids[s] == []
    ensures InsertReady(f, InsertRank(f.u, rank, p, s), p, s)
  {
    TakenShape(f, rank, p, s);
    InsertRanks(f, rank, p, s);
    ChainOf(f, p);
    assert SumOf(f.w, f.sums, f.kids, s);
  }

  lemma InsertSound(f: Forest, rank: Ranks, p: int, s: int)
    requires Sound(f, rank) && MayGoBelow(f, rank, p, s) && f.kids[s] == [] && !f.q[s].Busy()
    ensures InsertReady(f, InsertRank(f.u, rank, p, s), p, s)
    ensures Sound(Insert(f, InsertRank(f.u, rank, p, s), p, s), InsertRank(f.u, rank, p, s))
    ensures SameItems(f.q, Insert(f, InsertRank(f.u, rank, p, s), p, s).q)
  {
    InsertIsReady(f, rank, p, s);
    KidsAreChildren(f, rank, p);
    InsertRanks(f, rank, p, s);
    TakenShape(f, rank, p, s);
    InsertKeepsSums(f.w, f.sums, f.kids, p, s);
    InsertQueueOk(f.u, InsertRank(f.u, rank, p, s), f.w, f.q, f.kids[p], p, s);
  }

  lemma InsertSubtreeIsReady(f: Forest, rank: Ranks, p: int, s: int)
    requires Sound(f, rank) && MayGoBelow(f, rank, p, s)
    ensures InsertSubtreeReady(f, InsertRank(f.u, rank, p, s), p, s)
  {
    TakenShape(f, rank, p, s);
    InsertRanks(f, rank, p, s);
    KidsAreChildren(f, rank, p);
    KidsAreChildren(f, rank, s);
    ChainOf(f, p);
    ChainOf(f, s);
  }

  lemma InsertSubtreeSound(f: Forest, rank: Ranks, p: int, s: int)
    requires Sound(f, rank) && MayGoBelow(f, rank, p, s)
    ensures InsertSubtreeReady(f, InsertRank(f.u, rank, p, s), p, s)
    ensures Sound(InsertSubtree(f, InsertRank(f.u, rank, p, s), p, s), InsertRank(f.u, rank, p, s))
    ensures SameItems(f.q, InsertSubtree(f, InsertRank(f.u, rank, p, s), p, s).q)
  {
    InsertSubtreeIsReady(f, rank, p, s);
    KidsAreChildren(f, rank, p);
    InsertRanks(f, rank, p, s);
    TakenShape(f, rank, p, s);
    InsertKeepsSums(f.w, f.sums, f.kids, p, s);
    InsertSubtreeQueueOk(f.u, InsertRank(f.u, rank, p, s), f.w, f.q, f.kids[p], p, s);
  }

  /** s has a parent, and stands as child number j below it. */
  ghost predicate StandsAt(f: Forest, p: int, s: int, j: nat) {
    && s in f.u && f.u[s] == p && p in f.kids && j < |f.kids[p]| && f.kids[p][j] == s && Guarded(f.l, s)
  }

  lemma StandsSomewhere(f: Forest, rank: Ranks, s: int) returns (j: nat)
    requires Shape(f, rank) && s in f.u && f.u[s] != NONE
    ensures StandsAt(f, f.u[s], s, j)
  {
    j := Position(f.l, f.kids, s);
  }

  lemma ChildFacts(f: Forest, rank: Ranks, p: int, s: int)
    requires Shape(f, rank) && s in f.u && f.u[s] == p && p in f.u
    ensures s != p && f.l[p].depPrev != p && f.l[p].depPrev != s && f.l[s].depPrev == p
    ensures (forall k | k in f.kids[s] :: k in f.l && k != s) && (forall k | k in f.kids[p] :: k in f.l)
    ensures p !in f.kids[s] && s != ROOT
  {
    assert DepForest.Below(f.u, rank, s);
    assert f.u[p] == NONE || DepForest.Below(f.u, rank, p);
    KidsKnown(f.l, f.kids, s);
    KidsKnown(f.l, f.kids, p);
  }

  /** s may be pulled out of the queues: if it is queued, so is all above it. */
  ghost predicate MayLeave(f: Forest, rank: Ranks, s: int) {
    && Sized(f.u, rank, f.w, f.q) && s in f.q
    && (f.q[s].queued ==> f.u[s] in f.q && QueuedUp(f.u, rank, f.q, s))
  }

  /** s out of the queues. */
  ghost function Left(f: Forest, rank: Ranks, s: int): Forest
    requires MayLeave(f, rank, s)
  {
    f.(q := CutQueue(f.u, rank, f.q, s))
  }

  /** What cutting s off touches is there. */
  ghost predicate CutReady(f: Forest, rank: Ranks, s: int, j: nat) {
    && s in f.u && StandsAt(f, f.u[s], s, j) && f.u[s] in f.sums && s in f.w
    && f.u == Up(f.l) == Up(Bypass(f.l, s)) && MayLeave(f, rank, s)
  }

  /** `nghttp2_stream_dep_remove_subtree` */
  ghost function Cut(f: Forest, rank: Ranks, s: int, j: nat): Forest
    requires CutReady(f, rank, s, j)
  {
    f.(l := CutLinks(f.l, s), u := CutUp(f.u, s), kids := CutKids(f.kids, f.u[s], j),
      sums := CutSums(f.w, f.sums, f.u[s], s), q := CutQueue(f.u, rank, f.q, s))
  }

  lemma CutKeepsRoot(u: Parents, s: int)
    requires Rooted(u) && s != ROOT
    ensures Rooted(CutUp(u, s))
  {
  }

  lemma CutIsReady(f: Forest, rank: Ranks, s: int, j: nat)
    requires Sound(f, rank) && s in f.u && f.u[s] != NONE && StandsAt(f, f.u[s], s, j)
    ensures CutReady(f, rank, s, j)
  {
    assert DepForest.Below(f.u, rank, s);
    BypassMovesNone(f.l, f.kids, s);
    if f.q[s].queued {
      QueuedMeansUp(f.u, rank, f.q, {}, s);
    }
  }

  lemma CutSound(f: Forest, rank: Ranks, s: int, j: nat)
    requires Sound(f, rank) && s in f.u && f.u[s] != NONE && StandsAt(f, f.u[s], s, j)
    ensures CutReady(f, rank, s, j)
    ensures Sound(Cut(f, rank, s, j), rank) && SameItems(f.q, Cut(f, rank, s, j).q)
    ensures MayGoBelow(Cut(f, rank, s, j), rank, f.u[s], s)
  {
    var p := f.u[s];
    assert DepForest.Below(f.u, rank, s);
    CutIsReady(f, rank, s, j);
    ChildFacts(f, rank, p, s);
    CutKeepsLinked(f.l, f.kids, p, s, j);
    CutMovesUp(f.l, f.kids, p, s);
    CutKeepsRanked(f.u, rank, s);
    CutKeepsRoot(f.u, s);
    CutKeepsSums(f.w, f.sums, f.kids, p, s, j);
    CutQueueOk(f.u, rank, f.q, s);
    if Under(CutUp(f.u, s), rank, s, p) {
      UnderRank(CutUp(f.u, s), rank, s, p);
    }
  }

  /** Everything that taking s out touches is there. */
  ghost predicate Removable(f: Forest, s: int, j: nat) {
    && s in f.u && StandsAt(f, f.u[s], s, j) && f.u[s] in f.sums && s in f.sums && s in f.w && s in f.kids
    && (f.sums[s] > 0 || f.kids[s] == []) && f.u[s] in f.q && s in f.q
    && forall k | k in f.kids[s] :: k in f.l && k in f.w && k in f.q
  }

  /** What `nghttp2_stream_dep_remove` relies on. */
  ghost predicate RemoveReady(f: Forest, rank: Ranks, s: int, j: nat) {
    && Removable(f, s, j) && Sized(f.u, rank, f.w, f.q) && f.u[s] != s
    && CanShareOut(f, rank, RemoveWeights(f.w, f.sums, f.kids[s], s), f.kids[s], f.u[s], s)
    && f.l[s].depNext == At(f.kids[s], 0) && f.l[s].sibPrev !in f.kids[s]
  }

  /** ks may share the weight of s while they move to p, and s may leave the queues after that. */
  ghost predicate CanShareOut(f: Forest, rank: Ranks, w': Weights, ks: seq<int>, p: int, s: int) {
    CanShare(f, rank, w', ks, p, s) && p in f.sums && MayLeave(Sharing(f, rank, w', ks, p, s), rank, s)
  }

  /** The loop is done, its change of the sum passed on, and s is out of the queues. */
  ghost function SharedOut(f: Forest, rank: Ranks, w': Weights, ks: seq<int>, p: int, s: int): Forest
    requires CanShareOut(f, rank, w', ks, p, s)
  {
    Left(SummedUp(Sharing(f, rank, w', ks, p, s), p, Total(w', ks) - f.w[s]), rank, s)
  }

  lemma SharedOutLeaves(f: Forest, rank: Ranks, w': Weights, ks: seq<int>, p: int, s: int, h: Forest, delta: int)
    requires CanShareOut(f, rank, w', ks, p, s) && delta == Total(w', ks) - f.w[s]
    requires h == SummedUp(Sharing(f, rank, w', ks, p, s), p, delta)
    ensures MayLeave(h, rank, s) && h.u == Up(h.l) && SharedOut(f, rank, w', ks, p, s) == Left(h, rank, s)
  {
  }

  ghost function SummedUp(g: Forest, p: int, delta: int): Forest
    requires p in g.sums
  {
    g.(sums := g.sums[p := g.sums[p] + delta])
  }

  /** s without links and without a sum. */
  ghost function Bare(g: Forest, s: int): Forest {
    g.(l := g.l[s := UNLINKED], sums := g.sums[s := 0])
  }

  /** s's children, cs, in its place. */
  ghost function Unlinked(g: Forest, s: int, cs: seq<int>): Forest
    requires Guarded(g.l, s) && forall k | k in cs :: k in g.l
  {
    g.(l := Unlink(g.l, s, cs))
  }

  /** `nghttp2_stream_dep_remove` */
  ghost function Remove(f: Forest, rank: Ranks, s: int, j: nat): Forest
    requires RemoveReady(f, rank, s, j)
  {
    var h := SharedOut(f, rank, RemoveWeights(f.w, f.sums, f.kids[s], s), f.kids[s], f.u[s], s);
    Bare(Unlinked(h, s, f.kids[s]), s).(
      u := RemoveUp(f.u, s), kids := RemoveKids(f.kids, f.u[s], s, j))
  }

  lemma SharedOutParts(f: Forest, rank: Ranks, w': Weights, ks: seq<int>, p: int, s: int)
    requires CanShareOut(f, rank, w', ks, p, s)
    ensures var h := SharedOut(f, rank, w', ks, p, s);
            && h.l == f.l && h.u == f.u && h.kids == f.kids && h.w == w'
            && h.sums == f.sums[p := f.sums[p] + (Total(w', ks) - f.w[s])]
            && h.q == CutQueue(f.u, rank, MoveAll(f.u, rank, w', f.q, ks, p, s), s)
  {
  }

  lemma RemoveFromSharedOut(f: Forest, rank: Ranks, s: int, j: nat, h: Forest)
    requires RemoveReady(f, rank, s, j)
    requires h == SharedOut(f, rank, RemoveWeights(f.w, f.sums, f.kids[s], s), f.kids[s], f.u[s], s) && h.l == f.l
    ensures var r := Remove(f, rank, s, j);
            r.l == RemoveLinks(f.l, s, f.kids[s]) && r.w == h.w && r.sums == h.sums[s := 0] && r.q == h.q
  {
  }

  lemma RemoveParts(f: Forest, rank: Ranks, s: int, j: nat)
    requires RemoveReady(f, rank, s, j)
    ensures var r, w' := Remove(f, rank, s, j), RemoveWeights(f.w, f.sums, f.kids[s], s);
            && r.l == RemoveLinks(f.l, s, f.kids[s]) && r.w == w'
            && r.sums == RemoveSums(f.w, f.sums, f.kids[s], f.u[s], s)
            && r.q == RemoveQueue(f.u, rank, w', f.q, f.kids[s], s)
  {
    var w', ks, p := RemoveWeights(f.w, f.sums, f.kids[s], s), f.kids[s], f.u[s];
    var h := SharedOut(f, rank, w', ks, p, s);
    SharedOutParts(f, rank, w', ks, p, s);
    SumsOfSharedOut(f.w, f.sums, ks, p, s, h.sums);
    RemoveFromSharedOut(f, rank, s, j, h);
  }

  lemma SumsOfSharedOut(w: Weights, sums: Sums, ks: seq<int>, p: int, s: int, r: Sums)
    requires s in w && s in sums && p in sums && (sums[s] > 0 || ks == []) && forall k | k in ks :: k in w
    requires r == sums[p := sums[p] + (Total(RemoveWeights(w, sums, ks, s), ks) - w[s])]
    ensures RemoveSums(w, sums, ks, p, s) == r[s := 0]
  {
  }

  lemma RemoveKeepsRoot(u: Parents, s: int)
    requires Rooted(u) && s in u && s != ROOT && s != NONE
    ensures Rooted(RemoveUp(u, s))
  {
  }

  lemma RemoveMovable(f: Forest, rank: Ranks, s: int)
    requires Shape(f, rank) && s in f.u && f.u[s] in f.u
    ensures Children(f.u, s, f.kids[s]) && Movable(f.u, rank, f.kids[s], f.u[s], s)
  {
    KidsAreChildren(f, rank, s);
    assert DepForest.Below(f.u, rank, s);
    forall k | k in f.kids[s] ensures k in f.u && f.u[k] == s && rank[f.u[s]] < rank[k] {
      assert DepForest.Below(f.u, rank, k);
    }
  }

  lemma RemoveWeightsOk(f: Forest, rank: Ranks, s: int, j: nat)
    requires Sound(f, rank) && s in f.u && f.u[s] in f.u && StandsAt(f, f.u[s], s, j)
    ensures Removable(f, s, j)
    ensures SumsOk(RemoveWeights(f.w, f.sums, f.kids[s], s), RemoveSums(f.w, f.sums, f.kids[s], f.u[s], s),
                   RemoveKids(f.kids, f.u[s], s, j))
  {
    ChildFacts(f, rank, f.u[s], s);
    forall x, k | x in f.kids && k in f.kids[x] && k in f.kids[s] ensures x == s {
      ChildHasParent(f.l, f.kids, x, k);
      ChildHasParent(f.l, f.kids, s, k);
    }
    RemoveKeepsSums(f.w, f.sums, f.kids, f.u[s], s, j);
  }

  lemma RemoveCanShare(f: Forest, rank: Ranks, s: int, j: nat)
    requires Sound(f, rank) && s in f.u && f.u[s] in f.u && StandsAt(f, f.u[s], s, j) && Removable(f, s, j)
    ensures CanShare(f, rank, RemoveWeights(f.w, f.sums, f.kids[s], s), f.kids[s], f.u[s], s)
  {
    RemoveWeightsOk(f, rank, s, j);
    RemoveMovable(f, rank, s);
    ChainOf(f, s);
    assert SumOf(f.w, f.sums, f.kids, s);
    TotalAtLeast(f.w, f.kids[s]);
  }

  lemma RemoveIsReady(f: Forest, rank: Ranks, s: int, j: nat)
    requires Sound(f, rank) && s in f.u && f.u[s] in f.u && StandsAt(f, f.u[s], s, j)
    ensures RemoveReady(f, rank, s, j)
  {
    ChildFacts(f, rank, f.u[s], s);
    RemoveWeightsOk(f, rank, s, j);
    RemoveCanShare(f, rank, s, j);
    ChainOf(f, s);
    MovedStaysUp(f.u, rank, RemoveWeights(f.w, f.sums, f.kids[s], s), f.q, f.kids[s], s);
    if f.l[s].sibPrev != NONE {
      assert ChildrenOf(f.l, f.u[s], f.kids[f.u[s]]) && Child(f.l, f.u[s], f.kids[f.u[s]], j);
      assert Child(f.l, f.u[s], f.kids[f.u[s]], j - 1);
    }
    KidsKnown(f.l, f.kids, s);
  }

  lemma RemoveShape(f: Forest, rank: Ranks, s: int, j: nat)
    requires Sound(f, rank) && RemoveReady(f, rank, s, j)
    ensures Shape(Remove(f, rank, s, j), rank)
  {
    var p := f.u[s];
    RemoveParts(f, rank, s, j);
    ChildFacts(f, rank, p, s);
    RemoveKeepsLinked(f.l, f.kids, p, s, j);
    RemoveMovesUp(f.l, f.kids, p, s);
    RemoveKeepsRanked(f.u, rank, s);
    RemoveKeepsRoot(f.u, s);
  }

  lemma RemoveSound(f: Forest, rank: Ranks, s: int, j: nat)
    requires Sound(f, rank) && s in f.u && f.u[s] in f.u && StandsAt(f, f.u[s], s, j)
    ensures RemoveReady(f, rank, s, j)
    ensures Sound(Remove(f, rank, s, j), rank) && SameItems(f.q, Remove(f, rank, s, j).q)
  {
    RemoveIsReady(f, rank, s, j);
    RemoveWeightsOk(f, rank, s, j);
    RemoveParts(f, rank, s, j);
    RemoveShape(f, rank, s, j);
    RemoveMovable(f, rank, s);
    RemoveQueueOk(f.u, rank, RemoveWeights(f.w, f.sums, f.kids[s], s), f.q, f.kids[s], s);
  }

  // ---- the loops over a stream's children

  /** ks, children of src, have been given the parent dest and moved to its queue. */
  ghost function Moving(f: Forest, rank: Ranks, ks: seq<int>, dest: int, src: int): Forest
    requires Sized(f.u, rank, f.w, f.q) && f.l.Keys == f.u.Keys && src in f.u && dest in f.u
    requires forall k | k in ks :: k in f.u
  {
    f.(l := Reparent(f.l, ks, dest), u := MovedUp(f.u, ks, dest), q := MoveAll(f.u, rank, f.w, f.q, ks, dest, src))
  }

  /** The parents are stored; but that of the first of ks may have been stored ahead of its move. */
  ghost predicate ParentsAhead(f: Forest, ks: seq<int>) {
    f.u.Keys == f.l.Keys && forall x | x in f.l :: f.u[x] == f.l[x].depPrev || (ks != [] && x == ks[0])
  }

  /** What the loops that move ks rely on. */
  ghost predicate CanMove(f: Forest, rank: Ranks, ks: seq<int>, dest: int, src: int) {
    && Sized(f.u, rank, f.w, f.q) && ParentsAhead(f, ks) && Movable(f.u, rank, ks, dest, src)
    && forall j | 0 <= j < |ks| :: ks[j] in f.l && f.l[ks[j]].sibNext == At(ks, j + 1)
  }

  /** Where the loop stands: k of the children are done and c, if any, is next. */
  ghost predicate MovesLeft(f: Forest, rank: Ranks, ks: seq<int>, dest: int, src: int, k: nat, c: int, g: Forest) {
    CanMove(f, rank, ks, dest, src) && k <= |ks| && c == At(ks, k) && g == Moving(f, rank, ks[..k], dest, src)
  }

  /** The child's new parent is stored, its queue not yet changed. */
  ghost function Reparented(g: Forest, c: int, dest: int): Forest
    requires c in g.l
  {
    g.(l := g.l[c := g.l[c].(depPrev := dest)], u := g.u[c := dest])
  }

  /** The child is moved: parent and queue. */
  ghost function MovedChild(g: Forest, rank: Ranks, dest: int, src: int, c: int): Forest
    requires ChildCanMove(g, rank, dest, src, c)
  {
    var g1 := Reparented(g, c, dest);
    g1.(q := MoveTo(g1.u, rank, g1.w, g1.q, dest, src, c))
  }

  ghost predicate ChildCanMove(g: Forest, rank: Ranks, dest: int, src: int, c: int) {
    && c in g.l && c in g.q && dest in g.q && src in g.q
    && (var g1 := Reparented(g, c, dest); Up(g1.l) == g1.u && Sized(g1.u, rank, g1.w, g1.q))
  }

  lemma MovingStep(f: Forest, rank: Ranks, ks: seq<int>, dest: int, src: int, k: nat, c: int, g: Forest)
    requires MovesLeft(f, rank, ks, dest, src, k, c, g) && c != NONE
    ensures k < |ks| && ChildCanMove(g, rank, dest, src, c) && g.l[c].sibNext == At(ks, k + 1)
    ensures MovesLeft(f, rank, ks, dest, src, k + 1, At(ks, k + 1), MovedChild(g, rank, dest, src, c))
  {
    var done, more := ks[..k], ks[..k + 1];
    assert more[..k] == done && more[k] == c;
    ReparentAt(f.l, done, dest, c);
    MovedSublist(f, rank, ks, dest, src, k + 1);
    MoveToAgrees(f.u, rank, f.w, g.q, more, dest, src, c);
    UpMoved(f, ks, k + 1, dest);
  }

  lemma MovedSublist(f: Forest, rank: Ranks, ks: seq<int>, dest: int, src: int, n: nat)
    requires Movable(f.u, rank, ks, dest, src) && n <= |ks|
    ensures Movable(f.u, rank, ks[..n], dest, src)
  {
  }

  lemma UpMoved(f: Forest, ks: seq<int>, n: nat, dest: int)
    requires ParentsAhead(f, ks) && 0 < n <= |ks| && forall k | k in ks[..n] :: k in f.u
    ensures MovedUp(f.u, ks[..n], dest) == Up(Reparent(f.l, ks[..n], dest))
  {
    assert ks[0] in ks[..n] by {
      assert ks[..n][0] == ks[0];
    }
    forall x | x in f.l ensures MovedUp(f.u, ks[..n], dest)[x] == Reparent(f.l, ks[..n], dest)[x].depPrev {
      MovedUpAt(f.u, ks[..n], dest, x);
      ReparentAt(f.l, ks[..n], dest, x);
    }
  }

  lemma MovesStart(f: Forest, rank: Ranks, ks: seq<int>, dest: int, src: int)
    requires CanMove(f, rank, ks, dest, src)
    ensures MovesLeft(f, rank, ks, dest, src, 0, At(ks, 0), f)
  {
    assert ks[..0] == [];
  }

  lemma NoneAhead(f: Forest, ks: seq<int>)
    requires ParentsAhead(f, ks) && ks == []
    ensures f.u == Up(f.l)
  {
    forall x | x in f.u ensures f.u[x] == Up(f.l)[x] {
    }
  }

  lemma MovesDone(f: Forest, rank: Ranks, ks: seq<int>, dest: int, src: int, k: nat, g: Forest)
    requires MovesLeft(f, rank, ks, dest, src, k, NONE, g)
    ensures g == Moving(f, rank, ks, dest, src)
    ensures g.u == Up(g.l) && Sized(g.u, rank, g.w, g.q)
  {
    assert forall j | 0 <= j < |ks| :: ks[j] in f.u;
    assert ks[..k] == ks;
    if ks == [] {
      NoneAhead(f, ks);
    } else {
      UpMoved(f, ks, |ks|, dest);
    }
    MovedKeepsRanked(f.u, rank, ks, dest, src);
  }

  /** s takes over p's first child. */
  function Adopted(l: LinkMap, p: int, s: int): (r: LinkMap)
    requires p in l && s in l
    ensures r.Keys == l.Keys
  {
    if l[p].depNext == NONE then l else l[s := l[s].(depNext := l[p].depNext)]
  }

  /** The pointers that `nghttp2_stream_dep_insert` writes after its loop. */
  function InsertedLast(l: LinkMap, p: int, s: int): LinkMap
    requires p in l && s in l
  {
    LinkDep(Adopted(l, p, s), p, s)
  }

  /** The tree after the part of dep_insert that concerns p's children. */
  ghost function ChildrenTaken(f: Forest, r: Ranks, ks: seq<int>, p: int, s: int): Forest
    requires CanMove(f, r, ks, s, p) && f.q.Keys == f.u.Keys
  {
    assert p in Reparent(f.l, ks, s) && s in Reparent(f.l, ks, s);
    f.(l := Adopted(Reparent(f.l, ks, s), p, s), u := MovedUp(f.u, ks, s), q := InsertQueue(f.u, r, f.w, f.q, ks, p, s))
  }

  /** The children have moved, and s has joined p's queue if it is busy by now. */
  ghost function Pushed(g: Forest, r: Ranks, p: int, s: int): Forest
    requires Sized(g.u, r, g.w, g.q) && p in g.q && s in g.q
  {
    if g.q[s].Busy() then g.(q := PushUp(g.u, r, g.w, g.q, p, s)) else g
  }

  /** ks moved from p to s, and s pushed if it is busy by now. */
  ghost function MovedAndPushed(f: Forest, r: Ranks, ks: seq<int>, p: int, s: int): Forest
    requires CanMove(f, r, ks, s, p) && f.q.Keys == f.u.Keys
  {
    MovedKeepsRanked(f.u, r, ks, s, p);
    Pushed(Moving(f, r, ks, s, p), r, p, s)
  }

  lemma TakeAssembled(f: Forest, r: Ranks, ks: seq<int>, p: int, s: int)
    requires CanMove(f, r, ks, s, p) && ks != [] && f.l[p].depNext == ks[0] && p !in ks && f.q.Keys == f.u.Keys
    ensures var g := Moving(f, r, ks, s, p);
            && p in g.l && s in g.l && g.l[p].depNext == ks[0] && ks[0] in g.l
            && ChildrenTaken(f, r, ks, p, s)
               == MovedAndPushed(f, r, ks, p, s).(l := g.l[s := g.l[s].(depNext := ks[0])])
  {
    MovedPushAgrees(f, r, ks, p, s, Moving(f, r, ks, s, p).q);
    ReparentAt(f.l, ks, s, p);
    assert ks[0] in f.l;
  }

  lemma NoneTaken(f: Forest, r: Ranks, ks: seq<int>, p: int, s: int)
    requires CanMove(f, r, ks, s, p) && ks == [] && f.q.Keys == f.u.Keys && f.l[p].depNext == NONE
    ensures ChildrenTaken(f, r, ks, p, s) == f
  {
  }

  /** ks are the children of p, and may move below s. */
  ghost predicate CanTake(f: Forest, r: Ranks, ks: seq<int>, p: int, s: int) {
    CanMove(f, r, ks, s, p) && f.l[p].depNext == At(ks, 0) && p !in ks && NONE !in ks
  }

  /** s as the only child of p, in the forest f from which g was made. */
  ghost function OnlyChild(f: Forest, g: Forest, p: int, s: int): Forest
    requires p in g.l && s in g.l && p in f.kids && s in f.kids
  {
    g.(l := LinkDep(g.l, p, s), u := InsertUp(f.u, p, s), kids := InsertKids(f.kids, p, s))
  }

  lemma InsertAssembled(f: Forest, r: Ranks, p: int, s: int, f1: Forest)
    requires InsertReady(f, r, p, s) && f1 == f.(sums := InsertSums(f.w, f.sums, p, s))
    ensures CanTake(f1, r, f.kids[p], p, s) && p in f.kids && s in f.kids
    ensures var g := ChildrenTaken(f1, r, f.kids[p], p, s);
            p in g.l && s in g.l && Insert(f, r, p, s) == OnlyChild(f, g, p, s)
  {
    InsertedLastIsInsert(f.l, p, s, f.kids[p]);
  }

  lemma InsertedLastAt(l: LinkMap, p: int, s: int, ks: seq<int>, x: int)
    requires p in l && s in l && s != p && x in l && ks != [] && p !in ks && s !in ks && forall k | k in ks :: k in l
    requires l[p].depNext == ks[0] && NONE !in l
    ensures p in Reparent(l, ks, s) && s in Reparent(l, ks, s) && x in InsertedLast(Reparent(l, ks, s), p, s)
    ensures InsertedLast(Reparent(l, ks, s), p, s)[x] == InsertLinks(l, p, s, [], ks)[x]
  {
    assert ks[0] in ks;
    ReparentAt(l, ks, s, p);
    ReparentAt(l, ks, s, s);
    ReparentAt(l, ks, s, x);
    ReparentAt(Joined(l, p, s, [], ks), ks, s, x);
  }

  lemma InsertedLastIsInsert(l: LinkMap, p: int, s: int, ks: seq<int>)
    requires p in l && s in l && s != p && p !in ks && s !in ks && forall k | k in ks :: k in l
    requires l[p].depNext == At(ks, 0) && NONE !in l
    ensures p in Reparent(l, ks, s) && s in Reparent(l, ks, s)
    ensures InsertedLast(Reparent(l, ks, s), p, s) == InsertLinks(l, p, s, [], ks)
  {
    if ks != [] {
      assert ks[0] in ks;
      forall x | x in l ensures InsertedLast(Reparent(l, ks, s), p, s)[x] == InsertLinks(l, p, s, [], ks)[x] {
        InsertedLastAt(l, p, s, ks, x);
      }
    }
  }

  lemma ChainOf(f: Forest, p: int)
    requires Linked(f.l, f.kids) && p in f.l
    ensures f.l[p].depNext == At(f.kids[p], 0)
    ensures forall j | 0 <= j < |f.kids[p]| :: f.kids[p][j] in f.l && f.l[f.kids[p][j]].sibNext == At(f.kids[p], j + 1)
  {
    assert ChildrenOf(f.l, p, f.kids[p]);
    forall j | 0 <= j < |f.kids[p]| ensures f.kids[p][j] in f.l && f.l[f.kids[p][j]].sibNext == At(f.kids[p], j + 1) {
      assert Child(f.l, p, f.kids[p], j);
    }
  }

  /** The climb that ends dep_insert is the same before and after p's children moved. */
  lemma MovedPushAgrees(f: Forest, rank: Ranks, ks: seq<int>, p: int, s: int, q: QueueMap)
    requires Sized(f.u, rank, f.w, q) && Movable(f.u, rank, ks, s, p)
    ensures Sized(MovedUp(f.u, ks, s), rank, f.w, q)
    ensures PushUp(MovedUp(f.u, ks, s), rank, f.w, q, p, s) == PushUp(f.u, rank, f.w, q, p, s)
  {
    MovedKeepsRanked(f.u, rank, ks, s, p);
    forall y | y in f.u && Under(f.u, rank, y, p) ensures MovedUp(f.u, ks, s)[y] == f.u[y] {
      MovedUpAt(f.u, ks, s, y);
      UnderRank(f.u, rank, y, p);
      assert y in ks ==> DepForest.Below(f.u, rank, y);
    }
    PushAgrees(f.u, rank, MovedUp(f.u, ks, s), rank, f.w, q, p, s);
  }

  /** What dep_insert_subtree has stored before its loop. */
  ghost function SubtreeJoined(f: Forest, p: int, s: int): Forest
    requires TakeReady(f, p, s)
  {
    assert f.kids[s] != [] ==> Last(f.kids[s]) in f.kids[s];
    f.(l := Joined(f.l, p, s, f.kids[s], f.kids[p]), u := AddUp(f.u, p, s), sums := InsertSums(f.w, f.sums, p, s))
  }

  lemma JoinedCanMove(f: Forest, r: Ranks, p: int, s: int, g: Forest)
    requires InsertSubtreeReady(f, r, p, s) && g == SubtreeJoined(f, p, s)
    ensures CanMove(g, r, f.kids[p], s, p) && f.l[p].depNext == At(f.kids[p], 0)
  {
    var own, ks := f.kids[s], f.kids[p];
    assert own != [] ==> Last(own) in own;
    JoinedKeepsChain(f.l, p, s, own, ks);
    forall x | x in f.l
      ensures AddUp(f.u, p, s)[x] == Joined(f.l, p, s, own, ks)[x].depPrev || (ks != [] && x == ks[0])
    {
      JoinedAt(f.l, p, s, own, ks, x);
    }
  }

  lemma JoinedKeepsChain(l: LinkMap, p: int, s: int, own: seq<int>, ks: seq<int>)
    requires p in l && s in l && s != p && s !in ks && Chained(l, own) && Chained(l, ks) && NONE !in l
    requires (forall k | k in own :: k !in ks) && (own != [] ==> Last(own) in own)
    ensures (forall k | k in ks :: k in l) && (own != [] ==> Last(own) in l)
    ensures Chained(Joined(l, p, s, own, ks), ks)
  {
    forall j | 0 <= j < |ks| ensures Joined(l, p, s, own, ks)[ks[j]].sibNext == At(ks, j + 1) {
      JoinedAt(l, p, s, own, ks, ks[j]);
    }
  }

  lemma SubtreeAssembled(f: Forest, r: Ranks, p: int, s: int)
    requires InsertSubtreeReady(f, r, p, s) && CanMove(SubtreeJoined(f, p, s), r, f.kids[p], s, p)
    ensures InsertSubtree(f, r, p, s) ==
            MovedAndPushed(SubtreeJoined(f, p, s), r, f.kids[p], p, s).(kids := InsertKids(f.kids, p, s))
  {
    PlantedMoveIsInsert(f.u, f.kids[p], p, s);
    PlantedPushAgrees(f.u, r, f.w, Moving(SubtreeJoined(f, p, s), r, f.kids[p], s, p).q, p, s);
  }

  // ---- the loop of nghttp2_stream_dep_remove

  /** What sharing out s's weight among ks while they move to p relies on; w' are the weights in the end. */
  ghost predicate CanShare(f: Forest, rank: Ranks, w': Weights, ks: seq<int>, p: int, s: int) {
    && Sized(f.u, rank, f.w, f.q) && Sized(f.u, rank, w', f.q) && Up(f.l) == f.u && s in f.w && s in f.sums
    && Movable(f.u, rank, ks, p, s) && Chained(f.l, ks)
    && (forall k | k in ks :: k in f.w && f.w[k] <= f.sums[s]) && (ks != [] ==> f.sums[s] > 0)
    && w' == Shared(f.w, ks, f.w[s], f.sums[s])
  }

  /** ks have their share of s's weight and are in p's queue. */
  ghost function Sharing(f: Forest, rank: Ranks, w': Weights, ks: seq<int>, p: int, s: int): Forest
    requires Sized(f.u, rank, w', f.q) && s in f.w && s in f.sums && s in f.q && p in f.q
    requires (forall k | k in ks :: k in f.w && k in f.q) && (ks != [] ==> f.sums[s] > 0)
  {
    f.(w := Shared(f.w, ks, f.w[s], f.sums[s]), q := MoveAll(f.u, rank, w', f.q, ks, p, s))
  }

  /** k of the children are done, c is next, and delta is what the parent's sum changes by so far. */
  ghost predicate SharesLeft(f: Forest, rank: Ranks, w': Weights, ks: seq<int>, p: int, s: int, k: nat, c: int,
                             g: Forest, delta: int) {
    && CanShare(f, rank, w', ks, p, s) && k <= |ks| && c == At(ks, k)
    && g == Sharing(f, rank, w', ks[..k], p, s) && g.w.Keys == f.w.Keys
    && delta == Total(g.w, ks[..k]) - f.w[s]
  }

  ghost predicate ChildCanShare(g: Forest, rank: Ranks, p: int, s: int, c: int, own: int, sum: int) {
    && c in g.w && c in g.q && s in g.q && p in g.q && sum > 0 && Up(g.l) == g.u
    && Sized(g.u, rank, g.w[c := Share(own, g.w[c], sum)], g.q)
  }

  /** One child's share, and its move. */
  ghost function SharedChild(g: Forest, rank: Ranks, p: int, s: int, c: int, own: int, sum: int): Forest
    requires ChildCanShare(g, rank, p, s, c, own, sum)
  {
    var w1 := g.w[c := Share(own, g.w[c], sum)];
    g.(w := w1, q := MoveTo(g.u, rank, w1, g.q, p, s, c))
  }

  lemma SharesStart(f: Forest, rank: Ranks, w': Weights, ks: seq<int>, p: int, s: int)
    requires CanShare(f, rank, w', ks, p, s)
    ensures SharesLeft(f, rank, w', ks, p, s, 0, At(ks, 0), f, -f.w[s])
  {
    assert ks[..0] == [];
  }

  lemma SharesDone(f: Forest, rank: Ranks, w': Weights, ks: seq<int>, p: int, s: int, k: nat, g: Forest, delta: int)
    requires SharesLeft(f, rank, w', ks, p, s, k, NONE, g, delta)
    ensures g == Sharing(f, rank, w', ks, p, s) && g.w == w' && delta == Total(w', ks) - f.w[s]
  {
    assert forall j | 0 <= j < |ks| :: ks[j] in f.u;
    assert ks[..k] == ks;
  }

  lemma SharingWeights(f: Forest, rank: Ranks, w': Weights, ks: seq<int>, p: int, s: int, n: nat)
    requires CanShare(f, rank, w', ks, p, s) && n <= |ks|
    ensures WeightsOk(Shared(f.w, ks[..n], f.w[s], f.sums[s]))
  {
    var w1 := Shared(f.w, ks[..n], f.w[s], f.sums[s]);
    forall x | x in w1 ensures 1 <= w1[x] <= MAX_WEIGHT {
      SharedAt(f.w, ks[..n], f.w[s], f.sums[s], x);
      if x in ks[..n] {
        ShareInRange(f.w[s], f.w[x], f.sums[s]);
      }
    }
  }

  /** Only children not yet reached still differ from their final weight. */
  lemma SharingAgrees(f: Forest, rank: Ranks, w': Weights, ks: seq<int>, p: int, s: int, k: nat, y: int)
    requires CanShare(f, rank, w', ks, p, s) && k < |ks| && y in f.w && (y == ks[k] || y !in ks)
    ensures Shared(f.w, ks[..k + 1], f.w[s], f.sums[s])[y] == w'[y]
  {
    SharedAt(f.w, ks[..k + 1], f.w[s], f.sums[s], y);
    SharedAt(f.w, ks, f.w[s], f.sums[s], y);
    assert ks[..k + 1][k] == ks[k];
  }

  lemma SharingMove(f: Forest, rank: Ranks, w': Weights, ks: seq<int>, p: int, s: int, k: nat, q: QueueMap)
    requires CanShare(f, rank, w', ks, p, s) && k < |ks| && q.Keys == f.q.Keys
    ensures var w1 := Shared(f.w, ks[..k + 1], f.w[s], f.sums[s]);
            && Sized(f.u, rank, w1, q) && ks[k] in q
            && MoveTo(f.u, rank, w1, q, p, s, ks[k]) == MoveTo(f.u, rank, w', q, p, s, ks[k])
  {
    var w1, c := Shared(f.w, ks[..k + 1], f.w[s], f.sums[s]), ks[k];
    SharingWeights(f, rank, w', ks, p, s, k + 1);
    SharingAgrees(f, rank, w', ks, p, s, k, c);
    assert forall x | x in ks :: rank[p] < rank[x];
    forall y | y in f.u && Under(f.u, rank, y, p) ensures w1[y] == w'[y] {
      UnderRank(f.u, rank, y, p);
      SharingAgrees(f, rank, w', ks, p, s, k, y);
    }
    if q[c].queued {
      PushWeighs(f.u, rank, w1, w', Leave(q, s, c), p, c);
    }
  }

  lemma SharingTotal(f: Forest, rank: Ranks, w': Weights, ks: seq<int>, p: int, s: int, k: nat)
    requires CanShare(f, rank, w', ks, p, s) && k < |ks|
    ensures var w0, w1 := Shared(f.w, ks[..k], f.w[s], f.sums[s]), Shared(f.w, ks[..k + 1], f.w[s], f.sums[s]);
            && w0[ks[k]] == f.w[ks[k]] && w1 == w0[ks[k] := Share(f.w[s], w0[ks[k]], f.sums[s])]
            && Total(w1, ks[..k + 1]) == Total(w0, ks[..k]) + w1[ks[k]]
  {
    var w0, w1 := Shared(f.w, ks[..k], f.w[s], f.sums[s]), Shared(f.w, ks[..k + 1], f.w[s], f.sums[s]);
    assert ks[..k + 1][..k] == ks[..k] && ks[..k + 1][k] == ks[k];
    SharedAt(f.w, ks[..k], f.w[s], f.sums[s], ks[k]);
    TotalSame(w0, w1, ks[..k]);
  }

  lemma SharingStep(f: Forest, rank: Ranks, w': Weights, ks: seq<int>, p: int, s: int, k: nat, c: int, g: Forest,
                    delta: int)
    requires SharesLeft(f, rank, w', ks, p, s, k, c, g, delta) && c != NONE
    ensures k < |ks| && ChildCanShare(g, rank, p, s, c, f.w[s], f.sums[s]) && g.l[c].sibNext == At(ks, k + 1)
    ensures var h := SharedChild(g, rank, p, s, c, f.w[s], f.sums[s]);
            SharesLeft(f, rank, w', ks, p, s, k + 1, At(ks, k + 1), h, delta + h.w[c])
  {
    assert ks[..k + 1][..k] == ks[..k] && ks[..k + 1][k] == ks[k];
    SharingTotal(f, rank, w', ks, p, s, k);
    SharingMove(f, rank, w', ks, p, s, k, g.q);
  }

  /** Reparenting leaves a chain of siblings as it is. */
  lemma ReparentedChain(l: LinkMap, ks: seq<int>, p: int)
    requires Chained(l, ks)
    ensures (forall k | k in ks :: k in l) && Chained(Reparent(l, ks, p), ks)
  {
    forall j | 0 <= j < |ks| ensures Reparent(l, ks, p)[ks[j]].sibNext == At(ks, j + 1) {
      ReparentAt(l, ks, p, ks[j]);
    }
  }

  lemma ReparentOneMore(l: LinkMap, ks: seq<int>, k: nat, p: int)
    requires Chained(l, ks) && k < |ks|
    ensures (forall x | x in ks :: x in l) && (forall x | x in ks[..k] :: x in l)
    ensures (forall x | x in ks[..k + 1] :: x in l)
    ensures var r := Reparent(l, ks[..k], p);
            && Reparent(l, ks[..k + 1], p) == r[ks[k] := r[ks[k]].(depPrev := p)]
            && r[ks[k]].sibNext == At(ks, k + 1)
  {
    assert ks[..k + 1][..k] == ks[..k] && ks[..k + 1][k] == ks[k];
    ReparentAt(l, ks[..k], p, ks[k]);
  }
}
