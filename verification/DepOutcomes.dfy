/**
 * What each operation on the dependency tree comes to, for parents, the order of children, weights and items: said of
 * the tree before and the tree after.  That links, sums and queues follow is soundness, in DepHistory.
 */
module DepOutcomes {
  import opened DepForest
  import opened DepLinks
  import opened DepQueue
  import opened DepWeights
  import opened DepOperations
  import opened DepClock
  import opened DepItems
  import opened DepRuns
  import opened DepPriority
  import opened DepHistory

  /** s is below p, before all others or in their place, and no one else moves but those it takes over. */
  ghost predicate HangsBelow(f: Forest, g: Forest, p: int, s: int, exclusive: bool) {
    && g.u.Keys == f.u.Keys == f.kids.Keys == g.kids.Keys && p in f.u && s in f.u
    && (forall x | x in f.u :: g.u[x] == if x == s then p else if exclusive && f.u[x] == p then s else f.u[x])
    && (forall x | x in f.u && x != p && x != s :: g.kids[x] == f.kids[x])
    && g.kids[p] == (if exclusive then [s] else [s] + f.kids[p])
    && g.kids[s] == (if exclusive then f.kids[s] + f.kids[p] else f.kids[s])
    && g.w == f.w && SameItems(f.q, g.q)
  }

  /** Every map has the streams for keys. */
  lemma SameStreams(f: Forest, rank: Ranks)
    requires Sound(f, rank)
    ensures f.u.Keys == f.kids.Keys == f.w.Keys == f.sums.Keys == f.q.Keys
  {
  }

  lemma Hangs(f: Forest, g: Forest, p: int, s: int, exclusive: bool)
    requires f.u.Keys == f.kids.Keys && p in f.u && s in f.u && p != s && p != NONE && f.u[s] == NONE
    requires g.u == if exclusive then InsertUp(f.u, p, s) else AddUp(f.u, p, s)
    requires g.kids == if exclusive then InsertKids(f.kids, p, s) else AddKids(f.kids, p, s)
    requires g.w == f.w && SameItems(f.q, g.q)
    ensures HangsBelow(f, g, p, s, exclusive)
  {
  }

  lemma NotItself(f: Forest, rank: Ranks, p: int, s: int)
    requires MayGoBelow(f, rank, p, s)
    ensures p != s && p != NONE && p in f.u && s in f.u && f.u[s] == NONE
  {
  }

  lemma AddHangs(f: Forest, rank: Ranks, p: int, s: int)
    requires Sound(f, rank) && MayGoBelow(f, rank, p, s) && !f.q[s].Busy()
    ensures AddReady(f, p, s) && HangsBelow(f, Add(f, p, s), p, s, false)
  {
    AddSound(f, rank, p, s);
    SameStreams(f, rank);
    NotItself(f, rank, p, s);
    Hangs(f, Add(f, p, s), p, s, false);
  }

  lemma InsertHangs(f: Forest, rank: Ranks, p: int, s: int)
    requires Sound(f, rank) && MayGoBelow(f, rank, p, s) && f.kids[s] == [] && !f.q[s].Busy()
    ensures var r := InsertRank(f.u, rank, p, s);
            InsertReady(f, r, p, s) && HangsBelow(f, Insert(f, r, p, s), p, s, true)
  {
    InsertSound(f, rank, p, s);
    SameStreams(f, rank);
    NotItself(f, rank, p, s);
    Hangs(f, Insert(f, InsertRank(f.u, rank, p, s), p, s), p, s, true);
  }

  lemma AddSubtreeHangs(f: Forest, rank: Ranks, p: int, s: int)
    requires Sound(f, rank) && MayGoBelow(f, rank, p, s)
    ensures var r := AddRank(f.u, rank, p, s);
            AddSubtreeReady(f, r, p, s) && HangsBelow(f, AddSubtree(f, r, p, s), p, s, false)
  {
    AddSubtreeSound(f, rank, p, s);
    SameStreams(f, rank);
    NotItself(f, rank, p, s);
    Hangs(f, AddSubtree(f, AddRank(f.u, rank, p, s), p, s), p, s, false);
  }

  lemma InsertSubtreeHangs(f: Forest, rank: Ranks, p: int, s: int)
    requires Sound(f, rank) && MayGoBelow(f, rank, p, s)
    ensures var r := InsertRank(f.u, rank, p, s);
            InsertSubtreeReady(f, r, p, s) && HangsBelow(f, InsertSubtree(f, r, p, s), p, s, true)
  {
    InsertSubtreeSound(f, rank, p, s);
    SameStreams(f, rank);
    NotItself(f, rank, p, s);
    Hangs(f, InsertSubtree(f, InsertRank(f.u, rank, p, s), p, s), p, s, true);
  }

  /** s is out of the tree, with everything below it. */
  ghost predicate IsCut(f: Forest, g: Forest, s: int) {
    && s in f.u && g.u.Keys == f.u.Keys == f.kids.Keys == g.kids.Keys
    && (forall x | x in f.u :: g.u[x] == if x == s then NONE else f.u[x])
    && (forall x | x in f.u && x != f.u[s] :: g.kids[x] == f.kids[x])
    && (f.u[s] in f.u ==> exists j | 0 <= j < |f.kids[f.u[s]]| ::
          f.kids[f.u[s]][j] == s && g.kids[f.u[s]] == f.kids[f.u[s]][..j] + f.kids[f.u[s]][j + 1..])
    && g.w == f.w && SameItems(f.q, g.q)
  }

  lemma CutFacts(f: Forest, g: Forest, s: int, j: nat)
    requires f.u.Keys == f.kids.Keys && s in f.u && f.u[s] in f.kids && j < |f.kids[f.u[s]]| && f.kids[f.u[s]][j] == s
    requires g.u == CutUp(f.u, s) && g.kids == CutKids(f.kids, f.u[s], j) && g.w == f.w && SameItems(f.q, g.q)
    ensures IsCut(f, g, s)
  {
    assert Spliced(f.kids[f.u[s]], j, []) == f.kids[f.u[s]][..j] + f.kids[f.u[s]][j + 1..];
  }

  lemma CutIsCut(f: Forest, rank: Ranks, s: int, j: nat)
    requires Sound(f, rank) && s in f.u && f.u[s] != NONE && StandsAt(f, f.u[s], s, j)
    ensures CutReady(f, rank, s, j) && IsCut(f, Cut(f, rank, s, j), s)
  {
    CutSound(f, rank, s, j);
    SameStreams(f, rank);
    CutFacts(f, Cut(f, rank, s, j), s, j);
  }

  /**
   * The share of a child of weight w in a weight `own`, when all children weigh `sum`: own * w / sum rounded down, but
   * at least 1.
   */
  predicate IsShare(share: int, own: int, w: int, sum: int) {
    if own * w < sum then share == 1 else share * sum <= own * w < (share + 1) * sum
  }

  lemma ShareIsShare(own: int, w: int, sum: int)
    requires 1 <= own && 1 <= w && sum > 0
    ensures IsShare(Share(own, w, sum), own, w, sum)
  {
    var q, m := own * w / sum, own * w % sum;
    assert own * w == sum * q + m;
    assert sum * (q + 1) == sum * q + sum;
    if q < 1 {
      MulMonotone(sum, 0, 1);
    } else {
      MulMonotone(sum, 1, q);
    }
  }

  /** s is gone, its children stand in its place in their order, and its weight is shared out among them. */
  ghost predicate IsRemoved(f: Forest, g: Forest, s: int) {
    && s in f.u && f.u[s] in f.u && s in f.w && s in f.sums
    && g.u.Keys == f.u.Keys == f.kids.Keys == g.kids.Keys && g.w.Keys == f.w.Keys == f.u.Keys
    && (forall x | x in f.u :: g.u[x] == if x == s then NONE else if f.u[x] == s then f.u[s] else f.u[x])
    && (forall x | x in f.u && x != s && x != f.u[s] :: g.kids[x] == f.kids[x]) && g.kids[s] == []
    && (exists j | 0 <= j < |f.kids[f.u[s]]| ::
          && f.kids[f.u[s]][j] == s
          && g.kids[f.u[s]] == f.kids[f.u[s]][..j] + f.kids[s] + f.kids[f.u[s]][j + 1..])
    && (forall k | k in f.w && k !in f.kids[s] :: g.w[k] == f.w[k])
    && (forall k | k in f.w && k in f.kids[s] :: IsShare(g.w[k], f.w[s], f.w[k], f.sums[s]))
    && SameItems(f.q, g.q)
  }

  lemma SharesAreShares(f: Forest, rank: Ranks, s: int)
    requires Sound(f, rank) && s in f.u
    ensures s in f.w && s in f.sums && s in f.kids && (f.sums[s] > 0 || f.kids[s] == [])
    ensures forall k | k in f.kids[s] :: k in f.w
    ensures var w' := RemoveWeights(f.w, f.sums, f.kids[s], s);
            && (forall k | k in f.w && k !in f.kids[s] :: w'[k] == f.w[k])
            && forall k | k in f.w && k in f.kids[s] :: IsShare(w'[k], f.w[s], f.w[k], f.sums[s])
  {
    SameStreams(f, rank);
    assert SumOf(f.w, f.sums, f.kids, s);
    TotalAtLeast(f.w, f.kids[s]);
    forall k | k in f.w
      ensures RemoveWeights(f.w, f.sums, f.kids[s], s)[k]
           == if k in f.kids[s] then Share(f.w[s], f.w[k], f.sums[s]) else f.w[k]
      ensures k in f.kids[s] ==> IsShare(Share(f.w[s], f.w[k], f.sums[s]), f.w[s], f.w[k], f.sums[s])
    {
      SharedAt(f.w, f.kids[s], f.w[s], f.sums[s], k);
      if k in f.kids[s] {
        ShareIsShare(f.w[s], f.w[k], f.sums[s]);
      }
    }
  }

  lemma RemoveFacts(f: Forest, g: Forest, s: int, j: nat)
    requires f.u.Keys == f.kids.Keys == f.w.Keys == f.sums.Keys && s in f.u && f.u[s] in f.u && f.u[s] != s
    requires j < |f.kids[f.u[s]]| && f.kids[f.u[s]][j] == s
    requires g.u == RemoveUp(f.u, s) && g.kids == RemoveKids(f.kids, f.u[s], s, j) && g.w.Keys == f.w.Keys
    requires forall k | k in f.w && k !in f.kids[s] :: g.w[k] == f.w[k]
    requires forall k | k in f.w && k in f.kids[s] :: IsShare(g.w[k], f.w[s], f.w[k], f.sums[s])
    requires SameItems(f.q, g.q)
    ensures IsRemoved(f, g, s)
  {
  }

  /** Removal, and nothing but it. */
  lemma RemoveIsRemoved(f: Forest, rank: Ranks, s: int, j: nat)
    requires Sound(f, rank) && s in f.u && f.u[s] in f.u && StandsAt(f, f.u[s], s, j)
    ensures RemoveReady(f, rank, s, j) && IsRemoved(f, Remove(f, rank, s, j), s)
  {
    RemoveSound(f, rank, s, j);
    RemoveParts(f, rank, s, j);
    SharesAreShares(f, rank, s);
    SameStreams(f, rank);
    RemoveFacts(f, Remove(f, rank, s, j), s, j);
  }

  // ---- items, weights, and the whole life of a tree

  /** An event changes the item of its stream or its weight, as it says, and no others. */
  ghost predicate HasHappened(f: Forest, g: Forest, e: Event)
    requires e.s in f.q
  {
    && g.u == f.u && g.kids == f.kids && g.w.Keys == f.w.Keys
    && (forall x | x in f.w :: g.w[x] == if e.Reweigh? && x == e.s then e.weight else f.w[x])
    && match e
       case Attach(s) => ItemsBut(f.q, g.q, s, true, {})
       case Detach(s) => ItemsBut(f.q, g.q, s, false, {})
       case Defer(s, why) => ItemsBut(f.q, g.q, s, true, f.q[s].deferred + why)
       case Resume(s, why) => ItemsBut(f.q, g.q, s, true, f.q[s].deferred - why)
       case _ => SameItems(f.q, g.q)
  }

  lemma EventHappens(f: Forest, rank: Ranks, e: Event)
    requires Sound(f, rank) && Possible(f, rank, e)
    ensures HasHappened(f, Next(f, rank, e), e)
  {
    match e
    case Pick(s) => PickHappens(f, rank, s);
    case Send(s, bytes) => SendHappens(f, rank, s, bytes);
    case Reweigh(s, weight) => ReweighHappens(f, rank, s, weight);
    case _ => ItemEventHappens(f, rank, e);
  }

  lemma ItemEventHappens(f: Forest, rank: Ranks, e: Event)
    requires Sound(f, rank) && Possible(f, rank, e) && !e.Pick? && !e.Send? && !e.Reweigh?
    ensures HasHappened(f, Next(f, rank, e), e)
  {
    match e
    case Attach(s) => RaisedSound(f, rank, s, {});
    case Detach(s) => LoweredSound(f, rank, s, false, {});
    case Defer(s, why) => LoweredSound(f, rank, s, true, f.q[s].deferred + why);
    case Resume(s, why) => RaisedSound(f, rank, s, f.q[s].deferred - why);
  }

  lemma PickHappens(f: Forest, rank: Ranks, s: int)
    requires Sound(f, rank) && Possible(f, rank, Pick(s))
    ensures HasHappened(f, Next(f, rank, Pick(s)), Pick(s))
  {
    NotedOnlyClocks(f.u, rank, f.q, s);
  }

  lemma SendHappens(f: Forest, rank: Ranks, s: int, bytes: nat)
    requires Sound(f, rank) && Possible(f, rank, Send(s, bytes))
    ensures HasHappened(f, Next(f, rank, Send(s, bytes)), Send(s, bytes))
  {
    SentOnlyClocks(f.u, rank, f.w, f.q, s, bytes);
  }

  lemma ReweighHappens(f: Forest, rank: Ranks, s: int, weight: int)
    requires Sound(f, rank) && Possible(f, rank, Reweigh(s, weight))
    ensures HasHappened(f, Next(f, rank, Reweigh(s, weight)), Reweigh(s, weight))
  {
    SameStreams(f, rank);
    WithWeightSound(f, rank, s, weight);
  }

  /**
   * A queued stream whose weight changes stands as if it had had the new weight when its turn was computed, from the
   * base `last`, but not before the parent's clock.
   */
  lemma ReweighedStands(f: Forest, rank: Ranks, s: int, weight: int, x: Queue, last: nat)
    requires Sound(f, rank) && Possible(f, rank, Reweigh(s, weight)) && f.q[s].queued && s in f.w
    requires f.w[s] != weight && last < TWO64 && x.penalty < f.w[s] && f.q[s] == NextCycle(x, f.w[s], last)
    ensures f.u[s] in f.q && s in Next(f, rank, Reweigh(s, weight)).q
    ensures Next(f, rank, Reweigh(s, weight)).q[s] == Clamped(NextCycle(x, weight, last), f.q[f.u[s]].lastCycle)
  {
    WithWeightSound(f, rank, s, weight);
    ParentIsThere(f, rank, s);
    ReweighReplays(x, f.w[s], weight, last, f.q[f.u[s]].lastCycle);
  }

  lemma ParentIsThere(f: Forest, rank: Ranks, s: int)
    requires Sound(f, rank) && s in f.q && f.q[s].queued
    ensures f.u[s] in f.q && f.u[s] != s && f.u[s] != NONE
  {
    assert Settled(f.u, f.q, s);
    assert f.u[s] != NONE ==> DepForest.Below(f.u, rank, s);
  }

  /** And so does every operation of DepHistory.EverSound what it is called. */
  ghost predicate IsDone(f: Forest, g: Forest, op: Op) {
    match op
    case Work(e) => e.s in f.q && HasHappened(f, g, e)
    case Open(id, parent, exclusive) => HangsBelow(WithStream(f, id), g, parent, id, exclusive)
    case Close(s) => IsRemoved(f, g, s)
    case Destroy(s) =>
      && g.u == f.u - {s} && g.kids == f.kids - {s} && g.w == f.w - {s} && g.q == f.q - {s}
    case CutAway(s) => IsCut(f, g, s)
    case Hang(p, s, exclusive) => HangsBelow(f, g, p, s, exclusive)
  }

  lemma OpIsDone(f: Forest, rank: Ranks, op: Op)
    requires Sound(f, rank) && Allowed(f, rank, op)
    ensures IsDone(f, Done(f, rank, op).0, op)
  {
    match op
    case Work(e) => EventHappens(f, rank, e);
    case Open(id, parent, exclusive) =>
      NewMayGoBelow(f, rank, id, parent);
      if exclusive {
        InsertHangs(WithStream(f, id), WithRank(rank, id), parent, id);
      } else {
        AddHangs(WithStream(f, id), WithRank(rank, id), parent, id);
      }
    case Close(s) => RemoveIsRemoved(f, rank, s, PlaceOf(f, rank, s));
    case Destroy(s) =>
    case CutAway(s) => CutIsCut(f, rank, s, PlaceOf(f, rank, s));
    case Hang(p, s, exclusive) =>
      if exclusive {
        InsertSubtreeHangs(f, rank, p, s);
      } else {
        AddSubtreeHangs(f, rank, p, s);
      }
  }
}
