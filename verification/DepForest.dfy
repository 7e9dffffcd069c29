/**
 * The dependency forest as a map from every stream to its parent.  Ranks that grow from parent to child witness
 * that no stream is its own ancestor; each tree operation is a change of parents that admits such ranks again.
 */
module DepForest {
  /** The null pointer. */
  const NONE: int := -1
  /** Stream 0, the root of the tree. */
  const ROOT: int := 0

  type Parents = map<int, int>
  type Ranks = map<int, nat>

  ghost predicate Below(u: Parents, rank: Ranks, x: int)
    requires x in u && x in rank
  {
    u[x] in rank && rank[u[x]] < rank[x]
  }

  ghost predicate Ranked(u: Parents, rank: Ranks) {
    && rank.Keys == u.Keys && NONE !in u
    && forall x | x in u :: u[x] == NONE || Below(u, rank, x)
  }

  /** s is an ancestor of x, or x itself. */
  ghost predicate Under(u: Parents, rank: Ranks, s: int, x: int)
    requires Ranked(u, rank) && x in u
    decreases rank[x]
  {
    x == s || (u[x] != NONE && (assert Below(u, rank, x); Under(u, rank, s, u[x])))
  }

  lemma {:induction false} UnderRank(u: Parents, rank: Ranks, s: int, x: int)
    requires Ranked(u, rank) && x in u && Under(u, rank, s, x)
    ensures s in u && rank[s] <= rank[x]
    ensures s != x ==> rank[s] < rank[x]
    decreases rank[x]
  {
    if x != s {
      assert Below(u, rank, x);
      UnderRank(u, rank, s, u[x]);
    }
  }

  lemma {:induction false} UnderTransitive(u: Parents, rank: Ranks, a: int, b: int, x: int)
    requires Ranked(u, rank) && x in u && Under(u, rank, b, x) && b in u && Under(u, rank, a, b)
    ensures Under(u, rank, a, x)
    decreases rank[x]
  {
    if x != b {
      assert Below(u, rank, x);
      UnderTransitive(u, rank, a, b, u[x]);
    }
  }

  /** Two ancestors of one stream: one is above the other. */
  lemma {:induction false} UnderLinear(u: Parents, rank: Ranks, a: int, b: int, x: int)
    requires Ranked(u, rank) && x in u && Under(u, rank, a, x) && Under(u, rank, b, x)
    ensures a in u && b in u && (Under(u, rank, a, b) || Under(u, rank, b, a))
    decreases rank[x]
  {
    UnderRank(u, rank, a, x);
    UnderRank(u, rank, b, x);
    if x != a && x != b {
      assert Below(u, rank, x);
      UnderLinear(u, rank, a, b, u[x]);
    }
  }

  /** Changing the parents of streams that are not above x does not change what is above x. */
  lemma {:induction false} UnderUnchanged(u: Parents, rank: Ranks, u': Parents, rank': Ranks, s: int, x: int)
    requires Ranked(u, rank) && Ranked(u', rank') && x in u && x in u'
    requires forall y | y in u && Under(u, rank, y, x) :: y in u' && u'[y] == u[y]
    ensures Under(u', rank', s, x) == Under(u, rank, s, x)
    decreases rank[x]
  {
    assert Under(u, rank, x, x);
    if u[x] != NONE {
      assert Below(u, rank, x);
      forall y | y in u && Under(u, rank, y, u[x]) ensures y in u' && u'[y] == u[y] {
        UnderTransitive(u, rank, y, u[x], x);
      }
      UnderUnchanged(u, rank, u', rank', s, u[x]);
    }
  }

  // ---- the operations

  /** s, with all below it, becomes a child of p. */
  function AddUp(u: Parents, p: int, s: int): Parents {
    u[s := p]
  }

  /** s takes over p's children and becomes p's only child. */
  function InsertUp(u: Parents, p: int, s: int): Parents {
    map x | x in u :: if x == s then p else if u[x] == p then s else u[x]
  }

  /** s is taken out, and its children move up. */
  function RemoveUp(u: Parents, s: int): Parents
    requires s in u
  {
    map x | x in u :: if x == s then NONE else if u[x] == s then u[s] else u[x]
  }

  /** s is cut off with all below it. */
  function CutUp(u: Parents, s: int): Parents {
    u[s := NONE]
  }

  ghost function AddRank(u: Parents, rank: Ranks, p: int, s: int): Ranks
    requires Ranked(u, rank) && p in u
  {
    map x | x in u :: if Under(u, rank, s, x) then rank[x] + rank[p] + 1 else rank[x]
  }

  lemma AddKeepsRanked(u: Parents, rank: Ranks, p: int, s: int)
    requires Ranked(u, rank) && p in u && s in u && u[s] == NONE && !Under(u, rank, s, p)
    ensures Ranked(AddUp(u, p, s), AddRank(u, rank, p, s))
  {
    var u', rank' := AddUp(u, p, s), AddRank(u, rank, p, s);
    forall x | x in u' ensures u'[x] == NONE || Below(u', rank', x) {
      assert u[x] == NONE || Below(u, rank, x);
    }
  }

  ghost function InsertRank(u: Parents, rank: Ranks, p: int, s: int): Ranks
    requires Ranked(u, rank) && p in u && s in u
  {
    map x | x in u ::
      if Under(u, rank, s, x) then rank[x] + rank[p] + 1
      else if x != p && Under(u, rank, p, x) then rank[x] + rank[s] + rank[p] + 2
      else rank[x]
  }

  lemma InsertKeepsRanked(u: Parents, rank: Ranks, p: int, s: int)
    requires Ranked(u, rank) && p in u && s in u && u[s] == NONE && !Under(u, rank, s, p)
    ensures Ranked(InsertUp(u, p, s), InsertRank(u, rank, p, s))
  {
    var u', rank' := InsertUp(u, p, s), InsertRank(u, rank, p, s);
    forall x | x in u' ensures u'[x] == NONE || Below(u', rank', x) {
      assert u[x] == NONE || Below(u, rank, x);
      if x == p && u[p] != NONE && Under(u, rank, p, u[p]) {
        UnderRank(u, rank, p, u[p]);
      }
      assert Under(u, rank, p, p);
    }
  }

  /** The ranks made for the insertion fit all the way: before it, and with s planted but p's children not moved. */
  lemma InsertRankFits(u: Parents, rank: Ranks, p: int, s: int)
    requires Ranked(u, rank) && p in u && s in u && u[s] == NONE && !Under(u, rank, s, p)
    ensures var r := InsertRank(u, rank, p, s);
            && Ranked(u, r) && Ranked(AddUp(u, p, s), r)
            && forall x | x in u && u[x] == p :: r[s] < r[x]
  {
    var r := InsertRank(u, rank, p, s);
    assert Under(u, rank, p, p) && Under(u, rank, s, s);
    forall x | x in u
      ensures u[x] == NONE || Below(u, r, x)
      ensures u[x] == p ==> r[s] < r[x]
    {
      assert u[x] == NONE || Below(u, rank, x);
      if x == p && u[p] != NONE && Under(u, rank, p, u[p]) {
        UnderRank(u, rank, p, u[p]);
      }
    }
    forall x | x in u ensures AddUp(u, p, s)[x] == NONE || Below(AddUp(u, p, s), r, x) {
      assert u[x] == NONE || Below(u, r, x);
    }
  }

  lemma RemoveKeepsRanked(u: Parents, rank: Ranks, s: int)
    requires Ranked(u, rank) && s in u
    ensures Ranked(RemoveUp(u, s), rank)
  {
    var u' := RemoveUp(u, s);
    forall x | x in u' ensures u'[x] == NONE || Below(u', rank, x) {
      assert u[x] == NONE || Below(u, rank, x);
      assert u[s] == NONE || Below(u, rank, s);
    }
  }

  lemma CutKeepsRanked(u: Parents, rank: Ranks, s: int)
    requires Ranked(u, rank) && s in u
    ensures Ranked(CutUp(u, s), rank)
  {
    var u' := CutUp(u, s);
    forall x | x in u' ensures u'[x] == NONE || Below(u', rank, x) {
      assert u[x] == NONE || Below(u, rank, x);
    }
  }

  // ---- reprioritisation

  /**
   * `nghttp2_session_reprioritize_stream` on parents, once the new parent p is known to be in the tree: p first
   * moves to s's place when it is below s, then s moves under p.
   */
  ghost function Reprioritized(u: Parents, rank: Ranks, s: int, p: int, exclusive: bool): Parents
    requires Ranked(u, rank) && s in u && p in u
  {
    MovedBelow(if Under(u, rank, s, p) then AddUp(CutUp(u, p), u[s], p) else u, s, p, exclusive)
  }

  /** s under p; it stays where it is if it is a child of p already and is not to be the only one. */
  function MovedBelow(u: Parents, s: int, p: int, exclusive: bool): Parents
    requires s in u
  {
    if p == u[s] && !exclusive then u
    else if exclusive then InsertUp(CutUp(u, s), p, s)
    else AddUp(CutUp(u, s), p, s)
  }

  /** Ranks for the tree that Reprioritized gives. */
  ghost function RanksAfter(u: Parents, rank: Ranks, s: int, p: int, exclusive: bool): (r: Ranks)
    requires Ranked(u, rank) && s in u && p in u && s != p && u[s] in u
    ensures Ranked(Reprioritized(u, rank, s, p, exclusive), r)
  {
    var under := Under(u, rank, s, p);
    var u0 := if under then AddUp(CutUp(u, p), u[s], p) else u;
    if under then
      CutKeepsRanked(u, rank, p);
      MayMoveUp(u, rank, s, p);
      AddKeepsRanked(CutUp(u, p), rank, u[s], p);
      var rank0 := AddRank(CutUp(u, p), rank, u[s], p);
      if p == u0[s] && !exclusive then rank0
      else
        CutKeepsRanked(u0, rank0, s);
        MayMoveUnder(u0, rank0, s, p, u[s]);
        Moved(CutUp(u0, s), rank0, s, p, exclusive)
    else if p == u0[s] && !exclusive then rank
    else
      CutKeepsRanked(u, rank, s);
      CutOff(u, rank, s, p);
      Moved(CutUp(u, s), rank, s, p, exclusive)
  }

  ghost function Moved(u: Parents, rank: Ranks, s: int, p: int, exclusive: bool): (r: Ranks)
    requires Ranked(u, rank) && p in u && s in u && u[s] == NONE && !Under(u, rank, s, p)
    ensures Ranked(if exclusive then InsertUp(u, p, s) else AddUp(u, p, s), r)
  {
    InsertKeepsRanked(u, rank, p, s);
    AddKeepsRanked(u, rank, p, s);
    if exclusive then InsertRank(u, rank, p, s) else AddRank(u, rank, p, s)
  }

  /** Cutting s off leaves p, which is not below s, where it was. */
  lemma CutOff(u: Parents, rank: Ranks, s: int, p: int)
    requires Ranked(u, rank) && Ranked(CutUp(u, s), rank) && s in u && p in u && !Under(u, rank, s, p)
    ensures !Under(CutUp(u, s), rank, s, p)
  {
    UnderUnchanged(u, rank, CutUp(u, s), rank, s, p);
  }

  /** With p, which is below s, cut off, s's parent is not below p. */
  lemma MayMoveUp(u: Parents, rank: Ranks, s: int, p: int)
    requires Ranked(u, rank) && Ranked(CutUp(u, p), rank) && s in u && p in u && s != p && Under(u, rank, s, p)
    requires u[s] in u
    ensures !Under(CutUp(u, p), rank, p, u[s])
  {
    assert Below(u, rank, s);
    UnderRank(u, rank, s, p);
    if Under(CutUp(u, p), rank, p, u[s]) {
      UnderRank(CutUp(u, p), rank, p, u[s]);
    }
  }

  /** With p moved to s's own parent and s cut off, p is not below s. */
  lemma MayMoveUnder(u0: Parents, rank0: Ranks, s: int, p: int, above: int)
    requires Ranked(u0, rank0) && Ranked(CutUp(u0, s), rank0) && s in u0 && p in u0 && s != p
    requires u0[p] == above == u0[s] && above in u0
    ensures !Under(CutUp(u0, s), rank0, s, p)
  {
    assert Below(u0, rank0, s);
    if Under(CutUp(u0, s), rank0, s, p) {
      UnderRank(CutUp(u0, s), rank0, s, above);
    }
  }

  /** Every stream's parent afterwards. */
  lemma ReprioritizedAt(u: Parents, rank: Ranks, s: int, p: int, exclusive: bool, x: int)
    requires Ranked(u, rank) && s in u && p in u && s != p && u[s] in u && x in u
    ensures var r := Reprioritized(u, rank, s, p, exclusive);
            && r.Keys == u.Keys
            && r[x] == if x == s then p
                       else if x == p && Under(u, rank, s, p) then u[s]
                       else if exclusive && u[x] == p then s
                       else u[x]
  {
    assert Below(u, rank, s);
    assert u[p] == NONE || Below(u, rank, p);
    if Under(u, rank, s, p) {
      UnderRank(u, rank, s, p);
    }
  }
}
