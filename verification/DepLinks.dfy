/**
 * The pointers of the dependency tree of RFC 7540, section 5.3: every stream has a parent (`dep_prev`), a first
 * child (`dep_next`) and its siblings (`sib_prev`, `sib_next`).  Streams are named by their ids here.  `Linked` is
 * what the pointers must satisfy, by way of the list of children each stream has; a lemma for each tree
 * operation shows that the pointer writes it ends with leave the pointers linked.
 */
module DepLinks {
  import opened DepForest

  datatype Links = Links(depPrev: int, depNext: int, sibPrev: int, sibNext: int)

  type LinkMap = map<int, Links>
  type Kids = map<int, seq<int>>

  const UNLINKED := Links(NONE, NONE, NONE, NONE)

  function At(ks: seq<int>, j: int): int {
    if 0 <= j < |ks| then ks[j] else NONE
  }

  /** ks[j] as p's child number j. */
  ghost predicate Child(l: LinkMap, p: int, ks: seq<int>, j: int)
    requires 0 <= j < |ks|
  {
    ks[j] in l && l[ks[j]] == Links(p, l[ks[j]].depNext, At(ks, j - 1), At(ks, j + 1))
  }

  ghost predicate ChildrenOf(l: LinkMap, p: int, ks: seq<int>) {
    p in l && l[p].depNext == At(ks, 0) && forall j | 0 <= j < |ks| :: Child(l, p, ks, j)
  }

  ghost predicate Placed(l: LinkMap, kids: Kids, s: int)
    requires s in l
  {
    var p := l[s].depPrev;
    if p == NONE then l[s].sibPrev == NONE && l[s].sibNext == NONE else p in kids && s in kids[p]
  }

  /** The pointers are those of a forest whose lists of children are kids. */
  ghost predicate Linked(l: LinkMap, kids: Kids) {
    && NONE !in l && kids.Keys == l.Keys
    && (forall p | p in kids :: ChildrenOf(l, p, kids[p]))
    && (forall s | s in l :: Placed(l, kids, s))
  }

  /** Every stream's parent. */
  function Up(l: LinkMap): Parents {
    map x | x in l :: l[x].depPrev
  }

  lemma {:induction false} Distinct(l: LinkMap, p: int, ks: seq<int>, i: nat, j: nat)
    requires NONE !in l && ChildrenOf(l, p, ks) && i < j < |ks|
    ensures ks[i] != ks[j]
  {
    assert Child(l, p, ks, i) && Child(l, p, ks, j) && Child(l, p, ks, j - 1);
    if i > 0 {
      assert Child(l, p, ks, i - 1);
      Distinct(l, p, ks, i - 1, j - 1);
    }
  }

  lemma DistinctAll(l: LinkMap, p: int, ks: seq<int>)
    requires NONE !in l && ChildrenOf(l, p, ks)
    ensures forall i, j | 0 <= i < j < |ks| :: ks[i] != ks[j]
  {
    forall i, j | 0 <= i < j < |ks| ensures ks[i] != ks[j] {
      Distinct(l, p, ks, i, j);
    }
  }

  /** Each of ks gets the parent p, in order. */
  function Reparent(l: LinkMap, ks: seq<int>, p: int): (r: LinkMap)
    requires forall k | k in ks :: k in l
    ensures r.Keys == l.Keys
  {
    if ks == [] then l
    else
      var r := Reparent(l, ks[..|ks| - 1], p);
      var k := ks[|ks| - 1];
      r[k := r[k].(depPrev := p)]
  }

  lemma {:induction false} ReparentAt(l: LinkMap, ks: seq<int>, p: int, x: int)
    requires (forall k | k in ks :: k in l) && x in l
    ensures Reparent(l, ks, p)[x] == if x in ks then l[x].(depPrev := p) else l[x]
  {
    if ks != [] {
      ReparentAt(l, ks[..|ks| - 1], p, x);
      assert x in ks <==> x in ks[..|ks| - 1] || x == ks[|ks| - 1];
    }
  }

  /** `link_dep`. */
  function LinkDep(l: LinkMap, p: int, s: int): (r: LinkMap)
    requires p in l && (s == NONE || s in l)
    ensures r.Keys == l.Keys
  {
    var l1 := l[p := l[p].(depNext := s)];
    if s == NONE then l1 else l1[s := l1[s].(depPrev := p)]
  }

  /** `link_sib`. */
  function LinkSib(l: LinkMap, a: int, b: int): (r: LinkMap)
    requires a in l && (b == NONE || b in l)
    ensures r.Keys == l.Keys
  {
    var l1 := l[a := l[a].(sibNext := b)];
    if b == NONE then l1 else l1[b := l1[b].(sibPrev := a)]
  }

  /** A list of children none of whose pointers that make up the list changed. */
  lemma SameChildren(l: LinkMap, l': LinkMap, p: int, ks: seq<int>)
    requires ChildrenOf(l, p, ks) && p in l' && l'[p].depNext == l[p].depNext
    requires forall k | k in ks :: k in l && k in l' && l'[k] == l[k].(depNext := l'[k].depNext)
    ensures ChildrenOf(l', p, ks)
  {
    forall j | 0 <= j < |ks| ensures Child(l', p, ks, j) {
      var k := ks[j];
      assert Child(l, p, ks, j) && k in ks;
      assert l'[k] == l[k].(depNext := l'[k].depNext);
    }
  }

  /** Children of different parents differ. */
  lemma ChildHasParent(l: LinkMap, kids: Kids, p: int, k: int)
    requires Linked(l, kids) && p in l
    ensures k in kids[p] <==> k in l && l[k].depPrev == p
  {
    assert ChildrenOf(l, p, kids[p]);
    if k in kids[p] {
      var j :| 0 <= j < |kids[p]| && kids[p][j] == k;
      assert Child(l, p, kids[p], j);
    }
    if k in l && l[k].depPrev == p {
      assert Placed(l, kids, k);
    }
  }

  /** Once the lists in `changed` are right again and every stream moved is in its new list, all is linked. */
  lemma StillLinked(l: LinkMap, l': LinkMap, kids: Kids, kids': Kids, changed: set<int>)
    requires Linked(l, kids) && l'.Keys == kids'.Keys == l.Keys && changed <= l.Keys
    requires forall p | p in changed :: ChildrenOf(l', p, kids'[p])
    requires forall x | x in l && x !in changed :: l'[x].depNext == l[x].depNext && kids'[x] == kids[x]
    requires forall x | x in l && l[x].depPrev in l && l[x].depPrev !in changed ::
               l'[x] == l[x].(depNext := l'[x].depNext)
    requires forall x | x in l && (l[x].depPrev == NONE || l[x].depPrev in changed) :: Placed(l', kids', x)
    ensures Linked(l', kids')
  {
    forall q | q in kids' ensures ChildrenOf(l', q, kids'[q]) {
      if q !in changed {
        assert ChildrenOf(l, q, kids[q]);
        forall k | k in kids[q] ensures k in l && l'[k] == l[k].(depNext := l'[k].depNext) {
          ChildHasParent(l, kids, q, k);
        }
        SameChildren(l, l', q, kids[q]);
      }
    }
    forall x | x in l' ensures Placed(l', kids', x) {
      assert Placed(l, kids, x);
    }
  }

  /** s stands at the head of a tree of its own. */
  ghost predicate Detached(l: LinkMap, s: int) {
    s in l && l[s].depPrev == NONE
  }

  /** The pointers after s became p's first child. */
  function AddLinks(l: LinkMap, p: int, s: int): (r: LinkMap)
    requires p in l && s in l && (l[p].depNext == NONE || l[p].depNext in l)
  {
    var first := l[p].depNext;
    LinkDep(if first == NONE then l else LinkSib(l, s, first), p, s)
  }

  function AddKids(kids: Kids, p: int, s: int): Kids
    requires p in kids
  {
    kids[p := [s] + kids[p]]
  }

  lemma FirstChild(l: LinkMap, kids: Kids, p: int)
    requires Linked(l, kids) && p in l
    ensures l[p].depNext == NONE <==> kids[p] == []
    ensures l[p].depNext != NONE ==> l[p].depNext in l && l[p].depNext == kids[p][0] && l[l[p].depNext].depPrev == p
  {
    assert ChildrenOf(l, p, kids[p]);
    if kids[p] != [] {
      assert Child(l, p, kids[p], 0);
    }
  }

  lemma AddedChildren(l: LinkMap, p: int, ks: seq<int>, s: int)
    requires NONE !in l && ChildrenOf(l, p, ks) && Detached(l, s) && l[s].sibPrev == NONE && l[s].sibNext == NONE
    requires s != p && p !in ks && s !in ks && (ks != [] ==> ks[0] in l)
    ensures ChildrenOf(AddLinks(l, p, s), p, [s] + ks)
  {
    DistinctAll(l, p, ks);
    var r, new_ks := AddLinks(l, p, s), [s] + ks;
    forall j | 0 <= j < |new_ks| ensures Child(r, p, new_ks, j) {
      if j > 0 {
        assert Child(l, p, ks, j - 1) && ks[j - 1] in ks;
      }
    }
  }

  lemma AddKeepsLinked(l: LinkMap, kids: Kids, p: int, s: int)
    requires Linked(l, kids) && p in l && Detached(l, s) && s != p && l[p].depPrev != p
    requires l[p].depNext == NONE || l[p].depNext in l
    ensures Linked(AddLinks(l, p, s), AddKids(kids, p, s))
  {
    FirstChild(l, kids, p);
    ChildHasParent(l, kids, p, s);
    ChildHasParent(l, kids, p, p);
    var r := AddLinks(l, p, s);
    assert Placed(l, kids, s) && ChildrenOf(l, p, kids[p]);
    AddedChildren(l, p, kids[p], s);
    forall x | x in l && (l[x].depPrev == NONE || l[x].depPrev == p) ensures Placed(r, AddKids(kids, p, s), x) {
      assert Placed(l, kids, x);
    }
    StillLinked(l, r, kids, AddKids(kids, p, s), {p});
  }

  function Last(ks: seq<int>): int
    requires ks != []
  {
    ks[|ks| - 1]
  }

  /** The pointers once s is p's child and the lists of children own and ks are joined. */
  function Joined(l: LinkMap, p: int, s: int, own: seq<int>, ks: seq<int>): (r: LinkMap)
    requires p in l && s in l && (forall k | k in ks :: k in l) && (own != [] ==> Last(own) in l)
    ensures r.Keys == l.Keys
  {
    var l1 := LinkDep(l, p, s);
    if ks == [] then l1
    else if own == [] then LinkDep(l1, s, ks[0])
    else LinkSib(l1, Last(own), ks[0])
  }

  lemma JoinedAt(l: LinkMap, p: int, s: int, own: seq<int>, ks: seq<int>, x: int)
    requires p in l && s in l && s != p && (forall k | k in ks :: k in l) && (own != [] ==> Last(own) in l) && x in l
    requires s !in ks && NONE !in l
    ensures var r := Joined(l, p, s, own, ks);
            && (own == [] || x != Last(own) ==> r[x].sibNext == l[x].sibNext)
            && r[x].depPrev == if x == s then p else if own == [] && ks != [] && x == ks[0] then s else l[x].depPrev
  {
    assert ks != [] ==> ks[0] in ks;
  }

  /** The pointers after s took over p's children, behind its own, and became p's only child. */
  function InsertLinks(l: LinkMap, p: int, s: int, own: seq<int>, ks: seq<int>): (r: LinkMap)
    requires p in l && s in l && (forall k | k in ks :: k in l) && (own != [] ==> Last(own) in l)
  {
    Reparent(Joined(l, p, s, own, ks), ks, s)
  }

  function InsertKids(kids: Kids, p: int, s: int): Kids
    requires p in kids && s in kids
  {
    kids[s := kids[s] + kids[p]][p := [s]]
  }

  lemma KidsKnown(l: LinkMap, kids: Kids, p: int)
    requires Linked(l, kids) && p in l
    ensures forall k | k in kids[p] :: k in l && l[k].depPrev == p
  {
    forall k | k in kids[p] ensures k in l && l[k].depPrev == p {
      ChildHasParent(l, kids, p, k);
    }
  }

  lemma InsertedChildren(l: LinkMap, p: int, s: int, own: seq<int>, ks: seq<int>)
    requires NONE !in l && ChildrenOf(l, p, ks) && ChildrenOf(l, s, own) && s != p
    requires Detached(l, s) && l[s].sibPrev == NONE && l[s].sibNext == NONE
    requires (forall k | k in ks :: k in l && l[k].depPrev == p) && (forall k | k in own :: k in l && l[k].depPrev == s)
    requires p !in ks && p !in own
    ensures ChildrenOf(InsertLinks(l, p, s, own, ks), s, own + ks)
    ensures ChildrenOf(InsertLinks(l, p, s, own, ks), p, [s])
  {
    var r, all, l2 := InsertLinks(l, p, s, own, ks), own + ks, Joined(l, p, s, own, ks);
    DistinctAll(l, p, ks);
    DistinctAll(l, s, own);
    ReparentAt(l2, ks, s, s);
    ReparentAt(l2, ks, s, p);
    forall j | 0 <= j < |all| ensures Child(r, s, all, j) {
      if j < |own| {
        assert Child(l, s, own, j) && all[j] in own;
      } else {
        assert Child(l, p, ks, j - |own|) && all[j] in ks;
      }
      ReparentAt(l2, ks, s, all[j]);
    }
    assert Child(r, p, [s], 0);
  }

  lemma InsertKeepsLinked(l: LinkMap, kids: Kids, p: int, s: int)
    requires Linked(l, kids) && p in l && Detached(l, s) && s != p && l[p].depPrev != p && l[p].depPrev != s
    requires forall k | k in kids[p] :: k in l
    requires kids[s] != [] ==> Last(kids[s]) in l
    ensures Linked(InsertLinks(l, p, s, kids[s], kids[p]), InsertKids(kids, p, s))
  {
    KidsKnown(l, kids, p);
    KidsKnown(l, kids, s);
    assert Placed(l, kids, s) && ChildrenOf(l, p, kids[p]) && ChildrenOf(l, s, kids[s]);
    InsertedChildren(l, p, s, kids[s], kids[p]);
    InsertElsewhere(l, kids, p, s);
    StillLinked(l, InsertLinks(l, p, s, kids[s], kids[p]), kids, InsertKids(kids, p, s), {p, s});
  }

  lemma InsertElsewhere(l: LinkMap, kids: Kids, p: int, s: int)
    requires Linked(l, kids) && p in l && Detached(l, s) && s != p && l[p].depPrev != p && l[p].depPrev != s
    requires forall k | k in kids[p] :: k in l && l[k].depPrev == p
    requires forall k | k in kids[s] :: k in l && l[k].depPrev == s
    ensures var r := InsertLinks(l, p, s, kids[s], kids[p]);
            && r.Keys == l.Keys
            && (forall x | x in l && x != p && x != s :: r[x].depNext == l[x].depNext)
            && (forall x | x in l && l[x].depPrev in l && l[x].depPrev != p && l[x].depPrev != s ::
                  r[x] == l[x].(depNext := r[x].depNext))
            && (forall x | x in l && (l[x].depPrev == NONE || l[x].depPrev == p || l[x].depPrev == s) ::
                  Placed(r, InsertKids(kids, p, s), x))
  {
    var own, ks := kids[s], kids[p];
    var r, l2 := InsertLinks(l, p, s, own, ks), Joined(l, p, s, own, ks);
    forall x | x in l
      ensures x in r && (x != p && x != s ==> r[x].depNext == l[x].depNext)
      ensures l[x].depPrev in l && l[x].depPrev != p && l[x].depPrev != s ==> r[x] == l[x].(depNext := r[x].depNext)
      ensures l[x].depPrev == NONE || l[x].depPrev == p || l[x].depPrev == s ==> Placed(r, InsertKids(kids, p, s), x)
    {
      ReparentAt(l2, ks, s, x);
      ChildHasParent(l, kids, p, x);
      ChildHasParent(l, kids, s, x);
      assert Placed(l, kids, x);
    }
  }

  /** s's pointers all lead to streams, or are null. */
  ghost predicate Guarded(l: LinkMap, s: int) {
    && s in l && l[s].depPrev in l
    && (l[s].sibPrev == NONE || l[s].sibPrev in l) && (l[s].sibNext == NONE || l[s].sibNext in l)
  }

  /** The neighbours' pointers go around s. */
  function Bypass(l: LinkMap, s: int): (r: LinkMap)
    requires Guarded(l, s)
    ensures r.Keys == l.Keys
  {
    var prev, next := l[s].sibPrev, l[s].sibNext;
    if prev != NONE then LinkSib(l, prev, next)
    else
      var l1 := LinkDep(l, l[s].depPrev, next);
      if next == NONE then l1 else l1[next := l1[next].(sibPrev := NONE)]
  }

  /** first follows what came before s. */
  function Headed(l: LinkMap, s: int, first: int): (r: LinkMap)
    requires Guarded(l, s) && first in l
    ensures r.Keys == l.Keys
  {
    if l[s].sibPrev != NONE then LinkSib(l, l[s].sibPrev, first) else LinkDep(l, l[s].depPrev, first)
  }

  /** The children of s take its place: `unlink_sib` or `unlink_dep`. */
  function Promote(l: LinkMap, s: int, cs: seq<int>): (r: LinkMap)
    requires Guarded(l, s) && cs != [] && forall k | k in cs :: k in l
    ensures r.Keys == l.Keys
  {
    var l2 := Reparent(Headed(l, s, cs[0]), cs, l[s].depPrev);
    if l[s].sibNext == NONE then l2 else LinkSib(l2, Last(cs), l[s].sibNext)
  }

  /** The others' pointers once s's children, if any, stand in its place. */
  function Unlink(l: LinkMap, s: int, cs: seq<int>): (r: LinkMap)
    requires Guarded(l, s) && forall k | k in cs :: k in l
    ensures r.Keys == l.Keys
  {
    if cs == [] then Bypass(l, s) else Promote(l, s, cs)
  }

  /** The pointers after s is gone, its children in its place. */
  function RemoveLinks(l: LinkMap, s: int, cs: seq<int>): (r: LinkMap)
    requires Guarded(l, s) && forall k | k in cs :: k in l
  {
    Unlink(l, s, cs)[s := UNLINKED]
  }

  /** The pointers after s is cut off together with everything below it. */
  function CutLinks(l: LinkMap, s: int): (r: LinkMap)
    requires Guarded(l, s)
  {
    var l1 := Bypass(l, s);
    l1[s := Links(NONE, l1[s].depNext, NONE, NONE)]
  }

  function Spliced(ks: seq<int>, j: nat, cs: seq<int>): seq<int>
    requires j < |ks|
  {
    ks[..j] + cs + ks[j + 1..]
  }

  /** Where s stands among its parent's children. */
  lemma Position(l: LinkMap, kids: Kids, s: int) returns (j: nat)
    requires Linked(l, kids) && s in l && l[s].depPrev != NONE
    ensures l[s].depPrev in l && j < |kids[l[s].depPrev]| && kids[l[s].depPrev][j] == s
    ensures l[s].sibPrev == At(kids[l[s].depPrev], j - 1) && l[s].sibNext == At(kids[l[s].depPrev], j + 1)
    ensures Guarded(l, s)
  {
    assert Placed(l, kids, s);
    var p := l[s].depPrev;
    j :| 0 <= j < |kids[p]| && kids[p][j] == s;
    assert ChildrenOf(l, p, kids[p]) && Child(l, p, kids[p], j);
    KidsKnown(l, kids, p);
  }

  lemma BypassedChildren(l: LinkMap, p: int, ks: seq<int>, j: nat, s: int)
    requires NONE !in l && ChildrenOf(l, p, ks) && j < |ks| && ks[j] == s && Guarded(l, s) && p !in ks
    requires forall k | k in ks :: k in l
    ensures ChildrenOf(CutLinks(l, s), p, Spliced(ks, j, []))
  {
    DistinctAll(l, p, ks);
    var r, ns := CutLinks(l, s), Spliced(ks, j, []);
    assert Child(l, p, ks, j);
    forall i | 0 <= i < |ns| ensures Child(r, p, ns, i) {
      var k := if i < j then i else i + 1;
      assert Child(l, p, ks, k) && ks[k] in ks;
    }
  }

  /** What a stream other than s and its parent stores once the children of s have moved up. */
  lemma PromotedAt(l: LinkMap, s: int, cs: seq<int>, x: int)
    requires NONE !in l && x in l && Guarded(l, s) && x != s && x != l[s].depPrev
    requires cs != [] && (forall k | k in cs :: k in l) && l[s].sibPrev !in cs && l[s].sibNext !in cs
    requires l[s].sibPrev != l[s].sibNext || l[s].sibPrev == NONE
    ensures var r, first, last := RemoveLinks(l, s, cs), l[s].sibPrev, l[s].sibNext;
            && x in r && r[x].depNext == l[x].depNext
            && r[x].depPrev == (if x in cs || (x == cs[0] && first == NONE) then l[s].depPrev else l[x].depPrev)
            && r[x].sibNext == (if x == first then cs[0]
                                else if x == Last(cs) && last != NONE then last else l[x].sibNext)
            && r[x].sibPrev == (if x == cs[0] && first != NONE then first
                                else if x == last then Last(cs) else l[x].sibPrev)
  {
    ReparentAt(Headed(l, s, cs[0]), cs, l[s].depPrev, x);
  }

  /** The place of one of them: before, among or behind those that moved up. */
  lemma PromotedChild(l: LinkMap, p: int, ks: seq<int>, j: nat, s: int, cs: seq<int>, i: nat)
    requires NONE !in l && ChildrenOf(l, p, ks) && j < |ks| && ks[j] == s && Guarded(l, s) && s != p && p !in ks
    requires ChildrenOf(l, s, cs) && cs != [] && p !in cs
    requires (forall a, b | 0 <= a < b < |ks| :: ks[a] != ks[b]) && forall a, b | 0 <= a < b < |cs| :: cs[a] != cs[b]
    requires (forall k | k in ks :: k in l && l[k].depPrev == p) && (forall k | k in cs :: k in l && l[k].depPrev == s)
    requires i < |Spliced(ks, j, cs)|
    ensures Child(RemoveLinks(l, s, cs), p, Spliced(ks, j, cs), i)
  {
    var x := Spliced(ks, j, cs)[i];
    assert Child(l, p, ks, j) && At(ks, j - 1) !in cs && At(ks, j + 1) !in cs;
    if i < j {
      assert Child(l, p, ks, i) && ks[i] in ks;
    } else if i < j + |cs| {
      assert Child(l, s, cs, i - j) && cs[i - j] in cs;
    } else {
      assert Child(l, p, ks, i - |cs| + 1) && ks[i - |cs| + 1] in ks;
    }
    PromotedAt(l, s, cs, x);
  }

  lemma PromotedChildren(l: LinkMap, p: int, ks: seq<int>, j: nat, s: int, cs: seq<int>)
    requires NONE !in l && ChildrenOf(l, p, ks) && j < |ks| && ks[j] == s && Guarded(l, s) && s != p && p !in ks
    requires ChildrenOf(l, s, cs) && cs != [] && p !in cs
    requires (forall k | k in ks :: k in l && l[k].depPrev == p) && (forall k | k in cs :: k in l && l[k].depPrev == s)
    ensures ChildrenOf(RemoveLinks(l, s, cs), p, Spliced(ks, j, cs))
  {
    DistinctAll(l, p, ks);
    DistinctAll(l, s, cs);
    assert Child(l, p, ks, j);
    var r, ns := RemoveLinks(l, s, cs), Spliced(ks, j, cs);
    ReparentAt(Headed(l, s, cs[0]), cs, p, p);
    forall i | 0 <= i < |ns|
      ensures Child(r, p, ns, i)
    {
      PromotedChild(l, p, ks, j, s, cs, i);
    }
  }

  lemma SplicedMembers(ks: seq<int>, j: nat, cs: seq<int>, x: int)
    requires j < |ks| && forall a, b | 0 <= a < b < |ks| :: ks[a] != ks[b]
    requires ks[j] !in cs
    ensures x in Spliced(ks, j, cs) <==> (x in ks && x != ks[j]) || x in cs
  {
    var ns := Spliced(ks, j, cs);
    if x in ks && x != ks[j] {
      var i :| 0 <= i < |ks| && ks[i] == x;
      assert ns[if i < j then i else i - 1 + |cs|] == x;
    }
    if x in ns {
      assert x in ks[..j] || x in cs || x in ks[j + 1..];
    }
  }

  /** The lists after s is gone; j is its place. */
  function RemoveKids(kids: Kids, p: int, s: int, j: nat): Kids
    requires p in kids && s in kids && j < |kids[p]|
  {
    kids[p := Spliced(kids[p], j, kids[s])][s := []]
  }

  /** p's children once s is gone. */
  lemma RemovedChildren(l: LinkMap, p: int, ks: seq<int>, j: nat, s: int, cs: seq<int>)
    requires NONE !in l && ChildrenOf(l, p, ks) && j < |ks| && ks[j] == s && Guarded(l, s) && s != p && p !in ks
    requires ChildrenOf(l, s, cs) && p !in cs
    requires (forall k | k in ks :: k in l && l[k].depPrev == p) && (forall k | k in cs :: k in l && l[k].depPrev == s)
    ensures ChildrenOf(RemoveLinks(l, s, cs), p, Spliced(ks, j, cs))
  {
    if cs == [] {
      BypassedChildren(l, p, ks, j, s);
      DistinctAll(l, p, ks);
      forall k | k in Spliced(ks, j, []) ensures k in l && k != s {
        SplicedMembers(ks, j, [], k);
      }
      SameChildren(CutLinks(l, s), RemoveLinks(l, s, cs), p, Spliced(ks, j, []));
    } else {
      PromotedChildren(l, p, ks, j, s, cs);
    }
  }

  /** What removing s does to x's place. */
  lemma RemovedAt(l: LinkMap, p: int, s: int, cs: seq<int>, x: int)
    requires NONE !in l && x in l && Guarded(l, s) && l[s].depPrev == p && s != p
    requires forall k | k in cs :: k in l
    requires x in cs <==> l[x].depPrev == s
    requires l[s].sibPrev != NONE ==> l[l[s].sibPrev].depPrev == p
    requires l[s].sibNext != NONE ==> l[l[s].sibNext].depPrev == p
    ensures var r := RemoveLinks(l, s, cs);
            && x in r
            && (x != p && x != s ==> r[x].depNext == l[x].depNext)
            && (x == s ==> r[x] == UNLINKED)
            && (x != s && l[x].depPrev == p ==> r[x].depPrev == p)
            && (x != s && l[x].depPrev == s ==> r[x].depPrev == p)
            && (l[x].depPrev != p && l[x].depPrev != s ==> r[x] == l[x].(depNext := r[x].depNext))
  {
    if cs != [] {
      ReparentAt(Headed(l, s, cs[0]), cs, p, x);
      assert l[cs[0]].depPrev == s || cs[0] != x;
      assert l[Last(cs)].depPrev == s || Last(cs) != x;
    }
  }

  lemma RemoveElsewhere(l: LinkMap, kids: Kids, p: int, s: int, j: nat, x: int)
    requires Linked(l, kids) && Guarded(l, s) && l[s].depPrev == p && j < |kids[p]| && kids[p][j] == s && s != p
    requires x in l
    requires forall a, b | 0 <= a < b < |kids[p]| :: kids[p][a] != kids[p][b]
    requires forall k | k in kids[s] :: k in l && l[k].depPrev == s
    requires s !in kids[s]
    ensures var r := RemoveLinks(l, s, kids[s]);
            && x in r
            && (x != p && x != s ==> r[x].depNext == l[x].depNext)
            && (l[x].depPrev in l && l[x].depPrev != p && l[x].depPrev != s ==> r[x] == l[x].(depNext := r[x].depNext))
            && (l[x].depPrev == NONE || l[x].depPrev == p || l[x].depPrev == s ==>
                  Placed(r, RemoveKids(kids, p, s, j), x))
  {
    assert ChildrenOf(l, p, kids[p]) && Child(l, p, kids[p], j);
    assert l[s].sibPrev != NONE ==> Child(l, p, kids[p], j - 1);
    assert l[s].sibNext != NONE ==> Child(l, p, kids[p], j + 1);
    SplicedMembers(kids[p], j, kids[s], x);
    ChildHasParent(l, kids, p, x);
    ChildHasParent(l, kids, s, x);
    RemovedAt(l, p, s, kids[s], x);
    assert Placed(l, kids, x);
  }

  lemma RemoveKeepsLinked(l: LinkMap, kids: Kids, p: int, s: int, j: nat)
    requires Linked(l, kids) && Guarded(l, s) && l[s].depPrev == p && j < |kids[p]| && kids[p][j] == s
    requires s != p && l[p].depPrev != p && l[p].depPrev != s
    requires forall k | k in kids[s] :: k in l
    ensures Linked(RemoveLinks(l, s, kids[s]), RemoveKids(kids, p, s, j))
  {
    KidsKnown(l, kids, p);
    KidsKnown(l, kids, s);
    var r, kids' := RemoveLinks(l, s, kids[s]), RemoveKids(kids, p, s, j);
    assert ChildrenOf(l, p, kids[p]) && ChildrenOf(l, s, kids[s]);
    DistinctAll(l, p, kids[p]);
    RemovedChildren(l, p, kids[p], j, s, kids[s]);
    assert ChildrenOf(r, s, []);
    forall x | x in l
      ensures x in r && (x != p && x != s ==> r[x].depNext == l[x].depNext)
      ensures l[x].depPrev in l && l[x].depPrev != p && l[x].depPrev != s ==> r[x] == l[x].(depNext := r[x].depNext)
      ensures l[x].depPrev == NONE || l[x].depPrev == p || l[x].depPrev == s ==> Placed(r, kids', x)
    {
      RemoveElsewhere(l, kids, p, s, j, x);
    }
    StillLinked(l, r, kids, kids', {p, s});
  }

  /** The lists after s is cut off. */
  function CutKids(kids: Kids, p: int, j: nat): Kids
    requires p in kids && j < |kids[p]|
  {
    kids[p := Spliced(kids[p], j, [])]
  }

  lemma CutKeepsLinked(l: LinkMap, kids: Kids, p: int, s: int, j: nat)
    requires Linked(l, kids) && Guarded(l, s) && l[s].depPrev == p && j < |kids[p]| && kids[p][j] == s
    requires s != p && l[p].depPrev != p
    ensures Linked(CutLinks(l, s), CutKids(kids, p, j))
  {
    KidsKnown(l, kids, p);
    var ks, r, kids' := kids[p], CutLinks(l, s), CutKids(kids, p, j);
    assert ChildrenOf(l, p, ks);
    DistinctAll(l, p, ks);
    BypassedChildren(l, p, ks, j, s);
    assert Child(l, p, ks, j);
    assert l[s].sibPrev != NONE ==> Child(l, p, ks, j - 1);
    assert l[s].sibNext != NONE ==> Child(l, p, ks, j + 1);
    forall x | x in l && (l[x].depPrev == NONE || l[x].depPrev == p) ensures Placed(r, kids', x) {
      SplicedMembers(ks, j, [], x);
      ChildHasParent(l, kids, p, x);
      assert Placed(l, kids, x);
    }
    StillLinked(l, r, kids, kids', {p});
  }

  // ---- what the operations do to the parents

  lemma AddMovesUp(l: LinkMap, kids: Kids, p: int, s: int)
    requires Linked(l, kids) && p in l && Detached(l, s) && s != p
    requires l[p].depNext == NONE || l[p].depNext in l
    ensures Up(AddLinks(l, p, s)) == AddUp(Up(l), p, s)
  {
  }

  lemma InsertParentAt(l: LinkMap, p: int, s: int, own: seq<int>, ks: seq<int>, x: int)
    requires p in l && s in l && s != p && x in l && (forall k | k in ks :: k in l) && (own != [] ==> Last(own) in l)
    requires (x in ks <==> l[x].depPrev == p) && s !in ks && NONE !in l
    ensures x in InsertLinks(l, p, s, own, ks)
    ensures InsertLinks(l, p, s, own, ks)[x].depPrev
         == if x == s then p else if l[x].depPrev == p then s else l[x].depPrev
  {
    assert ks != [] ==> ks[0] in ks;
    ReparentAt(Joined(l, p, s, own, ks), ks, s, x);
  }

  lemma InsertMovesUp(l: LinkMap, kids: Kids, p: int, s: int)
    requires Linked(l, kids) && p in l && Detached(l, s) && s != p && l[p].depPrev != p && l[p].depPrev != s
    requires forall k | k in kids[p] :: k in l
    requires kids[s] != [] ==> Last(kids[s]) in l
    ensures Up(InsertLinks(l, p, s, kids[s], kids[p])) == InsertUp(Up(l), p, s)
  {
    var r := InsertLinks(l, p, s, kids[s], kids[p]);
    ChildHasParent(l, kids, p, s);
    forall x | x in l ensures x in r && r[x].depPrev == InsertUp(Up(l), p, s)[x] {
      ChildHasParent(l, kids, p, x);
      InsertParentAt(l, p, s, kids[s], kids[p], x);
    }
  }

  lemma RemoveMovesUp(l: LinkMap, kids: Kids, p: int, s: int)
    requires Linked(l, kids) && Guarded(l, s) && l[s].depPrev == p && s != p
    ensures (forall k | k in kids[s] :: k in l) && Up(RemoveLinks(l, s, kids[s])) == RemoveUp(Up(l), s)
  {
    KidsKnown(l, kids, s);
    var r := RemoveLinks(l, s, kids[s]);
    var j := Position(l, kids, s);
    assert ChildrenOf(l, p, kids[p]);
    assert l[s].sibPrev != NONE ==> Child(l, p, kids[p], j - 1);
    assert l[s].sibNext != NONE ==> Child(l, p, kids[p], j + 1);
    forall x | x in l ensures x in r && r[x].depPrev == RemoveUp(Up(l), s)[x] {
      ChildHasParent(l, kids, s, x);
      RemovedAt(l, p, s, kids[s], x);
    }
  }

  lemma CutMovesUp(l: LinkMap, kids: Kids, p: int, s: int)
    requires Linked(l, kids) && Guarded(l, s) && l[s].depPrev == p && s != p
    ensures Up(CutLinks(l, s)) == CutUp(Up(l), s)
  {
    var j := Position(l, kids, s);
    assert ChildrenOf(l, p, kids[p]);
    assert l[s].sibNext != NONE ==> Child(l, p, kids[p], j + 1);
  }

  lemma BypassMovesNone(l: LinkMap, kids: Kids, s: int)
    requires Linked(l, kids) && Guarded(l, s)
    ensures Up(Bypass(l, s)) == Up(l)
  {
    var j := Position(l, kids, s);
    var p := l[s].depPrev;
    assert ChildrenOf(l, p, kids[p]);
    assert l[s].sibNext != NONE ==> Child(l, p, kids[p], j + 1);
  }
}
