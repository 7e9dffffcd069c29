/**
 * Chasing CNAMEs in the Unbound iterator (section 3.6.2 of RFC 1034): what is put before the final answer is a chain
 * from the name that was asked for to the name that is asked for now, without repetitions.
 */
module CnameChain {
  import opened Bytes

  /** A domain name, its labels in lower case from the root down: `query_dname_compare` is equality. */
  type Name = seq<string>

  const CNAME: nat := 5
  const DNAME: nat := 39
  const NSEC: nat := 47
  const NSEC3: nat := 50

  /** The records of a set; `target` is the name in the first one, None if it cannot be read. */
  datatype Data = Data(records: seq<seq<int>>, target: Option<Name>)

  /** `ub_packed_rrset_key` and the data it leads to */
  datatype Rrset = Rrset(name: Name, kind: nat, cls: nat, data: Data, ttl: nat)

  /** `get_cname_target`, which changes nothing if the target cannot be read: a CNAME leads on to its own name then. */
  function Onward(r: Rrset): Name {
    match r.data.target
    case None => r.name
    case Some(name) => name
  }

  /** `dname_strict_subdomain_c` */
  predicate StrictlyBelow(name: Name, zone: Name) {
    |name| > |zone| && name[..|zone|] == zone
  }

  /** The same set with the same data, whatever the TTL. */
  predicate SameSet(a: Rrset, b: Rrset) {
    a.name == b.name && a.kind == b.kind && a.cls == b.cls && a.data == b.data
  }

  /** `iter_find_rrset_in_prepend_answer` */
  predicate Found(xs: seq<Rrset>, r: Rrset) {
    exists k | 0 <= k < |xs| :: SameSet(xs[k], r)
  }

  // ---- one response

  /** What `handle_cname_response` has put before the answer so far, and the name that it has come to. */
  datatype Chase = Chase(answer: seq<Rrset>, authority: seq<Rrset>, name: Name)

  /** One set of the ANSWER section. */
  function Followed(c: Chase, r: Rrset): Chase {
    if r.kind == DNAME && StrictlyBelow(c.name, r.name) && !Found(c.answer, r) then c.(answer := c.answer + [r])
    else if r.kind == CNAME && c.name == r.name && !Found(c.answer, r) then
      c.(answer := c.answer + [r], name := Onward(r))
    else c
  }

  function FollowedAll(c: Chase, rs: seq<Rrset>): Chase {
    if rs == [] then c else Followed(FollowedAll(c, rs[..|rs| - 1]), rs[|rs| - 1])
  }

  /** The sets of the AUTHORITY section that a validator may need. */
  function Proofs(rs: seq<Rrset>): seq<Rrset> {
    if rs == [] then []
    else
      var r := rs[|rs| - 1];
      Proofs(rs[..|rs| - 1]) + if r.kind == NSEC || r.kind == NSEC3 then [r] else []
  }

  /** A response with its ANSWER and AUTHORITY sections. */
  datatype Response = Response(answer: seq<Rrset>, authority: seq<Rrset>)

  /** `handle_cname_response`; the new query name is stored in `qchase` after it. */
  function Handled(c: Chase, m: Response): Chase {
    var c1 := FollowedAll(c, m.answer);
    c1.(authority := c.authority + Proofs(m.authority))
  }

  // ---- the chain

  /** The CNAMEs among these. */
  function Cnames(xs: seq<Rrset>): seq<Rrset> {
    if xs == [] then []
    else
      var r := xs[|xs| - 1];
      Cnames(xs[..|xs| - 1]) + if r.kind == CNAME then [r] else []
  }

  /** The CNAMEs lead from one name to the other, each owned by the target of the one before. */
  predicate Leads(cs: seq<Rrset>, from: Name, to: Name)
    decreases |cs|
  {
    if cs == [] then from == to
    else
      var r := cs[|cs| - 1];
      Onward(r) == to && Leads(cs[..|cs| - 1], from, r.name)
  }

  /** No set is there twice. */
  predicate Distinct(xs: seq<Rrset>) {
    forall j, k | 0 <= j < k < |xs| :: !SameSet(xs[j], xs[k])
  }

  /** DNAMEs and CNAMEs only. */
  predicate Aliases(xs: seq<Rrset>) {
    forall r | r in xs :: r.kind == CNAME || r.kind == DNAME
  }

  /** DNAMEs and CNAMEs only, each once, and a chain from the name asked for first to the name asked for now. */
  predicate Chained(c: Chase, first: Name) {
    && Distinct(c.answer) && Leads(Cnames(c.answer), first, c.name)
    && Aliases(c.answer)
    && forall r | r in c.authority :: r.kind == NSEC || r.kind == NSEC3
  }

  lemma CnamesAppend(xs: seq<Rrset>, r: Rrset)
    ensures Cnames(xs + [r]) == Cnames(xs) + if r.kind == CNAME then [r] else []
  {
    assert (xs + [r])[..|xs|] == xs;
  }

  lemma LeadsOn(cs: seq<Rrset>, from: Name, r: Rrset)
    requires Leads(cs, from, r.name)
    ensures Leads(cs + [r], from, Onward(r))
  {
    assert (cs + [r])[..|cs|] == cs;
  }

  lemma DistinctAppend(xs: seq<Rrset>, r: Rrset)
    requires Distinct(xs) && !Found(xs, r)
    ensures Distinct(xs + [r])
  {
    forall j, k | 0 <= j < k < |xs + [r]|
      ensures !SameSet((xs + [r])[j], (xs + [r])[k])
    {
      assert (xs + [r])[j] == xs[j];
    }
  }

  lemma AliasesAppend(xs: seq<Rrset>, r: Rrset)
    requires Aliases(xs) && (r.kind == CNAME || r.kind == DNAME)
    ensures Aliases(xs + [r])
  {
  }

  lemma FollowedChained(c: Chase, r: Rrset, first: Name)
    requires Chained(c, first)
    ensures Chained(Followed(c, r), first)
  {
    if Followed(c, r) != c {
      CnamesAppend(c.answer, r);
      DistinctAppend(c.answer, r);
      AliasesAppend(c.answer, r);
      if r.kind == CNAME {
        LeadsOn(Cnames(c.answer), first, r);
      } else {
        assert Cnames(c.answer) + [] == Cnames(c.answer);
      }
    }
  }

  lemma {:induction false} AllFollowedChained(c: Chase, rs: seq<Rrset>, first: Name)
    requires Chained(c, first)
    ensures Chained(FollowedAll(c, rs), first) && FollowedAll(c, rs).authority == c.authority
  {
    if rs != [] {
      AllFollowedChained(c, rs[..|rs| - 1], first);
      FollowedChained(FollowedAll(c, rs[..|rs| - 1]), rs[|rs| - 1], first);
    }
  }

  lemma {:induction false} ProofsOnly(rs: seq<Rrset>)
    ensures forall r | r in Proofs(rs) :: r.kind == NSEC || r.kind == NSEC3
  {
    if rs != [] {
      ProofsOnly(rs[..|rs| - 1]);
    }
  }

  lemma HandledChained(c: Chase, m: Response, first: Name)
    requires Chained(c, first)
    ensures Chained(Handled(c, m), first)
  {
    AllFollowedChained(c, m.answer, first);
    ProofsOnly(m.authority);
  }

  /** Any number of restarts, from the cache or from the network, whatever the responses hold. */
  function HandledAll(c: Chase, ms: seq<Response>): Chase
    decreases |ms|
  {
    if ms == [] then c else HandledAll(Handled(c, ms[0]), ms[1..])
  }

  /**
   * The chain invariant: across all restarts what is to be prepended is free of repetitions, and its CNAMEs lead from
   * the name of the query to the name in `qchase`.
   */
  lemma {:induction false} RestartsKeepChain(c: Chase, ms: seq<Response>, first: Name)
    requires Chained(c, first)
    ensures Chained(HandledAll(c, ms), first)
    decreases |ms|
  {
    if ms != [] {
      HandledChained(c, ms[0], first);
      RestartsKeepChain(Handled(c, ms[0]), ms[1..], first);
    }
  }

  lemma QueryStarts(first: Name)
    ensures Chained(Chase([], [], first), first)
  {
  }

  /** From the query on: whatever responses come, the chain leads from the name of the query. */
  lemma QueryStaysChained(first: Name, ms: seq<Response>)
    ensures Chained(HandledAll(Chase([], [], first), ms), first)
  {
    QueryStarts(first);
    RestartsKeepChain(Chase([], [], first), ms, first);
  }

  // ---- nothing is missed

  lemma {:induction false} AnswerGrows(c: Chase, rs: seq<Rrset>)
    ensures c.answer <= FollowedAll(c, rs).answer
    ensures forall r | r in FollowedAll(c, rs).answer :: r in c.answer || r in rs
  {
    if rs != [] {
      AnswerGrows(c, rs[..|rs| - 1]);
    }
  }

  lemma FoundStays(xs: seq<Rrset>, ys: seq<Rrset>, r: Rrset)
    requires Found(xs, r) && xs <= ys
    ensures Found(ys, r)
  {
    var k :| 0 <= k < |xs| && SameSet(xs[k], r);
    assert ys[k] == xs[k];
  }

  lemma FoundAtEnd(xs: seq<Rrset>, r: Rrset)
    ensures Found(xs + [r], r)
  {
    assert (xs + [r])[|xs|] == r;
  }

  /** What follows is in addition to what there is. */
  lemma {:induction false} StillFound(c: Chase, rs: seq<Rrset>, k: nat, r: Rrset)
    requires k <= |rs| && Found(FollowedAll(c, rs[..k]).answer, r)
    ensures Found(FollowedAll(c, rs).answer, r)
    decreases |rs| - k
  {
    if k == |rs| {
      assert rs[..k] == rs;
    } else {
      assert rs[..k + 1][..k] == rs[..k];
      FoundStays(FollowedAll(c, rs[..k]).answer, FollowedAll(c, rs[..k + 1]).answer, r);
      StillFound(c, rs, k + 1, r);
    }
  }

  /** Without a CNAME for it the name stays. */
  lemma {:induction false} NameStays(c: Chase, rs: seq<Rrset>)
    requires forall r | r in rs :: r.kind == CNAME ==> r.name != c.name
    ensures FollowedAll(c, rs).name == c.name
  {
    if rs != [] {
      NameStays(c, rs[..|rs| - 1]);
    }
  }

  /**
   * The first CNAME for the current name is put before the answer, unless it is there, and so is every DNAME ahead of
   * it that the name is below.
   */
  lemma FirstIsTaken(c: Chase, m: Response, k: nat)
    requires k < |m.answer|
    requires forall r | r in m.answer[..k] :: r.kind == CNAME ==> r.name != c.name
    ensures var r := m.answer[k];
            (r.kind == CNAME && r.name == c.name) || (r.kind == DNAME && StrictlyBelow(c.name, r.name)) ==>
              Found(Handled(c, m).answer, r)
  {
    var r, c1 := m.answer[k], FollowedAll(c, m.answer[..k]);
    NameStays(c, m.answer[..k]);
    assert m.answer[..k + 1][..k] == m.answer[..k];
    if (r.kind == CNAME && r.name == c.name) || (r.kind == DNAME && StrictlyBelow(c.name, r.name)) {
      FoundAtEnd(c1.answer, r);
      assert Found(FollowedAll(c, m.answer[..k + 1]).answer, r);
      StillFound(c, m.answer, k + 1, r);
    }
  }

  /** A CNAME that is among these is among their CNAMEs. */
  lemma {:induction false} FoundAmongCnames(xs: seq<Rrset>, r: Rrset)
    requires r.kind == CNAME
    ensures Found(xs, r) <==> Found(Cnames(xs), r)
  {
    if xs != [] {
      var init, x := xs[..|xs| - 1], xs[|xs| - 1];
      FoundAmongCnames(init, r);
      assert xs == init + [x];
      FoundInTwo(init, [x], r);
      FoundInTwo(Cnames(init), if x.kind == CNAME then [x] else [], r);
      if x.kind != CNAME {
        assert !SameSet(x, r);
      }
    }
  }

  lemma FoundInTwo(xs: seq<Rrset>, ys: seq<Rrset>, r: Rrset)
    ensures Found(xs + ys, r) <==> Found(xs, r) || Found(ys, r)
  {
    if Found(xs, r) {
      FoundStays(xs, xs + ys, r);
    }
    if Found(ys, r) {
      var k :| 0 <= k < |ys| && SameSet(ys[k], r);
      assert (xs + ys)[|xs| + k] == ys[k];
    }
  }

  /**
   * CNAMEs that make a chain from the current name, none of them seen before, are all followed, and the name is the
   * target of the last of them.
   */
  lemma {:induction false} ChainIsFollowed(c: Chase, rs: seq<Rrset>, to: Name)
    requires Leads(Cnames(rs), c.name, to) && Distinct(Cnames(rs))
    requires forall r | r in Cnames(rs) :: !Found(c.answer, r)
    ensures FollowedAll(c, rs).name == to && Cnames(FollowedAll(c, rs).answer) == Cnames(c.answer) + Cnames(rs)
  {
    if rs == [] {
      assert Cnames(c.answer) + [] == Cnames(c.answer);
    } else {
      var init, r := rs[..|rs| - 1], rs[|rs| - 1];
      if r.kind == CNAME {
        ChainPrefix(Cnames(init), r, c.name, to);
        ChainIsFollowed(c, init, r.name);
        NextIsFollowed(c, FollowedAll(c, init), Cnames(init), r);
      } else {
        assert Cnames(rs) == Cnames(init);
        ChainIsFollowed(c, init, to);
        CnamesAppend(FollowedAll(c, init).answer, r);
      }
    }
  }

  lemma ChainPrefix(cs: seq<Rrset>, r: Rrset, from: Name, to: Name)
    requires Leads(cs + [r], from, to) && Distinct(cs + [r])
    ensures Leads(cs, from, r.name) && Distinct(cs) && to == Onward(r) && !Found(cs, r)
  {
    assert (cs + [r])[..|cs|] == cs;
    forall j, k | 0 <= j < k < |cs|
      ensures !SameSet(cs[j], cs[k])
    {
      assert (cs + [r])[j] == cs[j] && (cs + [r])[k] == cs[k];
    }
    forall k | 0 <= k < |cs|
      ensures !SameSet(cs[k], r)
    {
      assert (cs + [r])[k] == cs[k] && (cs + [r])[|cs|] == r;
    }
  }

  lemma NextIsFollowed(c: Chase, c1: Chase, cs: seq<Rrset>, r: Rrset)
    requires r.kind == CNAME && c1.name == r.name && Cnames(c1.answer) == Cnames(c.answer) + cs
    requires !Found(c.answer, r) && !Found(cs, r)
    ensures Followed(c1, r).name == Onward(r)
    ensures Cnames(Followed(c1, r).answer) == Cnames(c.answer) + (cs + [r])
  {
    FoundAmongCnames(c1.answer, r);
    FoundAmongCnames(c.answer, r);
    FoundInTwo(Cnames(c.answer), cs, r);
    CnamesAppend(c1.answer, r);
    assert Cnames(c.answer) + cs + [r] == Cnames(c.answer) + (cs + [r]);
  }

  lemma {:induction false} AllProofs(rs: seq<Rrset>)
    ensures forall r | r in rs && (r.kind == NSEC || r.kind == NSEC3) :: r in Proofs(rs)
    ensures forall r | r in Proofs(rs) :: r in rs
  {
    if rs != [] {
      AllProofs(rs[..|rs| - 1]);
      assert rs == rs[..|rs| - 1] + [rs[|rs| - 1]];
    }
  }

  lemma {:induction false} AuthorityKept(c: Chase, rs: seq<Rrset>)
    ensures FollowedAll(c, rs).authority == c.authority
  {
    if rs != [] {
      AuthorityKept(c, rs[..|rs| - 1]);
    }
  }

  /**
   * What a response does: a chain of CNAMEs from the current name is followed to its end, and all the proofs of its
   * AUTHORITY section are kept; nothing that was there before goes, and nothing comes from elsewhere.
   */
  lemma ResponseIsFollowed(c: Chase, m: Response, to: Name)
    requires Leads(Cnames(m.answer), c.name, to) && Distinct(Cnames(m.answer))
    requires forall r | r in Cnames(m.answer) :: !Found(c.answer, r)
    ensures var h := Handled(c, m);
            && h.name == to && Cnames(h.answer) == Cnames(c.answer) + Cnames(m.answer)
  {
    ChainIsFollowed(c, m.answer, to);
  }

  lemma ResponseIsKept(c: Chase, m: Response)
    ensures var h := Handled(c, m);
            && c.answer <= h.answer && (forall r | r in h.answer :: r in c.answer || r in m.answer)
            && c.authority <= h.authority && (forall r | r in h.authority :: r in c.authority || r in m.authority)
            && forall r | r in m.authority && (r.kind == NSEC || r.kind == NSEC3) :: r in h.authority
  {
    AnswerGrows(c, m.answer);
    AllProofs(m.authority);
    AuthorityKept(c, m.answer);
  }

  // ---- the final message

  /** `prepend_is_duplicate`: the same owner, type and class. */
  predicate SameKey(a: Rrset, b: Rrset) {
    a.name == b.name && a.kind == b.kind && a.cls == b.cls
  }

  predicate IsDuplicate(xs: seq<Rrset>, r: Rrset) {
    exists k | 0 <= k < |xs| :: SameKey(xs[k], r)
  }

  /** The sets for the AUTHORITY section that are in it neither yet nor twice. */
  function Fresh(ps: seq<Rrset>, old_: seq<Rrset>): (r: seq<Rrset>)
    ensures |r| <= |ps|
  {
    if ps == [] then []
    else
      var r, p := Fresh(ps[..|ps| - 1], old_), ps[|ps| - 1];
      if IsDuplicate(r, p) || IsDuplicate(old_, p) then r else r + [p]
  }

  /** They are just that: no two have the same key, none has that of one that was there, and none is missing. */
  lemma {:induction false} FreshOnce(ps: seq<Rrset>, old_: seq<Rrset>)
    ensures var r := Fresh(ps, old_);
            && (forall j, k | 0 <= j < k < |r| :: !SameKey(r[j], r[k]))
            && (forall p | p in r :: p in ps && !IsDuplicate(old_, p))
            && (forall p | p in ps :: IsDuplicate(r + old_, p))
  {
    if ps != [] {
      var init, p := ps[..|ps| - 1], ps[|ps| - 1];
      FreshOnce(init, old_);
      var r, r' := Fresh(init, old_), Fresh(ps, old_);
      forall x | x in ps ensures IsDuplicate(r' + old_, x) {
        if x in init {
          KeyStays(r, r', old_, x);
        } else {
          assert x == p;
          KeyThere(r, r', old_, p);
        }
      }
    }
  }

  lemma KeyStays(r: seq<Rrset>, r': seq<Rrset>, old_: seq<Rrset>, x: Rrset)
    requires IsDuplicate(r + old_, x) && |r| <= |r'| && r'[..|r|] == r
    ensures IsDuplicate(r' + old_, x)
  {
    var k :| 0 <= k < |r + old_| && SameKey((r + old_)[k], x);
    var j := if k < |r| then k else k + |r'| - |r|;
    assert (r' + old_)[j] == (r + old_)[k];
  }

  lemma KeyThere(r: seq<Rrset>, r': seq<Rrset>, old_: seq<Rrset>, p: Rrset)
    requires r' == if IsDuplicate(r, p) || IsDuplicate(old_, p) then r else r + [p]
    ensures IsDuplicate(r' + old_, p)
  {
    if IsDuplicate(r, p) {
      var k :| 0 <= k < |r| && SameKey(r[k], p);
      assert (r' + old_)[k] == r[k];
    } else if IsDuplicate(old_, p) {
      var k :| 0 <= k < |old_| && SameKey(old_[k], p);
      assert (r' + old_)[|r'| + k] == old_[k];
    } else {
      assert (r' + old_)[|r|] == p;
    }
  }

  /** The smallest of a TTL and those of the sets. */
  function LeastTtl(ttl: nat, xs: seq<Rrset>): (t: nat)
    ensures t <= ttl && forall x | x in xs :: t <= x.ttl
    ensures t == ttl || exists x | x in xs :: t == x.ttl
  {
    if xs == [] then ttl
    else
      var t := LeastTtl(ttl, xs[..|xs| - 1]);
      assert forall x | x in xs :: x in xs[..|xs| - 1] || x == xs[|xs| - 1];
      if xs[|xs| - 1].ttl < t then xs[|xs| - 1].ttl else t
  }

  /** The three sections of a reply, one after the other, and its TTL. */
  datatype Reply = Reply(answer: seq<Rrset>, authority: seq<Rrset>, additional: seq<Rrset>, ttl: nat)

  /** `iter_prepend` */
  function Prepended(c: Chase, m: Reply): Reply {
    var new_ := Fresh(c.authority, m.authority);
    Reply(c.answer + m.answer, new_ + m.authority, m.additional, LeastTtl(LeastTtl(m.ttl, c.answer), new_))
  }

  /** The new TTL is the least of the old one and those of all the sets put in; the sets that were there stay. */
  lemma PrependedIsWhole(c: Chase, m: Reply)
    ensures var r, new_ := Prepended(c, m), Fresh(c.authority, m.authority);
            && r.answer[|c.answer|..] == m.answer && r.answer[..|c.answer|] == c.answer
            && r.authority[|new_|..] == m.authority && r.additional == m.additional
            && r.ttl <= m.ttl && (forall x | x in c.answer + new_ :: r.ttl <= x.ttl)
            && (r.ttl == m.ttl || exists x | x in c.answer + new_ :: r.ttl == x.ttl)
  {
    var new_, t := Fresh(c.authority, m.authority), LeastTtl(m.ttl, c.answer);
    if t != m.ttl && Prepended(c, m).ttl == t {
      var x :| x in c.answer && t == x.ttl;
      assert x in c.answer + new_;
    } else if Prepended(c, m).ttl != t {
      var x :| x in new_ && Prepended(c, m).ttl == x.ttl;
      assert x in c.answer + new_;
    }
  }
}
