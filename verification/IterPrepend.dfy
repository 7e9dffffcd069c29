/**
 * The prepend lists of `iter_qstate` in place: linked lists with a pointer to the last element, the walk through a
 * CNAME response, and the rewriting of the final message.
 */
module IterPrepend {
  import opened CnameChain

  /** `iter_prep_list` */
  class Prep {
    const rrset: Rrset
    var next: Prep?
    ghost const place: nat

    constructor (rrset: Rrset, ghost place: nat)
      ensures this.rrset == rrset && next == null && this.place == place
    {
      this.rrset, next, this.place := rrset, null, place;
    }
  }

  predicate New(r: seq<Rrset>, old_: seq<Rrset>, p: Rrset) {
    !IsDuplicate(r, p) && !IsDuplicate(old_, p)
  }

  lemma FreshAppend(ps: seq<Rrset>, p: Rrset, old_: seq<Rrset>, ttl: nat)
    ensures var r := Fresh(ps, old_);
            if !New(r, old_, p) then Fresh(ps + [p], old_) == r
            else && Fresh(ps + [p], old_) == r + [p]
                 && LeastTtl(ttl, r + [p]) == if p.ttl < LeastTtl(ttl, r) then p.ttl else LeastTtl(ttl, r)
  {
    assert (ps + [p])[..|ps|] == ps;
    assert (Fresh(ps, old_) + [p])[..|Fresh(ps, old_)|] == Fresh(ps, old_);
  }

  /** One set for the AUTHORITY section, those of `done` having been taken. */
  method AddFresh(sets: seq<Rrset>, was: seq<Rrset>, p: Rrset, least: nat, ghost ttl: nat, ghost done: seq<Rrset>)
      returns (sets': seq<Rrset>, least': nat)
    requires sets == Fresh(done, was) && least == LeastTtl(ttl, sets)
    ensures sets' == Fresh(done + [p], was) && least' == LeastTtl(ttl, sets')
  {
    FreshAppend(done, p, was, ttl);
    sets', least' := sets, least;
    var new_ := IsNew(sets, was, p);
    if new_ {
      sets' := sets + [p];
      if p.ttl < least {
        least' := p.ttl;
      }
    }
  }

  method IsNew(sets: seq<Rrset>, was: seq<Rrset>, p: Rrset) returns (b: bool)
    ensures b == New(sets, was, p)
  {
    var here := PrependIsDuplicate(sets, p);
    var there := PrependIsDuplicate(was, p);
    b := !here && !there;
  }

  /** `prepend_is_duplicate` */
  method PrependIsDuplicate(sets: seq<Rrset>, dup: Rrset) returns (found: bool)
    ensures found == IsDuplicate(sets, dup)
  {
    for i := 0 to |sets|
      invariant forall k | 0 <= k < i :: !SameKey(sets[k], dup)
    {
      if SameKey(sets[i], dup) {
        return true;
      }
    }
    found := false;
  }

  class PrepList {
    var head: Prep?
    var last: Prep?
    ghost var items: seq<Prep>
    ghost var contents: seq<Rrset>
    ghost var nodes: set<Prep>

    constructor ()
      ensures Valid() && contents == [] && nodes == {}
    {
      head, last, items, contents, nodes := null, null, [], [], {};
    }

    ghost predicate Valid()
      reads this, nodes
    {
      && |contents| == |items|
      && (forall k | 0 <= k < |items| :: items[k] in nodes && items[k].rrset == contents[k] && items[k].place == k)
      && head == At(0)
      && last == (if items == [] then null else items[|items| - 1])
      && forall k | 0 <= k < |items| :: LinkedAt(k)
    }

    ghost function At(k: nat): Prep?
      reads this
    {
      if k < |items| then items[k] else null
    }

    ghost predicate LinkedAt(k: nat)
      requires k < |items|
      reads this, items[k]
    {
      items[k].next == At(k + 1)
    }

    /** `iter_add_prepend_answer`, `iter_add_prepend_auth` */
    method Add(r: Rrset)
      requires Valid()
      modifies this, nodes
      ensures Valid() && contents == old(contents) + [r] && fresh(nodes - old(nodes))
    {
      var p := new Prep(r, |items|);
      ghost var was := items;
      if last != null {
        last.next := p;
      } else {
        head := p;
      }
      last := p;
      items, contents, nodes := items + [p], contents + [r], nodes + {p};
      forall k | 0 <= k < |items|
        ensures LinkedAt(k)
      {
        if k + 1 < |was| {
          assert old(LinkedAt(k));
        }
      }
    }

    /** `iter_find_rrset_in_prepend_answer` */
    method Find(r: Rrset) returns (found: bool)
      requires Valid()
      ensures found == Found(contents, r)
    {
      var p := head;
      ghost var k := 0;
      while p != null
        invariant 0 <= k <= |items| && p == At(k)
        invariant forall j | 0 <= j < k :: !SameSet(contents[j], r)
        decreases |items| - k
      {
        if SameSet(p.rrset, r) {
          assert SameSet(contents[k], r);
          return true;
        }
        assert !SameSet(contents[k], r) && LinkedAt(k);
        p := p.next;
        k := k + 1;
      }
      found := false;
    }

    /** The sets in the order of the list, and the least of the TTLs. */
    method Fill(ttl: nat) returns (sets: seq<Rrset>, least: nat)
      requires Valid()
      ensures sets == contents && least == LeastTtl(ttl, contents)
    {
      var p := head;
      ghost var k := 0;
      sets, least := [], ttl;
      while p != null
        invariant k <= |items| && p == At(k)
        invariant sets == contents[..k] && least == LeastTtl(ttl, contents[..k])
        decreases |items| - k
      {
        assert LinkedAt(k) && contents[..k + 1] == contents[..k] + [p.rrset];
        assert contents[..k + 1][..k] == contents[..k];
        sets := sets + [p.rrset];
        if p.rrset.ttl < least {
          least := p.rrset.ttl;
        }
        p := p.next;
        k := k + 1;
      }
    }

    /** The sets whose key neither a set of `was` has nor one put there before. */
    method FillFresh(was: seq<Rrset>, ttl: nat) returns (sets: seq<Rrset>, least: nat)
      requires Valid()
      ensures sets == Fresh(contents, was) && least == LeastTtl(ttl, sets)
    {
      var p := head;
      ghost var done: seq<Rrset> := [];
      sets, least := [], ttl;
      while p != null
        invariant |done| <= |items| && p == At(|done|) && done == contents[..|done|]
        invariant sets == Fresh(done, was) && least == LeastTtl(ttl, sets)
        decreases |items| - |done|
      {
        sets, least := AddFresh(sets, was, p.rrset, least, ttl, done);
        p, done := Next(p, done);
      }
      assert done == contents;
    }

    /** One step along the list. */
    method Next(p: Prep, ghost done: seq<Rrset>) returns (next: Prep?, ghost done': seq<Rrset>)
      requires Valid() && p == At(|done|) && |done| <= |items| && done == contents[..|done|]
      ensures |done'| == |done| + 1 <= |items| && next == At(|done'|)
      ensures done' == done + [p.rrset] && done' == contents[..|done'|]
    {
      assert LinkedAt(|done|);
      next, done' := p.next, done + [p.rrset];
    }

    method Count() returns (n: nat)
      requires Valid()
      ensures n == |contents|
    {
      var p := head;
      n := 0;
      while p != null
        invariant 0 <= n <= |items| && p == At(n)
        decreases |items| - n
      {
        assert LinkedAt(n);
        p := p.next;
        n := n + 1;
      }
    }
  }

  /** `reply_info`: its sections one after the other */
  class ReplyInfo {
    var rrsets: seq<Rrset>
    var an_numrrsets: nat
    var ns_numrrsets: nat
    var ar_numrrsets: nat
    var ttl: nat

    constructor (rrsets: seq<Rrset>, an: nat, ns: nat, ttl: nat)
      requires an + ns <= |rrsets|
      ensures Valid() && Value() == Reply(rrsets[..an], rrsets[an..an + ns], rrsets[an + ns..], ttl)
    {
      this.rrsets, this.ttl := rrsets, ttl;
      an_numrrsets, ns_numrrsets, ar_numrrsets := an, ns, |rrsets| - an - ns;
    }

    ghost predicate Valid()
      reads this
    {
      |rrsets| == an_numrrsets + ns_numrrsets + ar_numrrsets
    }

    ghost function Value(): Reply
      requires Valid()
      reads this
    {
      var an, ns := an_numrrsets, ns_numrrsets;
      Reply(rrsets[..an], rrsets[an..an + ns], rrsets[an + ns..], ttl)
    }

    /** What `handle_cname_response` reads of it. */
    ghost function Seen(): Response
      requires Valid()
      reads this
    {
      Response(rrsets[..an_numrrsets], rrsets[an_numrrsets..an_numrrsets + ns_numrrsets])
    }

    /** The end of `iter_prepend`: these sets before the ANSWER and the AUTHORITY section. */
    method Extend(answer: seq<Rrset>, authority: seq<Rrset>, ttl: nat)
      requires Valid()
      modifies this
      ensures Valid()
      ensures var was := old(Value());
              Value() == Reply(answer + was.answer, authority + was.authority, was.additional, ttl)
    {
      Joined(rrsets, an_numrrsets, ns_numrrsets, answer, authority);
      rrsets := answer + rrsets[..an_numrrsets] + authority + rrsets[an_numrrsets..];
      an_numrrsets, ns_numrrsets := an_numrrsets + |answer|, ns_numrrsets + |authority|;
      this.ttl := ttl;
    }
  }

  /** The sections of the array that is built. */
  lemma Joined(s: seq<Rrset>, from: nat, len: nat, xs: seq<Rrset>, ys: seq<Rrset>)
    requires from + len <= |s|
    ensures var t, an, ns := xs + s[..from] + ys + s[from..], |xs| + from, |ys| + len;
            && t[..an] == xs + s[..from] && t[an..an + ns] == ys + s[from..from + len]
            && t[an + ns..] == s[from + len..]
  {
  }

  /** `get_cname_target`: the name is left alone if there is none to read. */
  method GetCnameTarget(r: Rrset, mname: Name) returns (name: Name)
    ensures r.name == mname ==> name == Onward(r)
  {
    name := mname;
    if r.data.target.Some? {
      name := r.data.target.value;
    }
  }

  class IterQstate {
    const an: PrepList
    const ns: PrepList
    var qchase: Name

    /** `iter_new` for a query of this name */
    constructor (qname: Name)
      ensures Valid() && Value(qchase) == Chase([], [], qname) && fresh(an) && fresh(ns)
      ensures Chained(Value(qchase), qname)
    {
      an := new PrepList();
      ns := new PrepList();
      qchase := qname;
    }

    ghost predicate Valid()
      reads this, an, an.nodes, ns, ns.nodes
    {
      an != ns && an.nodes !! ns.nodes && an.Valid() && ns.Valid()
    }

    /** The chase when this is the name reached. */
    ghost function Value(name: Name): Chase
      reads this, an, ns
    {
      Chase(an.contents, ns.contents, name)
    }

    /** The lists and their elements. */
    ghost function Lists(): set<object>
      reads this, an, ns
    {
      {an, ns} + an.nodes + ns.nodes
    }

    /** One set of the ANSWER section, `name` being the one reached. */
    method Follow(r: Rrset, name: Name) returns (mname: Name)
      requires Valid()
      modifies Lists()
      ensures Valid() && Value(mname) == Followed(old(Value(name)), r) && fresh(Lists() - old(Lists()))
    {
      mname := name;
      if r.kind == DNAME && StrictlyBelow(name, r.name) {
        var added := AddOnce(r);
      } else if r.kind == CNAME && name == r.name {
        var added := AddOnce(r);
        if added {
          mname := GetCnameTarget(r, name);
        }
      }
    }

    /** Into the list for the ANSWER section, if it is not there yet. */
    method AddOnce(r: Rrset) returns (added: bool)
      requires Valid()
      modifies an, an.nodes
      ensures Valid() && fresh(an.nodes - old(an.nodes)) && added == !Found(old(an.contents), r)
      ensures an.contents == if added then old(an.contents) + [r] else old(an.contents)
    {
      var found := an.Find(r);
      if !found {
        an.Add(r);
      }
      added := !found;
    }

    /** The next set after those of `rs`. */
    method FollowNext(r: Rrset, name: Name, ghost c: Chase, ghost rs: seq<Rrset>) returns (mname: Name)
      requires Valid() && Value(name) == FollowedAll(c, rs)
      modifies Lists()
      ensures Valid() && Value(mname) == FollowedAll(c, rs + [r]) && fresh(Lists() - old(Lists()))
    {
      assert (rs + [r])[..|rs|] == rs;
      mname := Follow(r, name);
    }

    /** The sets of the ANSWER section, in order. */
    method FollowAnswer(answer: seq<Rrset>, name: Name) returns (mname: Name)
      requires Valid()
      modifies Lists()
      ensures Valid() && fresh(Lists() - old(Lists())) && Value(mname) == FollowedAll(old(Value(name)), answer)
    {
      mname := name;
      ghost var c, done := Value(name), answer[..0];
      for i := 0 to |answer|
        invariant Valid() && fresh(Lists() - old(Lists())) && done == answer[..i]
        invariant Value(mname) == FollowedAll(c, done)
      {
        mname := FollowNext(answer[i], mname, c, done);
        done := done + [answer[i]];
      }
      assert done == answer;
    }

    method AddProof(r: Rrset)
      requires Valid()
      modifies ns, ns.nodes
      ensures Valid() && fresh(ns.nodes - old(ns.nodes)) && an.contents == old(an.contents)
      ensures ns.contents == old(ns.contents) + if r.kind == NSEC || r.kind == NSEC3 then [r] else []
    {
      if r.kind == NSEC || r.kind == NSEC3 {
        ns.Add(r);
      }
    }

    /** The AUTHORITY section. */
    method AddProofs(m: ReplyInfo)
      requires Valid() && m.Valid()
      modifies ns, ns.nodes
      ensures Valid() && fresh(Lists() - old(Lists())) && an.contents == old(an.contents)
      ensures ns.contents == old(ns.contents) + Proofs(m.Seen().authority)
    {
      ghost var authority, from := m.Seen().authority, m.an_numrrsets;
      for i := m.an_numrrsets to m.an_numrrsets + m.ns_numrrsets
        invariant Valid() && fresh(ns.nodes - old(ns.nodes)) && an.contents == old(an.contents)
        invariant m.Seen().authority == authority
        invariant ns.contents == old(ns.contents) + Proofs(authority[..i - from])
      {
        assert authority[..i + 1 - from][..i - from] == authority[..i - from];
        assert m.rrsets[i] == authority[i - from];
        AddProof(m.rrsets[i]);
      }
      assert authority[..m.ns_numrrsets] == authority;
    }

    /** `handle_cname_response` of a reply; the name it has come to is returned. */
    method HandleCnameResponse(m: ReplyInfo) returns (mname: Name)
      requires Valid() && m.Valid()
      modifies Lists()
      ensures Valid() && fresh(Lists() - old(Lists()))
      ensures Value(mname) == Handled(old(Value(qchase)), m.Seen())
    {
      AuthorityKept(Value(qchase), m.Seen().answer);
      mname := FollowAnswer(m.rrsets[..m.an_numrrsets], qchase);
      AddProofs(m);
    }

    /** A CNAME response leads to a restart with the name found: `processQueryResponse`. */
    method Restart(m: ReplyInfo)
      requires Valid() && m.Valid() && this !in Lists()
      modifies this, Lists()
      ensures Valid() && fresh(Lists() - old(Lists())) && Value(qchase) == Handled(old(Value(qchase)), m.Seen())
    {
      var mname := HandleCnameResponse(m);
      qchase := mname;
    }

    /** `iter_prepend`; `limit` is `RR_COUNT_MAX`, and a failure changes nothing. */
    method Prepend(m: ReplyInfo, limit: nat) returns (ok: bool)
      requires Valid() && m.Valid()
      modifies m
      ensures m.Valid() && ok == (an.contents == ns.contents == []
              || (|an.contents| <= limit && |ns.contents| <= limit && old(|m.rrsets|) <= limit))
      ensures m.Value() == if ok then Prepended(Value(qchase), old(m.Value())) else old(m.Value())
    {
      var num_an := an.Count();
      var num_ns := ns.Count();
      if num_an + num_ns == 0 {
        return true;
      }
      if num_an > limit || num_ns > limit || |m.rrsets| > limit {
        return false;
      }
      PrependLists(m);
      ok := true;
    }

    method PrependLists(m: ReplyInfo)
      requires Valid() && m.Valid()
      modifies m
      ensures m.Valid() && m.Value() == Prepended(Value(qchase), old(m.Value()))
    {
      var answer, ttl := an.Fill(m.ttl);
      var new_;
      new_, ttl := ns.FillFresh(m.rrsets[m.an_numrrsets..m.an_numrrsets + m.ns_numrrsets], ttl);
      m.Extend(answer, new_, ttl);
    }
  }
}
