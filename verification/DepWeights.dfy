/**
 * Weights in the dependency tree: every stream keeps the sum of its children's weights (`sum_dep_weight`), and a
 * stream that is taken out shares its own weight among its children.
 */
module DepWeights {
  import opened DepLinks
  import opened DepQueue

  type Sums = map<int, int>

  function Total(w: Weights, ks: seq<int>): int
    requires forall k | k in ks :: k in w
  {
    if ks == [] then 0
    else
      var k := ks[|ks| - 1];
      assert k in ks;
      Total(w, ks[..|ks| - 1]) + w[k]
  }

  ghost predicate SumOf(w: Weights, sums: Sums, kids: Kids, p: int)
    requires p in sums && p in kids
  {
    (forall k | k in kids[p] :: k in w) && sums[p] == Total(w, kids[p])
  }

  /** `sum_dep_weight` is right everywhere and every weight is in range. */
  ghost predicate SumsOk(w: Weights, sums: Sums, kids: Kids) {
    && w.Keys == sums.Keys == kids.Keys && WeightsOk(w)
    && forall p | p in kids :: SumOf(w, sums, kids, p)
  }

  lemma {:induction false} TotalSame(w: Weights, w': Weights, ks: seq<int>)
    requires forall k | k in ks :: k in w && k in w' && w[k] == w'[k]
    ensures Total(w, ks) == Total(w', ks)
  {
    if ks != [] {
      var k := ks[|ks| - 1];
      assert k in ks && w[k] == w'[k];
      TotalSame(w, w', ks[..|ks| - 1]);
    }
  }

  lemma {:induction false} TotalConcat(w: Weights, a: seq<int>, b: seq<int>)
    requires (forall k | k in a :: k in w) && (forall k | k in b :: k in w)
    ensures (forall k | k in a + b :: k in w) && Total(w, a + b) == Total(w, a) + Total(w, b)
    decreases |b|
  {
    if b == [] {
      assert a + b == a;
    } else {
      assert (a + b)[..|a + b| - 1] == a + b[..|b| - 1];
      TotalConcat(w, a, b[..|b| - 1]);
    }
  }

  lemma TotalSpliced(w: Weights, ks: seq<int>, j: nat, cs: seq<int>)
    requires (forall k | k in ks :: k in w) && (forall k | k in cs :: k in w) && j < |ks|
    ensures forall k | k in Spliced(ks, j, cs) :: k in w
    ensures Total(w, Spliced(ks, j, cs)) == Total(w, ks) - w[ks[j]] + Total(w, cs)
  {
    assert ks == ks[..j] + [ks[j]] + ks[j + 1..];
    assert forall k | k in ks[..j] + [ks[j]] + ks[j + 1..] :: k in ks;
    TotalConcat(w, ks[..j], [ks[j]]);
    TotalConcat(w, ks[..j] + [ks[j]], ks[j + 1..]);
    TotalConcat(w, ks[..j], cs);
    TotalConcat(w, ks[..j] + cs, ks[j + 1..]);
    assert [ks[j]][..0] == [];
  }

  /** `nghttp2_stream_dep_distributed_weight`: k's share of the weight of its parent. */
  function Share(own: int, weight: int, sum: int): int
    requires sum > 0
  {
    var share := own * weight / sum;
    if share < 1 then 1 else share
  }

  lemma ShareInRange(own: int, weight: int, sum: int)
    requires 1 <= own <= MAX_WEIGHT && 1 <= weight <= sum
    ensures 1 <= Share(own, weight, sum) <= own
  {
    MulMonotone(own, weight, sum);
    DivMonotone(own * weight, own, sum);
  }

  lemma MulMonotone(a: nat, b: nat, c: nat)
    requires b <= c
    ensures 0 <= a * b <= a * c
  {
    MulGap(a, c - b);
    assert a * c - a * b == a * (c - b);
  }

  lemma MulGap(a: nat, d: nat)
    ensures 0 <= a * d
  {
  }

  lemma DivMonotone(x: nat, a: nat, s: nat)
    requires s > 0 && x <= a * s
    ensures x / s <= a
  {
    assert x == s * (x / s) + x % s && s * (a + 1) == a * s + s;
    if x / s > a {
      MulMonotone(s, a + 1, x / s);
    }
  }

  /** All of ks get their share of s's weight. */
  function Shared(w: Weights, ks: seq<int>, own: int, sum: int): (r: Weights)
    requires sum > 0 || ks == []
    requires forall k | k in ks :: k in w
    ensures r.Keys == w.Keys
  {
    if ks == [] then w
    else
      var k := ks[|ks| - 1];
      assert k in w;
      Shared(w, ks[..|ks| - 1], own, sum)[k := Share(own, w[k], sum)]
  }

  lemma {:induction false} SharedAt(w: Weights, ks: seq<int>, own: int, sum: int, x: int)
    requires (sum > 0 || ks == []) && (forall k | k in ks :: k in w) && x in w
    ensures Shared(w, ks, own, sum)[x] == if x in ks then Share(own, w[x], sum) else w[x]
  {
    if ks != [] {
      SharedAt(w, ks[..|ks| - 1], own, sum, x);
      assert x in ks <==> x in ks[..|ks| - 1] || x == ks[|ks| - 1];
    }
  }

  /** No child weighs more than all of them. */
  lemma {:induction false} TotalAtLeast(w: Weights, ks: seq<int>)
    requires (forall k | k in ks :: k in w) && WeightsOk(w)
    ensures Total(w, ks) >= |ks|
    ensures forall k | k in ks :: w[k] <= Total(w, ks)
  {
    if ks != [] {
      TotalAtLeast(w, ks[..|ks| - 1]);
      var last := ks[|ks| - 1];
      assert last in ks && last in w;
      assert 1 <= w[last];
      assert forall k | k in ks :: k in ks[..|ks| - 1] || k == ks[|ks| - 1];
    }
  }

  // ---- the operations

  function AddSums(w: Weights, sums: Sums, p: int, s: int): Sums
    requires p in sums && s in w
  {
    sums[p := sums[p] + w[s]]
  }

  lemma AddKeepsSums(w: Weights, sums: Sums, kids: Kids, p: int, s: int)
    requires SumsOk(w, sums, kids) && p in kids && s in w
    ensures SumsOk(w, AddSums(w, sums, p, s), AddKids(kids, p, s))
  {
    var sums', kids' := AddSums(w, sums, p, s), AddKids(kids, p, s);
    forall x | x in kids' ensures SumOf(w, sums', kids', x) {
      assert SumOf(w, sums, kids, x);
      if x == p {
        TotalConcat(w, [s], kids[p]);
        assert [s][..0] == [];
      }
    }
  }

  function InsertSums(w: Weights, sums: Sums, p: int, s: int): Sums
    requires p in sums && s in sums && s in w
  {
    sums[s := sums[s] + sums[p]][p := w[s]]
  }

  lemma InsertKeepsSums(w: Weights, sums: Sums, kids: Kids, p: int, s: int)
    requires SumsOk(w, sums, kids) && p in kids && s in kids && p != s
    ensures SumsOk(w, InsertSums(w, sums, p, s), InsertKids(kids, p, s))
  {
    var sums', kids' := InsertSums(w, sums, p, s), InsertKids(kids, p, s);
    forall x | x in kids' ensures SumOf(w, sums', kids', x) {
      assert SumOf(w, sums, kids, x);
      if x == s {
        assert SumOf(w, sums, kids, p);
        TotalConcat(w, kids[s], kids[p]);
      }
      if x == p {
        assert [s][..0] == [];
      }
    }
  }

  /** Weights once s, whose children are ks, has shared out its own. */
  function RemoveWeights(w: Weights, sums: Sums, ks: seq<int>, s: int): (r: Weights)
    requires s in w && s in sums && (sums[s] > 0 || ks == []) && forall k | k in ks :: k in w
    ensures r.Keys == w.Keys
  {
    Shared(w, ks, w[s], sums[s])
  }

  function RemoveSums(w: Weights, sums: Sums, ks: seq<int>, p: int, s: int): Sums
    requires s in w && s in sums && p in sums && (sums[s] > 0 || ks == []) && forall k | k in ks :: k in w
  {
    sums[p := sums[p] + (Total(RemoveWeights(w, sums, ks, s), ks) - w[s])][s := 0]
  }

  lemma RemoveKeepsSums(w: Weights, sums: Sums, kids: Kids, p: int, s: int, j: nat)
    requires SumsOk(w, sums, kids) && p in kids && s in kids && p != s && j < |kids[p]| && kids[p][j] == s
    requires s !in kids[s]
    requires forall x, k | x in kids && k in kids[x] && k in kids[s] :: x == s
    ensures (sums[s] > 0 || kids[s] == []) && forall k | k in kids[s] :: k in w
    ensures SumsOk(RemoveWeights(w, sums, kids[s], s), RemoveSums(w, sums, kids[s], p, s), RemoveKids(kids, p, s, j))
  {
    var ks := kids[s];
    assert SumOf(w, sums, kids, s);
    TotalAtLeast(w, ks);
    var w', sums', kids' := RemoveWeights(w, sums, ks, s), RemoveSums(w, sums, ks, p, s), RemoveKids(kids, p, s, j);
    forall x | x in w' ensures 1 <= w'[x] <= MAX_WEIGHT {
      SharedAt(w, ks, w[s], sums[s], x);
      if x in ks {
        ShareInRange(w[s], w[x], sums[s]);
      }
    }
    forall x | x in kids' ensures SumOf(w', sums', kids', x) {
      assert SumOf(w, sums, kids, x);
      if x == p {
        OthersUnshared(w, kids[p], ks, w[s], sums[s]);
        TotalSpliced(w', kids[p], j, ks);
        SharedAt(w, ks, w[s], sums[s], s);
      } else if x != s {
        OthersUnshared(w, kids[x], ks, w[s], sums[s]);
      }
    }
  }

  lemma OthersUnshared(w: Weights, others: seq<int>, ks: seq<int>, own: int, sum: int)
    requires (sum > 0 || ks == []) && (forall k | k in ks :: k in w)
    requires forall k | k in others :: k in w && k !in ks
    ensures Total(Shared(w, ks, own, sum), others) == Total(w, others)
  {
    forall k | k in others ensures Shared(w, ks, own, sum)[k] == w[k] {
      SharedAt(w, ks, own, sum, k);
    }
    TotalSame(w, Shared(w, ks, own, sum), others);
  }

  function CutSums(w: Weights, sums: Sums, p: int, s: int): Sums
    requires p in sums && s in w
  {
    sums[p := sums[p] - w[s]]
  }

  lemma CutKeepsSums(w: Weights, sums: Sums, kids: Kids, p: int, s: int, j: nat)
    requires SumsOk(w, sums, kids) && p in kids && j < |kids[p]| && kids[p][j] == s
    ensures s in w && SumsOk(w, CutSums(w, sums, p, s), CutKids(kids, p, j))
  {
    assert SumOf(w, sums, kids, p) && s in kids[p];
    var sums', kids' := CutSums(w, sums, p, s), CutKids(kids, p, j);
    forall x | x in kids' ensures SumOf(w, sums', kids', x) {
      assert SumOf(w, sums, kids, x);
      if x == p {
        TotalSpliced(w, kids[p], j, []);
      }
    }
  }

  /** A new weight for s, which is child number j of p. */
  lemma ReweighKeepsSums(w: Weights, sums: Sums, kids: Kids, p: int, s: int, j: nat, weight: int)
    requires SumsOk(w, sums, kids) && p in kids && j < |kids[p]| && kids[p][j] == s && 1 <= weight <= MAX_WEIGHT
    requires forall x | x in kids && x != p :: s !in kids[x]
    requires forall i | 0 <= i < |kids[p]| && i != j :: kids[p][i] != s
    ensures s in w && SumsOk(w[s := weight], sums[p := sums[p] + weight - w[s]], kids)
  {
    assert SumOf(w, sums, kids, p) && s in kids[p];
    var w', sums' := w[s := weight], sums[p := sums[p] + weight - w[s]];
    forall x | x in kids ensures SumOf(w', sums', kids, x) {
      assert SumOf(w, sums, kids, x);
      if x == p {
        TotalSpliced(w, kids[p], j, []);
        TotalSpliced(w', kids[p], j, []);
        TotalSame(w, w', Spliced(kids[p], j, []));
      } else {
        TotalSame(w, w', kids[x]);
      }
    }
  }

  /** The weight of a stream that is no one's child concerns no sum. */
  lemma RootWeightFree(w: Weights, sums: Sums, kids: Kids, s: int, weight: int)
    requires SumsOk(w, sums, kids) && s in w && 1 <= weight <= MAX_WEIGHT && forall x | x in kids :: s !in kids[x]
    ensures SumsOk(w[s := weight], sums, kids)
  {
    var w' := w[s := weight];
    forall x | x in kids ensures SumOf(w', sums, kids, x) {
      assert SumOf(w, sums, kids, x);
      TotalSame(w, w', kids[x]);
    }
  }
}
