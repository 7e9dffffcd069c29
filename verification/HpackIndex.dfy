/**
 * The encoder's chained hash index over the dynamic table (128 buckets), and why its chain walk is a linear
 * scan of the table: one bucket's chain is the table filtered by that bucket.
 */
module HpackIndex {
  import opened Bytes
  import opened HeaderTable
  import opened HpackRing

  const MAP_SIZE: nat := 128

  /** 32-bit FNV-1a. */
  function Fnv1a(name: Bytes): bv32 {
    if name == [] then 2166136261 else FnvStep(Fnv1a(name[..|name| - 1]), name[|name| - 1])
  }

  function FnvStep(h: bv32, b: byte): bv32 {
    var x := h ^ (b as bv32);
    x + ((x << 1) + (x << 4) + (x << 7) + (x << 8) + (x << 24))
  }

  /** `name_hash`. */
  method NameHash(name: Bytes) returns (h: bv32)
    ensures h == Fnv1a(name)
  {
    h := 2166136261;
    var i := 0;
    while i < |name|
      invariant 0 <= i <= |name| && h == Fnv1a(name[..i])
    {
      assert name[..i + 1][..i] == name[..i];
      h := FnvStep(h, name[i]);
      i := i + 1;
    }
    assert name[..i] == name;
  }

  /** The hash at the head of `deflate_nv`. */
  method HashName(st: Statics, hashes: seq<nat>, name: Bytes) returns (h: nat)
    requires |hashes| == STATIC_LENGTH
    ensures h == HashOf(st, hashes, name)
  {
    var token := LookupToken(st, name);
    h := 0;
    if token == -1 {
      var fnv := NameHash(name);
      h := fnv as nat;
    } else if token < STATIC_LENGTH {
      h := hashes[token];
    }
  }

  /** The hash `deflate_nv` uses for a name: computed, precomputed, or 0 for the tokens beyond the static table. */
  function HashOf(st: Statics, hashes: seq<nat>, name: Bytes): (h: nat)
    requires |hashes| == STATIC_LENGTH
  {
    var token := LookupToken(st, name);
    if token == -1 then Fnv1a(name) as nat
    else if token < STATIC_LENGTH then hashes[token]
    else 0
  }

  ghost function NameHasher(st: Statics, hashes: seq<nat>): Bytes -> nat
    requires |hashes| == STATIC_LENGTH
  {
    name => HashOf(st, hashes, name)
  }

  /** How names get their tokens and hashes; the index works for any hash function. */
  datatype Keying = Keying(st: Statics, hasher: Bytes -> nat)

  // ----- Scanning a run of entries

  predicate Fits(e: HdEntry, h: Header, full: bool) {
    e.hdr.name == h.name && (full ==> e.hdr.value == h.value)
  }

  /** The newest entry with the name (and, if full, the value) of h. */
  function Newest(s: seq<HdEntry>, h: Header, full: bool): (r: Option<HdEntry>)
    ensures r.Some? ==> r.value in s && Fits(r.value, h, full)
    ensures r == None ==> forall e :: e in s ==> !Fits(e, h, full)
  {
    if s == [] then None else if Fits(s[0], h, full) then Some(s[0]) else Newest(s[1..], h, full)
  }

  /** Entries whose hash falls into bucket b, in order. */
  function Bucket(s: seq<HdEntry>, b: nat): (r: seq<HdEntry>) {
    if s == [] then []
    else if s[0].hash % MAP_SIZE == b then [s[0]] + Bucket(s[1..], b)
    else Bucket(s[1..], b)
  }

  lemma BucketCons(e: HdEntry, s: seq<HdEntry>, b: nat)
    ensures Bucket([e] + s, b) == if e.hash % MAP_SIZE == b then [e] + Bucket(s, b) else Bucket(s, b)
  {
    assert ([e] + s)[1..] == s;
  }

  lemma {:induction false} BucketPosition(s: seq<HdEntry>, i: nat) returns (k: nat)
    requires i < |s|
    ensures var bucket := Bucket(s, s[i].hash % MAP_SIZE); k < |bucket| && bucket[k] == s[i]
  {
    if i == 0 {
      k := 0;
    } else {
      k := BucketPosition(s[1..], i - 1);
      if s[0].hash % MAP_SIZE == s[i].hash % MAP_SIZE {
        k := k + 1;
      }
    }
  }

  lemma {:induction false} BucketDropLast(s: seq<HdEntry>, b: nat)
    requires s != []
    ensures var last := s[|s| - 1];
            Bucket(s, b) == Bucket(s[..|s| - 1], b) + if last.hash % MAP_SIZE == b then [last] else []
  {
    if |s| > 1 {
      BucketDropLast(s[1..], b);
      assert s[1..][..|s| - 2] == s[..|s| - 1][1..];
    } else {
      assert s[..|s| - 1] == [] && s[1..] == [];
    }
  }

  /** Entry e belongs to bucket b, its token is its name's, and its hash is a function of its name. */
  ghost predicate Homed(k: Keying, e: HdEntry, b: nat) {
    e.hash % MAP_SIZE == b && e.hash == k.hasher(e.hdr.name) && e.token == LookupToken(k.st, e.hdr.name)
  }

  /** Looking in the bucket of a name's hash finds what looking through the whole table finds. */
  lemma {:induction false} BucketScanIsTableScan(hasher: Bytes -> nat, s: seq<HdEntry>, h: Header, full: bool)
    requires forall i :: 0 <= i < |s| ==> s[i].hash == hasher(s[i].hdr.name)
    ensures Newest(Bucket(s, hasher(h.name) % MAP_SIZE), h, full) == Newest(s, h, full)
  {
    if s != [] {
      var b := hasher(h.name) % MAP_SIZE;
      BucketScanIsTableScan(hasher, s[1..], h, full);
      if s[0].hash % MAP_SIZE == b {
        assert ([s[0]] + Bucket(s[1..], b))[1..] == Bucket(s[1..], b);
      }
    }
  }

  function Headers(s: seq<HdEntry>): (r: seq<Header>)
    ensures |r| == |s|
    ensures forall i :: 0 <= i < |s| ==> r[i] == s[i].hdr
  {
    seq(|s|, i requires 0 <= i < |s| => s[i].hdr)
  }

  /** The scan over heap entries is the scan over the table's value. */
  lemma {:induction false} NewestIsFirst(s: seq<HdEntry>, h: Header, full: bool)
    ensures var i := if full then FirstExact(Headers(s), h) else FirstName(Headers(s), h.name);
            Newest(s, h, full) == if i < |s| then Some(s[i]) else None
  {
    if s != [] {
      NewestIsFirst(s[1..], h, full);
      assert Headers(s)[1..] == Headers(s[1..]);
    }
  }

  // ----- The map

  type Links = map<HdEntry, HdEntry?>

  function After(chain: seq<HdEntry>, i: nat): HdEntry? {
    if i + 1 < |chain| then chain[i + 1] else null
  }

  predicate Distinct(chain: seq<HdEntry>) {
    forall i, j :: 0 <= i < j < |chain| ==> chain[i] != chain[j]
  }

  /** Following the links from this head runs through exactly this chain. */
  ghost predicate Linked(head: HdEntry?, links: Links, chain: seq<HdEntry>) {
    && head == (if chain == [] then null else chain[0])
    && forall i {:trigger chain[i]} :: 0 <= i < |chain| ==> chain[i] in links && links[chain[i]] == After(chain, i)
  }

  ghost predicate ValidChain(keying: Keying, head: HdEntry?, links: Links, chain: seq<HdEntry>, b: nat) {
    && Linked(head, links, chain)
    && Distinct(chain)
    && forall i {:trigger chain[i]} :: 0 <= i < |chain| ==> Homed(keying, chain[i], b)
  }

  /** Every bucket's chain is well linked. */
  ghost predicate ValidChains(keying: Keying, heads: seq<HdEntry?>, links: Links, chains: seq<seq<HdEntry>>) {
    && |heads| == |chains| == MAP_SIZE
    && forall b :: 0 <= b < MAP_SIZE ==> ValidChain(keying, heads[b], links, chains[b], b)
  }

  lemma OtherChain(keying: Keying, head: HdEntry?, links: Links, chain: seq<HdEntry>, b: nat, links': Links)
    requires ValidChain(keying, head, links, chain, b)
    requires forall e :: e in links && e.hash % MAP_SIZE == b ==> e in links' && links'[e] == links[e]
    ensures ValidChain(keying, head, links', chain, b)
  {
  }

  lemma ChainAfterInsert(keying: Keying, head: HdEntry?, links: Links, chain: seq<HdEntry>, b: nat, ent: HdEntry)
    requires ValidChain(keying, head, links, chain, b) && ent !in links && Homed(keying, ent, b)
    ensures ValidChain(keying, ent, links[ent := head], [ent] + chain, b)
  {
    var longer := [ent] + chain;
    assert forall i :: 0 < i < |longer| ==> longer[i] == chain[i - 1];
  }

  lemma ChainsAfterInsert(keying: Keying, heads: seq<HdEntry?>, links: Links, chains: seq<seq<HdEntry>>, ent: HdEntry)
    requires ValidChains(keying, heads, links, chains) && ent !in links && Homed(keying, ent, ent.hash % MAP_SIZE)
    ensures var b := ent.hash % MAP_SIZE;
            ValidChains(keying, heads[b := ent], links[ent := heads[b]], chains[b := [ent] + chains[b]])
  {
    var b := ent.hash % MAP_SIZE;
    ChainAfterInsert(keying, heads[b], links, chains[b], b, ent);
    forall c | 0 <= c < MAP_SIZE && c != b
      ensures ValidChain(keying, heads[c], links[ent := heads[b]], chains[c], c)
    {
      OtherChain(keying, heads[c], links, chains[c], c, links[ent := heads[b]]);
    }
  }

  /** The links once entry k of this chain is cut out. */
  function CutLinks(links: Links, chain: seq<HdEntry>, k: nat): Links
    requires k < |chain| && chain[k] in links
  {
    (if k == 0 then links else links[chain[k - 1] := links[chain[k]]]) - {chain[k]}
  }

  function Cut(chain: seq<HdEntry>, k: nat): seq<HdEntry>
    requires k < |chain|
  {
    chain[..k] + chain[k + 1..]
  }

  lemma ChainAfterCut(keying: Keying, head: HdEntry?, links: Links, chain: seq<HdEntry>, b: nat, k: nat)
    requires ValidChain(keying, head, links, chain, b) && k < |chain|
    ensures ValidChain(keying, if k == 0 then links[chain[k]] else head, CutLinks(links, chain, k), Cut(chain, k), b)
  {
    var cut, after := Cut(chain, k), CutLinks(links, chain, k);
    forall i {:trigger cut[i]} | 0 <= i < |cut|
      ensures cut[i] in after && after[cut[i]] == After(cut, i) && Homed(keying, cut[i], b)
    {
      CutPosition(links, chain, k, i);
      assert Homed(keying, chain[if i < k then i else i + 1], b);
    }
    assert Distinct(cut);
  }

  lemma CutPosition(links: Links, chain: seq<HdEntry>, k: nat, i: nat)
    requires k < |chain| && i + 1 < |chain| && Distinct(chain)
    requires forall j {:trigger chain[j]} ::
               0 <= j < |chain| ==> chain[j] in links && links[chain[j]] == After(chain, j)
    ensures var cut, after := Cut(chain, k), CutLinks(links, chain, k);
            && cut[i] == chain[if i < k then i else i + 1]
            && cut[i] in after && after[cut[i]] == After(cut, i)
  {
    var o := if i < k then i else i + 1;
    assert chain[o] != chain[k];
    assert k > 0 && o != k - 1 ==> chain[o] != chain[k - 1];
  }

  lemma ChainsAfterCut(keying: Keying, heads: seq<HdEntry?>, links: Links, chains: seq<seq<HdEntry>>, b: nat, k: nat)
    requires ValidChains(keying, heads, links, chains) && b < MAP_SIZE && k < |chains[b]|
    ensures var chain := chains[b];
            && ValidChain(keying, heads[b], links, chain, b)
            && CutLinks(links, chain, k).Keys == links.Keys - {chain[k]}
            && ValidChains(keying, if k == 0 then heads[b := links[chain[k]]] else heads,
                           CutLinks(links, chain, k), chains[b := Cut(chain, k)])
  {
    var chain := chains[b];
    var after := CutLinks(links, chain, k);
    ChainAfterCut(keying, heads[b], links, chain, b, k);
    forall c | 0 <= c < MAP_SIZE && c != b
      ensures ValidChain(keying, heads[c], after, chains[c], c)
    {
      OtherChain(keying, heads[c], links, chains[c], c, after);
    }
  }

  /** These chains index exactly the run s, every chain newest first. */
  ghost predicate Mirrors(chains: seq<seq<HdEntry>>, s: seq<HdEntry>) {
    |chains| == MAP_SIZE && forall b :: 0 <= b < MAP_SIZE ==> chains[b] == Bucket(s, b)
  }

  lemma MirroredIsHomed(keying: Keying, heads: seq<HdEntry?>, links: Links, chains: seq<seq<HdEntry>>, s: seq<HdEntry>,
                        i: nat)
    requires ValidChains(keying, heads, links, chains) && Mirrors(chains, s) && i < |s|
    ensures s[i].hash == keying.hasher(s[i].hdr.name)
  {
    var b := s[i].hash % MAP_SIZE;
    var k := BucketPosition(s, i);
    assert ValidChain(keying, heads[b], links, chains[b], b) && Homed(keying, chains[b][k], b);
  }

  /** What the chain of a name's bucket yields is what a scan of the whole table yields. */
  lemma ChainScanIsTableScan(keying: Keying, heads: seq<HdEntry?>, links: Links, chains: seq<seq<HdEntry>>,
                             live: seq<HdEntry>, h: Header, full: bool)
    requires ValidChains(keying, heads, links, chains) && Mirrors(chains, live)
    ensures var at := if full then FirstExact(Headers(live), h) else FirstName(Headers(live), h.name);
            Newest(chains[keying.hasher(h.name) % MAP_SIZE], h, full) == if at < |live| then Some(live[at]) else None
  {
    forall i | 0 <= i < |live|
      ensures live[i].hash == keying.hasher(live[i].hdr.name)
    {
      MirroredIsHomed(keying, heads, links, chains, live, i);
    }
    BucketScanIsTableScan(keying.hasher, live, h, full);
    NewestIsFirst(live, h, full);
  }

  /** `nghttp2_hd_map`; `chains` and `links` are its ghost value. */
  class HdMap {
    const table: array<HdEntry?>
    ghost const keying: Keying
    ghost var chains: seq<seq<HdEntry>>
    ghost var links: Links

    ghost predicate Valid()
      reads this, table, links.Keys
    {
      && ValidChains(keying, table[..], links, chains)
      && forall e {:trigger e.next} :: e in links ==> e.next == links[e]
    }

    constructor (ghost keying: Keying)
      ensures Valid() && fresh(table) && this.keying == keying
      ensures chains == seq(MAP_SIZE, _ => []) && links == map[]
    {
      this.keying := keying;
      table := new HdEntry?[MAP_SIZE](_ => null);
      chains, links := seq(MAP_SIZE, _ => []), map[];
    }

    /** `hd_map_insert`: the newest entry goes to the head of its chain. */
    method Insert(ent: HdEntry)
      requires Valid() && ent !in links && ent.next == null
      requires Homed(keying, ent, ent.hash % MAP_SIZE)
      modifies this, table, ent
      ensures Valid() && links.Keys == old(links).Keys + {ent}
      ensures var b := ent.hash % MAP_SIZE; chains == old(chains)[b := [ent] + old(chains)[b]]
    {
      var b := ent.hash % MAP_SIZE;
      ghost var heads := table[..];
      ChainsAfterInsert(keying, heads, links, chains, ent);
      if table[b] == null {
        table[b] := ent;
      } else {
        ent.next := table[b];
        table[b] := ent;
      }
      assert table[..] == heads[b := ent];
      chains, links := chains[b := [ent] + chains[b]], links[ent := heads[b]];
    }

    /** `hd_map_find`. */
    method Find(h: Header, token: int, hash: nat, nameOnly: bool) returns (res: HdEntry?, exact: bool)
      requires Valid() && token == LookupToken(keying.st, h.name) && hash == keying.hasher(h.name)
      ensures var chain := chains[hash % MAP_SIZE];
              if !nameOnly && Newest(chain, h, true).Some? then exact && Some(res) == Newest(chain, h, true)
              else !exact && Newest(chain, h, false) == if res == null then None else Some(res)
    {
      var b := hash % MAP_SIZE;
      ghost var chain := chains[b];
      assert ValidChain(keying, table[..][b], links, chain, b);
      res, exact := null, false;
      var p := table[b];
      ghost var i := 0;
      while p != null
        invariant 0 <= i <= |chain| && p == (if i < |chain| then chain[i] else null)
        invariant nameOnly ==> res == null
        invariant Newest(chain, h, true) == Newest(chain[i..], h, true)
        invariant res == null ==> Newest(chain, h, false) == Newest(chain[i..], h, false)
        invariant res != null ==> Newest(chain, h, false) == Some(res)
        invariant !exact
        decreases |chain| - i
      {
        assert Homed(keying, p, b) && chain[i..][1..] == chain[i + 1..];
        if token != p.token || (token == -1 && (hash != p.hash || p.hdr.name != h.name)) {
          i, p := i + 1, p.next;
          continue;
        }
        if res == null {
          res := p;
          if nameOnly {
            return;
          }
        }
        if p.hdr.value == h.value {
          return p, true;
        }
        i, p := i + 1, p.next;
      }
    }

    /** The search of `hd_map_remove` for the link to ent: the bucket slot, or the next field of prev. */
    method LinkTo(ent: HdEntry) returns (prev: HdEntry?, ghost k: nat)
      requires Valid() && ent in chains[ent.hash % MAP_SIZE]
      ensures var chain := chains[ent.hash % MAP_SIZE];
              k < |chain| && chain[k] == ent && prev == if k == 0 then null else chain[k - 1]
    {
      var b := ent.hash % MAP_SIZE;
      ghost var chain := chains[b];
      assert ValidChain(keying, table[..][b], links, chain, b);
      ghost var at :| 0 <= at < |chain| && chain[at] == ent;
      prev, k := null, 0;
      var dst := table[b];
      while dst != ent
        invariant 0 <= k <= at && dst == chain[k]
        invariant prev == (if k == 0 then null else chain[k - 1])
        decreases at - k
      {
        prev, dst := dst, dst.next;
        k := k + 1;
      }
    }

    /** The pointer writes of `hd_map_remove`: ent, number k of its chain, comes after prev. */
    method Bypass(ent: HdEntry, prev: HdEntry?, ghost k: nat)
      requires Valid() && k < |chains[ent.hash % MAP_SIZE]| && chains[ent.hash % MAP_SIZE][k] == ent
      requires prev == if k == 0 then null else chains[ent.hash % MAP_SIZE][k - 1]
      modifies table, links.Keys
      ensures ent in links && Distinct(chains[ent.hash % MAP_SIZE])
      ensures table[..] == if k == 0 then old(table[..])[ent.hash % MAP_SIZE := links[ent]] else old(table[..])
      ensures forall e {:trigger e.next} ::
                e in CutLinks(links, chains[ent.hash % MAP_SIZE], k)
                ==> e.next == CutLinks(links, chains[ent.hash % MAP_SIZE], k)[e]
    {
      var b := ent.hash % MAP_SIZE;
      assert ValidChain(keying, table[..][b], links, chains[b], b);
      assert prev != ent && ent.next == links[ent];
      if prev == null {
        table[b] := ent.next;
      } else {
        prev.next := ent.next;
      }
      ent.next := null;
    }

    /** `hd_map_remove`. */
    method Remove(ent: HdEntry) returns (ghost k: nat)
      requires Valid() && ent in chains[ent.hash % MAP_SIZE]
      modifies this, table, links.Keys
      ensures Valid() && links.Keys == old(links).Keys - {ent}
      ensures var chain := old(chains)[ent.hash % MAP_SIZE];
              && k < |chain| && chain[k] == ent && Distinct(chain)
              && chains == old(chains)[ent.hash % MAP_SIZE := Cut(chain, k)]
    {
      ghost var b := ent.hash % MAP_SIZE;
      ghost var chain := chains[b];
      var prev;
      prev, k := LinkTo(ent);
      ChainsAfterCut(keying, table[..], links, chains, b, k);
      Bypass(ent, prev, k);
      chains, links := chains[b := Cut(chain, k)], CutLinks(links, chain, k);
    }
  }
}
