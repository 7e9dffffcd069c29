/**
 * Storage of the dynamic table: heap entries and the power-of-two ring buffer that holds them newest first.
 * `first` is a size_t that counts down through zero and wraps at 2^64.
 */
module HpackRing {
  import opened Bytes
  import opened Modular
  import opened HeaderTable

  /** `nghttp2_hd_entry`.  Only the chain link changes after creation. */
  class HdEntry {
    const hdr: Header
    const token: int
    const seqno: nat
    const hash: nat
    var next: HdEntry?

    constructor (hdr: Header, token: int, seqno: nat, hash: nat)
      ensures this.hdr == hdr && this.token == token && this.seqno == seqno && this.hash == hash && next == null
    {
      this.hdr, this.token, this.seqno, this.hash, next := hdr, token, seqno, hash, null;
    }
  }

  /** Bitwise and. */
  function And(x: nat, mask: nat): (r: nat)
    ensures r <= mask
  {
    if mask == 0 then 0
    else 2 * And(x / 2, mask / 2) + if x % 2 == 1 && mask % 2 == 1 then 1 else 0
  }

  lemma SplitBit(x: nat, half: nat)
    requires half > 0
    ensures x % (2 * half) == 2 * (x / 2 % half) + x % 2
  {
    var q, r := x / 2 / half, x / 2 % half;
    DivMod(x / 2, half);
    assert q * (2 * half) == 2 * (q * half);
    ModUnique(x, 2 * half, q, 2 * r + x % 2);
  }

  /** Masking with 2^bits - 1 is the remainder by 2^bits. */
  lemma {:induction false} AndIsMod(x: nat, bits: nat)
    ensures And(x, Pow2(bits) - 1) == x % Pow2(bits)
  {
    if bits > 0 {
      var half := Pow2(bits - 1);
      AndIsMod(x / 2, bits - 1);
      SplitBit(x, half);
      assert Pow2(bits) - 1 == 2 * (half - 1) + 1;
    }
  }

  /** (first + i) & mask, with first + i a wrapping size_t sum. */
  function SlotOf(first: nat, i: nat, mask: nat): (s: nat)
    ensures s <= mask
  {
    And((first + i) % TWO64, mask)
  }

  lemma PowerDivides(bits: nat)
    requires bits <= 64
    ensures TWO64 == Pow2(64 - bits) * Pow2(bits)
  {
    Pow2Of64();
    Pow2Add(64 - bits, bits);
  }

  lemma WrapKeepsLowBits(x: int, bits: nat)
    requires bits <= 64
    ensures x % TWO64 % Pow2(bits) == x % Pow2(bits)
  {
    PowerDivides(bits);
    ModOfMultiple(x, Pow2(64 - bits), Pow2(bits), TWO64);
  }

  lemma SlotValue(first: nat, i: nat, bits: nat)
    requires bits <= 64
    ensures SlotOf(first, i, Pow2(bits) - 1) == (first + i) % Pow2(bits)
  {
    AndIsMod((first + i) % TWO64, bits);
    WrapKeepsLowBits(first + i, bits);
  }

  /** Stepping `first` down by one, through zero if need be, moves every live position up by one. */
  lemma SlotAfterDecrement(first: nat, i: nat, bits: nat)
    requires first < TWO64 && bits <= 64
    ensures SlotOf((first - 1) % TWO64, i, Pow2(bits) - 1) == (first - 1 + i) % Pow2(bits)
  {
    SlotValue((first - 1) % TWO64, i, bits);
    if first == 0 {
      PowerDivides(bits);
      assert (first - 1) % TWO64 == TWO64 - 1;
      ModAddMultiple(first - 1 + i, Pow2(64 - bits), Pow2(bits));
    }
  }

  lemma SlotFromZero(i: nat, bits: nat)
    requires bits <= 64 && i < Pow2(bits)
    ensures SlotOf(0, i, Pow2(bits) - 1) == i
  {
    SlotValue(0, i, bits);
    ModUnique(i, Pow2(bits), 0, i);
  }

  lemma PushSlots(first: nat, i: nat, bits: nat)
    requires first < TWO64 && bits <= 64 && i + 1 < Pow2(bits)
    ensures SlotOf((first - 1) % TWO64, i + 1, Pow2(bits) - 1) == SlotOf(first, i, Pow2(bits) - 1)
    ensures SlotOf((first - 1) % TWO64, 0, Pow2(bits) - 1) != SlotOf(first, i, Pow2(bits) - 1)
  {
    SlotAfterDecrement(first, i + 1, bits);
    SlotAfterDecrement(first, 0, bits);
    SlotValue(first, i, bits);
    ModDiffers(first - 1, first + i, Pow2(bits));
  }

  /** `hd_ringbuf_init` and `hd_ringbuf_reserve` round a size up to a power of two. */
  method RoundUp(bufsize: nat) returns (size: nat, ghost bits: nat)
    requires bufsize <= TWO63
    ensures size == Pow2(bits) && bits <= 63 && bufsize <= size
  {
    size, bits := 1, 0;
    while size < bufsize
      invariant size == Pow2(bits) && bits <= 63
      decreases 63 - bits
    {
      if bits == 63 {
        Pow2Of64();
        assert false;
      }
      size, bits := size * 2, bits + 1;
    }
  }

  /** Position i of the ring holds entry i of the contents. */
  ghost predicate Holds(buf: seq<HdEntry?>, first: nat, mask: nat, contents: seq<HdEntry>) {
    && |buf| == mask + 1
    && |contents| <= mask + 1
    && forall i {:trigger SlotOf(first, i, mask)} :: 0 <= i < |contents| ==> buf[SlotOf(first, i, mask)] == contents[i]
  }

  lemma HoldsAt(buf: seq<HdEntry?>, first: nat, mask: nat, contents: seq<HdEntry>, i: nat)
    requires Holds(buf, first, mask, contents) && i < |contents|
    ensures buf[SlotOf(first, i, mask)] == contents[i]
  {
  }

  lemma HoldsAfterPush(buf: seq<HdEntry?>, first: nat, bits: nat, contents: seq<HdEntry>, ent: HdEntry)
    requires bits <= 64 && first < TWO64
    requires Holds(buf, first, Pow2(bits) - 1, contents) && |contents| < Pow2(bits)
    ensures var first', mask := (first - 1) % TWO64, Pow2(bits) - 1;
            Holds(buf[SlotOf(first', 0, mask) := ent], first', mask, [ent] + contents)
  {
    var first', mask := (first - 1) % TWO64, Pow2(bits) - 1;
    forall i | 0 <= i < |contents| + 1
      ensures buf[SlotOf(first', 0, mask) := ent][SlotOf(first', i, mask)] == ([ent] + contents)[i]
    {
      if i > 0 {
        PushSlots(first, i - 1, bits);
        HoldsAt(buf, first, mask, contents, i - 1);
      }
    }
  }

  lemma HoldsFromZero(buf: seq<HdEntry?>, bits: nat, contents: seq<HdEntry>)
    requires bits <= 64 && |buf| == Pow2(bits) && |contents| <= |buf|
    requires forall i :: 0 <= i < |contents| ==> buf[i] == contents[i]
    ensures Holds(buf, 0, Pow2(bits) - 1, contents)
  {
    forall i | 0 <= i < |contents|
      ensures buf[SlotOf(0, i, Pow2(bits) - 1)] == contents[i]
    {
      SlotFromZero(i, bits);
    }
  }

  lemma HoldsAfterPop(buf: seq<HdEntry?>, first: nat, mask: nat, contents: seq<HdEntry>)
    requires Holds(buf, first, mask, contents) && contents != []
    ensures Holds(buf, first, mask, contents[..|contents| - 1])
  {
  }

  /** `nghttp2_hd_ringbuf`; `contents` is its ghost value, the live entries newest first. */
  class Ring {
    var buffer: array<HdEntry?>
    var mask: nat
    var first: nat
    var len: nat
    ghost var bits: nat
    ghost var contents: seq<HdEntry>

    ghost predicate Valid()
      reads this, buffer
    {
      && mask + 1 == Pow2(bits)
      && bits <= 63
      && first < TWO64
      && len == |contents|
      && Holds(buffer[..], first, mask, contents)
    }

    constructor (bufsize: nat)
      requires bufsize <= TWO63
      ensures Valid() && fresh(buffer) && contents == []
    {
      var size, k := RoundUp(bufsize);
      buffer := new HdEntry?[size](_ => null);
      mask, first, len := size - 1, 0, 0;
      bits, contents := k, [];
    }

    /** `hd_ringbuf_get`. */
    method Get(idx: nat) returns (e: HdEntry)
      requires Valid() && idx < len
      ensures e == contents[idx]
    {
      HoldsAt(buffer[..], first, mask, contents, idx);
      e := buffer[SlotOf(first, idx, mask)];
    }

    /** `hd_ringbuf_reserve`: growth copies the entries in order to the front of a larger buffer. */
    method Reserve(bufsize: nat)
      requires Valid() && bufsize <= TWO63
      modifies this`buffer, this`mask, this`first, this`bits
      ensures Valid() && mask + 1 >= bufsize
      ensures buffer == old(buffer) || fresh(buffer)
    {
      if mask + 1 >= bufsize {
        return;
      }
      var size, k := RoundUp(bufsize);
      var bigger := new HdEntry?[size](_ => null);
      var i := 0;
      while i < len
        invariant 0 <= i <= len <= size == bigger.Length
        invariant unchanged(this) && Valid() && fresh(bigger)
        invariant forall j :: 0 <= j < i ==> bigger[j] == contents[j]
      {
        bigger[i] := Get(i);
        i := i + 1;
      }
      HoldsFromZero(bigger[..], k, contents);
      buffer, mask, first := bigger, size - 1, 0;
      bits := k;
    }

    /** `hd_ringbuf_push_front`. */
    method PushFront(ent: HdEntry)
      requires Valid() && len < TWO63
      modifies this, buffer
      ensures Valid() && contents == [ent] + old(contents)
      ensures buffer == old(buffer) || fresh(buffer)
    {
      Reserve(len + 1);
      HoldsAfterPush(buffer[..], first, bits, contents, ent);
      ghost var was := buffer[..];
      first := (first - 1) % TWO64;
      buffer[SlotOf(first, 0, mask)] := ent;
      assert buffer[..] == was[SlotOf(first, 0, mask) := ent];
      len := len + 1;
      contents := [ent] + contents;
    }

    /** `hd_ringbuf_pop_back`. */
    method PopBack()
      requires Valid() && len > 0
      modifies this`len, this`contents
      ensures Valid() && contents == old(contents)[..old(len) - 1]
    {
      HoldsAfterPop(buffer[..], first, mask, contents);
      len := len - 1;
      contents := contents[..len];
    }
  }
}
