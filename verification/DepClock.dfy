/**
 * The virtual clock of the weighted fair queues.  A stream's next turn comes 256 * bytes / weight later, and the
 * remainder of the division is carried over, so no fraction is ever lost.  Cycles are counted modulo 2^64; they
 * are compared rightly as long as all cycles of a queue lie in one window, which every operation preserves.
 */
module DepClock {
  import opened Modular
  import opened DepQueue

  /** `NGHTTP2_MAX_FRAME_SIZE_MAX` */
  const MAX_FRAME: nat := 0xff_ffff
  /** `NGHTTP2_MAX_CYCLE_DISTANCE`: the largest frame at weight 1, and the largest carry. */
  const MAX_CYCLE_DISTANCE: nat := MAX_FRAME * 256 + 255

  /** How far after the parent's clock a stream's turn comes. */
  function Delay(x: Queue, weight: int): nat
    requires weight > 0
  {
    (x.writelen * MAX_WEIGHT + x.penalty) / weight
  }

  /** No rounding loss: weight times the delay, with the new carry, is 256 times the bytes and the old carry. */
  lemma ClockIsExact(x: Queue, weight: int, last: nat)
    requires weight > 0
    ensures var y := NextCycle(x, weight, last);
            && y.cycle == (last + Delay(x, weight)) % TWO64
            && weight * Delay(x, weight) + y.penalty == MAX_WEIGHT * x.writelen + x.penalty
            && y.penalty < weight
  {
    DivMod(x.writelen * MAX_WEIGHT + x.penalty, weight);
  }

  // ---- a change of weight

  /** The carry a stream had before its last turn was computed, recovered from the one it has now. */
  function OldCarry(x: Queue, weight: int): nat
    requires weight > 0
  {
    var wlen := x.writelen * MAX_WEIGHT;
    if x.penalty + weight >= wlen % weight then (x.penalty + weight - wlen % weight) % weight else 0
  }

  /** The parent's clock when the stream's last turn was computed. */
  function OldLast(x: Queue, weight: int): nat
    requires weight > 0
  {
    (x.cycle - (x.writelen * MAX_WEIGHT + OldCarry(x, weight)) / weight) % TWO64
  }

  /** A turn that would lie before the parent's clock is put on it. */
  function Clamped(x: Queue, parentLast: nat): Queue {
    if (parentLast - x.cycle) % TWO64 <= MAX_CYCLE_DISTANCE then x.(cycle := parentLast) else x
  }

  /** The queued stream after `nghttp2_stream_change_weight`. */
  function Reweighed(x: Queue, before: int, weight: int, parentLast: nat): Queue
    requires before > 0 && weight > 0
  {
    Clamped(NextCycle(x.(penalty := OldCarry(x, before)), weight, OldLast(x, before)), parentLast)
  }

  /** What is recovered is the carry modulo the weight. */
  lemma CarryRecovered(wlen: nat, carry: nat, weight: nat)
    requires weight > 0
    ensures var now := (wlen + carry) % weight;
            && wlen % weight <= now + weight
            && (now + weight - wlen % weight) % weight == carry % weight
  {
    var total := wlen + carry;
    DivMod(wlen, weight);
    DivMod(carry, weight);
    DivMod(total, weight);
    var now := total % weight;
    assert now + weight - wlen % weight == carry + (1 + wlen / weight - total / weight) * weight by {
      MulSub(1 + wlen / weight, total / weight, weight);
    }
    ModAddMultiple(carry, 1 + wlen / weight - total / weight, weight);
  }

  lemma SmallMod(a: nat, m: nat)
    requires a < m
    ensures a % m == a
  {
    ModUnique(a, m, 0, a);
  }

  /**
   * Changing the weight of a queued stream recovers exactly the carry and the base of its last turn: the stream
   * stands as if it had had the new weight when that turn was computed, but for the clamp.
   */
  lemma ReweighReplays(x: Queue, before: int, weight: int, last: nat, parentLast: nat)
    requires before > 0 && weight > 0 && x.penalty < before && last < TWO64
    ensures var y := NextCycle(x, before, last);
            && OldCarry(y, before) == x.penalty && OldLast(y, before) == last
            && Reweighed(y, before, weight, parentLast) == Clamped(NextCycle(x, weight, last), parentLast)
  {
    var y := NextCycle(x, before, last);
    CarryRecovered(x.writelen * MAX_WEIGHT, x.penalty, before);
    SmallMod(x.penalty, before);
    ModSubAdd(last, Delay(x, before));
  }

  /** Whatever the carry was: what is recovered is the carry modulo the weight, and a base later by the rest. */
  lemma RecoveredParts(x: Queue, before: int, last: nat)
    requires before > 0 && last < TWO64
    ensures var y := NextCycle(x, before, last);
            && OldCarry(y, before) == x.penalty % before
            && OldLast(y, before) == (last + x.penalty / before) % TWO64
  {
    SpanOfReplay(x, before, last);
    BaseMoves(last, Span(NextCycle(x, before, last), before), x.penalty / before);
  }

  lemma BaseMoves(last: nat, span: nat, more: nat)
    ensures ((last + (span + more)) % TWO64 - span) % TWO64 == (last + more) % TWO64
  {
  }

  /** The turn a change of weight computes, before it is put on the parent's clock. */
  function Replayed(y: Queue, before: int, weight: int): Queue
    requires before > 0 && weight > 0
  {
    NextCycle(y.(penalty := OldCarry(y, before)), weight, OldLast(y, before))
  }

  /** A turn that is not before the parent's clock: the guard of the last branch of `nghttp2_stream_change_weight`. */
  predicate NotBehind(turn: nat, parentLast: nat) {
    turn == parentLast || (parentLast - turn) % TWO64 > MAX_CYCLE_DISTANCE
  }

  /**
   * After a change of weight, the next change starts from the same carry and base again, if and only if the carry
   * was below the new weight and the turn computed is not before the parent's clock.
   */
  lemma RecoveryNeedsSmallCarry(y: Queue, before: int, weight: int, parentLast: nat)
    requires before > 0 && weight > 0 && y.cycle < TWO64 && parentLast < TWO64
    ensures var z := Reweighed(y, before, weight, parentLast);
            OldCarry(z, weight) == OldCarry(y, before) && OldLast(z, weight) == OldLast(y, before)
            <==> OldCarry(y, before) < weight && NotBehind(Replayed(y, before, weight).cycle, parentLast)
  {
    var x, turn := y.(penalty := OldCarry(y, before)), Replayed(y, before, weight);
    RecoveredIfSmall(x, weight, OldLast(y, before));
    ReplacedTurn(turn, weight, parentLast);
  }

  lemma RecoveredIfSmall(x: Queue, weight: int, base: nat)
    requires weight > 0 && base < TWO64
    ensures OldCarry(NextCycle(x, weight, base), weight) == x.penalty <==> x.penalty < weight
    ensures x.penalty < weight ==> OldLast(NextCycle(x, weight, base), weight) == base
  {
    RecoveredParts(x, weight, base);
    RestOrNot(x.penalty, weight);
  }

  lemma RestOrNot(carry: nat, weight: nat)
    requires weight > 0
    ensures if carry < weight then carry % weight == carry && carry / weight == 0 else carry % weight != carry
  {
    DivMod(carry, weight);
    if carry < weight {
      QuotientUnique(weight, carry / weight, carry % weight, 0, carry);
    }
  }

  /** The clamp leaves the carry, and it leaves the base if and only if it leaves the turn. */
  lemma ReplacedTurn(turn: Queue, weight: int, parentLast: nat)
    requires weight > 0 && turn.cycle < TWO64 && parentLast < TWO64
    ensures OldCarry(Clamped(turn, parentLast), weight) == OldCarry(turn, weight)
    ensures OldLast(Clamped(turn, parentLast), weight) == OldLast(turn, weight) <==> Clamped(turn, parentLast) == turn
  {
    SameBase(turn.cycle, Clamped(turn, parentLast).cycle, Span(turn, weight));
  }

  lemma SameBase(a: nat, b: nat, span: nat)
    requires a < TWO64 && b < TWO64
    ensures (a - span) % TWO64 == (b - span) % TWO64 <==> a == b
  {
  }

  lemma ModSubAdd(a: nat, d: nat)
    requires a < TWO64
    ensures ((a + d) % TWO64 - d) % TWO64 == a
  {
  }

  // ---- order within a queue

  /** `stream_less` */
  predicate Less(a: Queue, b: Queue) {
    if a.cycle == b.cycle then a.seqNo < b.seqNo
    else (b.cycle - a.cycle) % TWO64 <= MAX_CYCLE_DISTANCE
  }

  /** `stream_less` orders the streams in xs strictly and totally. */
  ghost predicate Ordered(q: QueueMap, xs: set<int>)
    requires forall x | x in xs :: x in q
  {
    && (forall x, y | x in xs && y in xs && x != y :: Less(q[x], q[y]) != Less(q[y], q[x]))
    && (forall x, y, z | x in xs && y in xs && z in xs && Less(q[x], q[y]) && Less(q[y], q[z]) ::
          x == z || Less(q[x], q[z]))
  }

  /** How far x's turn lies after the clock `last`, around the circle of 2^64. */
  function Gap(last: nat, x: Queue): nat {
    (x.cycle - last) % TWO64
  }

  /** In a window above `last`, the modular order is that of the gaps, and of the sequence numbers where they agree. */
  lemma LessIsGapOrder(last: nat, a: Queue, b: Queue)
    requires a.cycle < TWO64 && b.cycle < TWO64 && last < TWO64
    requires Gap(last, a) <= MAX_CYCLE_DISTANCE && Gap(last, b) <= MAX_CYCLE_DISTANCE
    ensures Less(a, b) <==> Gap(last, a) < Gap(last, b) || (Gap(last, a) == Gap(last, b) && a.seqNo < b.seqNo)
  {
  }

  /** So cycles in one window, with sequence numbers that differ, are totally ordered. */
  lemma WindowOrders(q: QueueMap, xs: set<int>, last: nat)
    requires last < TWO64
    requires forall x | x in xs :: x in q && q[x].cycle < TWO64 && Gap(last, q[x]) <= MAX_CYCLE_DISTANCE
    requires forall x, y | x in xs && y in xs && x != y :: q[x].seqNo != q[y].seqNo
    ensures Ordered(q, xs)
  {
    forall x, y | x in xs && y in xs
      ensures Less(q[x], q[y]) <==>
              Gap(last, q[x]) < Gap(last, q[y]) || (Gap(last, q[x]) == Gap(last, q[y]) && q[x].seqNo < q[y].seqNo)
    {
      LessIsGapOrder(last, q[x], q[y]);
    }
  }

  /** The delay a stream's last turn was computed with, as far as a change of weight can tell. */
  function Span(x: Queue, weight: int): nat
    requires weight > 0
  {
    (x.writelen * MAX_WEIGHT + OldCarry(x, weight)) / weight
  }

  /** How far after the clock a turn may lie: its span, and the carries that changes of weight have lost. */
  function Reach(x: Queue, weight: int): int
    requires weight > 0
  {
    Span(x, weight) + 255 - OldCarry(x, weight)
  }

  predicate ClockOk(x: Queue, weight: int) {
    0 < weight <= MAX_WEIGHT && x.penalty < weight && x.writelen <= MAX_FRAME && x.cycle < TWO64 && x.lastCycle < TWO64
  }

  lemma OldCarrySmall(x: Queue, weight: int)
    requires weight > 0
    ensures OldCarry(x, weight) < weight
  {
    var wlen := x.writelen * MAX_WEIGHT;
    DivMod(wlen, weight);
    DivMod(x.penalty + weight - wlen % weight, weight);
  }

  lemma ReachInWindow(x: Queue, weight: int)
    requires 0 < weight <= MAX_WEIGHT && x.writelen <= MAX_FRAME
    ensures Span(x, weight) <= Reach(x, weight) <= MAX_CYCLE_DISTANCE
  {
    OldCarrySmall(x, weight);
    DivMod(x.writelen * MAX_WEIGHT + OldCarry(x, weight), weight);
    MulAtLeast(weight, Span(x, weight));
  }

  /** A turn just computed lies exactly one span after the clock. */
  lemma FreshTurn(x: Queue, weight: int, last: nat)
    requires ClockOk(x, weight) && last < TWO64
    ensures var y := NextCycle(x, weight, last);
            ClockOk(y, weight) && Gap(last, y) == Span(y, weight) <= Reach(y, weight)
  {
    var y := NextCycle(x, weight, last);
    ClockIsExact(x, weight, last);
    CarryRecovered(x.writelen * MAX_WEIGHT, x.penalty, weight);
    SmallMod(x.penalty, weight);
    ReachInWindow(y, weight);
  }

  /** A replay under another weight splits the delay into the new span and what the carry loses. */
  lemma SpanOfReplay(x: Queue, weight: int, base: nat)
    requires weight > 0
    ensures var y := NextCycle(x, weight, base);
            && OldCarry(y, weight) == x.penalty % weight
            && Delay(x, weight) == Span(y, weight) + x.penalty / weight
            && 255 - x.penalty + Delay(x, weight) <= Reach(y, weight)
  {
    var wlen := x.writelen * MAX_WEIGHT;
    CarryRecovered(wlen, x.penalty, weight);
    var carry := x.penalty % weight;
    DivMod(x.penalty, weight);
    MulAtLeast(weight, x.penalty / weight);
    DivMod(wlen + carry, weight);
    DivMod(wlen + x.penalty, weight);
    MulSub((wlen + carry) / weight, -(x.penalty / weight), weight);
    QuotientUnique(weight, (wlen + x.penalty) / weight, (wlen + x.penalty) % weight,
                   (wlen + carry) / weight + x.penalty / weight, (wlen + carry) % weight);
  }

  /** A turn d after a base that lies g before `cycle`, itself at most g + more after last. */
  lemma Rebased(last: nat, cycle: nat, g: nat, more: nat, d: nat, turn: nat)
    requires last < TWO64 && cycle < TWO64 && (cycle - last) % TWO64 <= g + more
    requires g + more <= MAX_CYCLE_DISTANCE && more + d <= MAX_CYCLE_DISTANCE
    requires turn == ((cycle - g) % TWO64 + d) % TWO64
    ensures (last - turn) % TWO64 <= MAX_CYCLE_DISTANCE || (turn - last) % TWO64 <= more + d
  {
    var gap, base := (cycle - last) % TWO64, (cycle - g) % TWO64;
    assert cycle == last + gap || cycle == last + gap - TWO64;
    assert base == cycle - g || base == cycle - g + TWO64;
    assert turn == base + d || turn == base + d - TWO64;
  }

  /** And then clamped. */
  lemma RebasedFits(y: Queue, last: nat, cycle: nat, g: nat, more: nat, d: nat)
    requires last < TWO64 && cycle < TWO64 && (cycle - last) % TWO64 <= g + more
    requires g + more <= MAX_CYCLE_DISTANCE && more + d <= MAX_CYCLE_DISTANCE
    requires y.cycle == ((cycle - g) % TWO64 + d) % TWO64
    ensures Gap(last, Clamped(y, last)) <= more + d
  {
    Rebased(last, cycle, g, more, d, y.cycle);
  }

  /** Everything about the replay that the window needs, without the divisions. */
  lemma ReplayFacts(x: Queue, before: int, weight: int)
    requires ClockOk(x, before) && 1 <= weight <= MAX_WEIGHT
    ensures var x1 := x.(penalty := OldCarry(x, before));
            var y := NextCycle(x1, weight, OldLast(x, before));
            && OldCarry(x, before) <= 255 && ClockOk(y, weight)
            && y.cycle == ((x.cycle - Span(x, before)) % TWO64 + Delay(x1, weight)) % TWO64
            && Reach(x, before) == Span(x, before) + (255 - OldCarry(x, before)) <= MAX_CYCLE_DISTANCE
            && 255 - OldCarry(x, before) + Delay(x1, weight) <= Reach(y, weight) <= MAX_CYCLE_DISTANCE
  {
    var x1 := x.(penalty := OldCarry(x, before));
    OldCarrySmall(x, before);
    ReachInWindow(x, before);
    ClockIsExact(x1, weight, OldLast(x, before));
    SpanOfReplay(x1, weight, OldLast(x, before));
    ReachInWindow(NextCycle(x1, weight, OldLast(x, before)), weight);
  }

  /** A change of weight leaves the turn in the window, and not before the parent's clock. */
  lemma ReweighedInWindow(x: Queue, before: int, weight: int, last: nat)
    requires ClockOk(x, before) && 1 <= weight <= MAX_WEIGHT && last < TWO64 && Gap(last, x) <= Reach(x, before)
    ensures var y := Reweighed(x, before, weight, last);
            ClockOk(y, weight) && Gap(last, y) <= Reach(y, weight)
  {
    var carry := OldCarry(x, before);
    var x1 := x.(penalty := carry);
    var y := NextCycle(x1, weight, OldLast(x, before));
    ReplayFacts(x, before, weight);
    RebasedFits(y, last, x.cycle, Span(x, before), 255 - carry, Delay(x1, weight));
    SameReach(y, Clamped(y, last), weight);
  }

  lemma SameReach(x: Queue, y: Queue, weight: int)
    requires weight > 0 && y == x.(cycle := y.cycle)
    ensures Reach(x, weight) == Reach(y, weight)
  {
  }
}
