/** The FIFO loop against a share-by-share queue, and against itself when a fill is split. */
module Fifo {
  import opened Domain
  import opened Sums
  import opened Tables
  import opened Lots

  /** Primary keys are unique, so the consumption order is total. */
  ghost predicate TotalOrder(lots: seq<Lot>) {
    forall i, j :: 0 <= i < |lots| && 0 <= j < |lots| && i != j ==> Before(lots[i], lots[j]) || Before(lots[j], lots[i])
  }

  ghost predicate AllOpen(lots: seq<Lot>, queue: seq<nat>)
    requires InRange(queue, |lots|)
  {
    forall k :: 0 <= k < |queue| ==> lots[queue[k]].qtyOpen > 0.0
  }

  // ── Sums along a queue ───────────────────────────────────────────

  ghost function QueueSum(lots: seq<Lot>, queue: seq<nat>, weight: Lot -> real): real
    requires InRange(queue, |lots|)
  {
    if queue == [] then 0.0 else weight(lots[queue[0]]) + QueueSum(lots, queue[1..], weight)
  }

  ghost function OpenQty(): Lot -> real {
    (lot: Lot) => lot.qtyOpen
  }

  lemma {:induction false} QueueSumConcat(lots: seq<Lot>, a: seq<nat>, b: seq<nat>, weight: Lot -> real)
    requires InRange(a, |lots|) && InRange(b, |lots|)
    ensures QueueSum(lots, a + b, weight) == QueueSum(lots, a, weight) + QueueSum(lots, b, weight)
  {
    if a == [] {
      assert a + b == b;
    } else {
      assert (a + b)[1..] == a[1..] + b;
      QueueSumConcat(lots, a[1..], b, weight);
    }
  }

  lemma {:induction false} QueueSumAgrees(lots: seq<Lot>, two: seq<Lot>, queue: seq<nat>, v: Lot -> real, w: Lot -> real)
    requires InRange(queue, |lots|) && |two| == |lots|
    requires forall k :: 0 <= k < |queue| ==> v(lots[queue[k]]) == w(two[queue[k]])
    ensures QueueSum(lots, queue, v) == QueueSum(two, queue, w)
  {
    if queue != [] {
      QueueSumAgrees(lots, two, queue[1..], v, w);
    }
  }

  lemma {:induction false} QueueSumMiddle(lots: seq<Lot>, before: seq<nat>, i: nat, after: seq<nat>, weight: Lot -> real)
    requires i < |lots| && InRange(before, |lots|) && InRange(after, |lots|)
    ensures QueueSum(lots, before + [i] + after, weight) == weight(lots[i]) + QueueSum(lots, before + after, weight)
  {
    if before == [] {
      assert before + [i] + after == [i] + after;
      assert ([i] + after)[1..] == after;
      assert before + after == after;
    } else {
      QueueSumMiddle(lots, before[1..], i, after, weight);
      assert (before + [i] + after)[1..] == before[1..] + [i] + after;
      assert (before + after)[1..] == before[1..] + after;
    }
  }

  lemma QueueSumInsert(lots: seq<Lot>, queue: seq<nat>, i: nat, weight: Lot -> real)
    requires i < |lots| && InRange(queue, i)
    ensures QueueSum(lots, Insert(lots, queue, i), weight) == weight(lots[i]) + QueueSum(lots, queue, weight)
  {
    hide Before, Distinct, OldestFirst, InsertionPoint, QueueSum;
    var p := InsertionPoint(lots, queue, i);
    QueueSumMiddle(lots, queue[..p], i, queue[p..], weight);
    assert queue == queue[..p] + queue[p..];
  }

  lemma {:induction false} QueueSumIsTableSum(lots: seq<Lot>, f: LotFill, n: nat, weight: Lot -> real)
    requires n <= |lots|
    requires forall i :: 0 <= i < |lots| && !Eligible(lots[i], f) ==> weight(lots[i]) == 0.0
    ensures QueueSum(lots, OpenLots(lots, f, n), weight) == Sum(lots[..n], weight)
  {
    if n > 0 {
      hide Insert, Before;
      QueueSumIsTableSum(lots, f, n - 1, weight);
      assert lots[..n][..n - 1] == lots[..n - 1];
      if Eligible(lots[n - 1], f) {
        QueueSumInsert(lots, OpenLots(lots, f, n - 1), n - 1, weight);
      }
    }
  }

  // ── Per-lot consumption is a clamp ───────────────────────────────

  /** What the loop does to a lot when `qty` of it is taken; a lot it never reaches is untouched. */
  function TakenFrom(lot: Lot, f: LotFill, qty: real): Lot {
    if qty > 0.0 then Reduced(lot, f, qty) else lot
  }

  lemma {:induction false} ConsumeLeaves(lots: seq<Lot>, queue: seq<nat>, f: LotFill, remaining: real)
    requires InRange(queue, |lots|) && Distinct(queue) && AllOpen(lots, queue)
    requires remaining >= 0.0
    ensures Consume(lots, queue, f, remaining).remaining == Max(0.0, remaining - QueueSum(lots, queue, OpenQty()))
    decreases |queue|
  {
    QueueSumNonNegative(lots, queue);
    if queue != [] && remaining > 0.0 {
      var i, rest := queue[0], queue[1..];
      var qty := Min(lots[i].qtyOpen, remaining);
      var next := lots[i := Reduced(lots[i], f, qty)];
      assert forall k :: 0 <= k < |rest| ==> next[rest[k]] == lots[rest[k]];
      ConsumeLeaves(next, rest, f, remaining - qty);
      QueueSumAgrees(next, lots, rest, OpenQty(), OpenQty());
      QueueSumNonNegative(lots, rest);
    }
  }

  lemma {:induction false} ConsumeClamps(lots: seq<Lot>, queue: seq<nat>, f: LotFill, remaining: real, k: nat, ahead: real)
    requires InRange(queue, |lots|) && Distinct(queue) && AllOpen(lots, queue)
    requires remaining >= 0.0 && k < |queue| && ahead == QueueSum(lots, queue[..k], OpenQty())
    ensures Consume(lots, queue, f, remaining).lots[queue[k]] ==
            TakenFrom(lots[queue[k]], f, Clamp(remaining - ahead, 0.0, lots[queue[k]].qtyOpen))
    decreases |queue|
  {
    hide Pnl, CloseOf;
    QueueSumNonNegative(lots, queue[..k]);
    if remaining > 0.0 {
      var i, rest := queue[0], queue[1..];
      var qty := Min(lots[i].qtyOpen, remaining);
      var next := lots[i := Reduced(lots[i], f, qty)];
      ConsumeStep(lots, queue, f, remaining);
      if k == 0 {
        assert i !in rest;
        ConsumeFrames(next, rest, f, remaining - qty, i);
      } else {
        assert forall j :: 0 <= j < |rest| ==> next[rest[j]] == lots[rest[j]];
        assert queue[..k][1..] == rest[..k - 1];
        QueueSumAgrees(next, lots, rest[..k - 1], OpenQty(), OpenQty());
        QueueSumNonNegative(next, rest[..k - 1]);
        ConsumeClamps(next, rest, f, remaining - qty, k - 1, ahead - lots[i].qtyOpen);
      }
    }
  }

  lemma {:induction false} QueueSumNonNegative(lots: seq<Lot>, queue: seq<nat>)
    requires InRange(queue, |lots|) && AllOpen(lots, queue)
    ensures QueueSum(lots, queue, OpenQty()) >= 0.0
  {
    if queue != [] {
      QueueSumNonNegative(lots, queue[1..]);
    }
  }

  /** The open quantity of the eligible lots that stand ahead of `lot` in the FIFO queue. */
  ghost function AheadOf(f: LotFill, lot: Lot): Lot -> real {
    (other: Lot) => if Eligible(other, f) && Before(other, lot) then other.qtyOpen else 0.0
  }

  ghost function EligibleQty(f: LotFill): Lot -> real {
    (other: Lot) => if Eligible(other, f) then other.qtyOpen else 0.0
  }

  /** In the queue, exactly the lots in front of lot `k` precede it. */
  lemma FrontIsAhead(lots: seq<Lot>, f: LotFill, j: nat, k: nat)
    requires TotalOrder(lots) && j < |OpenLots(lots, f, |lots|)| && k < |OpenLots(lots, f, |lots|)|
    ensures var queue := OpenLots(lots, f, |lots|);
            AheadOf(f, lots[queue[k]])(lots[queue[j]]) == if j < k then lots[queue[j]].qtyOpen else 0.0
  {
    hide Eligible, Insert;
    QueueIsEligible(lots, f);
    var queue := OpenLots(lots, f, |lots|);
    if j < k {
      assert Before(lots[queue[j]], lots[queue[k]]);
    } else {
      assert !Before(lots[queue[j]], lots[queue[k]]);
    }
  }

  /** The sum over the queue's first `k` lots is the sum over all lots ahead of lot `k`. */
  lemma AheadIsPrefix(lots: seq<Lot>, f: LotFill, k: nat)
    requires TotalOrder(lots)
    requires k < |OpenLots(lots, f, |lots|)|
    ensures var queue := OpenLots(lots, f, |lots|);
            QueueSum(lots, queue[..k], OpenQty()) == Sum(lots, AheadOf(f, lots[queue[k]]))
  {
    hide Before, Eligible, OldestFirst, Distinct, QueueSum, Sum, TotalOrder, OpenLots;
    var queue := OpenLots(lots, f, |lots|);
    var ahead := AheadOf(f, lots[queue[k]]);
    assert lots[..|lots|] == lots;
    QueueSumIsTableSum(lots, f, |lots|, ahead);
    hide AheadOf;
    assert queue == queue[..k] + queue[k..];
    QueueSumConcat(lots, queue[..k], queue[k..], ahead);
    forall j | 0 <= j < |queue| ensures ahead(lots[queue[j]]) == if j < k then lots[queue[j]].qtyOpen else 0.0 {
      FrontIsAhead(lots, f, j, k);
    }
    QueueSumAgrees(lots, lots, queue[..k], OpenQty(), ahead);
    var none := (other: Lot) => 0.0;
    QueueSumAgrees(lots, lots, queue[k..], ahead, none);
    QueueSumZero(lots, queue[k..], none);
  }

  lemma {:induction false} QueueSumZero(lots: seq<Lot>, queue: seq<nat>, none: Lot -> real)
    requires InRange(queue, |lots|)
    requires forall lot :: none(lot) == 0.0
    ensures QueueSum(lots, queue, none) == 0.0
  {
    if queue != [] {
      QueueSumZero(lots, queue[1..], none);
    }
  }

  lemma QueueIsEligible(lots: seq<Lot>, f: LotFill)
    ensures var queue := OpenLots(lots, f, |lots|);
            && AllOpen(lots, queue)
            && forall k :: 0 <= k < |queue| ==> Eligible(lots[queue[k]], f)
  {
    var queue := OpenLots(lots, f, |lots|);
    forall k | 0 <= k < |queue| ensures Eligible(lots[queue[k]], f) {
      QueuedIsEligible(lots, f, |lots|, k);
    }
  }

  /** What the fill cannot place is exactly what all eligible lots together cannot supply. */
  lemma RemainingIsShortfall(lots: seq<Lot>, f: LotFill)
    requires f.qty >= 0.0
    ensures WalkOf(lots, f).remaining == Max(0.0, f.qty - Sum(lots, EligibleQty(f)))
  {
    var queue := OpenLots(lots, f, |lots|);
    QueueIsEligible(lots, f);
    ConsumeLeaves(lots, queue, f, f.qty);
    QueueSumIsTableSum(lots, f, |lots|, EligibleQty(f));
    assert lots[..|lots|] == lots;
    QueueSumAgrees(lots, lots, queue, OpenQty(), EligibleQty(f));
  }

  lemma PlaceInQueue(lots: seq<Lot>, f: LotFill, i: nat) returns (k: nat)
    requires TotalOrder(lots) && i < |lots| && Eligible(lots[i], f)
    ensures var queue := OpenLots(lots, f, |lots|);
            && k < |queue| && queue[k] == i
            && QueueSum(lots, queue[..k], OpenQty()) == Sum(lots, AheadOf(f, lots[i]))
  {
    k := EligibleIsQueued(lots, f, |lots|, i);
    AheadIsPrefix(lots, f, k);
  }

  lemma EligibleIsClamped(lots: seq<Lot>, f: LotFill, i: nat)
    requires TotalOrder(lots) && f.qty >= 0.0 && i < |lots| && Eligible(lots[i], f)
    ensures Consume(lots, OpenLots(lots, f, |lots|), f, f.qty).lots[i] ==
            TakenFrom(lots[i], f, Clamp(f.qty - Sum(lots, AheadOf(f, lots[i])), 0.0, lots[i].qtyOpen))
  {
    hide Before, Pnl, Clamp, TakenFrom, Insert, OpenLots, Consume, Sum, AheadOf, TotalOrder;
    var k := PlaceInQueue(lots, f, i);
    QueueIsEligible(lots, f);
    ConsumeClamps(lots, OpenLots(lots, f, |lots|), f, f.qty, k, Sum(lots, AheadOf(f, lots[i])));
  }

  lemma IneligibleIsUntouched(lots: seq<Lot>, f: LotFill, i: nat)
    requires i < |lots| && !Eligible(lots[i], f)
    ensures WalkOf(lots, f).lots[i] == lots[i]
  {
    QueueIsEligible(lots, f);
    ConsumeFrames(lots, OpenLots(lots, f, |lots|), f, f.qty, i);
  }

  /** FIFO, share by share: every lot gives up exactly the part of the fill that reaches it after
      the older eligible lots are used up, and never more than it has open. */
  lemma FifoIsClamp(lots: seq<Lot>, f: LotFill, i: nat)
    requires TotalOrder(lots) && f.qty >= 0.0 && i < |lots|
    ensures WalkOf(lots, f).lots[i] ==
            if Eligible(lots[i], f)
            then TakenFrom(lots[i], f, Clamp(f.qty - Sum(lots, AheadOf(f, lots[i])), 0.0, lots[i].qtyOpen))
            else lots[i]
  {
    if Eligible(lots[i], f) {
      EligibleIsClamped(lots, f, i);
      assert WalkOf(lots, f) == Consume(lots, OpenLots(lots, f, |lots|), f, f.qty);
    } else {
      IneligibleIsUntouched(lots, f, i);
    }
  }

  // ── Splitting a fill ─────────────────────────────────────────────

  /** The rows of `queue` that are still open in `lots`. */
  ghost function StillOpen(lots: seq<Lot>, queue: seq<nat>): (r: seq<nat>)
    requires InRange(queue, |lots|)
    ensures InRange(r, |lots|)
  {
    if queue == [] then []
    else if lots[queue[0]].qtyOpen > 0.0 then [queue[0]] + StillOpen(lots, queue[1..])
    else StillOpen(lots, queue[1..])
  }

  lemma {:induction false} StillOpenIsAll(lots: seq<Lot>, queue: seq<nat>)
    requires InRange(queue, |lots|) && AllOpen(lots, queue)
    ensures StillOpen(lots, queue) == queue
  {
    if queue != [] {
      StillOpenIsAll(lots, queue[1..]);
    }
  }

  /** One lot split over two consumptions ends in the same row as one consumption. */
  lemma ReducedTwice(lot: Lot, f: LotFill, a: real, b: real)
    requires 0.0 < a < lot.qtyOpen && b > 0.0
    ensures Reduced(Reduced(lot, f, a), f, b) == Reduced(lot, f, a + b)
  {
    assert Pnl(lot, f.price, a) + Pnl(lot, f.price, b) == Pnl(lot, f.price, a + b);
  }

  ghost predicate SameOutcome(lots: seq<Lot>, queue: seq<nat>, f: LotFill, a: real, b: real)
    requires InRange(queue, |lots|)
  {
    var first := Consume(lots, queue, f, a);
    var second := Consume(first.lots, StillOpen(first.lots, queue), f, b);
    var whole := Consume(lots, queue, f, a + b);
    && second.lots == whole.lots
    && first.remaining + second.remaining == whole.remaining
    && first.remaining >= 0.0
    && (first.remaining > 0.0 ==> StillOpen(first.lots, queue) == [])
  }

  /** The first lot absorbs all of `a`: the second consumption starts where the first stopped. */
  lemma SplitInsideHead(lots: seq<Lot>, queue: seq<nat>, f: LotFill, a: real, b: real)
    requires InRange(queue, |lots|) && Distinct(queue) && AllOpen(lots, queue)
    requires b > 0.0 && queue != [] && 0.0 < a <= lots[queue[0]].qtyOpen
    ensures SameOutcome(lots, queue, f, a, b)
  {
    var i, rest := queue[0], queue[1..];
    var open := lots[i].qtyOpen;
    var next := lots[i := Reduced(lots[i], f, a)];
    assert forall k :: 0 <= k < |rest| ==> rest[k] != i;
    var first := Consume(lots, queue, f, a);
    assert first.lots == next && first.remaining == 0.0 by {
      assert Consume(next, rest, f, a - a) == Walk(next, [], 0.0);
    }
    assert AllOpen(next, rest);
    StillOpenIsAll(next, rest);
    if a == open {
      assert StillOpen(next, queue) == rest;
    } else {
      assert StillOpen(next, queue) == queue;
      ResumeHead(lots, queue, f, a, b);
    }
  }

  lemma ResumeHead(lots: seq<Lot>, queue: seq<nat>, f: LotFill, a: real, b: real)
    requires InRange(queue, |lots|) && b > 0.0 && queue != [] && 0.0 < a < lots[queue[0]].qtyOpen
    ensures var next := lots[queue[0] := Reduced(lots[queue[0]], f, a)];
            var second := Consume(next, queue, f, b);
            var whole := Consume(lots, queue, f, a + b);
            second.lots == whole.lots && second.remaining == whole.remaining
  {
    var i := queue[0];
    var next := lots[i := Reduced(lots[i], f, a)];
    var more := Min(lots[i].qtyOpen - a, b);
    ReducedTwice(lots[i], f, a, more);
    assert Min(lots[i].qtyOpen, a + b) == a + more;
    assert next[i := Reduced(next[i], f, more)] == lots[i := Reduced(lots[i], f, a + more)];
    assert (a + b) - (a + more) == b - more;
  }

  /** Consuming `a` and then `b` leaves the same lot rows and the same remainder as consuming `a + b`. */
  lemma {:induction false} ConsumeSplits(lots: seq<Lot>, queue: seq<nat>, f: LotFill, a: real, b: real)
    requires InRange(queue, |lots|) && Distinct(queue) && AllOpen(lots, queue)
    requires a > 0.0 && b > 0.0
    ensures SameOutcome(lots, queue, f, a, b)
    decreases |queue|
  {
    if queue != [] {
      var i, rest := queue[0], queue[1..];
      var open := lots[i].qtyOpen;
      if a > open {
        var next := lots[i := Reduced(lots[i], f, open)];
        assert next[i].qtyOpen == 0.0;
        hide Reduced, CloseOf;
        assert forall k :: 0 <= k < |rest| ==> rest[k] != i;
        assert AllOpen(next, rest);
        ConsumeSplits(next, rest, f, a - open, b);
        ConsumeFrames(next, rest, f, a - open, i);
        var first := Consume(lots, queue, f, a);
        assert StillOpen(first.lots, queue) == StillOpen(first.lots, rest);
      } else {
        SplitInsideHead(lots, queue, f, a, b);
      }
    }
  }

  lemma {:induction false} ConsumeFrames(lots: seq<Lot>, queue: seq<nat>, f: LotFill, remaining: real, i: nat)
    requires InRange(queue, |lots|) && i < |lots| && i !in queue
    ensures Consume(lots, queue, f, remaining).lots[i] == lots[i]
    decreases |queue|
  {
    if queue != [] && remaining > 0.0 {
      var j := queue[0];
      var qty := Min(lots[j].qtyOpen, remaining);
      ConsumeFrames(lots[j := Reduced(lots[j], f, qty)], queue[1..], f, remaining - qty, i);
    }
  }
}
