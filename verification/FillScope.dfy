/** Whose lots a fill closes: its own strategy's, or, without a strategy, what was open when it printed. */
module FillScope {
  import opened Domain
  import opened Sums
  import opened Tables
  import opened Lots
  import opened Fifo
  import opened FifoSplit
  import opened LotAccounting

  // ── What a fill leaves alone, and what its closes say ────────────

  /** What each close row of one application says. */
  lemma {:induction false} CloseRowsAre(lots: seq<Lot>, queue: seq<nat>, f: LotFill, remaining: real, k: nat)
    requires InRange(queue, |lots|) && Distinct(queue) && k < |Consume(lots, queue, f, remaining).closes|
    ensures var c := Consume(lots, queue, f, remaining).closes[k];
            && k < |queue| && c.lot == queue[k]
            && c.order == f.order && c.fill == f.fill && c.closedAt == f.at && c.symbol == f.symbol
            && c.strategy == lots[c.lot].strategy
            && c.realizedPnl == Signed(lots[c.lot].side, f.price - lots[c.lot].entryPrice) * c.qty
    decreases |queue|
  {
    var i := queue[0];
    var qty := Min(lots[i].qtyOpen, remaining);
    if k > 0 {
      hide Pnl;
      CloseRowsAre(lots[i := Reduced(lots[i], f, qty)], queue[1..], f, remaining - qty, k - 1);
    }
  }

  /** A strategy's fill touches no lot of another strategy, symbol or side, and its closes and the lot it may
      open are its own strategy's. */
  lemma StrategyFillStaysHome(lots: seq<Lot>, f: LotFill, s: StrategyId)
    requires f.strategy == Some(s)
    ensures var after, closes := LotsAfter(lots, f), WalkOf(lots, f).closes;
            && (forall i :: 0 <= i < |lots| && (lots[i].strategy != Some(s) || lots[i].symbol != f.symbol || lots[i].side == f.side)
                  ==> after[i] == lots[i])
            && (forall i :: |lots| <= i < |after| ==> after[i].strategy == Some(s))
            && (forall k :: 0 <= k < |closes| ==> closes[k].strategy == Some(s) && closes[k].lot < |lots|
                                                  && lots[closes[k].lot].strategy == Some(s))
  {
    hide Consume, OpenLots;
    var after, closes := LotsAfter(lots, f), WalkOf(lots, f).closes;
    forall i | 0 <= i < |lots| && (lots[i].strategy != Some(s) || lots[i].symbol != f.symbol || lots[i].side == f.side)
      ensures after[i] == lots[i]
    {
      IneligibleIsUntouched(lots, f, i);
    }
    QueueIsEligible(lots, f);
    forall k | 0 <= k < |closes|
      ensures closes[k].lot < |lots| && closes[k].strategy == Some(s) && lots[closes[k].lot].strategy == Some(s)
    {
      CloseRowsAre(lots, OpenLots(lots, f, |lots|), f, f.qty, k);
    }
  }

  /** A fill without a strategy opens nothing, touches no lot of another symbol or of its own side, nor one
      opened after it printed, and books each close on its lot's own strategy. */
  lemma LiquidationStaysInThePast(lots: seq<Lot>, f: LotFill)
    requires f.strategy.None?
    ensures var after, closes := LotsAfter(lots, f), WalkOf(lots, f).closes;
            && |after| == |lots|
            && (forall i :: 0 <= i < |lots| && (lots[i].symbol != f.symbol || lots[i].side == f.side || lots[i].openedAt > f.at)
                  ==> after[i] == lots[i])
            && (forall k :: 0 <= k < |closes| ==> closes[k].lot < |lots| && lots[closes[k].lot].openedAt <= f.at
                                                  && closes[k].strategy == lots[closes[k].lot].strategy)
  {
    hide Consume, OpenLots;
    var after, closes := LotsAfter(lots, f), WalkOf(lots, f).closes;
    forall i | 0 <= i < |lots| && (lots[i].symbol != f.symbol || lots[i].side == f.side || lots[i].openedAt > f.at)
      ensures after[i] == lots[i]
    {
      IneligibleIsUntouched(lots, f, i);
    }
    QueueIsEligible(lots, f);
    forall k | 0 <= k < |closes|
      ensures closes[k].lot < |lots| && lots[closes[k].lot].openedAt <= f.at && closes[k].strategy == lots[closes[k].lot].strategy
    {
      CloseRowsAre(lots, OpenLots(lots, f, |lots|), f, f.qty, k);
    }
  }

  // ── What a fill does reach, and in which order ───────────────────

  /** The fill's scope: opposite lots of its symbol, of its own strategy or else of its past. */
  ghost predicate Reaches(f: LotFill, lot: Lot) {
    && lot.symbol == f.symbol && lot.side != f.side
    && (f.strategy.Some? ==> lot.strategy == f.strategy)
    && (f.strategy.None? ==> lot.openedAt <= f.at)
  }

  /** If the fill finds too few lots, every lot in its reach is used up. */
  lemma LeftoverUsesUpTheScope(lots: seq<Lot>, f: LotFill, i: nat)
    requires WalkOf(lots, f).remaining > 0.0
    requires i < |lots| && Reaches(f, lots[i]) && lots[i].qtyOpen > 0.0
    ensures WalkOf(lots, f).lots[i].qtyOpen == 0.0 && WalkOf(lots, f).lots[i].closedAt == Some(f.at)
  {
    var queue := OpenLots(lots, f, |lots|);
    var k := EligibleIsQueued(lots, f, |lots|, i);
    QueryIsQueue(lots, f);
    LeftoverMeansExhausted(lots, queue, f, f.qty);
    UsedUpIsStamped(lots, queue, f, f.qty, i);
  }

  lemma {:induction false} UsedUpIsStamped(lots: seq<Lot>, queue: seq<nat>, f: LotFill, remaining: real, i: nat)
    requires InRange(queue, |lots|) && Distinct(queue) && i < |lots| && lots[i].qtyOpen > 0.0
    ensures var now := Consume(lots, queue, f, remaining).lots[i];
            now.qtyOpen == 0.0 ==> now.closedAt == Some(f.at)
    decreases |queue|
  {
    if queue != [] && remaining > 0.0 {
      var j, rest := queue[0], queue[1..];
      var qty := Min(lots[j].qtyOpen, remaining);
      var next := lots[j := Reduced(lots[j], f, qty)];
      if i == j {
        assert i !in rest;
        ConsumeFrames(next, rest, f, remaining - qty, i);
      } else {
        UsedUpIsStamped(next, rest, f, remaining - qty, i);
      }
    }
  }

  /** A queued lot is touched only if every lot queued ahead of it is used up. */
  lemma {:induction false} AheadIsUsedUp(lots: seq<Lot>, queue: seq<nat>, f: LotFill, remaining: real, j: nat, k: nat)
    requires InRange(queue, |lots|) && Distinct(queue) && AllOpen(lots, queue) && j < k < |queue|
    requires Consume(lots, queue, f, remaining).lots[queue[k]] != lots[queue[k]]
    ensures Consume(lots, queue, f, remaining).lots[queue[j]].qtyOpen == 0.0
    decreases |queue|
  {
    if remaining > 0.0 {
      var i, rest := queue[0], queue[1..];
      var qty := Min(lots[i].qtyOpen, remaining);
      var next := lots[i := Reduced(lots[i], f, qty)];
      assert forall m :: 0 <= m < |rest| ==> rest[m] != i;
      if j == 0 {
        ConsumeFrames(next, rest, f, remaining - qty, i);
      } else {
        AheadIsUsedUp(next, rest, f, remaining - qty, j - 1, k - 1);
      }
    }
  }

  /** First in, first out, over the rows themselves: a lot is touched only when every older lot in the fill's
      reach is used up; ties go by the row's creation and then by its key. */
  lemma OlderGoFirst(lots: seq<Lot>, f: LotFill, i: nat, j: nat)
    requires i < |lots| && Reaches(f, lots[i]) && lots[i].qtyOpen > 0.0
    requires j < |lots| && WalkOf(lots, f).lots[j] != lots[j]
    requires || lots[i].openedAt < lots[j].openedAt
             || (lots[i].openedAt == lots[j].openedAt
                 && (|| lots[i].stamp.createdAt < lots[j].stamp.createdAt
                     || (lots[i].stamp.createdAt == lots[j].stamp.createdAt && lots[i].stamp.uuid < lots[j].stamp.uuid)))
    ensures WalkOf(lots, f).lots[i].qtyOpen == 0.0
  {
    var queue := OpenLots(lots, f, |lots|);
    if !Eligible(lots[j], f) {
      IneligibleIsUntouched(lots, f, j);
    }
    assert Before(lots[i], lots[j]);
    var a := EligibleIsQueued(lots, f, |lots|, i);
    var b := EligibleIsQueued(lots, f, |lots|, j);
    assert queue[a] == i && queue[b] == j;
    QueueIsEligible(lots, f);
    AheadIsUsedUp(lots, queue, f, f.qty, a, b);
  }

  // ── Strategies do not see each other ─────────────────────────────

  /** Two tables with the same rows wherever the fill could reach. */
  ghost predicate SameInReach(f: LotFill, lots: seq<Lot>, other: seq<Lot>) {
    && |lots| == |other|
    && forall i :: 0 <= i < |lots| ==> lots[i] == other[i] || (!Reaches(f, lots[i]) && !Reaches(f, other[i]))
  }

  lemma {:induction false} SameQuery(f: LotFill, lots: seq<Lot>, other: seq<Lot>, n: nat)
    requires SameInReach(f, lots, other) && n <= |lots|
    ensures OpenLots(lots, f, n) == OpenLots(other, f, n)
    ensures forall k :: 0 <= k < |OpenLots(lots, f, n)| ==> lots[OpenLots(lots, f, n)[k]] == other[OpenLots(lots, f, n)[k]]
  {
    hide Before, Distinct, OldestFirst, Insert;
    if n > 0 {
      SameQuery(f, lots, other, n - 1);
      if Eligible(lots[n - 1], f) {
        SameInsert(lots, other, OpenLots(lots, f, n - 1), n - 1);
      }
    }
  }

  lemma SameInsert(lots: seq<Lot>, other: seq<Lot>, queue: seq<nat>, i: nat)
    requires |lots| == |other| && i < |lots| && InRange(queue, i) && lots[i] == other[i]
    requires forall k :: 0 <= k < |queue| ==> lots[queue[k]] == other[queue[k]]
    ensures Insert(lots, queue, i) == Insert(other, queue, i)
    ensures forall k :: 0 <= k < |Insert(lots, queue, i)| ==> lots[Insert(lots, queue, i)[k]] == other[Insert(lots, queue, i)[k]]
  {
    hide Before, InsertionPoint;
    SameInsertion(lots, other, queue, i);
  }

  lemma {:induction false} SameInsertion(lots: seq<Lot>, other: seq<Lot>, queue: seq<nat>, i: nat)
    requires |lots| == |other| && i < |lots| && InRange(queue, |lots|) && lots[i] == other[i]
    requires forall k :: 0 <= k < |queue| ==> lots[queue[k]] == other[queue[k]]
    ensures InsertionPoint(lots, queue, i) == InsertionPoint(other, queue, i)
  {
    hide Before;
    if queue != [] {
      SameInsertion(lots, other, queue[1..], i);
    }
  }

  lemma {:induction false} SameWalk(f: LotFill, lots: seq<Lot>, other: seq<Lot>, queue: seq<nat>, remaining: real)
    requires |lots| == |other| && InRange(queue, |lots|)
    requires forall k :: 0 <= k < |queue| ==> lots[queue[k]] == other[queue[k]]
    ensures var one, two := Consume(lots, queue, f, remaining), Consume(other, queue, f, remaining);
            && one.closes == two.closes && one.remaining == two.remaining
            && forall i :: 0 <= i < |lots| && lots[i] == other[i] ==> one.lots[i] == two.lots[i]
    decreases |queue|
  {
    if queue != [] && remaining > 0.0 {
      var i := queue[0];
      var qty := Min(lots[i].qtyOpen, remaining);
      hide Reduced, CloseOf;
      SameWalk(f, lots[i := Reduced(lots[i], f, qty)], other[i := Reduced(other[i], f, qty)], queue[1..], remaining - qty);
    }
  }

  /** Whatever else the table holds, a fill closes the same lots by the same amounts and opens or parks the
      same rest: other strategies' lots, and for a liquidation lots from after it, make no difference. */
  lemma OutOfReachMakesNoDifference(f: LotFill, lots: seq<Lot>, other: seq<Lot>)
    requires SameInReach(f, lots, other)
    ensures var one, two := WalkOf(lots, f), WalkOf(other, f);
            && one.closes == two.closes && one.remaining == two.remaining
            && forall i :: 0 <= i < |lots| && lots[i] == other[i] ==> one.lots[i] == two.lots[i]
  {
    hide OpenLots, Consume;
    SameQuery(f, lots, other, |lots|);
    SameWalk(f, lots, other, OpenLots(lots, f, |lots|), f.qty);
  }
}
