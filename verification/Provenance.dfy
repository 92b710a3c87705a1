/** Where every lot, close and parked remainder comes from: one fill, read with its order's row. */
module Provenance {
  import opened Domain
  import opened Sums
  import opened Tables
  import opened Lots
  import opened Fifo
  import opened FifoSplit
  import opened LotAccounting
  import opened FillLedger
  import opened FillScope
  import opened Positions
  import opened Remainders
  import opened TradeUpdates
  import opened Books

  // ── One fill, by its order's strategy ────────────────────────────

  /** A fill of a strategy's order parks nothing and opens what it could not close as the strategy's own lot; a
      fill of an order without a strategy opens none and parks exactly what it could not close. */
  lemma FillActsForItsOrder(db: Db, fill: Fill, stamp: Stamp, applyPosition: bool)
    requires fill.order < |db.orders| && fill.qty > 0.0
    ensures var row, now := db.orders[fill.order], InsertFill(db, fill, stamp, applyPosition);
            var more, closed := now.lots[|db.lots|..], Sum(now.closes[|db.closes|..], CloseQty());
            && |db.lots| <= |now.lots| && |db.closes| <= |now.closes| && db.closes <= now.closes
            && (row.strategy.Some? ==>
                  && now.events == db.events
                  && more == if closed < fill.qty
                             then [Lot(row.strategy, row.symbol, row.side, fill.qty - closed, fill.qty - closed, fill.price,
                                       Some(|db.fills|), fill.at, stamp, None, 0.0)]
                             else [])
            && (row.strategy.None? ==>
                  && more == []
                  && now.events == db.events + if closed < fill.qty
                                               then [Parked(Remainder(row.symbol, row.side, fill.qty - closed, fill.price, fill.at,
                                                                      Some(fill.order), Some(|db.fills|)), None)]
                                               else [])
  {
    hide Consume, OpenLots, ApplyToPosition;
    var row := db.orders[fill.order];
    var f := LotFillOf(row, fill.order, |db.fills|, fill, stamp);
    var now := InsertFill(db, fill, stamp, applyPosition);
    assert now.closes[|db.closes|..] == WalkOf(db.lots, f).closes;
    ConsumedQty(db.lots, OpenLots(db.lots, f, |db.lots|), f, f.qty);
    RemainingIsShortfall(db.lots, f);
  }

  // ── Every row is explained ───────────────────────────────────────

  /** The fill a row names, with its order's row. */
  ghost predicate Names(orders: seq<Order>, fills: seq<Fill>, fill: Option<nat>) {
    fill.Some? && fill.value < |fills| && fills[fill.value].order < |orders|
  }

  /** A lot is the unmatched part of a strategy's fill. */
  ghost predicate LotExplained(orders: seq<Order>, fills: seq<Fill>, lot: Lot) {
    && Names(orders, fills, lot.entryFill)
    && var fill := fills[lot.entryFill.value];
       var row := orders[fill.order];
       && row.strategy.Some? && lot.strategy == row.strategy && lot.symbol == row.symbol && lot.side == row.side
       && lot.entryPrice == fill.price && lot.openedAt == fill.at && lot.qtyOrig <= fill.qty
  }

  /** A close is part of an opposite fill in the lot's own strategy, or of a liquidation the lot was open for. */
  ghost predicate CloseExplained(orders: seq<Order>, fills: seq<Fill>, lots: seq<Lot>, c: LotClose) {
    && Names(orders, fills, c.fill) && c.lot < |lots|
    && var fill, lot := fills[c.fill.value], lots[c.lot];
       var row := orders[fill.order];
       && c.order == Some(fill.order) && c.closedAt == fill.at
       && c.symbol == row.symbol == lot.symbol && row.side == Opposite(lot.side)
       && c.strategy == lot.strategy
       && (row.strategy.Some? ==> lot.strategy == row.strategy)
       && (row.strategy.None? ==> lot.openedAt <= fill.at)
       && c.realizedPnl == Signed(lot.side, fill.price - lot.entryPrice) * c.qty
  }

  /** Only a liquidation parks, and what it parks keeps its fill's terms. */
  ghost predicate ParkedExplained(orders: seq<Order>, fills: seq<Fill>, what: Remainder) {
    && Names(orders, fills, what.fill)
    && var fill := fills[what.fill.value];
       var row := orders[fill.order];
       && row.strategy.None? && what.symbol == row.symbol && what.side == row.side
       && what.order == Some(fill.order) && what.price == fill.price && what.at == fill.at && 0.0 < what.qty <= fill.qty
  }

  ghost predicate LotsExplained(db: Db) {
    forall i :: 0 <= i < |db.lots| ==> LotExplained(db.orders, db.fills, db.lots[i])
  }

  ghost predicate ClosesExplained(db: Db) {
    forall k :: 0 <= k < |db.closes| ==> CloseExplained(db.orders, db.fills, db.lots, db.closes[k])
  }

  ghost predicate ParkedAreExplained(db: Db) {
    forall n :: 0 <= n < |db.events| && db.events[n].Parked? ==> ParkedExplained(db.orders, db.fills, db.events[n].what)
  }

  ghost predicate Explained(db: Db) {
    LotsExplained(db) && ClosesExplained(db) && ParkedAreExplained(db)
  }

  // ── ... and stays so ─────────────────────────────────────────────

  /** Rows are only added, order rows keep strategy, symbol and side, and lots keep what was opened. */
  ghost predicate Extends(was: Db, now: Db) {
    && SameInstruments(was.orders, now.orders) && was.fills <= now.fills
    && |was.lots| <= |now.lots| && Later(was.lots, now.lots[..|was.lots|])
  }

  lemma NamesStay(was: Db, now: Db, fill: Option<nat>)
    requires Extends(was, now) && Names(was.orders, was.fills, fill)
    ensures Names(now.orders, now.fills, fill) && now.fills[fill.value] == was.fills[fill.value]
    ensures var o := was.fills[fill.value].order;
            && now.orders[o].strategy == was.orders[o].strategy
            && now.orders[o].symbol == was.orders[o].symbol && now.orders[o].side == was.orders[o].side
  {
  }

  lemma LotStaysExplained(was: Db, now: Db, i: nat)
    requires Extends(was, now) && i < |was.lots| && LotExplained(was.orders, was.fills, was.lots[i])
    ensures LotExplained(now.orders, now.fills, now.lots[i])
  {
    NamesStay(was, now, was.lots[i].entryFill);
    assert now.lots[..|was.lots|][i] == now.lots[i];
  }

  lemma CloseStaysExplained(was: Db, now: Db, c: LotClose)
    requires Extends(was, now) && CloseExplained(was.orders, was.fills, was.lots, c)
    ensures CloseExplained(now.orders, now.fills, now.lots, c)
  {
    NamesStay(was, now, c.fill);
    assert now.lots[..|was.lots|][c.lot] == now.lots[c.lot];
  }

  lemma ParkedStaysExplained(was: Db, now: Db, what: Remainder)
    requires Extends(was, now) && ParkedExplained(was.orders, was.fills, what)
    ensures ParkedExplained(now.orders, now.fills, what)
  {
    NamesStay(was, now, what.fill);
  }

  /** New rows only have to be explained themselves. */
  lemma MoreRowsExplained(was: Db, now: Db)
    requires Explained(was) && Extends(was, now) && was.closes <= now.closes && was.events <= now.events
    requires forall i :: |was.lots| <= i < |now.lots| ==> LotExplained(now.orders, now.fills, now.lots[i])
    requires forall k :: |was.closes| <= k < |now.closes| ==> CloseExplained(now.orders, now.fills, now.lots, now.closes[k])
    requires forall n :: |was.events| <= n < |now.events| && now.events[n].Parked? ==>
               ParkedExplained(now.orders, now.fills, now.events[n].what)
    ensures Explained(now)
  {
    hide Extends, LotExplained, CloseExplained, ParkedExplained;
    forall i | 0 <= i < |was.lots| ensures i < |now.lots| && LotExplained(now.orders, now.fills, now.lots[i]) {
      LotsStay(was, now);
      LotStaysExplained(was, now, i);
    }
    forall k | 0 <= k < |was.closes| ensures CloseExplained(now.orders, now.fills, now.lots, now.closes[k]) {
      CloseStaysExplained(was, now, was.closes[k]);
    }
    forall n | 0 <= n < |was.events| && was.events[n].Parked? ensures ParkedExplained(now.orders, now.fills, now.events[n].what) {
      ParkedStaysExplained(was, now, was.events[n].what);
    }
  }

  lemma LotsStay(was: Db, now: Db)
    requires Extends(was, now)
    ensures |was.lots| <= |now.lots|
  {
  }

  lemma OrdersKeepExplained(db: Db, orders: seq<Order>)
    requires Explained(db) && SameInstruments(db.orders, orders)
    ensures Explained(db.(orders := orders))
  {
    hide Explained;
    LaterItself(db.lots);
    assert db.lots[..|db.lots|] == db.lots;
    MoreRowsExplained(db, db.(orders := orders));
  }

  // ── One application ──────────────────────────────────────────────

  /** The engine's view of a fill is the fill's, and its order row's. */
  ghost predicate Speaks(orders: seq<Order>, fills: seq<Fill>, f: LotFill) {
    && Names(orders, fills, f.fill)
    && var fill := fills[f.fill.value];
       var row := orders[fill.order];
       && f.strategy == row.strategy && f.symbol == row.symbol && f.side == row.side
       && f.order == Some(fill.order) && f.price == fill.price && f.at == fill.at && f.qty <= fill.qty
  }

  lemma WalkExtends(lots: seq<Lot>, f: LotFill)
    ensures Later(lots, LotsAfter(lots, f)[..|lots|])
  {
    ClosesMatchLots(lots, OpenLots(lots, f, |lots|), f, f.qty);
    assert LotsAfter(lots, f)[..|lots|] == WalkOf(lots, f).lots;
  }

  lemma NewCloseExplained(orders: seq<Order>, fills: seq<Fill>, lots: seq<Lot>, f: LotFill, k: nat)
    requires Speaks(orders, fills, f) && k < |WalkOf(lots, f).closes|
    ensures CloseExplained(orders, fills, LotsAfter(lots, f), WalkOf(lots, f).closes[k])
  {
    var queue, c, after := OpenLots(lots, f, |lots|), WalkOf(lots, f).closes[k], LotsAfter(lots, f);
    CloseRowsAre(lots, queue, f, f.qty, k);
    QueueIsEligible(lots, f);
    WalkExtends(lots, f);
    hide Consume, OpenLots;
    assert after[..|lots|][c.lot] == after[c.lot];
  }

  /** What is left to open or park is no more than the fill. */
  lemma LeftoverFits(lots: seq<Lot>, f: LotFill)
    requires f.qty >= 0.0
    ensures WalkOf(lots, f).remaining <= f.qty && Unapplied(lots, f) <= f.qty
  {
    hide WalkOf;
    RemainingIsShortfall(lots, f);
    SumIsNonNegative(lots, EligibleQty(f));
  }

  lemma NewLotExplained(orders: seq<Order>, fills: seq<Fill>, lots: seq<Lot>, f: LotFill)
    requires Speaks(orders, fills, f) && f.qty >= 0.0
    ensures forall i :: |lots| <= i < |LotsAfter(lots, f)| ==> LotExplained(orders, fills, LotsAfter(lots, f)[i])
  {
    hide WalkOf;
    LeftoverFits(lots, f);
  }

  lemma ApplyExplained(db: Db, f: LotFill, more: seq<Event>)
    requires Explained(db) && Speaks(db.orders, db.fills, f) && f.qty >= 0.0
    requires forall n :: 0 <= n < |more| && more[n].Parked? ==> ParkedExplained(db.orders, db.fills, more[n].what)
    ensures var now := db.(lots := LotsAfter(db.lots, f), closes := db.closes + WalkOf(db.lots, f).closes, events := db.events + more);
            Explained(now)
  {
    var now := db.(lots := LotsAfter(db.lots, f), closes := db.closes + WalkOf(db.lots, f).closes, events := db.events + more);
    hide Explained, Speaks, LotExplained, CloseExplained, ParkedExplained, Later;
    WalkExtends(db.lots, f);
    NewLotExplained(db.orders, db.fills, db.lots, f);
    forall k | |db.closes| <= k < |now.closes| ensures CloseExplained(now.orders, now.fills, now.lots, now.closes[k]) {
      NewCloseExplained(db.orders, db.fills, db.lots, f, k - |db.closes|);
    }
    hide LotsAfter, WalkOf;
    MoreRowsExplained(db, now);
  }

  lemma InsertKeepsExplained(db: Db, fill: Fill, stamp: Stamp, applyPosition: bool)
    requires Explained(db) && fill.order < |db.orders| && fill.qty > 0.0
    ensures Explained(InsertFill(db, fill, stamp, applyPosition))
  {
    var row := db.orders[fill.order];
    var f := LotFillOf(row, fill.order, |db.fills|, fill, stamp);
    var longer := db.(fills := db.fills + [fill]);
    assert longer.fills[|db.fills|] == fill;
    assert Speaks(longer.orders, longer.fills, f);
    assert Explained(longer) by { FillsKeepExplained(db, fill); }
    hide Explained, LotExplained, CloseExplained, WalkOf, LotsAfter, ApplyToPosition;
    var parked := Unapplied(db.lots, f);
    LeftoverFits(db.lots, f);
    assert longer.fills[|db.fills|] == fill;
    var more := if parked > 0.0 then [Parked(RemainderOf(f, parked), None)] else [];
    ApplyExplained(longer, f, more);
    assert longer.events + [] == longer.events;
    PositionsKeepExplained(longer.(lots := LotsAfter(db.lots, f), closes := db.closes + WalkOf(db.lots, f).closes, events := db.events + more),
                           InsertFill(db, fill, stamp, applyPosition).positions);
  }

  lemma FillsKeepExplained(db: Db, fill: Fill)
    requires Explained(db)
    ensures Explained(db.(fills := db.fills + [fill]))
  {
    hide Explained;
    LaterItself(db.lots);
    assert db.lots[..|db.lots|] == db.lots;
    MoreRowsExplained(db, db.(fills := db.fills + [fill]));
  }

  lemma PositionsKeepExplained(db: Db, positions: map<Symbol, Position>)
    requires Explained(db)
    ensures Explained(db.(positions := positions))
  {
  }

  // ── A retry pass ─────────────────────────────────────────────────

  /** What a companion row re-parks keeps its anomaly's terms. */
  lemma CompanionsExplained(db: Db, past: seq<Event>, i: nat)
    requires i < |past| && past[i].Parked? && ParkedExplained(db.orders, db.fills, past[i].what)
    ensures var more := Companions(db.lots, past, i);
            forall n :: 0 <= n < |more| && more[n].Parked? ==> ParkedExplained(db.orders, db.fills, more[n].what)
  {
    hide WalkOf, Unapplied, ClosedBy;
    LeftoverFits(db.lots, RetryFill(past[i].what));
  }

  lemma RetryKeepsExplained(db: Db, past: seq<Event>, i: nat)
    requires Explained(db) && i < |past| <= |db.events| && past[i] == db.events[i]
    ensures Explained(RetryOne(db, past, i)) && db.events <= RetryOne(db, past, i).events
  {
    hide LotsExplained, ClosesExplained, WalkOf, LotsAfter, Companions;
    if IsOpen(past, i) {
      var what := past[i].what;
      assert ParkedExplained(db.orders, db.fills, what);
      CompanionsExplained(db, past, i);
      assert Speaks(db.orders, db.fills, RetryFill(what));
      hide ParkedExplained, ParkedAreExplained, Speaks;
      ApplyExplained(db, RetryFill(what), Companions(db.lots, past, i));
    }
  }

  lemma {:induction false} PassKeepsExplained(db: Db, n: nat)
    requires Explained(db) && n <= |db.events|
    ensures Explained(RetryPass(db, db.events, n)) && db.events <= RetryPass(db, db.events, n).events
  {
    hide Explained, RetryOne;
    if n > 0 {
      PassKeepsExplained(db, n - 1);
      RetryKeepsExplained(RetryPass(db, db.events, n - 1), db.events, n - 1);
    }
  }
}
