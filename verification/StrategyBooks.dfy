/** The books strategy by strategy: its lots are its own orders' fills and what liquidations closed of them. */
module StrategyBooks {
  import opened Domain
  import opened Sums
  import opened Tables
  import opened Lots
  import opened Fifo
  import opened LotAccounting
  import opened FillLedger
  import opened FillScope
  import opened Positions
  import opened Remainders
  import opened TradeUpdates
  import opened Books
  import opened DbRuns
  import opened Provenance

  // ── One application, per strategy ────────────────────────────────

  /** The closes booked on one strategy in one symbol, signed as the fill that made them. */
  function ClosedOf(strategy: StrategyId, symbol: Symbol, side: Side): LotClose -> real {
    (c: LotClose) => if c.strategy == Some(strategy) && c.symbol == symbol then Signed(side, c.qty) else 0.0
  }

  /** Every queued lot is the one strategy's. */
  ghost predicate AllOf(lots: seq<Lot>, queue: seq<nat>, strategy: Option<StrategyId>)
    requires InRange(queue, |lots|)
  {
    forall k :: 0 <= k < |queue| ==> lots[queue[k]].strategy == strategy
  }

  lemma TakeMovesNet(lots: seq<Lot>, i: nat, f: LotFill, qty: real, strategy: StrategyId, symbol: Symbol)
    requires Takes(lots, i, f, qty)
    ensures Sum(lots[i := Reduced(lots[i], f, qty)], NetIn(strategy, symbol)) ==
            Sum(lots, NetIn(strategy, symbol)) + ClosedOf(strategy, symbol, f.side)(CloseOf(i, lots[i], f, qty))
  {
    hide Pnl, Sum;
    SumUpdate(lots, i, Reduced(lots[i], f, qty), NetIn(strategy, symbol));
  }

  /** Consuming moves a strategy's net by what is closed of it. */
  lemma {:induction false} ConsumeMovesNet(lots: seq<Lot>, queue: seq<nat>, f: LotFill, remaining: real, strategy: StrategyId, symbol: Symbol)
    requires InRange(queue, |lots|) && QueueOf(lots, queue, f)
    ensures var w := Consume(lots, queue, f, remaining);
            Sum(w.lots, NetIn(strategy, symbol)) == Sum(lots, NetIn(strategy, symbol)) + Sum(w.closes, ClosedOf(strategy, symbol, f.side))
    decreases |queue|
  {
    hide Pnl, Reduced, CloseOf, NetIn, ClosedOf;
    if queue != [] && remaining > 0.0 {
      var i, rest := queue[0], queue[1..];
      var qty := Min(lots[i].qtyOpen, remaining);
      var next, close := lots[i := Reduced(lots[i], f, qty)], CloseOf(i, lots[i], f, qty);
      assert QueueOf(next, rest, f);
      hide Sum, QueueOf;
      TakeMovesNet(lots, i, f, qty, strategy, symbol);
      ConsumeMovesNet(next, rest, f, remaining - qty, strategy, symbol);
      SumPrepend(close, Consume(next, rest, f, remaining - qty).closes, ClosedOf(strategy, symbol, f.side));
    }
  }

  /** From one strategy's lots alone, what is closed of it is all that is consumed. */
  lemma {:induction false} OwnLotsCloseAll(lots: seq<Lot>, queue: seq<nat>, f: LotFill, remaining: real, strategy: StrategyId, symbol: Symbol)
    requires InRange(queue, |lots|) && QueueOf(lots, queue, f) && AllOf(lots, queue, Some(strategy))
    ensures var w := Consume(lots, queue, f, remaining);
            Sum(w.closes, ClosedOf(strategy, symbol, f.side)) == Moved(f, remaining - w.remaining, symbol)
    decreases |queue|
  {
    hide Pnl, Reduced, Moved;
    PartsAdd(f, 0.0, 0.0, symbol);
    if queue != [] && remaining > 0.0 {
      var i, rest := queue[0], queue[1..];
      var qty := Min(lots[i].qtyOpen, remaining);
      var next, close := lots[i := Reduced(lots[i], f, qty)], CloseOf(i, lots[i], f, qty);
      assert QueueOf(next, rest, f) && AllOf(next, rest, Some(strategy));
      assert ClosedOf(strategy, symbol, f.side)(close) == Moved(f, qty, symbol) by { CloseCounts(i, lots[i], f, qty, strategy, symbol); }
      hide Sum, QueueOf, AllOf, ClosedOf, CloseOf;
      OwnLotsCloseAll(next, rest, f, remaining - qty, strategy, symbol);
      var w := Consume(next, rest, f, remaining - qty);
      SumPrepend(close, w.closes, ClosedOf(strategy, symbol, f.side));
      PartsAdd(f, qty, remaining - qty - w.remaining, symbol);
    }
  }

  lemma CloseCounts(i: nat, lot: Lot, f: LotFill, qty: real, strategy: StrategyId, symbol: Symbol)
    requires lot.strategy == Some(strategy)
    ensures ClosedOf(strategy, symbol, f.side)(CloseOf(i, lot, f, qty)) == Moved(f, qty, symbol)
  {
  }

  /** A strategy's fill moves its own net by the whole signed quantity, and no other strategy's. */
  lemma StrategyFillMovesNet(lots: seq<Lot>, f: LotFill, owner: StrategyId, strategy: StrategyId, symbol: Symbol)
    requires f.strategy == Some(owner) && f.qty >= 0.0
    ensures Sum(LotsAfter(lots, f), NetIn(strategy, symbol)) ==
            Sum(lots, NetIn(strategy, symbol)) + if strategy == owner then Moved(f, f.qty, symbol) else 0.0
  {
    hide Moved, NetIn, ClosedOf, Consume, OpenLots, QueueOf;
    var queue, w := OpenLots(lots, f, |lots|), WalkOf(lots, f);
    QueryIsQueue(lots, f);
    assert AllOf(lots, queue, Some(owner)) by { QueueIsEligible(lots, f); }
    hide AllOf;
    ConsumeMovesNet(lots, queue, f, f.qty, strategy, symbol);
    RemainingIsShortfall(lots, f);
    if strategy == owner {
      OwnLotsCloseAll(lots, queue, f, f.qty, strategy, symbol);
    } else {
      StrategyFillStaysHome(lots, f, owner);
      NoneClosed(w.closes, strategy, symbol, f.side);
    }
    if w.remaining > 0.0 {
      var lot := NewLot(f, w.remaining);
      SumAppend(w.lots, lot, NetIn(strategy, symbol));
      NewLotNet(f, w.remaining, strategy, symbol);
      PartsAdd(f, f.qty - w.remaining, w.remaining, symbol);
    }
  }

  lemma NewLotNet(f: LotFill, qty: real, strategy: StrategyId, symbol: Symbol)
    requires qty > 0.0
    ensures NetIn(strategy, symbol)(NewLot(f, qty)) == if f.strategy == Some(strategy) then Moved(f, qty, symbol) else 0.0
  {
  }

  lemma NoneClosed(closes: seq<LotClose>, strategy: StrategyId, symbol: Symbol, side: Side)
    requires forall k :: 0 <= k < |closes| ==> closes[k].strategy != Some(strategy)
    ensures Sum(closes, ClosedOf(strategy, symbol, side)) == 0.0
  {
    SumIsZero(closes, ClosedOf(strategy, symbol, side));
  }

  /** A fill without a strategy moves each strategy's net by what it closed of it. */
  lemma LiquidationMovesNet(lots: seq<Lot>, f: LotFill, strategy: StrategyId, symbol: Symbol)
    requires f.strategy.None?
    ensures Sum(LotsAfter(lots, f), NetIn(strategy, symbol)) ==
            Sum(lots, NetIn(strategy, symbol)) + Sum(WalkOf(lots, f).closes, ClosedOf(strategy, symbol, f.side))
  {
    QueryIsQueue(lots, f);
    ConsumeMovesNet(lots, OpenLots(lots, f, |lots|), f, f.qty, strategy, symbol);
  }

  // ── What the order rows, the fills and the closes say ────────────

  predicate IsOrderOf(orders: seq<Order>, o: nat, strategy: Option<StrategyId>) {
    o < |orders| && orders[o].strategy == strategy
  }

  /** The signed fills of one strategy's orders in one symbol; `None` for the liquidations'. */
  function FilledFor(orders: seq<Order>, strategy: Option<StrategyId>, symbol: Symbol): Fill -> real {
    (f: Fill) => if IsOrderOf(orders, f.order, strategy) && orders[f.order].symbol == symbol
                 then Signed(orders[f.order].side, f.qty) else 0.0
  }

  predicate ClosedByLiquidation(orders: seq<Order>, c: LotClose) {
    c.order.Some? && IsOrderOf(orders, c.order.value, None)
  }

  /** What liquidations closed in one symbol, of one strategy or of all. */
  function LiquidatedOf(orders: seq<Order>, strategy: StrategyId, symbol: Symbol): LotClose -> real {
    (c: LotClose) => if ClosedByLiquidation(orders, c) && c.strategy == Some(strategy) && c.symbol == symbol
                     then Signed(orders[c.order.value].side, c.qty) else 0.0
  }

  function Liquidated(orders: seq<Order>, symbol: Symbol): LotClose -> real {
    (c: LotClose) => if ClosedByLiquidation(orders, c) && c.symbol == symbol
                     then Signed(orders[c.order.value].side, c.qty) else 0.0
  }

  // ── The invariant ────────────────────────────────────────────────

  /** A strategy's signed open lots are the signed fills of its orders plus what liquidations closed of it. */
  ghost predicate StrategyOk(db: Db, strategy: StrategyId, symbol: Symbol) {
    Sum(db.lots, NetIn(strategy, symbol)) ==
    Sum(db.fills, FilledFor(db.orders, Some(strategy), symbol)) + Sum(db.closes, LiquidatedOf(db.orders, strategy, symbol))
  }

  /** What liquidations filled is closed on some lot or still parked. */
  ghost predicate LiquidationOk(db: Db, symbol: Symbol) {
    Sum(db.fills, FilledFor(db.orders, None, symbol)) ==
    Sum(db.closes, Liquidated(db.orders, symbol)) + OpenTotal(db.events, ParkedSigned(symbol))
  }

  ghost predicate Attributed(db: Db) {
    && Explained(db)
    && (forall strategy, symbol :: StrategyOk(db, strategy, symbol))
    && (forall symbol :: LiquidationOk(db, symbol))
  }

  ghost predicate FullyOk(db: Db) {
    DbOk(db) && Attributed(db)
  }

  // ── What one application's closes count for ──────────────────────

  /** The fill is one of its order's, as the order's row says. */
  ghost predicate IsFillOf(orders: seq<Order>, f: LotFill) {
    && f.order.Some? && IsOrderOf(orders, f.order.value, f.strategy)
    && orders[f.order.value].symbol == f.symbol && orders[f.order.value].side == f.side
  }

  ghost predicate MadeBy(closes: seq<LotClose>, f: LotFill) {
    forall k :: 0 <= k < |closes| ==> closes[k].order == f.order && closes[k].symbol == f.symbol
  }

  lemma WalkMakes(lots: seq<Lot>, f: LotFill)
    ensures MadeBy(WalkOf(lots, f).closes, f)
  {
    forall k | 0 <= k < |WalkOf(lots, f).closes|
      ensures WalkOf(lots, f).closes[k].order == f.order && WalkOf(lots, f).closes[k].symbol == f.symbol
    {
      CloseRowsAre(lots, OpenLots(lots, f, |lots|), f, f.qty, k);
    }
  }

  /** No close of a strategy's fill counts as a liquidation's. */
  lemma StrategyClosesDoNotCount(orders: seq<Order>, closes: seq<LotClose>, f: LotFill, strategy: StrategyId, symbol: Symbol)
    requires IsFillOf(orders, f) && MadeBy(closes, f) && f.strategy.Some?
    ensures Sum(closes, LiquidatedOf(orders, strategy, symbol)) == 0.0
    ensures Sum(closes, Liquidated(orders, symbol)) == 0.0
  {
    SumIsZero(closes, LiquidatedOf(orders, strategy, symbol));
    SumIsZero(closes, Liquidated(orders, symbol));
  }

  /** Every close of a liquidation does. */
  lemma LiquidationClosesCount(orders: seq<Order>, closes: seq<LotClose>, f: LotFill, strategy: StrategyId, symbol: Symbol)
    requires IsFillOf(orders, f) && MadeBy(closes, f) && f.strategy.None?
    ensures Sum(closes, LiquidatedOf(orders, strategy, symbol)) == Sum(closes, ClosedOf(strategy, symbol, f.side))
    ensures Sum(closes, Liquidated(orders, symbol)) == Moved(f, Sum(closes, CloseQty()), symbol)
  {
    SumAgrees(closes, LiquidatedOf(orders, strategy, symbol), ClosedOf(strategy, symbol, f.side));
    QuantitiesAddUp(closes, f, Liquidated(orders, symbol), symbol);
  }

  lemma {:induction false} QuantitiesAddUp(closes: seq<LotClose>, f: LotFill, weight: LotClose -> real, symbol: Symbol)
    requires forall k :: 0 <= k < |closes| ==> weight(closes[k]) == Moved(f, closes[k].qty, symbol)
    ensures Sum(closes, weight) == Moved(f, Sum(closes, CloseQty()), symbol)
  {
    if closes != [] {
      QuantitiesAddUp(closes[..|closes| - 1], f, weight, symbol);
    }
  }

  // ── Inserting a fill ─────────────────────────────────────────────

  lemma FillCounts(orders: seq<Order>, fill: Fill, f: LotFill, strategy: Option<StrategyId>, symbol: Symbol)
    requires IsFillOf(orders, f) && f.order == Some(fill.order) && f.qty == fill.qty
    ensures FilledFor(orders, strategy, symbol)(fill) == if strategy == f.strategy then Moved(f, f.qty, symbol) else 0.0
  {
  }

  lemma InsertKeepsStrategy(db: Db, fill: Fill, f: LotFill, strategy: StrategyId, symbol: Symbol)
    requires IsFillOf(db.orders, f) && f.order == Some(fill.order) && f.qty == fill.qty > 0.0
    requires StrategyOk(db, strategy, symbol)
    ensures StrategyOk(ApplyFill(db.(fills := db.fills + [fill]), f, true), strategy, symbol)
  {
    hide WalkOf, LotsAfter, Moved, NetIn, FilledFor, LiquidatedOf, ClosedOf, IsFillOf, MadeBy;
    var closes := WalkOf(db.lots, f).closes;
    WalkMakes(db.lots, f);
    SumAppend(db.fills, fill, FilledFor(db.orders, Some(strategy), symbol));
    FillCounts(db.orders, fill, f, Some(strategy), symbol);
    SumConcat(db.closes, closes, LiquidatedOf(db.orders, strategy, symbol));
    if f.strategy.Some? {
      StrategyFillMovesNet(db.lots, f, f.strategy.value, strategy, symbol);
      StrategyClosesDoNotCount(db.orders, closes, f, strategy, symbol);
    } else {
      LiquidationMovesNet(db.lots, f, strategy, symbol);
      LiquidationClosesCount(db.orders, closes, f, strategy, symbol);
    }
  }

  /** What one liquidation closed and what it left over are the whole of it. */
  lemma LiquidationSplits(lots: seq<Lot>, f: LotFill, symbol: Symbol)
    requires f.strategy.None? && f.qty > 0.0
    ensures Moved(f, Sum(WalkOf(lots, f).closes, CloseQty()), symbol) + Moved(f, Unapplied(lots, f), symbol) == Moved(f, f.qty, symbol)
    ensures Unapplied(lots, f) >= 0.0
  {
    hide Moved, OpenLots, Consume, Sum, EligibleQty;
    var rest := WalkOf(lots, f).remaining;
    ConsumedQty(lots, OpenLots(lots, f, |lots|), f, f.qty);
    RemainingIsShortfall(lots, f);
    assert Unapplied(lots, f) == rest;
    PartsAdd(f, f.qty - rest, rest, symbol);
  }

  lemma InsertKeepsLiquidation(db: Db, fill: Fill, f: LotFill, symbol: Symbol)
    requires IsFillOf(db.orders, f) && f.order == Some(fill.order) && f.qty == fill.qty > 0.0
    requires Settled(db.events) && LiquidationOk(db, symbol)
    ensures LiquidationOk(ApplyFill(db.(fills := db.fills + [fill]), f, true), symbol)
  {
    hide WalkOf, LotsAfter, Moved, FilledFor, Liquidated, ParkedSigned, IsFillOf, MadeBy, LogOk, OpenTotal;
    var closes, parked := WalkOf(db.lots, f).closes, Unapplied(db.lots, f);
    WalkMakes(db.lots, f);
    SumAppend(db.fills, fill, FilledFor(db.orders, None, symbol));
    FillCounts(db.orders, fill, f, None, symbol);
    SumConcat(db.closes, closes, Liquidated(db.orders, symbol));
    PartsAdd(f, 0.0, 0.0, symbol);
    if f.strategy.Some? {
      StrategyClosesDoNotCount(db.orders, closes, f, 0, symbol);
    } else {
      LiquidationClosesCount(db.orders, closes, f, 0, symbol);
      LiquidationSplits(db.lots, f, symbol);
      if parked > 0.0 {
        OpenTotalAppend(db.events, Parked(RemainderOf(f, parked), None), ParkedSigned(symbol));
        ParkedMoves(f, parked, symbol);
      }
    }
  }

  lemma InsertKeepsAttributed(db: Db, fill: Fill, stamp: Stamp, applyPosition: bool)
    requires FullyOk(db) && CanInsert(db, fill)
    ensures Attributed(InsertFill(db, fill, stamp, applyPosition))
  {
    hide StrategyOk, LiquidationOk, Explained, BookOk, OneSided, LogOk, QuantityOk, MoneyOk, AttributionOk, FillsOk, LedgerOk, WalkOf, LotsAfter, ApplyToPosition;
    var row := db.orders[fill.order];
    var f := LotFillOf(row, fill.order, |db.fills|, fill, stamp);
    var now, after := ApplyFill(db.(fills := db.fills + [fill]), f, true), InsertFill(db, fill, stamp, applyPosition);
    assert IsFillOf(db.orders, f);
    InsertKeepsExplained(db, fill, stamp, applyPosition);
    forall strategy, symbol ensures StrategyOk(after, strategy, symbol) {
      InsertKeepsStrategy(db, fill, f, strategy, symbol);
      SameTables(now, after, strategy, symbol);
    }
    forall symbol ensures LiquidationOk(after, symbol) {
      InsertKeepsLiquidation(db, fill, f, symbol);
      SameTables(now, after, 0, symbol);
    }
  }

  /** The position rows do not enter the books. */
  lemma SameTables(db: Db, other: Db, strategy: StrategyId, symbol: Symbol)
    requires other == db.(positions := other.positions)
    ensures StrategyOk(other, strategy, symbol) == StrategyOk(db, strategy, symbol)
    ensures LiquidationOk(other, symbol) == LiquidationOk(db, symbol)
  {
  }

  // ── Retrying ─────────────────────────────────────────────────────

  lemma RetryKeepsStrategy(db: Db, past: seq<Event>, i: nat, strategy: StrategyId, symbol: Symbol)
    requires i < |past| && IsOpen(past, i) && IsFillOf(db.orders, RetryFill(past[i].what))
    requires StrategyOk(db, strategy, symbol)
    ensures StrategyOk(RetryOne(db, past, i), strategy, symbol)
  {
    hide WalkOf, LotsAfter, NetIn, FilledFor, LiquidatedOf, ClosedOf, IsFillOf, MadeBy, Companions;
    var f := RetryFill(past[i].what);
    WalkMakes(db.lots, f);
    LiquidationMovesNet(db.lots, f, strategy, symbol);
    LiquidationClosesCount(db.orders, WalkOf(db.lots, f).closes, f, strategy, symbol);
    SumConcat(db.closes, WalkOf(db.lots, f).closes, LiquidatedOf(db.orders, strategy, symbol));
  }

  lemma RetryKeepsLiquidation(db: Db, past: seq<Event>, i: nat, symbol: Symbol)
    requires i < |past| && IsOpen(past, i) && IsFillOf(db.orders, RetryFill(past[i].what)) && past[i].what.qty > 0.0
    requires Settled(db.events) && AsRead(db.events, past, i) && LiquidationOk(db, symbol)
    ensures LiquidationOk(RetryOne(db, past, i), symbol)
  {
    hide WalkOf, LotsAfter, Moved, FilledFor, Liquidated, ParkedSigned, IsFillOf, MadeBy, Companions, LogOk, OpenTotal, AsRead;
    var f := RetryFill(past[i].what);
    WalkMakes(db.lots, f);
    LiquidationClosesCount(db.orders, WalkOf(db.lots, f).closes, f, 0, symbol);
    SumConcat(db.closes, WalkOf(db.lots, f).closes, Liquidated(db.orders, symbol));
    LiquidationSplits(db.lots, f, symbol);
    PartsAdd(f, f.qty - Unapplied(db.lots, f), Unapplied(db.lots, f), symbol);
    CompanionsMove(db.events, past, db.lots, i, symbol);
  }

  lemma RetryKeepsAttributed(db: Db, past: seq<Event>, i: nat)
    requires FullyOk(db) && i < |past| && AsRead(db.events, past, i) && IsOpen(past, i) && past[i].what.qty > 0.0
    ensures Attributed(RetryOne(db, past, i))
  {
    hide StrategyOk, LiquidationOk, BookOk, OneSided, LogOk, QuantityOk, MoneyOk, AttributionOk, FillsOk, WalkOf, LotsAfter, Companions, LotsExplained, ClosesExplained;
    assert db.events[i] == past[i];
    assert ParkedExplained(db.orders, db.fills, past[i].what);
    assert IsFillOf(db.orders, RetryFill(past[i].what));
    hide IsFillOf, ParkedExplained, ParkedAreExplained;
    RetryKeepsExplained(db, past, i);
    forall strategy, symbol ensures StrategyOk(RetryOne(db, past, i), strategy, symbol) {
      RetryKeepsStrategy(db, past, i, strategy, symbol);
    }
    forall symbol ensures LiquidationOk(RetryOne(db, past, i), symbol) {
      RetryKeepsLiquidation(db, past, i, symbol);
    }
  }

  lemma {:induction false} PassKeepsAttributed(db: Db, n: nat)
    requires FullyOk(db) && n <= |db.events|
    ensures FullyOk(RetryPass(db, db.events, n))
  {
    hide Attributed, RetryOne, IsOpen, AsRead, LogOk, BookOk, OneSided, QuantityOk, MoneyOk, AttributionOk, FillsOk;
    if n > 0 {
      PassKeepsAttributed(db, n - 1);
      PassKeepsOk(db, n);
      PassKeepsLog(db, n - 1);
      hide DbOk;
      if IsOpen(db.events, n - 1) {
        OpenIsPositive(db.events, n - 1);
        RetryKeepsAttributed(RetryPass(db, db.events, n - 1), db.events, n - 1);
      } else {
        RetryNothing(RetryPass(db, db.events, n - 1), db.events, n - 1);
      }
    }
  }

  lemma OpenIsPositive(log: seq<Event>, i: nat)
    requires LogOk(log) && IsOpen(log, i)
    ensures i < |log| && log[i].Parked? && log[i].what.qty > 0.0
  {
    hide IsResolved;
    ParkedIsPositive(log, i);
  }

  lemma RetryNothing(db: Db, past: seq<Event>, i: nat)
    requires i < |past| && !IsOpen(past, i)
    ensures RetryOne(db, past, i) == db
  {
  }

  // ── Order rows ───────────────────────────────────────────────────

  lemma OrdersKeepStrategy(db: Db, orders: seq<Order>, strategy: StrategyId, symbol: Symbol)
    requires SameInstruments(db.orders, orders) && FillsOk(db) && Explained(db) && StrategyOk(db, strategy, symbol)
    ensures StrategyOk(db.(orders := orders), strategy, symbol)
  {
    SumAgrees(db.fills, FilledFor(db.orders, Some(strategy), symbol), FilledFor(orders, Some(strategy), symbol));
    SumAgrees(db.closes, LiquidatedOf(db.orders, strategy, symbol), LiquidatedOf(orders, strategy, symbol));
  }

  lemma OrdersKeepLiquidation(db: Db, orders: seq<Order>, symbol: Symbol)
    requires SameInstruments(db.orders, orders) && FillsOk(db) && Explained(db) && LiquidationOk(db, symbol)
    ensures LiquidationOk(db.(orders := orders), symbol)
  {
    SumAgrees(db.fills, FilledFor(db.orders, None, symbol), FilledFor(orders, None, symbol));
    SumAgrees(db.closes, Liquidated(db.orders, symbol), Liquidated(orders, symbol));
  }

  lemma OrdersKeepAttributed(db: Db, orders: seq<Order>)
    requires FullyOk(db) && SameInstruments(db.orders, orders)
    ensures Attributed(db.(orders := orders))
  {
    hide StrategyOk, LiquidationOk, Explained, BookOk, OneSided, Settled, QuantityOk, MoneyOk, AttributionOk, FillsOk, SameInstruments;
    OrdersKeepExplained(db, orders);
    forall strategy, symbol ensures StrategyOk(db.(orders := orders), strategy, symbol) {
      OrdersKeepStrategy(db, orders, strategy, symbol);
    }
    forall symbol ensures LiquidationOk(db.(orders := orders), symbol) {
      OrdersKeepLiquidation(db, orders, symbol);
    }
  }

  lemma PositionsKeepAttributed(db: Db, positions: map<Symbol, Position>)
    requires Attributed(db)
    ensures Attributed(db.(positions := positions))
  {
    hide StrategyOk, LiquidationOk, Explained;
    PositionsKeepExplained(db, positions);
    forall strategy, symbol ensures StrategyOk(db.(positions := positions), strategy, symbol) {
      SameTables(db, db.(positions := positions), strategy, symbol);
    }
    forall symbol ensures LiquidationOk(db.(positions := positions), symbol) {
      SameTables(db, db.(positions := positions), 0, symbol);
    }
  }

  // ── Every reachable state ────────────────────────────────────────

  lemma FullBooksAreKept()
    ensures IsKept(FullyOk)
  {
    hide DbOk, Attributed, InsertFill, RetryPass, LedgerOk, SameInstruments;
    forall db: Db | FullyOk(db) ensures FillsOk(db) && FullyOk(Retried(db)) {
      OkHasFills(db);
      PassKeepsAttributed(db, |db.events|);
    }
    forall db: Db, fill, stamp, applyPosition | FullyOk(db) && CanInsert(db, fill)
      ensures FullyOk(InsertFill(db, fill, stamp, applyPosition))
    {
      InsertFillKeepsOk(db, fill, stamp, applyPosition);
      InsertKeepsAttributed(db, fill, stamp, applyPosition);
    }
    forall db: Db, orders | FullyOk(db) && SameInstruments(db.orders, orders) ensures FullyOk(WithOrders(db, orders)) {
      OrdersKeepOk(db, orders);
      OrdersKeepAttributed(db, orders);
    }
    forall db: Db, positions | FullyOk(db) ensures FullyOk(WithPositions(db, positions)) {
      PositionsKeepOk(db, positions);
      PositionsKeepAttributed(db, positions);
    }
  }

  lemma NoRowsAreAttributed()
    ensures Attributed(NO_ROWS)
  {
  }

  /** In every state the writers can reach from empty tables, each row names the fill that explains it, each
      strategy's lots are its own orders' fills plus what liquidations closed of it, and what liquidations
      filled is closed or parked. */
  lemma EveryReachableStateIsAttributed(run: seq<Txn>)
    requires PositiveFills(run)
    ensures Attributed(CommitAll(NO_ROWS, run)) && DbOk(CommitAll(NO_ROWS, run))
  {
    hide DbOk, Attributed, CommitAll, IsKept, PositiveFills;
    NoRowsAreAttributed();
    EmptyDbIsOk(NO_ROWS);
    FullBooksAreKept();
    KeptByEveryRun(FullyOk, NO_ROWS, run);
  }

  /** So what the no-pyramiding gate reads in any reachable state is the size of what the strategy's own
      orders filled, net of what liquidations took; and it reads zero exactly when the strategy has no open
      lot. */
  lemma GateReadsOwnFills(run: seq<Txn>, strategy: StrategyId, symbol: Symbol)
    requires PositiveFills(run)
    ensures var db := CommitAll(NO_ROWS, run);
            var gross := Sum(db.lots, GrossIn(strategy, symbol));
            && gross == Abs(Sum(db.fills, FilledFor(db.orders, Some(strategy), symbol))
                            + Sum(db.closes, LiquidatedOf(db.orders, strategy, symbol)))
            && (gross == 0.0 <==> forall i :: 0 <= i < |db.lots| ==> !InScope(db.lots[i], strategy, symbol))
  {
    hide CommitAll, PositiveFills, Explained, BookOk, FillsOk, Settled, QuantityOk, MoneyOk, AttributionOk, LiquidationOk;
    var db := CommitAll(NO_ROWS, run);
    EveryReachableStateIsAttributed(run);
    assert StrategyOk(db, strategy, symbol);
    GateReadsNet(db.lots, strategy, symbol);
  }
}
