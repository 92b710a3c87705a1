/** The ledger invariant over all tables: quantity, money and P&L add up in every reachable state. */
module Books {
  import opened Domain
  import opened Sums
  import opened Tables
  import opened Lots
  import opened LotAccounting
  import opened FillLedger
  import opened Remainders
  import opened TradeUpdates
  import opened Positions

  // ── What the fills say ───────────────────────────────────────────

  function FillSigned(orders: seq<Order>, symbol: Symbol): Fill -> real {
    (f: Fill) => if f.order < |orders| && orders[f.order].symbol == symbol then Signed(orders[f.order].side, f.qty) else 0.0
  }

  function FillPaid(orders: seq<Order>, symbol: Symbol): Fill -> real {
    (f: Fill) => if f.order < |orders| && orders[f.order].symbol == symbol then Signed(orders[f.order].side, Value(f.qty, f.price)) else 0.0
  }

  function ParkedSigned(symbol: Symbol): Remainder -> real {
    (what: Remainder) => if what.symbol == symbol then Signed(what.side, what.qty) else 0.0
  }

  function ParkedPaid(symbol: Symbol): Remainder -> real {
    (what: Remainder) => if what.symbol == symbol then Signed(what.side, Value(what.qty, what.price)) else 0.0
  }

  // ── The invariant ────────────────────────────────────────────────

  /** Signed open lots plus signed parked remainders are the signed fills. */
  ghost predicate QuantityOk(db: Db, symbol: Symbol) {
    Sum(db.lots, OpenSigned(symbol)) + OpenTotal(db.events, ParkedSigned(symbol)) == Sum(db.fills, FillSigned(db.orders, symbol))
  }

  /** Realized P&L is what sells brought over what buys cost, for the applied quantity, plus the open
      cost basis. */
  ghost predicate MoneyOk(db: Db, symbol: Symbol) {
    Sum(db.closes, RealizedIn(symbol)) ==
    Sum(db.lots, OpenBasis(symbol)) + OpenTotal(db.events, ParkedPaid(symbol)) - Sum(db.fills, FillPaid(db.orders, symbol))
  }

  /** Per strategy, the closes and the lots tell the same P&L. */
  ghost predicate AttributionOk(db: Db, strategy: Option<StrategyId>) {
    Sum(db.closes, ClosePnlOf(strategy)) == Sum(db.lots, LotPnlOf(strategy))
  }

  ghost predicate FillsOk(db: Db) {
    && LedgerOk(db.fills)
    && forall i :: 0 <= i < |db.fills| ==> db.fills[i].order < |db.orders|
  }

  ghost predicate DbOk(db: Db) {
    && FillsOk(db)
    && BookOk(db.lots, db.closes)
    && OneSided(db.lots)
    && Settled(db.events)
    && (forall symbol :: QuantityOk(db, symbol) && MoneyOk(db, symbol))
    && (forall strategy :: AttributionOk(db, strategy))
  }

  lemma EmptyDbIsOk(db: Db)
    requires db.fills == [] && db.lots == [] && db.closes == [] && db.events == []
    ensures DbOk(db)
  {
  }

  // ── Order rows may change all but strategy, symbol and side ──────

  ghost predicate SameInstruments(was: seq<Order>, now: seq<Order>) {
    && |was| <= |now|
    && forall i :: 0 <= i < |was| ==>
         now[i].strategy == was[i].strategy && now[i].symbol == was[i].symbol && now[i].side == was[i].side
  }

  lemma OrdersKeepOk(db: Db, orders: seq<Order>)
    requires DbOk(db) && SameInstruments(db.orders, orders)
    ensures DbOk(db.(orders := orders))
  {
    var now := db.(orders := orders);
    forall symbol ensures QuantityOk(now, symbol) && MoneyOk(now, symbol) {
      assert QuantityOk(db, symbol) && MoneyOk(db, symbol);
      SumAgrees(db.fills, FillSigned(db.orders, symbol), FillSigned(orders, symbol));
      SumAgrees(db.fills, FillPaid(db.orders, symbol), FillPaid(orders, symbol));
    }
    forall strategy ensures AttributionOk(now, strategy) {
      assert AttributionOk(db, strategy);
    }
  }

  // ── Inserting a fill ─────────────────────────────────────────────

  lemma ParkedMoves(f: LotFill, qty: real, symbol: Symbol)
    ensures ParkedSigned(symbol)(RemainderOf(f, qty)) == Moved(f, qty, symbol)
    ensures ParkedPaid(symbol)(RemainderOf(f, qty)) == Paid(f, qty, symbol)
  {
  }

  /** Applying a fill moves lots and parked remainders by the fill's own quantity and money. */
  lemma ApplyMoves(db: Db, f: LotFill, symbol: Symbol, strategy: Option<StrategyId>)
    requires Settled(db.events) && f.qty > 0.0
    ensures var now := ApplyFill(db, f, true);
            && Settled(now.events)
            && Sum(now.lots, OpenSigned(symbol)) + OpenTotal(now.events, ParkedSigned(symbol))
               == Sum(db.lots, OpenSigned(symbol)) + OpenTotal(db.events, ParkedSigned(symbol)) + Moved(f, f.qty, symbol)
            && Sum(now.closes, RealizedIn(symbol)) - Sum(now.lots, OpenBasis(symbol)) - OpenTotal(now.events, ParkedPaid(symbol))
               == Sum(db.closes, RealizedIn(symbol)) - Sum(db.lots, OpenBasis(symbol)) - OpenTotal(db.events, ParkedPaid(symbol)) - Paid(f, f.qty, symbol)
            && Sum(now.closes, ClosePnlOf(strategy)) - Sum(now.lots, LotPnlOf(strategy))
               == Sum(db.closes, ClosePnlOf(strategy)) - Sum(db.lots, LotPnlOf(strategy))
  {
    hide Paid, Moved, OpenSigned, OpenBasis, LotPnlOf, ClosePnlOf, RealizedIn, ParkedSigned, ParkedPaid, LotsAfter, WalkOf, LogOk;
    var now, parked := ApplyFill(db, f, true), Unapplied(db.lots, f);
    ApplyMovesValue(db.lots, f, symbol, strategy);
    SumConcat(db.closes, WalkOf(db.lots, f).closes, RealizedIn(symbol));
    SumConcat(db.closes, WalkOf(db.lots, f).closes, ClosePnlOf(strategy));
    PartsAdd(f, f.qty - parked, parked, symbol);
    if parked > 0.0 {
      var e := Parked(RemainderOf(f, parked), None);
      LogAppend(db.events, e);
      OpenTotalAppend(db.events, e, ParkedSigned(symbol));
      OpenTotalAppend(db.events, e, ParkedPaid(symbol));
      ParkedMoves(f, parked, symbol);
    } else {
      assert parked == 0.0;
      PartsAdd(f, 0.0, 0.0, symbol);
    }
  }

  lemma FillMoves(orders: seq<Order>, fill: Fill, f: LotFill, symbol: Symbol)
    requires fill.order < |orders|
    requires f.symbol == orders[fill.order].symbol && f.side == orders[fill.order].side && f.qty == fill.qty && f.price == fill.price
    ensures FillSigned(orders, symbol)(fill) == Moved(f, f.qty, symbol)
    ensures FillPaid(orders, symbol)(fill) == Paid(f, f.qty, symbol)
  {
  }

  lemma InsertKeepsSums(db: Db, fill: Fill, f: LotFill, symbol: Symbol, strategy: Option<StrategyId>)
    requires Settled(db.events) && fill.order < |db.orders| && fill.qty > 0.0
    requires f.symbol == db.orders[fill.order].symbol && f.side == db.orders[fill.order].side && f.qty == fill.qty && f.price == fill.price
    requires QuantityOk(db, symbol) && MoneyOk(db, symbol) && AttributionOk(db, strategy)
    ensures var now := ApplyFill(db.(fills := db.fills + [fill]), f, true);
            && Settled(now.events)
            && QuantityOk(now, symbol) && MoneyOk(now, symbol) && AttributionOk(now, strategy)
  {
    hide Paid, Moved, OpenSigned, OpenBasis, LotPnlOf, ClosePnlOf, RealizedIn, ParkedSigned, ParkedPaid, FillSigned, FillPaid, WalkOf, LotsAfter, LogOk;
    ApplyMoves(db.(fills := db.fills + [fill]), f, symbol, strategy);
    FillMoves(db.orders, fill, f, symbol);
    SumAppend(db.fills, fill, FillSigned(db.orders, symbol));
    SumAppend(db.fills, fill, FillPaid(db.orders, symbol));
  }

  lemma InsertFillKeepsOk(db: Db, fill: Fill, stamp: Stamp, applyPosition: bool)
    requires DbOk(db) && fill.order < |db.orders| && fill.qty > 0.0
    requires LedgerOk(db.fills + [fill])
    ensures DbOk(InsertFill(db, fill, stamp, applyPosition))
  {
    hide QuantityOk, MoneyOk, AttributionOk, BookOk, OneSided, LogOk, LedgerOk, WalkOf, LotsAfter, ApplyToPosition;
    var row := db.orders[fill.order];
    var f := LotFillOf(row, fill.order, |db.fills|, fill, stamp);
    var now := ApplyFill(db.(fills := db.fills + [fill]), f, true);
    assert BookOk(now.lots, now.closes) by { ApplyKeepsBook(db.lots, db.closes, f); }
    assert OneSided(now.lots) by { ApplyKeepsOneSided(db.lots, f); }
    forall symbol ensures QuantityOk(now, symbol) && MoneyOk(now, symbol) {
      assert AttributionOk(db, None);
      InsertKeepsSums(db, fill, f, symbol, None);
    }
    forall strategy ensures AttributionOk(now, strategy) {
      assert QuantityOk(db, 0);
      InsertKeepsSums(db, fill, f, 0, strategy);
    }
    assert Settled(now.events) by {
      assert QuantityOk(db, 0) && AttributionOk(db, None);
      InsertKeepsSums(db, fill, f, 0, None);
    }
    assert DbOk(now);
    PositionsKeepOk(now, InsertFill(db, fill, stamp, applyPosition).positions);
  }

  lemma PositionsKeepOk(db: Db, positions: map<Symbol, Position>)
    requires DbOk(db)
    ensures DbOk(db.(positions := positions))
  {
    var now := db.(positions := positions);
    forall symbol ensures QuantityOk(now, symbol) && MoneyOk(now, symbol) {
      assert QuantityOk(db, symbol) && MoneyOk(db, symbol);
    }
    forall strategy ensures AttributionOk(now, strategy) {
      assert AttributionOk(db, strategy);
    }
  }

  // ── Retrying a parked remainder ──────────────────────────────────

  /** A retry that closes something takes the anomaly out of the open total and its residual back in. */
  lemma CompanionsTotal(log: seq<Event>, past: seq<Event>, lots: seq<Lot>, i: nat, weight: Remainder -> real)
    requires i < |past| && Settled(log) && AsRead(log, past, i)
    requires IsOpen(past, i) && past[i].what.qty > 0.0
    ensures var what := past[i].what;
            var residual := Unapplied(lots, RetryFill(what));
            OpenTotal(log + Companions(lots, past, i), weight) == OpenTotal(log, weight)
              - (if ClosedBy(lots, what) > 0.0 then weight(what) else 0.0)
              + (if ClosedBy(lots, what) > 0.0 && residual > 0.0 then weight(what.(qty := residual)) else 0.0)
  {
    hide WalkOf, Unapplied, ClosedBy, LogOk, EntryOk, OpenTotal;
    var more := Companions(lots, past, i);
    CompanionsFollow(log, past, lots, i);
    assert log[i] == past[i];
    LogAppend(log, more[0]);
    OpenTotalAppend(log, more[0], weight);
    if |more| == 2 {
      OpenTotalAppend(log + [more[0]], more[1], weight);
      assert log + more == (log + [more[0]]) + [more[1]];
    } else {
      assert log + more == log + [more[0]];
    }
  }

  /** So the parked total falls by exactly what the retry closed. */
  lemma CompanionsMove(log: seq<Event>, past: seq<Event>, lots: seq<Lot>, i: nat, symbol: Symbol)
    requires i < |past| && Settled(log) && AsRead(log, past, i)
    requires IsOpen(past, i) && past[i].what.qty > 0.0
    ensures var what := past[i].what;
            var f, after := RetryFill(what), log + Companions(lots, past, i);
            var closed := what.qty - Unapplied(lots, f);
            && OpenTotal(after, ParkedSigned(symbol)) == OpenTotal(log, ParkedSigned(symbol)) - Moved(f, closed, symbol)
            && OpenTotal(after, ParkedPaid(symbol)) == OpenTotal(log, ParkedPaid(symbol)) - Paid(f, closed, symbol)
  {
    hide Paid, Moved, ParkedSigned, ParkedPaid, WalkOf, Unapplied, ClosedBy, LogOk, OpenTotal, Companions, AsRead;
    var what := past[i].what;
    var f := RetryFill(what);
    var residual := Unapplied(lots, f);
    CompanionsTotal(log, past, lots, i, ParkedSigned(symbol));
    CompanionsTotal(log, past, lots, i, ParkedPaid(symbol));
    RetryAccounts(lots, what);
    assert RemainderOf(f, what.qty) == what && RemainderOf(f, residual) == what.(qty := residual);
    ParkedMoves(f, what.qty, symbol);
    ParkedMoves(f, residual, symbol);
    PartsAdd(f, what.qty - residual, residual, symbol);
    PartsAdd(f, 0.0, 0.0, symbol);
  }

  lemma RetryKeepsSums(db: Db, past: seq<Event>, i: nat, symbol: Symbol, strategy: Option<StrategyId>)
    requires i < |past| && Settled(db.events) && AsRead(db.events, past, i)
    requires IsOpen(past, i) && past[i].what.qty > 0.0
    requires QuantityOk(db, symbol) && MoneyOk(db, symbol) && AttributionOk(db, strategy)
    ensures var now := RetryOne(db, past, i);
            QuantityOk(now, symbol) && MoneyOk(now, symbol) && AttributionOk(now, strategy)
  {
    hide Paid, Moved, OpenSigned, OpenBasis, LotPnlOf, ClosePnlOf, RealizedIn, ParkedSigned, ParkedPaid, FillSigned, FillPaid,
         Companions, WalkOf, LotsAfter, LogOk, OpenTotal, AsRead;
    var f := RetryFill(past[i].what);
    ApplyMovesValue(db.lots, f, symbol, strategy);
    SumConcat(db.closes, WalkOf(db.lots, f).closes, RealizedIn(symbol));
    SumConcat(db.closes, WalkOf(db.lots, f).closes, ClosePnlOf(strategy));
    CompanionsMove(db.events, past, db.lots, i, symbol);
  }

  lemma RetryKeepsOk(db: Db, past: seq<Event>, i: nat)
    requires DbOk(db) && i < |past| && AsRead(db.events, past, i)
    requires IsOpen(past, i) && past[i].what.qty > 0.0
    ensures DbOk(RetryOne(db, past, i))
  {
    hide QuantityOk, MoneyOk, AttributionOk, BookOk, OneSided, LogOk, LedgerOk, WalkOf, LotsAfter, Companions, AsRead;
    var now := RetryOne(db, past, i);
    var f := RetryFill(past[i].what);
    RetryKeepsLog(db, past, i);
    ApplyKeepsBook(db.lots, db.closes, f);
    ApplyKeepsOneSided(db.lots, f);
    forall symbol ensures QuantityOk(now, symbol) && MoneyOk(now, symbol) {
      assert AttributionOk(db, None);
      RetryKeepsSums(db, past, i, symbol, None);
    }
    forall strategy ensures AttributionOk(now, strategy) {
      assert QuantityOk(db, 0);
      RetryKeepsSums(db, past, i, 0, strategy);
    }
  }

  lemma {:induction false} PassKeepsOk(db: Db, n: nat)
    requires DbOk(db) && n <= |db.events|
    ensures DbOk(RetryPass(db, db.events, n))
  {
    hide Lots.ApplyFill, Companions, IsResolved, AsRead, QuantityOk, MoneyOk, AttributionOk, BookOk, OneSided, LogOk;
    if n > 0 {
      PassKeepsOk(db, n - 1);
      PassKeepsLog(db, n - 1);
      if IsOpen(db.events, n - 1) {
        ParkedIsPositive(db.events, n - 1);
        RetryKeepsOk(RetryPass(db, db.events, n - 1), db.events, n - 1);
      }
    }
  }
}
