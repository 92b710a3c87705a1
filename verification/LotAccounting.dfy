/** What every lot application keeps: per-lot bookkeeping, quantity, P&L, and one-sided scopes. */
module LotAccounting {
  import opened Domain
  import opened Sums
  import opened Tables
  import opened Lots
  import opened Fifo
  import opened FifoSplit

  // ── The invariant of the lot book ────────────────────────────────

  predicate LotOk(lot: Lot) {
    && 0.0 < lot.qtyOrig
    && 0.0 <= lot.qtyOpen <= lot.qtyOrig
    && (lot.closedAt.Some? <==> lot.qtyOpen == 0.0)
  }

  /** A close carries its lot's strategy and symbol, and the lot row agrees with its closes. */
  ghost predicate BookOk(lots: seq<Lot>, closes: seq<LotClose>) {
    && (forall i :: 0 <= i < |lots| ==> LotOk(lots[i]))
    && (forall c :: 0 <= c < |closes| ==>
          && closes[c].lot < |lots| && closes[c].qty > 0.0
          && closes[c].strategy == lots[closes[c].lot].strategy
          && closes[c].symbol == lots[closes[c].lot].symbol)
    && (forall i :: 0 <= i < |lots| ==> Balanced(lots, closes, i))
  }

  ghost predicate Balanced(lots: seq<Lot>, closes: seq<LotClose>, i: nat)
    requires i < |lots|
  {
    && Sum(closes, ClosedQty(i)) == lots[i].qtyOrig - lots[i].qtyOpen
    && Sum(closes, ClosedPnl(i)) == lots[i].realizedPnl
  }

  /** No scope (symbol, strategy) is both long and short. */
  ghost predicate OneSided(lots: seq<Lot>) {
    forall i, j :: 0 <= i < |lots| && 0 <= j < |lots|
      && lots[i].qtyOpen > 0.0 && lots[j].qtyOpen > 0.0
      && lots[i].symbol == lots[j].symbol && lots[i].strategy == lots[j].strategy
      ==> lots[i].side == lots[j].side
  }

  // ── Sums over the book ───────────────────────────────────────────

  function OpenSigned(symbol: Symbol): Lot -> real {
    (lot: Lot) => if lot.symbol == symbol then Signed(lot.side, lot.qtyOpen) else 0.0
  }

  function Cost(lot: Lot): real {
    Value(lot.qtyOpen, lot.entryPrice)
  }

  function OpenBasis(symbol: Symbol): Lot -> real {
    (lot: Lot) => if lot.symbol == symbol then Signed(lot.side, Cost(lot)) else 0.0
  }

  function RealizedIn(symbol: Symbol): LotClose -> real {
    (c: LotClose) => if c.symbol == symbol then c.realizedPnl else 0.0
  }

  function LotPnlOf(strategy: Option<StrategyId>): Lot -> real {
    (lot: Lot) => if lot.strategy == strategy then lot.realizedPnl else 0.0
  }

  function ClosePnlOf(strategy: Option<StrategyId>): LotClose -> real {
    (c: LotClose) => if c.strategy == strategy then c.realizedPnl else 0.0
  }

  // ── One consumption ──────────────────────────────────────────────

  ghost predicate Takes(lots: seq<Lot>, i: nat, f: LotFill, qty: real) {
    && i < |lots|
    && lots[i].symbol == f.symbol && lots[i].side == Opposite(f.side)
    && 0.0 < qty <= lots[i].qtyOpen
  }

  lemma TakeKeepsBook(lots: seq<Lot>, closes: seq<LotClose>, i: nat, f: LotFill, qty: real)
    requires BookOk(lots, closes) && Takes(lots, i, f, qty)
    ensures BookOk(lots[i := Reduced(lots[i], f, qty)], closes + [CloseOf(i, lots[i], f, qty)])
  {
    hide Pnl;
    var next, close := lots[i := Reduced(lots[i], f, qty)], CloseOf(i, lots[i], f, qty);
    forall j | 0 <= j < |next| ensures Balanced(next, closes + [close], j) {
      assert Balanced(lots, closes, j);
      SumAppend(closes, close, ClosedQty(j));
      SumAppend(closes, close, ClosedPnl(j));
    }
  }

  /** The quantity, and the money, that `qty` of a fill moves in one symbol. */
  function Moved(f: LotFill, qty: real, symbol: Symbol): real {
    if symbol == f.symbol then Signed(f.side, qty) else 0.0
  }

  function Paid(f: LotFill, qty: real, symbol: Symbol): real {
    if symbol == f.symbol then Signed(f.side, Value(qty, f.price)) else 0.0
  }

  lemma PartsAdd(f: LotFill, a: real, b: real, symbol: Symbol)
    ensures Paid(f, a, symbol) + Paid(f, b, symbol) == Paid(f, a + b, symbol)
    ensures Moved(f, a, symbol) + Moved(f, b, symbol) == Moved(f, a + b, symbol)
  {
    assert a * f.price + b * f.price == (a + b) * f.price;
  }

  lemma BasisAndPnl(lot: Lot, f: LotFill, qty: real, symbol: Symbol)
    requires lot.side == Opposite(f.side) && lot.symbol == f.symbol
    ensures OpenBasis(symbol)(Reduced(lot, f, qty)) ==
            OpenBasis(symbol)(lot) + RealizedIn(symbol)(CloseOf(0, lot, f, qty)) + Paid(f, qty, symbol)
  {
    var row := Reduced(lot, f, qty);
    assert Cost(row) == Cost(lot) - qty * lot.entryPrice;
    var entry, exit := qty * lot.entryPrice, qty * f.price;
    if lot.side.Buy? {
      assert Pnl(lot, f.price, qty) == exit - entry;
    } else {
      assert Pnl(lot, f.price, qty) == entry - exit;
    }
  }

  /** Consuming moves quantity, cost basis and P&L together. */
  lemma TakeMovesValue(lots: seq<Lot>, i: nat, f: LotFill, qty: real, symbol: Symbol, strategy: Option<StrategyId>)
    requires Takes(lots, i, f, qty)
    ensures var next, close := lots[i := Reduced(lots[i], f, qty)], CloseOf(i, lots[i], f, qty);
            && Sum(next, OpenSigned(symbol)) == Sum(lots, OpenSigned(symbol)) + Moved(f, qty, symbol)
            && Sum(next, OpenBasis(symbol)) == Sum(lots, OpenBasis(symbol)) + RealizedIn(symbol)(close) + Paid(f, qty, symbol)
            && Sum(next, LotPnlOf(strategy)) == Sum(lots, LotPnlOf(strategy)) + ClosePnlOf(strategy)(close)
  {
    hide Pnl, Paid;
    var row := Reduced(lots[i], f, qty);
    SumUpdate(lots, i, row, OpenSigned(symbol));
    SumUpdate(lots, i, row, OpenBasis(symbol));
    SumUpdate(lots, i, row, LotPnlOf(strategy));
    BasisAndPnl(lots[i], f, qty, symbol);
  }

  // ── The whole walk ───────────────────────────────────────────────

  ghost predicate QueueOf(lots: seq<Lot>, queue: seq<nat>, f: LotFill)
    requires InRange(queue, |lots|)
  {
    && Distinct(queue)
    && forall k :: 0 <= k < |queue| ==>
         lots[queue[k]].symbol == f.symbol && lots[queue[k]].side == Opposite(f.side) && lots[queue[k]].qtyOpen > 0.0
  }

  lemma {:induction false} ConsumeKeepsBook(lots: seq<Lot>, closes: seq<LotClose>, queue: seq<nat>, f: LotFill, remaining: real)
    requires InRange(queue, |lots|) && QueueOf(lots, queue, f) && BookOk(lots, closes)
    ensures var w := Consume(lots, queue, f, remaining);
            BookOk(w.lots, closes + w.closes)
    decreases |queue|
  {
    hide Pnl, BookOk;
    if queue != [] && remaining > 0.0 {
      var i, rest := queue[0], queue[1..];
      var qty := Min(lots[i].qtyOpen, remaining);
      var next, close := lots[i := Reduced(lots[i], f, qty)], CloseOf(i, lots[i], f, qty);
      assert QueueOf(next, rest, f);
      TakeKeepsBook(lots, closes, i, f, qty);
      ConsumeKeepsBook(next, closes + [close], rest, f, remaining - qty);
      ConsumeStep(lots, queue, f, remaining);
      assert closes + Consume(lots, queue, f, remaining).closes
          == (closes + [close]) + Consume(next, rest, f, remaining - qty).closes;
    } else {
      assert closes + [] == closes;
    }
  }

  lemma {:induction false} ConsumeMovesValue(lots: seq<Lot>, queue: seq<nat>, f: LotFill, remaining: real, symbol: Symbol, strategy: Option<StrategyId>)
    requires InRange(queue, |lots|) && QueueOf(lots, queue, f)
    ensures var w := Consume(lots, queue, f, remaining);
            var used := remaining - w.remaining;
            && Sum(w.lots, OpenSigned(symbol)) == Sum(lots, OpenSigned(symbol)) + Moved(f, used, symbol)
            && Sum(w.lots, OpenBasis(symbol)) == Sum(lots, OpenBasis(symbol)) + Sum(w.closes, RealizedIn(symbol)) + Paid(f, used, symbol)
            && Sum(w.lots, LotPnlOf(strategy)) == Sum(lots, LotPnlOf(strategy)) + Sum(w.closes, ClosePnlOf(strategy))
    decreases |queue|
  {
    hide Paid, Moved, Pnl, Reduced, CloseOf, OpenSigned, OpenBasis, LotPnlOf, RealizedIn, ClosePnlOf;
    PartsAdd(f, 0.0, 0.0, symbol);
    if queue != [] && remaining > 0.0 {
      var i, rest := queue[0], queue[1..];
      var qty := Min(lots[i].qtyOpen, remaining);
      var next, close := lots[i := Reduced(lots[i], f, qty)], CloseOf(i, lots[i], f, qty);
      assert QueueOf(next, rest, f);
      hide Sum, QueueOf;
      TakeMovesValue(lots, i, f, qty, symbol, strategy);
      ConsumeMovesValue(next, rest, f, remaining - qty, symbol, strategy);
      var w := Consume(next, rest, f, remaining - qty);
      SumPrepend(close, w.closes, RealizedIn(symbol));
      SumPrepend(close, w.closes, ClosePnlOf(strategy));
      PartsAdd(f, qty, remaining - qty - w.remaining, symbol);
    }
  }

  /** If anything is left over, every lot in the queue is used up. */
  lemma {:induction false} LeftoverMeansExhausted(lots: seq<Lot>, queue: seq<nat>, f: LotFill, remaining: real)
    requires InRange(queue, |lots|) && QueueOf(lots, queue, f)
    requires Consume(lots, queue, f, remaining).remaining > 0.0
    ensures forall k :: 0 <= k < |queue| ==> Consume(lots, queue, f, remaining).lots[queue[k]].qtyOpen == 0.0
    decreases |queue|
  {
    if queue != [] && remaining > 0.0 {
      var i, rest := queue[0], queue[1..];
      var qty := Min(lots[i].qtyOpen, remaining);
      var next := lots[i := Reduced(lots[i], f, qty)];
      assert QueueOf(next, rest, f);
      assert forall k :: 0 <= k < |rest| ==> rest[k] != i;
      LeftoverMeansExhausted(next, rest, f, remaining - qty);
      ConsumeFrames(next, rest, f, remaining - qty, i);
      var w := Consume(next, rest, f, remaining - qty);
      assert qty < lots[i].qtyOpen ==> w.remaining == 0.0;
    }
  }

  // ── The whole application ────────────────────────────────────────

  lemma QueryIsQueue(lots: seq<Lot>, f: LotFill)
    ensures QueueOf(lots, OpenLots(lots, f, |lots|), f)
  {
    QueueIsEligible(lots, f);
  }

  /** If the fill finds too few lots, no lot it could have matched is left open. */
  lemma NothingEligibleIsLeft(lots: seq<Lot>, f: LotFill, i: nat)
    requires WalkOf(lots, f).remaining > 0.0 && i < |lots|
    ensures !Eligible(WalkOf(lots, f).lots[i], f)
  {
    if Eligible(lots[i], f) {
      var k := EligibleIsQueued(lots, f, |lots|, i);
      QueryIsQueue(lots, f);
      LeftoverMeansExhausted(lots, OpenLots(lots, f, |lots|), f, f.qty);
    } else {
      IneligibleIsUntouched(lots, f, i);
    }
  }

  /** The book's rows and their closes stay in balance. */
  lemma ApplyKeepsBook(lots: seq<Lot>, closes: seq<LotClose>, f: LotFill)
    requires BookOk(lots, closes)
    ensures BookOk(LotsAfter(lots, f), closes + WalkOf(lots, f).closes)
  {
    QueryIsQueue(lots, f);
    ConsumeKeepsBook(lots, closes, OpenLots(lots, f, |lots|), f, f.qty);
    var w := WalkOf(lots, f);
    if f.strategy.Some? && w.remaining > 0.0 {
      NewLotKeepsBook(w.lots, closes + w.closes, NewLot(f, w.remaining));
    }
  }

  lemma NewLotKeepsBook(lots: seq<Lot>, closes: seq<LotClose>, lot: Lot)
    requires BookOk(lots, closes) && LotOk(lot) && lot.qtyOpen == lot.qtyOrig && lot.realizedPnl == 0.0
    ensures BookOk(lots + [lot], closes)
  {
    forall i | 0 <= i <= |lots| ensures Balanced(lots + [lot], closes, i) {
      if i < |lots| {
        assert Balanced(lots, closes, i);
      } else {
        SumIsZero(closes, ClosedQty(i));
        SumIsZero(closes, ClosedPnl(i));
      }
    }
  }

  /** A remainder that opens a lot has used up every opposite lot of its scope, so the scope turns
      over to one side; consuming alone opens nothing. */
  lemma ApplyKeepsOneSided(lots: seq<Lot>, f: LotFill)
    requires OneSided(lots)
    ensures OneSided(LotsAfter(lots, f))
  {
    var w, after := WalkOf(lots, f), LotsAfter(lots, f);
    ClosesMatchLots(lots, OpenLots(lots, f, |lots|), f, f.qty);
    forall i | 0 <= i < |lots| ensures w.lots[i].qtyOpen > 0.0 ==> lots[i].qtyOpen > 0.0 {
      if !(lots[i].qtyOpen > 0.0) {
        IneligibleIsUntouched(lots, f, i);
      }
    }
    if f.strategy.Some? && w.remaining > 0.0 {
      forall i | 0 <= i < |lots| && w.lots[i].qtyOpen > 0.0 && w.lots[i].symbol == f.symbol && w.lots[i].strategy == f.strategy
        ensures w.lots[i].side == f.side
      {
        NothingEligibleIsLeft(lots, f, i);
      }
    }
  }

  lemma WalkMovesValue(lots: seq<Lot>, f: LotFill, symbol: Symbol, strategy: Option<StrategyId>)
    requires f.qty >= 0.0
    ensures var w := WalkOf(lots, f);
            var used := f.qty - w.remaining;
            && w.remaining >= 0.0
            && Sum(w.lots, OpenSigned(symbol)) == Sum(lots, OpenSigned(symbol)) + Moved(f, used, symbol)
            && Sum(w.lots, OpenBasis(symbol)) == Sum(lots, OpenBasis(symbol)) + Sum(w.closes, RealizedIn(symbol)) + Paid(f, used, symbol)
            && Sum(w.lots, LotPnlOf(strategy)) == Sum(lots, LotPnlOf(strategy)) + Sum(w.closes, ClosePnlOf(strategy))
  {
    QueryIsQueue(lots, f);
    ConsumeMovesValue(lots, OpenLots(lots, f, |lots|), f, f.qty, symbol, strategy);
    RemainingIsShortfall(lots, f);
  }

  lemma NewLotValue(f: LotFill, qty: real, symbol: Symbol, strategy: Option<StrategyId>)
    ensures OpenSigned(symbol)(NewLot(f, qty)) == Moved(f, qty, symbol)
    ensures OpenBasis(symbol)(NewLot(f, qty)) == Paid(f, qty, symbol)
    ensures LotPnlOf(strategy)(NewLot(f, qty)) == 0.0
  {
  }

  /** Quantity, cost basis and P&L over a whole application. */
  lemma ApplyMovesValue(lots: seq<Lot>, f: LotFill, symbol: Symbol, strategy: Option<StrategyId>)
    requires f.qty >= 0.0
    ensures var after, closes := LotsAfter(lots, f), WalkOf(lots, f).closes;
            var applied := f.qty - Unapplied(lots, f);
            && Sum(after, OpenSigned(symbol)) == Sum(lots, OpenSigned(symbol)) + Moved(f, applied, symbol)
            && Sum(after, OpenBasis(symbol)) == Sum(lots, OpenBasis(symbol)) + Sum(closes, RealizedIn(symbol)) + Paid(f, applied, symbol)
            && Sum(after, LotPnlOf(strategy)) == Sum(lots, LotPnlOf(strategy)) + Sum(closes, ClosePnlOf(strategy))
  {
    hide Paid, Moved, OpenSigned, OpenBasis, LotPnlOf, OpenLots, Consume;
    var w := WalkOf(lots, f);
    WalkMovesValue(lots, f, symbol, strategy);
    if f.strategy.Some? && w.remaining > 0.0 {
      var lot := NewLot(f, w.remaining);
      SumAppend(w.lots, lot, OpenSigned(symbol));
      SumAppend(w.lots, lot, OpenBasis(symbol));
      SumAppend(w.lots, lot, LotPnlOf(strategy));
      NewLotValue(f, w.remaining, symbol, strategy);
      PartsAdd(f, f.qty - w.remaining, w.remaining, symbol);
    }
  }

  // ── The no-pyramiding gate ───────────────────────────────────────

  predicate InScope(lot: Lot, strategy: StrategyId, symbol: Symbol) {
    lot.strategy == Some(strategy) && lot.symbol == symbol && lot.qtyOpen > 0.0
  }

  /** `_strategy_open_qty`: the gross open quantity of one strategy in one symbol. */
  function GrossIn(strategy: StrategyId, symbol: Symbol): Lot -> real {
    (lot: Lot) => if InScope(lot, strategy, symbol) then lot.qtyOpen else 0.0
  }

  function NetIn(strategy: StrategyId, symbol: Symbol): Lot -> real {
    (lot: Lot) => if InScope(lot, strategy, symbol) then Signed(lot.side, lot.qtyOpen) else 0.0
  }

  function BothWays(strategy: StrategyId, symbol: Symbol, side: Side): Lot -> real {
    (lot: Lot) => Signed(side, NetIn(strategy, symbol)(lot))
  }

  lemma {:induction false} SumOfSigned(lots: seq<Lot>, strategy: StrategyId, symbol: Symbol, side: Side)
    ensures Sum(lots, BothWays(strategy, symbol, side)) == Signed(side, Sum(lots, NetIn(strategy, symbol)))
  {
    if lots != [] {
      SumOfSigned(lots[..|lots| - 1], strategy, symbol, side);
    }
  }

  /** In a one-sided book the gross quantity the gate reads is |net|, and it is zero exactly when no
      lot of the scope is open. */
  lemma GateReadsNet(lots: seq<Lot>, strategy: StrategyId, symbol: Symbol)
    requires OneSided(lots)
    ensures var gross := Sum(lots, GrossIn(strategy, symbol));
            && gross == Abs(Sum(lots, NetIn(strategy, symbol)))
            && (gross == 0.0 <==> forall i :: 0 <= i < |lots| ==> !InScope(lots[i], strategy, symbol))
  {
    SumIsNonNegative(lots, GrossIn(strategy, symbol));
    if i :| 0 <= i < |lots| && InScope(lots[i], strategy, symbol) {
      var side := lots[i].side;
      assert GrossIn(strategy, symbol)(lots[i]) > 0.0;
      SumAgrees(lots, GrossIn(strategy, symbol), BothWays(strategy, symbol, side));
      SumOfSigned(lots, strategy, symbol, side);
    } else {
      SumIsZero(lots, GrossIn(strategy, symbol));
      SumIsZero(lots, NetIn(strategy, symbol));
    }
  }
}
