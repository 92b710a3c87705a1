/** The FIFO lot engine: a fill consumes opposite lots oldest first, then opens a lot or is parked. */
module Lots {
  import opened Domain
  import opened Sums
  import opened Tables

  /** One fill as the lot engine sees it. */
  datatype LotFill = LotFill(
    strategy: Option<StrategyId>,
    symbol: Symbol,
    side: Side,
    qty: real,
    price: real,
    at: Time,
    order: Option<nat>,
    fill: Option<nat>,
    stamp: Stamp)

  datatype LotApplication = LotApplication(
    realizedPnl: real,
    qtyClosed: real,
    openedLot: Option<nat>,
    unapplied: real)

  // ── The query: eligible lots in consumption order ────────────────

  predicate Eligible(lot: Lot, f: LotFill) {
    && lot.symbol == f.symbol
    && lot.side == Opposite(f.side)
    && lot.qtyOpen > 0.0
    && (if f.strategy.Some? then lot.strategy == f.strategy else lot.openedAt <= f.at)
  }

  predicate Before(a: Lot, b: Lot) {
    || a.openedAt < b.openedAt
    || (a.openedAt == b.openedAt && a.stamp.createdAt < b.stamp.createdAt)
    || (a.openedAt == b.openedAt && a.stamp.createdAt == b.stamp.createdAt && a.stamp.uuid < b.stamp.uuid)
  }

  predicate InRange(queue: seq<nat>, n: nat) {
    forall k :: 0 <= k < |queue| ==> queue[k] < n
  }

  predicate Distinct(queue: seq<nat>) {
    forall j, k :: 0 <= j < k < |queue| ==> queue[j] != queue[k]
  }

  predicate OldestFirst(lots: seq<Lot>, queue: seq<nat>)
    requires InRange(queue, |lots|)
  {
    forall j, k :: 0 <= j < k < |queue| ==> !Before(lots[queue[k]], lots[queue[j]])
  }

  /** Where a lot belongs in an ordered queue: after every lot it does not precede. */
  function InsertionPoint(lots: seq<Lot>, queue: seq<nat>, i: nat): (p: nat)
    requires i < |lots| && InRange(queue, |lots|)
    ensures p <= |queue|
    ensures forall j :: 0 <= j < p ==> !Before(lots[i], lots[queue[j]])
    ensures p < |queue| ==> Before(lots[i], lots[queue[p]])
  {
    if queue == [] || Before(lots[i], lots[queue[0]]) then 0
    else InsertionPoint(lots, queue[1..], i) + 1
  }

  function Insert(lots: seq<Lot>, queue: seq<nat>, i: nat): (r: seq<nat>)
    requires i < |lots| && InRange(queue, i)
    ensures InRange(r, i + 1)
  {
    var p := InsertionPoint(lots, queue, i);
    queue[..p] + [i] + queue[p..]
  }

  /** Behind an inserted lot stand only lots that do not precede it. */
  lemma NotBeforeThrough(a: Lot, b: Lot, c: Lot)
    requires Before(a, b) && !Before(c, b)
    ensures !Before(c, a)
  {
  }

  lemma InsertKeepsOrder(lots: seq<Lot>, queue: seq<nat>, i: nat)
    requires i < |lots| && InRange(queue, i) && Distinct(queue) && OldestFirst(lots, queue)
    ensures Distinct(Insert(lots, queue, i)) && OldestFirst(lots, Insert(lots, queue, i))
  {
    hide Before;
    var p, r := InsertionPoint(lots, queue, i), Insert(lots, queue, i);
    forall j, k | 0 <= j < k < |r| ensures r[j] != r[k] && !Before(lots[r[k]], lots[r[j]]) {
      if j == p {
        var q := queue[k - 1];
        NotBeforeItself(lots[q]);
        NotBeforeThrough(lots[i], lots[queue[p]], lots[q]);
      }
    }
  }

  lemma NotBeforeItself(a: Lot)
    ensures !Before(a, a)
  {
  }

  /** The rows the lot query returns, oldest first. */
  function OpenLots(lots: seq<Lot>, f: LotFill, n: nat): (queue: seq<nat>)
    requires n <= |lots|
    ensures InRange(queue, n)
    ensures Distinct(queue)
    ensures OldestFirst(lots, queue)
  {
    if n == 0 then []
    else
      hide Distinct, OldestFirst, Before, Eligible, Insert;
      var earlier := OpenLots(lots, f, n - 1);
      if Eligible(lots[n - 1], f) then
        InsertKeepsOrder(lots, earlier, n - 1);
        Insert(lots, earlier, n - 1)
      else earlier
  }

  /** Only eligible rows are queued ... */
  lemma {:induction false} QueuedIsEligible(lots: seq<Lot>, f: LotFill, n: nat, k: nat)
    requires n <= |lots| && k < |OpenLots(lots, f, n)|
    ensures Eligible(lots[OpenLots(lots, f, n)[k]], f)
    ensures var lot := lots[OpenLots(lots, f, n)[k]];
            && lot.symbol == f.symbol && lot.side != f.side && lot.qtyOpen > 0.0
            && (f.strategy.Some? ==> lot.strategy == f.strategy)
            && (f.strategy.None? ==> lot.openedAt <= f.at)
  {
    hide Before, Distinct, OldestFirst;
    if Eligible(lots[n - 1], f) {
      var p := InsertionPoint(lots, OpenLots(lots, f, n - 1), n - 1);
      if k != p {
        QueuedIsEligible(lots, f, n - 1, if k < p then k else k - 1);
      }
    } else {
      QueuedIsEligible(lots, f, n - 1, k);
    }
  }

  /** ... and every eligible row is. */
  lemma {:induction false} EligibleIsQueued(lots: seq<Lot>, f: LotFill, n: nat, i: nat) returns (k: nat)
    requires i < n <= |lots| && Eligible(lots[i], f)
    ensures k < |OpenLots(lots, f, n)| && OpenLots(lots, f, n)[k] == i
  {
    hide Before, Distinct, OldestFirst;
    if i == n - 1 {
      k := InsertionPoint(lots, OpenLots(lots, f, n - 1), i);
    } else {
      k := EligibleIsQueued(lots, f, n - 1, i);
      if Eligible(lots[n - 1], f) && InsertionPoint(lots, OpenLots(lots, f, n - 1), n - 1) <= k {
        k := k + 1;
      }
    }
  }

  // ── The consumption loop, one lot at a time ──────────────────────

  function Pnl(lot: Lot, price: real, qty: real): real {
    Signed(lot.side, price - lot.entryPrice) * qty
  }

  function Reduced(lot: Lot, f: LotFill, qty: real): Lot {
    lot.(qtyOpen := lot.qtyOpen - qty,
         realizedPnl := lot.realizedPnl + Pnl(lot, f.price, qty),
         closedAt := if lot.qtyOpen == qty then Some(f.at) else lot.closedAt)
  }

  function CloseOf(i: nat, lot: Lot, f: LotFill, qty: real): LotClose {
    LotClose(i, f.order, f.fill, lot.strategy, f.symbol, qty, Pnl(lot, f.price, qty), f.at)
  }

  datatype Walk = Walk(lots: seq<Lot>, closes: seq<LotClose>, remaining: real)

  function Consume(lots: seq<Lot>, queue: seq<nat>, f: LotFill, remaining: real): (w: Walk)
    requires InRange(queue, |lots|)
    ensures |w.lots| == |lots|
    decreases |queue|
  {
    if queue == [] || remaining <= 0.0 then Walk(lots, [], remaining)
    else
      var i := queue[0];
      var qty := Min(lots[i].qtyOpen, remaining);
      var w := Consume(lots[i := Reduced(lots[i], f, qty)], queue[1..], f, remaining - qty);
      w.(closes := [CloseOf(i, lots[i], f, qty)] + w.closes)
  }

  // ── The whole application ────────────────────────────────────────

  function NewLot(f: LotFill, qty: real): Lot {
    Lot(f.strategy, f.symbol, f.side, qty, qty, f.price, f.fill, f.at, f.stamp, None, 0.0)
  }

  function RemainderOf(f: LotFill, qty: real): Remainder {
    Remainder(f.symbol, f.side, qty, f.price, f.at, f.order, f.fill)
  }

  function WalkOf(lots: seq<Lot>, f: LotFill): (w: Walk)
    ensures |w.lots| == |lots|
  {
    Consume(lots, OpenLots(lots, f, |lots|), f, f.qty)
  }

  /** Quantity that matched no lot and may not open one. */
  function Unapplied(lots: seq<Lot>, f: LotFill): real {
    if f.strategy.None? then Max(0.0, WalkOf(lots, f).remaining) else 0.0
  }

  function LotsAfter(lots: seq<Lot>, f: LotFill): seq<Lot> {
    var w := WalkOf(lots, f);
    if f.strategy.Some? && w.remaining > 0.0 then w.lots + [NewLot(f, w.remaining)] else w.lots
  }

  function ApplyFill(db: Db, f: LotFill, recordUnapplied: bool): Db {
    db.(lots := LotsAfter(db.lots, f),
        closes := db.closes + WalkOf(db.lots, f).closes,
        events := if recordUnapplied && Unapplied(db.lots, f) > 0.0
                  then db.events + [Parked(RemainderOf(f, Unapplied(db.lots, f)), None)]
                  else db.events)
  }

  function CloseQty(): LotClose -> real {
    (c: LotClose) => c.qty
  }

  function ClosePnl(): LotClose -> real {
    (c: LotClose) => c.realizedPnl
  }

  function ClosedQty(lot: nat): LotClose -> real {
    (c: LotClose) => if c.lot == lot then c.qty else 0.0
  }

  function ClosedPnl(lot: nat): LotClose -> real {
    (c: LotClose) => if c.lot == lot then c.realizedPnl else 0.0
  }

  /** One turn of the loop: the first lot gives what it can and the rest of the queue goes on. */
  lemma ConsumeStep(lots: seq<Lot>, queue: seq<nat>, f: LotFill, remaining: real)
    requires InRange(queue, |lots|) && queue != [] && remaining > 0.0
    ensures var i := queue[0];
            var qty := Min(lots[i].qtyOpen, remaining);
            var close := CloseOf(i, lots[i], f, qty);
            var next := Consume(lots[i := Reduced(lots[i], f, qty)], queue[1..], f, remaining - qty);
            && Consume(lots, queue, f, remaining) == Walk(next.lots, [close] + next.closes, next.remaining)
            && Sum([close] + next.closes, CloseQty()) == qty + Sum(next.closes, CloseQty())
            && Sum([close] + next.closes, ClosePnl()) == close.realizedPnl + Sum(next.closes, ClosePnl())
  {
    var i := queue[0];
    var qty := Min(lots[i].qtyOpen, remaining);
    var close := CloseOf(i, lots[i], f, qty);
    var next := Consume(lots[i := Reduced(lots[i], f, qty)], queue[1..], f, remaining - qty);
    SumPrepend(close, next.closes, CloseQty());
    SumPrepend(close, next.closes, ClosePnl());
  }

  lemma ConsumeStops(lots: seq<Lot>, queue: seq<nat>, f: LotFill, remaining: real)
    requires InRange(queue, |lots|) && (queue == [] || remaining <= 0.0)
    ensures Consume(lots, queue, f, remaining) == Walk(lots, [], remaining)
    ensures Sum([], CloseQty()) == 0.0 && Sum([], ClosePnl()) == 0.0
  {
  }

  /** The consumption loop: mutates lot rows and appends one close per lot touched. */
  method ConsumeLots(session: Session, openLots: seq<nat>, f: LotFill)
    returns (remaining: real, realized: real, qtyClosed: real)
    requires InRange(openLots, |session.lots|)
    modifies session`lots, session`closes
    ensures var w := Consume(old(session.lots), openLots, f, f.qty);
            && session.lots == w.lots
            && session.closes == old(session.closes) + w.closes
            && remaining == w.remaining
            && realized == Sum(w.closes, ClosePnl())
            && qtyClosed == Sum(w.closes, CloseQty())
  {
    hide Consume, Reduced, Pnl, Sum;
    remaining, realized, qtyClosed := f.qty, 0.0, 0.0;
    ghost var w := Consume(session.lots, openLots, f, f.qty);
    ghost var rest := w;
    var k := 0;
    assert openLots[0..] == openLots;
    while k < |openLots| && remaining > 0.0
      invariant 0 <= k <= |openLots|
      invariant InRange(openLots, |session.lots|)
      invariant rest == Consume(session.lots, openLots[k..], f, remaining)
      invariant rest.lots == w.lots && rest.remaining == w.remaining
      invariant session.closes + rest.closes == old(session.closes) + w.closes
      invariant qtyClosed + Sum(rest.closes, CloseQty()) == Sum(w.closes, CloseQty())
      invariant realized + Sum(rest.closes, ClosePnl()) == Sum(w.closes, ClosePnl())
    {
      var i := openLots[k];
      var lot := session.lots[i];
      var consumed := Min(lot.qtyOpen, remaining);
      var pnl := Pnl(lot, f.price, consumed);
      var close := CloseOf(i, lot, f, consumed);
      assert openLots[k..][1..] == openLots[k + 1..];
      ConsumeStep(session.lots, openLots[k..], f, remaining);
      session.lots := session.lots[i := Reduced(lot, f, consumed)];
      realized, qtyClosed, remaining := realized + pnl, qtyClosed + consumed, remaining - consumed;
      ghost var next := Consume(session.lots, openLots[k + 1..], f, remaining);
      assert session.closes + rest.closes == (session.closes + [close]) + next.closes;
      session.closes := session.closes + [close];
      rest := next;
      k := k + 1;
    }
    ConsumeStops(session.lots, openLots[k..], f, remaining);
  }

  /** `apply_fill_to_lots`: consume the eligible lots, then open a lot or park the remainder. */
  method ApplyFillToLots(session: Session, f: LotFill, recordUnapplied: bool) returns (r: LotApplication)
    modifies session`lots, session`closes, session`events
    ensures session.Rows() == ApplyFill(old(session.Rows()), f, recordUnapplied)
    ensures r.unapplied == Unapplied(old(session.lots), f)
    ensures r.qtyClosed == Sum(WalkOf(old(session.lots), f).closes, CloseQty())
    ensures r.realizedPnl == Sum(WalkOf(old(session.lots), f).closes, ClosePnl())
    ensures r.openedLot == if f.strategy.Some? && WalkOf(old(session.lots), f).remaining > 0.0
                           then Some(|old(session.lots)|) else None
  {
    var openLots := OpenLots(session.lots, f, |session.lots|);
    var remaining, realized, qtyClosed := ConsumeLots(session, openLots, f);
    var openedLot, unapplied := None, 0.0;
    if remaining > 0.0 {
      if f.strategy.None? {
        unapplied := remaining;
        if recordUnapplied {
          session.events := session.events + [Parked(RemainderOf(f, remaining), None)];
        }
      } else {
        session.lots := session.lots + [NewLot(f, remaining)];
        openedLot := Some(|session.lots| - 1);
      }
    }
    r := LotApplication(realized, qtyClosed, openedLot, unapplied);
  }
}
