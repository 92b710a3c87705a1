/** The fill ledger: which fill rows each writer adds, and at what price. */
module FillLedger {
  import opened Domain
  import opened Sums
  import opened Tables

  // ── The cursor ───────────────────────────────────────────────────

  datatype Applied = Applied(qty: real, notional: real)

  function QtyOf(order: nat): Fill -> real {
    (f: Fill) => if f.order == order then f.qty else 0.0
  }

  function NotionalOf(order: nat): Fill -> real {
    (f: Fill) => if f.order == order then f.qty * f.price else 0.0
  }

  /** `applied_ledger`: recorded quantity and notional of one order. */
  function AppliedLedger(fills: seq<Fill>, order: nat): Applied {
    Applied(Sum(fills, QtyOf(order)), Sum(fills, NotionalOf(order)))
  }

  predicate HasKey(fills: seq<Fill>, key: FillKey) {
    exists i :: 0 <= i < |fills| && fills[i].key == key
  }

  // ── The price column ─────────────────────────────────────────────

  /** Exact arithmetic, or the stored column's six decimals, halves rounded away from zero. */
  datatype Column = Exact | Micros

  function RoundMicro(x: real): real {
    if x < 0.0 then -(((-x) * 1000000.0 + 0.5).Floor as real / 1000000.0)
    else (x * 1000000.0 + 0.5).Floor as real / 1000000.0
  }

  /** Both signs round alike, to the nearest micro and halves away from zero. */
  lemma RoundingIsSymmetric(x: real)
    ensures RoundMicro(-x) == -RoundMicro(x)
    ensures x >= 0.0 ==> -0.5 < (RoundMicro(x) - x) * 1000000.0 <= 0.5
  {
  }

  function Stored(column: Column, price: real): real {
    if column.Exact? then price else RoundMicro(price)
  }

  // ── Span pricing and synthesis ───────────────────────────────────

  /** `span_price`: back the missed span's price out of the notional difference. */
  function SpanPrice(cumQty: real, cumAvg: Option<real>, applied: Applied, span: real): real
    requires span > 0.0
  {
    if cumAvg.None? then
      if applied.qty > 0.0 then applied.notional / applied.qty else 0.0
    else if applied.qty == 0.0 then cumAvg.value
    else
      var derived := (cumQty * cumAvg.value - applied.notional) / span;
      if derived <= 0.0 then cumAvg.value else derived
  }

  /** The span's price makes the ledger meet the broker's average, unless that would need a price that is not
      positive; without an average it repeats the ledger's own. */
  lemma SpanMeetsTheAverage(cumQty: real, cumAvg: Option<real>, applied: Applied, span: real)
    requires span > 0.0
    ensures var price := SpanPrice(cumQty, cumAvg, applied, span);
            && (cumAvg.None? && applied.qty > 0.0 ==> price * applied.qty == applied.notional)
            && (cumAvg.None? && applied.qty <= 0.0 ==> price == 0.0)
            && (cumAvg.Some? && applied.qty == 0.0 ==> price == cumAvg.value)
            && (cumAvg.Some? && applied.qty != 0.0 ==>
                  if cumQty * cumAvg.value > applied.notional then applied.notional + price * span == cumQty * cumAvg.value
                  else price == cumAvg.value)
  {
    if cumAvg.Some? && applied.qty != 0.0 {
      var missing := cumQty * cumAvg.value - applied.notional;
      assert missing / span * span == missing;
      assert missing > 0.0 <==> missing / span > 0.0;
    }
  }

  /** The non-positive derivation that falls back to the broker's average. */
  predicate Degenerate(cumQty: real, cumAvg: Option<real>, applied: Applied, span: real)
    requires span > 0.0
  {
    cumAvg.Some? && applied.qty != 0.0 && (cumQty * cumAvg.value - applied.notional) / span <= 0.0
  }

  /** `synthesize_span`: at most one row, none when its deterministic id is already there. */
  function Synthesize(column: Column, fills: seq<Fill>, order: nat, span: real, price: real, at: Time, tag: Tag): seq<Fill> {
    var key := Synthetic(tag, order, AppliedLedger(fills, order).qty + span);
    if HasKey(fills, key) then [] else [Fill(order, key, span, Stored(column, price), at)]
  }

  /** Back-fill an order's ledger up to a cumulative, if it trails. Stream gaps, reconciliation and
      the deficit sweep all do exactly this, from different evidence. */
  function CatchUp(column: Column, fills: seq<Fill>, order: nat, cumQty: real, cumAvg: Option<real>, at: Time, tag: Tag): seq<Fill> {
    var applied := AppliedLedger(fills, order);
    if applied.qty >= cumQty then []
    else
      var span := cumQty - applied.qty;
      Synthesize(column, fills, order, span, SpanPrice(cumQty, cumAvg, applied, span), at, tag)
  }

  // ── Stream events ────────────────────────────────────────────────

  /** `_prior_avg`: the cumulative average before this execution. */
  function PriorAvg(u: TradeUpdate): Option<real> {
    var cum, avg := u.order.filledQty, u.order.filledAvg;
    if avg.None? || u.qty.None? || u.price.None? then avg
    else
      var prior := cum - u.qty.value;
      if prior <= 0.0 then avg else Some((cum * avg.value - u.qty.value * u.price.value) / prior)
  }

  /** Before the last execution the average was such that the execution brings it to the reported one; an event
      whose execution is the first, or that has none, reports its average as it is. */
  lemma PriorAverages(u: TradeUpdate)
    requires u.order.filledAvg.Some?
    ensures PriorAvg(u).Some?
    ensures IsExecution(u) && u.order.filledQty > u.qty.value ==>
              var prior := u.order.filledQty - u.qty.value;
              prior * PriorAvg(u).value + u.qty.value * u.price.value == u.order.filledQty * u.order.filledAvg.value
    ensures !IsExecution(u) || u.order.filledQty <= u.qty.value ==> PriorAvg(u) == u.order.filledAvg
  {
    if IsExecution(u) && u.order.filledQty > u.qty.value {
      var prior := u.order.filledQty - u.qty.value;
      var notional := u.order.filledQty * u.order.filledAvg.value - u.qty.value * u.price.value;
      assert prior * (notional / prior) == notional;
    }
  }

  function FillKeyOf(order: nat, u: TradeUpdate): FillKey {
    if u.executionId.Some? then Execution(u.executionId.value) else NoExecution(order, u.order.filledQty)
  }

  predicate IsExecution(u: TradeUpdate) {
    u.qty.Some? && u.price.Some?
  }

  predicate Duplicate(fills: seq<Fill>, order: nat, u: TradeUpdate) {
    IsExecution(u) && HasKey(fills, FillKeyOf(order, u))
  }

  /** The rows that make up for executions the stream dropped before this event. */
  function GapFills(column: Column, fills: seq<Fill>, order: nat, u: TradeUpdate): seq<Fill> {
    if Duplicate(fills, order, u) then []
    else if IsExecution(u) then
      CatchUp(column, fills, order, u.order.filledQty - u.qty.value, PriorAvg(u), u.at, Gap)
    else CatchUp(column, fills, order, u.order.filledQty, u.order.filledAvg, u.at, Gap)
  }

  /** The execution's own row, clamped to what the cumulative still allows; `fills` holds the gap. */
  function ExecutionFills(column: Column, fills: seq<Fill>, order: nat, u: TradeUpdate): seq<Fill>
    requires IsExecution(u)
  {
    var effective := Min(u.qty.value, u.order.filledQty - AppliedLedger(fills, order).qty);
    if effective <= 0.0 then []
    else [Fill(order, FillKeyOf(order, u), effective, Stored(column, u.price.value), u.at)]
  }

  /** Everything one stream event adds to the ledger. */
  function EventFills(column: Column, fills: seq<Fill>, order: nat, u: TradeUpdate): seq<Fill> {
    var gap := GapFills(column, fills, order, u);
    if Duplicate(fills, order, u) || !IsExecution(u) then gap
    else gap + ExecutionFills(column, fills + gap, order, u)
  }

  // ── What every writer keeps ──────────────────────────────────────

  /** Quantities are positive and a synthetic id's cumulative has been reached by its order. */
  ghost predicate LedgerOk(fills: seq<Fill>) {
    forall i :: 0 <= i < |fills| ==>
      && fills[i].qty > 0.0
      && (fills[i].key.Synthetic? ==>
            && fills[i].key.order == fills[i].order
            && fills[i].key.cumulative <= AppliedLedger(fills, fills[i].order).qty)
  }

  lemma LedgerAppend(fills: seq<Fill>, f: Fill, order: nat)
    ensures AppliedLedger(fills + [f], order) ==
            if f.order == order
            then Applied(AppliedLedger(fills, order).qty + f.qty, AppliedLedger(fills, order).notional + f.qty * f.price)
            else AppliedLedger(fills, order)
  {
    SumAppend(fills, f, QtyOf(order));
    SumAppend(fills, f, NotionalOf(order));
  }

  lemma AppendKeepsOk(fills: seq<Fill>, f: Fill)
    requires LedgerOk(fills) && f.qty > 0.0
    requires f.key.Synthetic? ==> f.key.order == f.order && f.key.cumulative <= AppliedLedger(fills, f.order).qty + f.qty
    ensures LedgerOk(fills + [f])
  {
    forall i | 0 <= i < |fills + [f]|
      ensures (fills + [f])[i].key.Synthetic? ==>
                (fills + [f])[i].key.cumulative <= AppliedLedger(fills + [f], (fills + [f])[i].order).qty
    {
      LedgerAppend(fills, f, (fills + [f])[i].order);
    }
  }

  lemma LedgerIsNonNegative(fills: seq<Fill>, order: nat)
    requires LedgerOk(fills)
    ensures AppliedLedger(fills, order).qty >= 0.0
  {
    SumIsNonNegative(fills, QtyOf(order));
  }

  /** The deterministic id never blocks a needed row, so catching up always reaches the cumulative. */
  lemma CatchUpReaches(column: Column, fills: seq<Fill>, order: nat, cumQty: real, cumAvg: Option<real>, at: Time, tag: Tag, other: nat)
    requires LedgerOk(fills)
    ensures var after := fills + CatchUp(column, fills, order, cumQty, cumAvg, at, tag);
            && LedgerOk(after)
            && AppliedLedger(after, other).qty ==
               (if other == order then Max(AppliedLedger(fills, order).qty, cumQty) else AppliedLedger(fills, other).qty)
            && |CatchUp(column, fills, order, cumQty, cumAvg, at, tag)|
               == (if AppliedLedger(fills, order).qty < cumQty then 1 else 0)
  {
    var more := CatchUp(column, fills, order, cumQty, cumAvg, at, tag);
    if AppliedLedger(fills, order).qty < cumQty {
      assert !HasKey(fills, Synthetic(tag, order, cumQty));
      LedgerAppend(fills, more[0], other);
      AppendKeepsOk(fills, more[0]);
    } else {
      assert fills + more == fills;
    }
  }

  /** The execution's row brings a ledger that has reached the execution's start to its end. */
  lemma ExecutionCompletes(column: Column, fills: seq<Fill>, order: nat, u: TradeUpdate, other: nat)
    requires LedgerOk(fills) && IsExecution(u)
    requires AppliedLedger(fills, order).qty >= u.order.filledQty - u.qty.value
    ensures var after := fills + ExecutionFills(column, fills, order, u);
            && LedgerOk(after)
            && AppliedLedger(after, other).qty ==
               if other == order
               then Max(AppliedLedger(fills, order).qty, u.order.filledQty)
               else AppliedLedger(fills, other).qty
  {
    var last := ExecutionFills(column, fills, order, u);
    if last != [] {
      LedgerAppend(fills, last[0], other);
      AppendKeepsOk(fills, last[0]);
    } else {
      assert fills + last == fills;
    }
  }

  /** With no trust in the broker at all: a stream event moves the ledger from L to max(L, cumulative),
      a duplicate leaves it, and no other order's ledger moves. */
  lemma EventReachesCumulative(column: Column, fills: seq<Fill>, order: nat, u: TradeUpdate, other: nat)
    requires LedgerOk(fills)
    requires IsExecution(u) ==> u.qty.value > 0.0
    ensures var after := fills + EventFills(column, fills, order, u);
            && LedgerOk(after)
            && AppliedLedger(after, other).qty ==
               if other == order && !Duplicate(fills, order, u)
               then Max(AppliedLedger(fills, order).qty, u.order.filledQty)
               else AppliedLedger(fills, other).qty
  {
    if Duplicate(fills, order, u) {
      assert fills + EventFills(column, fills, order, u) == fills;
    } else if !IsExecution(u) {
      CatchUpReaches(column, fills, order, u.order.filledQty, u.order.filledAvg, u.at, Gap, other);
    } else {
      var start, prior := u.order.filledQty - u.qty.value, PriorAvg(u);
      var gap := CatchUp(column, fills, order, start, prior, u.at, Gap);
      CatchUpReaches(column, fills, order, start, prior, u.at, Gap, other);
      CatchUpReaches(column, fills, order, start, prior, u.at, Gap, order);
      ExecutionCompletes(column, fills + gap, order, u, other);
      assert fills + EventFills(column, fills, order, u) == (fills + gap) + ExecutionFills(column, fills + gap, order, u);
    }
  }
}
