/** A consistent broker trace: whatever is delivered, in whatever order, the ledger is a trace prefix. */
module TraceRefinement {
  import opened Domain
  import opened Sums
  import opened Tables
  import opened FillLedger
  import opened LedgerRuns

  datatype Exec = Exec(id: ExecutionId, qty: real, price: real)

  type Trace = seq<Exec>

  // ── What the broker reports along a trace ────────────────────────

  ghost function ExecQty(): Exec -> real {
    (e: Exec) => e.qty
  }

  ghost function ExecNotional(): Exec -> real {
    (e: Exec) => e.qty * e.price
  }

  /** Cumulative quantity and notional after the first `k` executions. */
  ghost function Cum(trace: Trace, k: nat): Applied
    requires k <= |trace|
  {
    Applied(Sum(trace[..k], ExecQty()), Sum(trace[..k], ExecNotional()))
  }

  /** `filled_qty` and `filled_avg_price` as reported after `k` executions. */
  ghost predicate Reports(trace: Trace, k: nat, cumQty: real, cumAvg: Option<real>) {
    && k <= |trace|
    && cumQty == Cum(trace, k).qty
    && (k > 0 ==> cumAvg.Some? && cumQty * cumAvg.value == Cum(trace, k).notional)
  }

  /** A stream event at trace index `k`: execution `k`, with or without its id, or a non-fill event. */
  ghost predicate EventAt(trace: Trace, k: nat, u: TradeUpdate) {
    && Reports(trace, k, u.order.filledQty, u.order.filledAvg)
    && (IsExecution(u) ==>
          && k > 0
          && u.qty.value == trace[k - 1].qty
          && u.price.value == trace[k - 1].price
          && (u.executionId.Some? ==> u.executionId.value == trace[k - 1].id))
  }

  // ── Storage error ────────────────────────────────────────────────

  /** The most a stored price can differ from the computed one. */
  const HALF_MICRO: real := 0.0000005

  ghost function Epsilon(column: Column): real {
    if column.Exact? then 0.0 else HALF_MICRO
  }

  /** Quantity of the order's most recently synthesized span. */
  ghost function LastSpan(fills: seq<Fill>, order: nat): real {
    if fills == [] then 0.0
    else
      var f := fills[|fills| - 1];
      if f.order == order && f.key.Synthetic? then f.qty else LastSpan(fills[..|fills| - 1], order)
  }

  lemma StoredIsClose(column: Column, price: real)
    ensures Abs(Stored(column, price) - price) <= Epsilon(column)
  {
    if column.Micros? {
      var x := if price < 0.0 then -price else price;
      var y := x * 1000000.0 + 0.5;
      assert y - 1.0 < y.Floor as real <= y;
    }
  }

  /** Positive executions with distinct ids, whose prices fit the column. */
  ghost predicate PlainTrace(column: Column, trace: Trace) {
    && (forall i :: 0 <= i < |trace| ==>
          trace[i].qty > 0.0 && trace[i].price > 0.0 && Stored(column, trace[i].price) == trace[i].price)
    && (forall i, j :: 0 <= i < j < |trace| ==> trace[i].id != trace[j].id)
  }

  /** Each execution is worth more than any error the column can carry, so no derived price is ever pushed
      below zero; for exact arithmetic this says only that it is positive. */
  ghost predicate Worthy(column: Column, trace: Trace) {
    forall i :: 0 <= i < |trace| ==> trace[i].qty * trace[i].price > Epsilon(column) * Cum(trace, |trace|).qty
  }

  // ── The trace is strictly increasing ─────────────────────────────

  lemma CumStep(trace: Trace, k: nat)
    requires k < |trace|
    ensures Cum(trace, k + 1).qty == Cum(trace, k).qty + trace[k].qty
    ensures Cum(trace, k + 1).notional == Cum(trace, k).notional + trace[k].qty * trace[k].price
  {
    assert trace[..k + 1][..k] == trace[..k];
  }

  lemma {:induction false} CumGrows(column: Column, trace: Trace, j: nat, k: nat)
    requires PlainTrace(column, trace) && j <= k <= |trace|
    ensures Cum(trace, j).qty <= Cum(trace, k).qty
    ensures j < k ==> Cum(trace, j).qty < Cum(trace, k).qty
    ensures 0.0 <= Cum(trace, j).qty <= Cum(trace, |trace|).qty
    decreases |trace| - j
  {
    if j < k {
      CumStep(trace, j);
      CumGrows(column, trace, j + 1, k);
    } else if k < |trace| {
      CumStep(trace, k);
      CumGrows(column, trace, k + 1, k + 1);
    }
    CumIsNonNegative(column, trace, j);
  }

  lemma {:induction false} WorthGrows(column: Column, trace: Trace, j: nat, k: nat)
    requires PlainTrace(column, trace) && Worthy(column, trace) && j < k <= |trace|
    ensures Cum(trace, k).notional - Cum(trace, j).notional > Epsilon(column) * Cum(trace, |trace|).qty
  {
    CumStep(trace, k - 1);
    if j < k - 1 {
      WorthGrows(column, trace, j, k - 1);
      CumIsNonNegative(column, trace, |trace|);
      assert Epsilon(column) * Cum(trace, |trace|).qty >= 0.0;
    }
  }

  lemma {:induction false} CumIsNonNegative(column: Column, trace: Trace, k: nat)
    requires PlainTrace(column, trace) && k <= |trace|
    ensures Cum(trace, k).qty >= 0.0
  {
    SumIsNonNegative(trace[..k], ExecQty());
  }

  // ── One span lands on the trace ──────────────────────────────────

  lemma ScaledError(span: real, a: real, b: real, bound: real)
    requires span >= 0.0 && Abs(a - b) <= bound
    ensures Abs(span * a - span * b) <= span * bound
  {
    assert span * a - span * b == span * (a - b);
    assert span * (a - b) <= span * bound && span * (a - b) >= span * (-bound);
  }

  lemma Divides(x: real, y: real)
    requires y != 0.0
    ensures y * (x / y) == x
  {
  }

  /** Away from the fallback, the span is worth exactly what the ledger is missing. */
  lemma SpanIsExact(cumQty: real, cumAvg: Option<real>, applied: Applied)
    requires applied.qty < cumQty && cumAvg.Some?
    requires !Degenerate(cumQty, cumAvg, applied, cumQty - applied.qty)
    requires applied.qty == 0.0 ==> applied.notional == 0.0
    ensures var span := cumQty - applied.qty;
            span * SpanPrice(cumQty, cumAvg, applied, span) == cumQty * cumAvg.value - applied.notional
  {
    Divides(cumQty * cumAvg.value - applied.notional, cumQty - applied.qty);
  }

  /** A span from prefix `j` to prefix `k` is priced from the recorded notional: unless the fallback price
      is used, all earlier error is absorbed and only the span's own rounding is left. */
  lemma SpanLands(column: Column, trace: Trace, k: nat, applied: Applied,
                  cumQty: real, cumAvg: Option<real>, span: real, stored: real)
    requires 0 < k <= |trace| && Reports(trace, k, cumQty, cumAvg)
    requires applied.qty < cumQty && span == cumQty - applied.qty
    requires applied.qty == 0.0 ==> applied.notional == 0.0
    requires !Degenerate(cumQty, cumAvg, applied, span)
    requires stored == Stored(column, SpanPrice(cumQty, cumAvg, applied, span))
    ensures Abs(applied.notional + span * stored - Cum(trace, k).notional) <= Epsilon(column) * span
  {
    hide Stored, Cum, SpanPrice, Degenerate;
    SpanIsExact(cumQty, cumAvg, applied);
    var price := SpanPrice(cumQty, cumAvg, applied, span);
    StoredIsClose(column, price);
    ScaledError(span, stored, price, Epsilon(column));
    assert applied.notional + span * stored - Cum(trace, k).notional == span * stored - span * price;
  }

  /** What is missing between two prefixes of a worthy trace outweighs any error the ledger can carry, so
      the fallback is not taken. */
  lemma WorthStaysClear(column: Column, trace: Trace, j: nat, k: nat, applied: Applied, error: real, cumQty: real, cumAvg: Option<real>)
    requires PlainTrace(column, trace) && Worthy(column, trace) && j < k <= |trace|
    requires Reports(trace, k, cumQty, cumAvg) && applied.qty == Cum(trace, j).qty < cumQty
    requires 0.0 <= error <= Cum(trace, j).qty
    requires Abs(applied.notional - Cum(trace, j).notional) <= Epsilon(column) * error
    ensures !Degenerate(cumQty, cumAvg, applied, cumQty - applied.qty)
  {
    hide PlainTrace, Worthy, Cum;
    WorthGrows(column, trace, j, k);
    CumGrows(column, trace, j, |trace|);
    assert Epsilon(column) * error <= Epsilon(column) * Cum(trace, |trace|).qty;
    var missing, span := cumQty * cumAvg.value - applied.notional, cumQty - applied.qty;
    assert missing > 0.0;
    Divides(missing, span);
    assert missing / span > 0.0;
  }

  // ── The refinement invariant ─────────────────────────────────────

  /** Execution ids are the broker's, so they are unique across orders as well. */
  ghost predicate PlainTraces(column: Column, traces: seq<Trace>) {
    && (forall o :: 0 <= o < |traces| ==> PlainTrace(column, traces[o]))
    && (forall o, p, i, j :: 0 <= o < |traces| && 0 <= p < |traces| && o != p && 0 <= i < |traces[o]| && 0 <= j < |traces[p]|
          ==> traces[o][i].id != traces[p][j].id)
  }

  ghost predicate WorthyTraces(column: Column, traces: seq<Trace>) {
    PlainTraces(column, traces) && forall o :: 0 <= o < |traces| ==> Worthy(column, traces[o])
  }

  /** In exact arithmetic every positive trace is worthy. */
  lemma ExactIsWorthy(traces: seq<Trace>)
    requires PlainTraces(Exact, traces)
    ensures WorthyTraces(Exact, traces)
  {
    forall o | 0 <= o < |traces| ensures Worthy(Exact, traces[o]) {
      forall i | 0 <= i < |traces[o]| ensures traces[o][i].qty * traces[o][i].price > Epsilon(Exact) * Cum(traces[o], |traces[o]|).qty {
        assert PlainTrace(Exact, traces[o]);
      }
    }
  }

  /** One order's ledger is its trace prefix, up to the last span's rounding. */
  ghost predicate AtPrefix(column: Column, fills: seq<Fill>, order: nat, trace: Trace, k: nat) {
    && k <= |trace|
    && AppliedLedger(fills, order).qty == Cum(trace, k).qty
    && 0.0 <= LastSpan(fills, order) <= Cum(trace, k).qty
    && Abs(AppliedLedger(fills, order).notional - Cum(trace, k).notional) <= Epsilon(column) * LastSpan(fills, order)
  }

  /** A recorded key is evidence that its order's ledger has passed the execution it names. */
  ghost predicate KeyPassed(f: Fill, traces: seq<Trace>, seen: seq<nat>)
    requires |seen| == |traces| && forall o :: 0 <= o < |traces| ==> seen[o] <= |traces[o]|
  {
    && f.order < |traces|
    && match f.key
       case Execution(id) => exists j :: 0 <= j < seen[f.order] && traces[f.order][j].id == id
       case NoExecution(o, cumulative) => o == f.order && cumulative <= Cum(traces[o], seen[o]).qty
       case Synthetic(_, _, _) => true
  }

  ghost predicate Refines(column: Column, fills: seq<Fill>, traces: seq<Trace>, seen: seq<nat>) {
    && LedgerOk(fills)
    && |seen| == |traces|
    && (forall o :: 0 <= o < |traces| ==> AtPrefix(column, fills, o, traces[o], seen[o]))
    && (forall i :: 0 <= i < |fills| ==> KeyPassed(fills[i], traces, seen))
  }

  lemma RowAdvances(column: Column, fills: seq<Fill>, traces: seq<Trace>, seen: seq<nat>, f: Fill, k: nat)
    requires PlainTraces(column, traces) && Refines(column, fills, traces, seen)
    requires f.order < |traces| && seen[f.order] <= k <= |traces[f.order]|
    requires f.qty > 0.0
    requires f.key.Synthetic? ==> f.key.order == f.order && f.key.cumulative <= AppliedLedger(fills, f.order).qty + f.qty
    requires AtPrefix(column, fills + [f], f.order, traces[f.order], k)
    requires KeyPassed(f, traces, seen[f.order := k])
    ensures Refines(column, fills + [f], traces, seen[f.order := k])
  {
    hide KeyPassed, PlainTrace, Cum;
    var after, now := fills + [f], seen[f.order := k];
    AppendKeepsOk(fills, f);
    forall o | 0 <= o < |traces| ensures AtPrefix(column, after, o, traces[o], now[o]) {
      if o != f.order {
        LedgerAppend(fills, f, o);
        assert after[..|after| - 1] == fills;
      }
    }
    forall i | 0 <= i < |after| ensures KeyPassed(after[i], traces, now) {
      if i < |fills| {
        KeyStaysPassed(column, fills[i], traces, seen, f.order, k);
      }
    }
  }

  lemma KeyStaysPassed(column: Column, f: Fill, traces: seq<Trace>, seen: seq<nat>, order: nat, k: nat)
    requires PlainTraces(column, traces) && |seen| == |traces|
    requires forall o :: 0 <= o < |traces| ==> seen[o] <= |traces[o]|
    requires order < |traces| && seen[order] <= k <= |traces[order]| && KeyPassed(f, traces, seen)
    ensures KeyPassed(f, traces, seen[order := k])
  {
    CumGrows(column, traces[order], seen[order], k);
  }

  /** A synthesized row whose own rounding is all the error there is. */
  lemma SpanAppends(column: Column, fills: seq<Fill>, f: Fill, trace: Trace, k: nat)
    requires LedgerOk(fills) && k <= |trace| && f.qty > 0.0 && f.key.Synthetic?
    requires AppliedLedger(fills, f.order).qty + f.qty == Cum(trace, k).qty
    requires Abs(AppliedLedger(fills, f.order).notional + f.qty * f.price - Cum(trace, k).notional) <= Epsilon(column) * f.qty
    ensures AtPrefix(column, fills + [f], f.order, trace, k)
  {
    LedgerIsNonNegative(fills, f.order);
    LedgerAppend(fills, f, f.order);
  }

  /** The next execution's own row adds no error. */
  lemma ExecutionAppends(column: Column, fills: seq<Fill>, f: Fill, trace: Trace, k: nat)
    requires k < |trace| && AtPrefix(column, fills, f.order, trace, k)
    requires !f.key.Synthetic? && f.qty == trace[k].qty && f.price == trace[k].price && f.qty > 0.0
    ensures AtPrefix(column, fills + [f], f.order, trace, k + 1)
  {
    CumStep(trace, k);
    LedgerAppend(fills, f, f.order);
    assert (fills + [f])[..|fills|] == fills;
  }

  /** Catching up would price its span with the degenerate fallback. */
  predicate FallsBack(fills: seq<Fill>, order: nat, cumQty: real, cumAvg: Option<real>) {
    var applied := AppliedLedger(fills, order);
    applied.qty < cumQty && Degenerate(cumQty, cumAvg, applied, cumQty - applied.qty)
  }

  predicate StepFallsBack(fills: seq<Fill>, step: Step) {
    match step
    case Snapshot(order, cumQty, cumAvg, _) => FallsBack(fills, order, cumQty, cumAvg)
    case Event(order, u) =>
      && !Duplicate(fills, order, u)
      && if IsExecution(u) then FallsBack(fills, order, u.order.filledQty - u.qty.value, PriorAvg(u))
         else FallsBack(fills, order, u.order.filledQty, u.order.filledAvg)
  }

  function Larger(a: nat, b: nat): nat {
    if a <= b then b else a
  }

  lemma PrefixHasNotional(column: Column, fills: seq<Fill>, order: nat, trace: Trace, j: nat)
    requires PlainTrace(column, trace) && AtPrefix(column, fills, order, trace, j)
    ensures AppliedLedger(fills, order).qty == 0.0 ==> AppliedLedger(fills, order).notional == 0.0
  {
    if j > 0 {
      CumGrows(column, trace, 0, j);
    }
    assert trace[..0] == [];
  }

  /** Catching up to reported prefix `k` without the fallback moves the ledger to the larger of the two
      prefixes. */
  lemma CatchUpRefines(column: Column, fills: seq<Fill>, traces: seq<Trace>, seen: seq<nat>, order: nat, k: nat,
                       cumQty: real, cumAvg: Option<real>, at: Time, tag: Tag)
    requires PlainTraces(column, traces) && Refines(column, fills, traces, seen)
    requires order < |traces| && Reports(traces[order], k, cumQty, cumAvg)
    requires !FallsBack(fills, order, cumQty, cumAvg)
    ensures Refines(column, fills + CatchUp(column, fills, order, cumQty, cumAvg, at, tag), traces,
                    seen[order := Larger(seen[order], k)])
  {
    hide Stored, SpanPrice, Degenerate, Cum, AppliedLedger, LastSpan;
    var trace, j := traces[order], seen[order];
    var applied := AppliedLedger(fills, order);
    if k <= j {
      CumGrows(column, trace, k, j);
      assert seen[order := j] == seen;
      assert fills + [] == fills;
    } else {
      CumGrows(column, trace, j, k);
      CatchUpReaches(column, fills, order, cumQty, cumAvg, at, tag, order);
      PrefixHasNotional(column, fills, order, trace, j);
      var f := CatchUp(column, fills, order, cumQty, cumAvg, at, tag)[0];
      SpanLands(column, trace, k, applied, cumQty, cumAvg, f.qty, f.price);
      assert f.order == order && applied == AppliedLedger(fills, f.order);
      assert Abs(applied.notional + f.qty * f.price - Cum(trace, k).notional) <= Epsilon(column) * f.qty;
      SpanAppends(column, fills, f, trace, k);
      RowAdvances(column, fills, traces, seen, f, k);
    }
  }

  lemma CatchUpStaysClear(column: Column, fills: seq<Fill>, traces: seq<Trace>, seen: seq<nat>, order: nat, k: nat,
                          cumQty: real, cumAvg: Option<real>)
    requires WorthyTraces(column, traces) && Refines(column, fills, traces, seen)
    requires order < |traces| && Reports(traces[order], k, cumQty, cumAvg)
    ensures !FallsBack(fills, order, cumQty, cumAvg)
  {
    hide Degenerate, Cum, AppliedLedger, LastSpan, PlainTrace, Worthy;
    var trace, j := traces[order], seen[order];
    if k <= j {
      CumGrows(column, trace, k, j);
    } else {
      CumGrows(column, trace, j, k);
      WorthStaysClear(column, trace, j, k, AppliedLedger(fills, order), LastSpan(fills, order), cumQty, cumAvg);
    }
  }

  // ── Stream events ────────────────────────────────────────────────

  /** The average backed out of an execution's event is the trace's average before it. */
  lemma PriorIsReported(column: Column, trace: Trace, k: nat, u: TradeUpdate)
    requires PlainTrace(column, trace) && EventAt(trace, k, u) && IsExecution(u)
    ensures Reports(trace, k - 1, u.order.filledQty - u.qty.value, PriorAvg(u))
  {
    hide PlainTrace, Cum;
    CumStep(trace, k - 1);
    if k > 1 {
      CumGrows(column, trace, 0, k - 1);
      var prior := u.order.filledQty - u.qty.value;
      Divides(u.order.filledQty * u.order.filledAvg.value - u.qty.value * u.price.value, prior);
    }
  }

  lemma DuplicateIsBehind(column: Column, fills: seq<Fill>, traces: seq<Trace>, seen: seq<nat>, order: nat, k: nat, u: TradeUpdate)
    requires PlainTraces(column, traces) && Refines(column, fills, traces, seen)
    requires order < |traces| && EventAt(traces[order], k, u) && Duplicate(fills, order, u)
    ensures k <= seen[order]
  {
    var i :| 0 <= i < |fills| && fills[i].key == FillKeyOf(order, u);
    assert KeyPassed(fills[i], traces, seen);
    if u.executionId.Some? {
      var o := fills[i].order;
      var j :| 0 <= j < seen[o] && traces[o][j].id == u.executionId.value;
      assert o == order && j == k - 1;
    } else if seen[order] < k {
      CumGrows(column, traces[order], seen[order], k);
    }
  }

  lemma ExecutionRefines(column: Column, fills: seq<Fill>, traces: seq<Trace>, seen: seq<nat>, order: nat, k: nat, u: TradeUpdate)
    requires PlainTraces(column, traces) && Refines(column, fills, traces, seen)
    requires order < |traces| && EventAt(traces[order], k, u) && IsExecution(u)
    requires k - 1 <= seen[order]
    ensures Refines(column, fills + ExecutionFills(column, fills, order, u), traces, seen[order := Larger(seen[order], k)])
  {
    hide RoundMicro, Cum, Epsilon, AppliedLedger, LastSpan, Abs;
    var trace, j := traces[order], seen[order];
    CumStep(trace, k - 1);
    if k <= j {
      CumGrows(column, trace, k, j);
      assert seen[order := j] == seen;
      assert fills + [] == fills;
    } else {
      var f := ExecutionFills(column, fills, order, u)[0];
      ExecutionAppends(column, fills, f, trace, k - 1);
      RowAdvances(column, fills, traces, seen, f, k);
    }
  }

  /** Any event of a consistent trace, early or late, repeated or alone, moves the ledger to the larger
      prefix, as long as the degenerate-price fallback is not taken on the way. */
  lemma EventRefines(column: Column, fills: seq<Fill>, traces: seq<Trace>, seen: seq<nat>, order: nat, k: nat, u: TradeUpdate)
    requires PlainTraces(column, traces) && Refines(column, fills, traces, seen)
    requires order < |traces| == |seen| && EventAt(traces[order], k, u)
    requires !StepFallsBack(fills, Event(order, u))
    ensures Refines(column, fills + EventFills(column, fills, order, u), traces, seen[order := Larger(seen[order], k)])
  {
    hide FallsBack, Refines, PlainTrace, CatchUp, ExecutionFills, PriorAvg, HasKey, Reports;
    if Duplicate(fills, order, u) {
      DuplicateIsBehind(column, fills, traces, seen, order, k, u);
      assert fills + EventFills(column, fills, order, u) == fills;
      assert seen[order := Larger(seen[order], k)] == seen;
    } else if !IsExecution(u) {
      CatchUpRefines(column, fills, traces, seen, order, k, u.order.filledQty, u.order.filledAvg, u.at, Gap);
    } else {
      var start, prior := u.order.filledQty - u.qty.value, PriorAvg(u);
      var gap := CatchUp(column, fills, order, start, prior, u.at, Gap);
      PriorIsReported(column, traces[order], k, u);
      CatchUpRefines(column, fills, traces, seen, order, k - 1, start, prior, u.at, Gap);
      var now := seen[order := Larger(seen[order], k - 1)];
      ExecutionRefines(column, fills + gap, traces, now, order, k, u);
      assert fills + EventFills(column, fills, order, u) == (fills + gap) + ExecutionFills(column, fills + gap, order, u);
      assert now[order := Larger(now[order], k)] == seen[order := Larger(seen[order], k)];
    }
  }

  // ── Runs ─────────────────────────────────────────────────────────

  /** A step together with the trace index the broker had reached when it reported. */
  datatype Delivery = Delivery(step: Step, k: nat)

  ghost predicate Consistent(traces: seq<Trace>, d: Delivery) {
    && d.step.order < |traces|
    && match d.step
       case Event(order, u) => EventAt(traces[order], d.k, u)
       case Snapshot(order, cumQty, cumAvg, _) => Reports(traces[order], d.k, cumQty, cumAvg)
  }

  ghost function Steps(run: seq<Delivery>): seq<Step> {
    if run == [] then [] else Steps(run[..|run| - 1]) + [run[|run| - 1].step]
  }

  /** Per order, the largest trace index any delivery has shown. */
  ghost function Seen(traces: seq<Trace>, run: seq<Delivery>): (seen: seq<nat>)
    ensures |seen| == |traces|
  {
    if run == [] then seq(|traces|, _ => 0)
    else
      var before, d := Seen(traces, run[..|run| - 1]), run[|run| - 1];
      if d.step.order < |traces| then before[d.step.order := Larger(before[d.step.order], d.k)] else before
  }

  lemma StepsShift(run: seq<Delivery>)
    requires run != []
    ensures |Steps(run)| > 0
    ensures Steps(run)[..|Steps(run)| - 1] == Steps(run[..|run| - 1])
    ensures Steps(run)[|Steps(run)| - 1] == run[|run| - 1].step
  {
  }

  lemma NothingRefines(column: Column, traces: seq<Trace>)
    requires PlainTraces(column, traces)
    ensures Refines(column, [], traces, seq(|traces|, _ => 0))
  {
    assert Cum([], 0) == Applied(0.0, 0.0);
    forall o | 0 <= o < |traces| ensures AtPrefix(column, [], o, traces[o], 0) {
      assert traces[o][..0] == [];
    }
  }

  lemma StepRefines(column: Column, fills: seq<Fill>, traces: seq<Trace>, seen: seq<nat>, d: Delivery)
    requires PlainTraces(column, traces) && Refines(column, fills, traces, seen) && |seen| == |traces|
    requires Consistent(traces, d) && !StepFallsBack(fills, d.step)
    ensures Refines(column, fills + StepFills(column, fills, d.step), traces,
                    seen[d.step.order := Larger(seen[d.step.order], d.k)])
  {
    hide PlainTraces, EventFills, CatchUp, Refines, FallsBack, EventAt, Reports;
    match d.step
    case Event(order, u) => EventRefines(column, fills, traces, seen, order, d.k, u);
    case Snapshot(order, cumQty, cumAvg, at) =>
      CatchUpRefines(column, fills, traces, seen, order, d.k, cumQty, cumAvg, at, Recon);
  }

  /** Against worthy traces no consistent step falls back. */
  lemma StepStaysClear(column: Column, fills: seq<Fill>, traces: seq<Trace>, seen: seq<nat>, d: Delivery)
    requires WorthyTraces(column, traces) && Refines(column, fills, traces, seen) && Consistent(traces, d)
    ensures !StepFallsBack(fills, d.step)
  {
    hide FallsBack, Refines, PlainTrace, Worthy, PriorAvg, HasKey, Reports;
    match d.step
    case Snapshot(order, cumQty, cumAvg, _) => CatchUpStaysClear(column, fills, traces, seen, order, d.k, cumQty, cumAvg);
    case Event(order, u) =>
      if IsExecution(u) {
        PriorIsReported(column, traces[order], d.k, u);
        CatchUpStaysClear(column, fills, traces, seen, order, d.k - 1, u.order.filledQty - u.qty.value, PriorAvg(u));
      } else {
        CatchUpStaysClear(column, fills, traces, seen, order, d.k, u.order.filledQty, u.order.filledAvg);
      }
  }

  /** No step of the run prices a span with the fallback. */
  ghost predicate NeverFallsBack(column: Column, run: seq<Delivery>) {
    forall n :: 0 <= n < |run| ==> !StepFallsBack(RunFills(column, Steps(run[..n])), run[n].step)
  }

  lemma ClearBefore(column: Column, run: seq<Delivery>)
    requires run != [] && NeverFallsBack(column, run)
    ensures NeverFallsBack(column, run[..|run| - 1])
  {
    hide StepFallsBack, RunFills;
    forall n | 0 <= n < |run| - 1 ensures !StepFallsBack(RunFills(column, Steps(run[..|run| - 1][..n])), run[n].step) {
      assert run[..|run| - 1][..n] == run[..n];
    }
  }

  /** Rounding does not accumulate: drops, duplicates, reordering, missing ids and interleaved reconciles
      change nothing, and as long as no span is priced with the fallback, every order's recorded quantity is
      its trace's at the largest index delivered and the recorded notional differs from the trace's by at
      most half a micro per share of the last synthesized span. */
  lemma {:induction false} RunRoundsOnce(column: Column, traces: seq<Trace>, run: seq<Delivery>)
    requires PlainTraces(column, traces) && NeverFallsBack(column, run)
    requires forall i :: 0 <= i < |run| ==> Consistent(traces, run[i])
    ensures Refines(column, RunFills(column, Steps(run)), traces, Seen(traces, run))
  {
    hide PlainTraces, Refines, StepFills, StepFallsBack, Larger;
    if run == [] {
      NothingRefines(column, traces);
    } else {
      var d, before := run[|run| - 1], run[..|run| - 1];
      ClearBefore(column, run);
      RunRoundsOnce(column, traces, before);
      StepsShift(run);
      StepRefines(column, RunFills(column, Steps(before)), traces, Seen(traces, before), d);
    }
  }

  /** And when every execution outweighs the error the column can carry, the fallback is indeed never taken. */
  lemma {:induction false} WorthyRunStaysClear(column: Column, traces: seq<Trace>, run: seq<Delivery>)
    requires WorthyTraces(column, traces)
    requires forall i :: 0 <= i < |run| ==> Consistent(traces, run[i])
    ensures NeverFallsBack(column, run)
  {
    hide Refines, StepFallsBack, PlainTraces, Worthy;
    if run != [] {
      var d, before := run[|run| - 1], run[..|run| - 1];
      WorthyRunStaysClear(column, traces, before);
      RunRoundsOnce(column, traces, before);
      StepStaysClear(column, RunFills(column, Steps(before)), traces, Seen(traces, before), d);
      forall n | 0 <= n < |run| ensures !StepFallsBack(RunFills(column, Steps(run[..n])), run[n].step) {
        if n < |before| {
          assert before[..n] == run[..n];
        }
      }
    }
  }

  lemma RunRefinesTraces(column: Column, traces: seq<Trace>, run: seq<Delivery>)
    requires WorthyTraces(column, traces)
    requires forall i :: 0 <= i < |run| ==> Consistent(traces, run[i])
    ensures Refines(column, RunFills(column, Steps(run)), traces, Seen(traces, run))
    ensures NeverFallsBack(column, run)
  {
    hide Refines, NeverFallsBack, PlainTraces, Worthy;
    WorthyRunStaysClear(column, traces, run);
    RunRoundsOnce(column, traces, run);
  }

  /** In exact arithmetic the ledger is the trace prefix itself, quantity and notional, and the fallback is
      never taken. */
  lemma ExactRunIsPrefix(traces: seq<Trace>, run: seq<Delivery>, order: nat)
    requires PlainTraces(Exact, traces) && order < |traces|
    requires forall i :: 0 <= i < |run| ==> Consistent(traces, run[i])
    ensures Seen(traces, run)[order] <= |traces[order]|
    ensures AppliedLedger(RunFills(Exact, Steps(run)), order) == Cum(traces[order], Seen(traces, run)[order])
    ensures NeverFallsBack(Exact, run)
  {
    ExactIsWorthy(traces);
    RunRefinesTraces(Exact, traces, run);
    assert AtPrefix(Exact, RunFills(Exact, Steps(run)), order, traces[order], Seen(traces, run)[order]);
  }

  // ── A run that does fall back ────────────────────────────────────

  /** Three executions of a cheap instrument; the last is worth less than the error of the span before it. */
  const CHEAP: Trace := [Exec(1, 1.0, 0.000001), Exec(2, 2.0, 0.000002), Exec(3, 0.1, 0.000001)]

  const CHEAP_RUN: seq<Delivery> := [
    Delivery(Snapshot(0, 3.0, Some(0.000005 / 3.0), 0), 2),
    Delivery(Snapshot(0, 3.1, Some(0.0000051 / 3.1), 0), 3)]

  lemma CheapCums()
    ensures Cum(CHEAP, 2) == Applied(3.0, 0.000005) && Cum(CHEAP, 3) == Applied(3.1, 0.0000051)
  {
    assert CHEAP[..0] == [];
    assert Cum(CHEAP, 0) == Applied(0.0, 0.0);
    CumStep(CHEAP, 0);
    CumStep(CHEAP, 1);
    CumStep(CHEAP, 2);
  }

  lemma CheapIsConsistent()
    ensures PlainTraces(Micros, [CHEAP]) && forall i :: 0 <= i < |CHEAP_RUN| ==> Consistent([CHEAP], CHEAP_RUN[i])
  {
    hide Cum;
    CheapCums();
    assert Stored(Micros, 0.000001) == 0.000001 && Stored(Micros, 0.000002) == 0.000002;
  }

  const FIRST := Fill(0, Synthetic(Recon, 0, 3.0), 3.0, 0.000002, 0)
  const SECOND := Fill(0, Synthetic(Recon, 0, 3.1), 0.1, 0.000002, 0)

  lemma ThirdsRoundUp()
    ensures Stored(Micros, 0.000005 / 3.0) == 0.000002 && Stored(Micros, 0.0000051 / 3.1) == 0.000002
  {
  }

  lemma FirstSpan()
    requires AppliedLedger([], 0) == Applied(0.0, 0.0) && Stored(Micros, 0.000005 / 3.0) == 0.000002
    ensures CatchUp(Micros, [], 0, 3.0, Some(0.000005 / 3.0), 0, Recon) == [FIRST]
  {
    hide AppliedLedger, Stored;
  }

  lemma FirstSpanRoundsUp()
    ensures CatchUp(Micros, [], 0, 3.0, Some(0.000005 / 3.0), 0, Recon) == [FIRST]
    ensures AppliedLedger([FIRST], 0) == Applied(3.0, 0.000006)
  {
    ThirdsRoundUp();
    assert AppliedLedger([], 0) == Applied(0.0, 0.0);
    hide AppliedLedger, CatchUp, Stored;
    FirstSpan();
    LedgerAppend([], FIRST, 0);
    assert [] + [FIRST] == [FIRST];
  }

  lemma SecondSpanFallsBack()
    ensures FallsBack([FIRST], 0, 3.1, Some(0.0000051 / 3.1))
    ensures CatchUp(Micros, [FIRST], 0, 3.1, Some(0.0000051 / 3.1), 0, Recon) == [SECOND]
    ensures AppliedLedger([FIRST] + [SECOND], 0) == Applied(3.1, 0.0000062)
  {
    FirstSpanRoundsUp();
    hide AppliedLedger, CatchUp;
    LedgerAppend([FIRST], SECOND, 0);
    var applied := Applied(3.0, 0.000006);
    assert Degenerate(3.1, Some(0.0000051 / 3.1), applied, 3.1 - 3.0);
    ThirdsRoundUp();
    SecondSpan();
  }

  lemma SecondSpan()
    requires AppliedLedger([FIRST], 0) == Applied(3.0, 0.000006) && Stored(Micros, 0.0000051 / 3.1) == 0.000002
    requires Degenerate(3.1, Some(0.0000051 / 3.1), Applied(3.0, 0.000006), 3.1 - 3.0)
    ensures CatchUp(Micros, [FIRST], 0, 3.1, Some(0.0000051 / 3.1), 0, Recon) == [SECOND]
  {
    hide AppliedLedger, Stored;
  }

  /** The hypothesis is needed: here a consistent run falls back, and its error exceeds the bound. */
  lemma FallbackExceedsTheBound()
    ensures PlainTraces(Micros, [CHEAP]) && forall i :: 0 <= i < |CHEAP_RUN| ==> Consistent([CHEAP], CHEAP_RUN[i])
    ensures var fills := RunFills(Micros, Steps(CHEAP_RUN));
            !NeverFallsBack(Micros, CHEAP_RUN) && !AtPrefix(Micros, fills, 0, CHEAP, 3)
  {
    CheapIsConsistent();
    CheapCums();
    FirstSpanRoundsUp();
    SecondSpanFallsBack();
    hide CatchUp, AppliedLedger, FallsBack, Cum, PlainTraces, Consistent;
    var one, two := CHEAP_RUN[0].step, CHEAP_RUN[1].step;
    assert CHEAP_RUN[..1][..0] == [];
    assert Steps(CHEAP_RUN[..1]) == [one];
    assert Steps(CHEAP_RUN) == [one, two];
    assert [one][..0] == [] && [one, two][..1] == [one];
    assert RunFills(Micros, []) == [];
    assert RunFills(Micros, [one]) == [FIRST];
    assert StepFallsBack(RunFills(Micros, Steps(CHEAP_RUN[..1])), CHEAP_RUN[1].step);
    assert RunFills(Micros, [one, two]) == [FIRST] + [SECOND];
    assert ([FIRST] + [SECOND])[..1] == [FIRST];
    assert LastSpan([FIRST] + [SECOND], 0) == 0.1;
  }
}
