/** When rounding accumulates: the bound of half a micro per share holds throughout a run exactly when no
    span of it is priced with the fallback. */
module RoundingBound {
  import opened Domain
  import opened Sums
  import opened Tables
  import opened FillLedger
  import opened LedgerRuns
  import opened TraceRefinement

  // ── Nothing trades below a micro ─────────────────────────────────

  const MICRO: real := 0.000001

  lemma StoredPriceIsAMicro(price: real)
    requires price > 0.0 && Stored(Micros, price) == price
    ensures price >= MICRO
  {
    var units := (price * 1000000.0 + 0.5).Floor;
    assert price == units as real / 1000000.0;
    assert units as real == price * 1000000.0;
    assert units >= 1;
  }

  lemma RoundingKeepsAMicro(price: real)
    requires price >= MICRO
    ensures Stored(Micros, price) >= MICRO
  {
    var units := (price * 1000000.0 + 0.5).Floor;
    assert price * 1000000.0 >= 1.0;
    assert units >= 1;
  }

  lemma WorthOneMore(notional: real, shares: real, qty: real, price: real)
    requires notional >= MICRO * shares && qty > 0.0 && price >= MICRO
    ensures notional + qty * price >= MICRO * (shares + qty)
  {
    assert qty * (price - MICRO) >= 0.0;
  }

  lemma {:induction false} TraceIsWorthAMicro(trace: Trace, k: nat)
    requires PlainTrace(Micros, trace) && k <= |trace|
    ensures Cum(trace, k).notional >= MICRO * Cum(trace, k).qty
  {
    if k == 0 {
      assert trace[..0] == [];
    } else {
      TraceIsWorthAMicro(trace, k - 1);
      CumStep(trace, k - 1);
      var e := trace[k - 1];
      StoredPriceIsAMicro(e.price);
      hide Cum, Stored;
      WorthOneMore(Cum(trace, k - 1).notional, Cum(trace, k - 1).qty, e.qty, e.price);
    }
  }

  lemma AverageIsAMicro(qty: real, avg: real, notional: real)
    requires qty > 0.0 && qty * avg == notional && notional >= MICRO * qty
    ensures avg >= MICRO
  {
    assert avg < MICRO ==> qty * (MICRO - avg) > 0.0;
  }

  // ── A span priced with the fallback ──────────────────────────────

  /** The fallback is taken when nothing is missing, and still books at least a micro per share. */
  lemma FallbackOverbooks(applied: Applied, cumQty: real, cumAvg: real, stored: real)
    requires applied.qty < cumQty && Degenerate(cumQty, Some(cumAvg), applied, cumQty - applied.qty)
    requires stored >= MICRO
    ensures var span := cumQty - applied.qty;
            applied.notional + span * stored - cumQty * cumAvg > HALF_MICRO * span
  {
    var missing, span := cumQty * cumAvg - applied.notional, cumQty - applied.qty;
    Divides(missing, span);
    assert span * (missing / span) <= 0.0;
    assert span * (stored - MICRO) >= 0.0;
  }

  lemma FallbackPrice(cumQty: real, cumAvg: Option<real>, applied: Applied)
    requires applied.qty < cumQty && Degenerate(cumQty, cumAvg, applied, cumQty - applied.qty)
    ensures SpanPrice(cumQty, cumAvg, applied, cumQty - applied.qty) == cumAvg.value
  {
  }

  /** The row it books. */
  lemma FallbackRow(fills: seq<Fill>, order: nat, cumQty: real, cumAvg: Option<real>, at: Time, tag: Tag) returns (f: Fill)
    requires LedgerOk(fills) && FallsBack(fills, order, cumQty, cumAvg)
    ensures CatchUp(Micros, fills, order, cumQty, cumAvg, at, tag) == [f]
    ensures f.order == order && f.key.Synthetic? && f.qty == cumQty - AppliedLedger(fills, order).qty
    ensures f.price == Stored(Micros, cumAvg.value)
  {
    FallbackPrice(cumQty, cumAvg, AppliedLedger(fills, order));
    CatchUpReaches(Micros, fills, order, cumQty, cumAvg, at, tag, order);
    hide Stored, SpanPrice, Degenerate, AppliedLedger, LedgerOk, HasKey;
    f := CatchUp(Micros, fills, order, cumQty, cumAvg, at, tag)[0];
  }

  /** And the average it books at. */
  lemma ReportedAverageIsAMicro(trace: Trace, j: nat, k: nat, cumQty: real, cumAvg: Option<real>)
    requires PlainTrace(Micros, trace) && j <= |trace| && Reports(trace, k, cumQty, cumAvg) && Cum(trace, j).qty < cumQty
    ensures j < k && cumAvg.Some? && cumAvg.value >= MICRO && cumQty * cumAvg.value == Cum(trace, k).notional
  {
    hide Cum, PlainTrace;
    if k <= j {
      CumGrows(Micros, trace, k, j);
    }
    CumIsNonNegative(Micros, trace, j);
    TraceIsWorthAMicro(trace, k);
    AverageIsAMicro(cumQty, cumAvg.value, Cum(trace, k).notional);
  }

  /** Caught up with the fallback, an order's ledger is at its prefix but out of bounds. */
  lemma FallbackLeavesTheBound(fills: seq<Fill>, order: nat, trace: Trace, j: nat, k: nat,
                               cumQty: real, cumAvg: Option<real>, at: Time, tag: Tag)
    requires LedgerOk(fills) && PlainTrace(Micros, trace) && AtPrefix(Micros, fills, order, trace, j)
    requires Reports(trace, k, cumQty, cumAvg) && FallsBack(fills, order, cumQty, cumAvg)
    ensures var after := fills + CatchUp(Micros, fills, order, cumQty, cumAvg, at, tag);
            && j < k && AppliedLedger(after, order).qty == cumQty
            && LastSpan(after, order) > 0.0
            && Abs(AppliedLedger(after, order).notional - Cum(trace, k).notional) > HALF_MICRO * LastSpan(after, order)
  {
    hide Stored, Cum, AppliedLedger, PlainTrace, LedgerOk, CatchUp, Degenerate, Reports;
    var f := FallbackRow(fills, order, cumQty, cumAvg, at, tag);
    ReportedAverageIsAMicro(trace, j, k, cumQty, cumAvg);
    RoundingKeepsAMicro(cumAvg.value);
    FallbackOverbooks(AppliedLedger(fills, order), cumQty, cumAvg.value, f.price);
    LedgerAppend(fills, f, order);
    assert (fills + [f])[..|fills|] == fills;
  }

  // ── A step that takes it ─────────────────────────────────────────

  lemma SnapshotLeavesTheBound(traces: seq<Trace>, fills: seq<Fill>, seen: seq<nat>, order: nat, k: nat,
                               cumQty: real, cumAvg: Option<real>, at: Time, tag: Tag)
    requires PlainTraces(Micros, traces) && Refines(Micros, fills, traces, seen) && order < |traces|
    requires Reports(traces[order], k, cumQty, cumAvg) && FallsBack(fills, order, cumQty, cumAvg)
    ensures !Refines(Micros, fills + CatchUp(Micros, fills, order, cumQty, cumAvg, at, tag), traces,
                     seen[order := Larger(seen[order], k)])
  {
    hide CatchUp, PlainTrace, Reports, FallsBack, KeyPassed, AppliedLedger, LastSpan, Cum, LedgerOk;
    FallbackLeavesTheBound(fills, order, traces[order], seen[order], k, cumQty, cumAvg, at, tag);
  }

  /** The execution behind a gap adds its own exact price, and none of the gap's error goes away. */
  lemma ExecutionKeepsTheError(fills: seq<Fill>, order: nat, trace: Trace, k: nat, u: TradeUpdate)
    requires PlainTrace(Micros, trace) && EventAt(trace, k, u) && IsExecution(u)
    requires AppliedLedger(fills, order).qty == Cum(trace, k - 1).qty
    ensures var after := fills + ExecutionFills(Micros, fills, order, u);
            && LastSpan(after, order) == LastSpan(fills, order)
            && AppliedLedger(after, order).notional - Cum(trace, k).notional
               == AppliedLedger(fills, order).notional - Cum(trace, k - 1).notional
  {
    CumStep(trace, k - 1);
    ExecutionsPrice(trace, k, u);
    hide Cum, AppliedLedger, Stored, PlainTrace;
    var f := ExecutionRow(fills, order, u);
    hide ExecutionFills, EventAt;
    LedgerAppend(fills, f, order);
    assert (fills + [f])[..|fills|] == fills;
  }

  lemma ExecutionsPrice(trace: Trace, k: nat, u: TradeUpdate)
    requires PlainTrace(Micros, trace) && EventAt(trace, k, u) && IsExecution(u)
    ensures 0 < k <= |trace| && u.qty.value == trace[k - 1].qty > 0.0 && u.price.value == trace[k - 1].price
    ensures Stored(Micros, u.price.value) == u.price.value
  {
    hide Cum, Stored;
  }

  lemma ExecutionRow(fills: seq<Fill>, order: nat, u: TradeUpdate) returns (f: Fill)
    requires IsExecution(u) && u.qty.value > 0.0
    requires AppliedLedger(fills, order).qty == u.order.filledQty - u.qty.value
    ensures ExecutionFills(Micros, fills, order, u) == [f]
    ensures f.order == order && !f.key.Synthetic? && f.qty == u.qty.value && f.price == Stored(Micros, u.price.value)
  {
    hide AppliedLedger, Stored;
    f := ExecutionFills(Micros, fills, order, u)[0];
  }

  lemma ExecutionLeavesTheBound(traces: seq<Trace>, fills: seq<Fill>, seen: seq<nat>, order: nat, k: nat, u: TradeUpdate)
    requires PlainTraces(Micros, traces) && Refines(Micros, fills, traces, seen) && order < |traces|
    requires EventAt(traces[order], k, u) && IsExecution(u) && StepFallsBack(fills, Event(order, u))
    ensures !Refines(Micros, fills + EventFills(Micros, fills, order, u), traces, seen[order := Larger(seen[order], k)])
  {
    var trace, start, prior := traces[order], u.order.filledQty - u.qty.value, PriorAvg(u);
    PriorIsReported(Micros, trace, k, u);
    assert Cum(trace, k - 1).qty == start;
    hide CatchUp, PlainTrace, EventAt, Reports, FallsBack, KeyPassed, AppliedLedger, LastSpan, Cum, LedgerOk, ExecutionFills, PriorAvg, HasKey;
    var gap := CatchUp(Micros, fills, order, start, prior, u.at, Gap);
    FallbackLeavesTheBound(fills, order, trace, seen[order], k - 1, start, prior, u.at, Gap);
    ExecutionKeepsTheError(fills + gap, order, trace, k, u);
    assert fills + EventFills(Micros, fills, order, u) == (fills + gap) + ExecutionFills(Micros, fills + gap, order, u);
  }

  /** Whatever evidence it comes from, one step priced with the fallback breaks the bound. */
  lemma FallbackBreaksTheBound(traces: seq<Trace>, fills: seq<Fill>, seen: seq<nat>, d: Delivery)
    requires PlainTraces(Micros, traces) && Refines(Micros, fills, traces, seen)
    requires Consistent(traces, d) && StepFallsBack(fills, d.step)
    ensures d.step.order < |seen|
    ensures !Refines(Micros, fills + StepFills(Micros, fills, d.step), traces,
                     seen[d.step.order := Larger(seen[d.step.order], d.k)])
  {
    assert |seen| == |traces|;
    hide PlainTraces, Refines, EventFills, CatchUp, Reports, FallsBack, HasKey, PriorAvg;
    match d.step
    case Snapshot(order, cumQty, cumAvg, at) =>
      SnapshotLeavesTheBound(traces, fills, seen, order, d.k, cumQty, cumAvg, at, Recon);
    case Event(order, u) =>
      if IsExecution(u) {
        ExecutionLeavesTheBound(traces, fills, seen, order, d.k, u);
      } else {
        SnapshotLeavesTheBound(traces, fills, seen, order, d.k, u.order.filledQty, u.order.filledAvg, u.at, Gap);
        EventIsSnapshot(fills, order, u);
      }
  }

  lemma EventIsSnapshot(fills: seq<Fill>, order: nat, u: TradeUpdate)
    requires !IsExecution(u)
    ensures EventFills(Micros, fills, order, u) == CatchUp(Micros, fills, order, u.order.filledQty, u.order.filledAvg, u.at, Gap)
  {
  }

  // ── Whole runs ───────────────────────────────────────────────────

  /** Every order's ledger is within half a micro per share of its last span, after every step. */
  ghost predicate StaysWithinTheBound(traces: seq<Trace>, run: seq<Delivery>) {
    forall n :: 0 <= n <= |run| ==> Refines(Micros, RunFills(Micros, Steps(run[..n])), traces, Seen(traces, run[..n]))
  }

  lemma ClearUpTo(run: seq<Delivery>, n: nat)
    requires NeverFallsBack(Micros, run) && n <= |run|
    ensures NeverFallsBack(Micros, run[..n])
  {
    hide StepFallsBack, RunFills;
    forall m | 0 <= m < n ensures !StepFallsBack(RunFills(Micros, Steps(run[..n][..m])), run[..n][m].step) {
      assert run[..n][..m] == run[..m];
    }
  }

  /** The bound after a step that takes the fallback, whatever came before. */
  lemma StepOutOfBounds(traces: seq<Trace>, run: seq<Delivery>, n: nat)
    requires PlainTraces(Micros, traces) && n < |run| && Consistent(traces, run[n])
    requires Refines(Micros, RunFills(Micros, Steps(run[..n])), traces, Seen(traces, run[..n]))
    ensures StepFallsBack(RunFills(Micros, Steps(run[..n])), run[n].step) ==>
              !Refines(Micros, RunFills(Micros, Steps(run[..n + 1])), traces, Seen(traces, run[..n + 1]))
  {
    hide PlainTraces, Refines, StepFills, StepFallsBack, Consistent, Larger;
    assert run[..n + 1][..n] == run[..n];
    StepsShift(run[..n + 1]);
    if StepFallsBack(RunFills(Micros, Steps(run[..n])), run[n].step) {
      FallbackBreaksTheBound(traces, RunFills(Micros, Steps(run[..n])), Seen(traces, run[..n]), run[n]);
    }
  }

  /** Exactly when rounding does not accumulate: in any consistent run over any positive traces, every ledger
      stays within half a micro per share of its last synthesized span if and only if no step prices a span
      with the fallback. */
  lemma BoundHoldsThroughoutExactly(traces: seq<Trace>, run: seq<Delivery>)
    requires PlainTraces(Micros, traces)
    requires forall i :: 0 <= i < |run| ==> Consistent(traces, run[i])
    ensures StaysWithinTheBound(traces, run) <==> NeverFallsBack(Micros, run)
  {
    hide PlainTraces, Refines, RunFills, StepFallsBack, Consistent, Seen, Steps;
    if NeverFallsBack(Micros, run) {
      forall n | 0 <= n <= |run| ensures Refines(Micros, RunFills(Micros, Steps(run[..n])), traces, Seen(traces, run[..n])) {
        ClearUpTo(run, n);
        RunRoundsOnce(Micros, traces, run[..n]);
      }
    }
    if StaysWithinTheBound(traces, run) {
      forall n | 0 <= n < |run| ensures !StepFallsBack(RunFills(Micros, Steps(run[..n])), run[n].step) {
        StepOutOfBounds(traces, run, n);
      }
    }
  }
}
