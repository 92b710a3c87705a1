/** Whole runs of the ledger's writers, for any orders, with no trust in what the broker reports. */
module LedgerRuns {
  import opened Domain
  import opened Tables
  import opened FillLedger

  /** One committed ledger write: a stream event, or a synthesizing reconcile's snapshot (the broker's,
      or the order row's own columns when the broker no longer knows the order). */
  datatype Step =
    | Event(order: nat, u: TradeUpdate)
    | Snapshot(order: nat, cumQty: real, cumAvg: Option<real>, at: Time)

  function StepFills(column: Column, fills: seq<Fill>, step: Step): seq<Fill> {
    match step
    case Event(order, u) => EventFills(column, fills, order, u)
    case Snapshot(order, cumQty, cumAvg, at) => CatchUp(column, fills, order, cumQty, cumAvg, at, Recon)
  }

  function RunFrom(column: Column, start: seq<Fill>, steps: seq<Step>): seq<Fill> {
    if steps == [] then start
    else
      var before := RunFrom(column, start, steps[..|steps| - 1]);
      before + StepFills(column, before, steps[|steps| - 1])
  }

  function RunFills(column: Column, steps: seq<Step>): seq<Fill> {
    RunFrom(column, [], steps)
  }

  lemma {:induction false} RunFromConcat(column: Column, start: seq<Fill>, a: seq<Step>, b: seq<Step>)
    ensures RunFrom(column, start, a + b) == RunFrom(column, RunFrom(column, start, a), b)
  {
    if b == [] {
      assert a + b == a;
    } else {
      assert (a + b)[..|a + b| - 1] == a + b[..|b| - 1];
      RunFromConcat(column, start, a, b[..|b| - 1]);
    }
  }

  function Reported(step: Step): real {
    if step.Event? then step.u.order.filledQty else step.cumQty
  }

  /** Whether the step found its execution already recorded. */
  predicate Repeats(fills: seq<Fill>, step: Step) {
    step.Event? && Duplicate(fills, step.order, step.u)
  }

  /** The largest cumulative reported for an order so far, by steps that were not duplicates. */
  function LargestReported(column: Column, steps: seq<Step>, order: nat): real {
    if steps == [] then 0.0
    else
      var earlier, step := steps[..|steps| - 1], steps[|steps| - 1];
      var before := LargestReported(column, earlier, order);
      if step.order == order && !Repeats(RunFills(column, earlier), step) then Max(before, Reported(step)) else before
  }

  ghost predicate PositiveExecutions(steps: seq<Step>) {
    forall i :: 0 <= i < |steps| && steps[i].Event? && IsExecution(steps[i].u) ==> steps[i].u.qty.value > 0.0
  }

  /** Whatever the broker says, in whatever order: an order's ledger is exactly the largest cumulative
      that was not a duplicate's, so nothing is ever applied twice. */
  lemma {:induction false} LedgerIsLargestReported(column: Column, steps: seq<Step>, order: nat)
    requires PositiveExecutions(steps)
    ensures LedgerOk(RunFills(column, steps))
    ensures AppliedLedger(RunFills(column, steps), order).qty == LargestReported(column, steps, order)
  {
    if steps != [] {
      var earlier, step := steps[..|steps| - 1], steps[|steps| - 1];
      var before := RunFills(column, earlier);
      LedgerIsLargestReported(column, earlier, order);
      match step
      case Event(o, u) =>
        EventReachesCumulative(column, before, o, u, order);
      case Snapshot(o, cumQty, cumAvg, at) =>
        CatchUpReaches(column, before, o, cumQty, cumAvg, at, Recon, order);
    }
  }
}
