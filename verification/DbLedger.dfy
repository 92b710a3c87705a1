/** The tables' runs are the ledger's runs; and in stream-only runs the position is the signed fills. */
module DbLedger {
  import opened Domain
  import opened Sums
  import opened Tables
  import opened FillLedger
  import opened LedgerRuns
  import opened OrderRows
  import opened Positions
  import opened Remainders
  import opened TradeUpdates
  import opened Reconciliation
  import opened Books
  import opened DbRuns

  // ── The ledger steps a transaction performs ──────────────────────

  function SnapshotOf(o: nat, bo: BrokerOrder, now: Time): Step {
    Snapshot(o, bo.filledQty, bo.filledAvg, bo.filledAt.GetOr(now))
  }

  /** The deficit sweep's fallback evidence: the row's own columns. */
  function OwnColumns(o: nat, row: Order, now: Time): Step {
    Snapshot(o, row.filledQty, row.filledAvg, row.filledAt.GetOr(now))
  }

  /** One snapshot for each listed order that has a row. */
  function ListedSteps(p: Pass, flat: seq<Listed>, now: Time, keys: Keys): seq<Step>
    requires IndexInRange(p.index, |p.db.orders|)
  {
    if flat == [] then []
    else
      var earlier, entry := flat[..|flat| - 1], flat[|flat| - 1];
      var q := WithLeg(AdoptAllListed(p, earlier, now, true, keys), entry, now);
      var local := FindLocal(q.index, entry.order);
      ListedSteps(p, earlier, now, keys) + if local.Some? then [SnapshotOf(local.value, entry.order, now)] else []
  }

  /** One snapshot for each straggler the broker still knows. */
  function RecoverSteps(r: Recovery, n: nat, flat: seq<Listed>, broker: Broker, now: Time, keys: Keys): seq<Step>
    requires n <= |r.pass.db.orders|
  {
    if n == 0 then []
    else
      var p := Recover(r, n - 1, flat, broker, now, true, keys).pass;
      var found := Lookup(broker, p.db.orders[n - 1]);
      RecoverSteps(r, n - 1, flat, broker, now, keys)
      + if !Skipped(p, n - 1, flat) && found.Some? then [SnapshotOf(n - 1, found.value, now)] else []
  }

  /** One snapshot for each deficit: the broker's, or the row's own columns when they carry an average. */
  function SweepSteps(db: Db, start: Db, n: nat, broker: Broker, now: Time, keys: Keys): seq<Step>
    requires n <= |db.orders| && n <= |start.orders|
  {
    if n == 0 then []
    else
      var row := Sweep(db, start, n - 1, broker, now, keys).orders[n - 1];
      var found := Lookup(broker, row);
      SweepSteps(db, start, n - 1, broker, now, keys)
      + if !Deficient(start, n - 1) then []
        else if found.Some? then [SnapshotOf(n - 1, found.value, now)]
        else if row.filledAvg.Some? then [OwnColumns(n - 1, row, now)]
        else []
  }

  function ReconcileSteps(db: Db, broker: Broker, now: Time, keys: Keys): seq<Step> {
    var flat := Flat(broker.open);
    var listed := AdoptAllListed(StartPass(db), flat, now, true, keys);
    var recovered := Recovered(db, broker, now, true, keys).pass.db;
    ListedSteps(StartPass(db), flat, now, keys)
    + RecoverSteps(Recovery(listed, 0), |db.orders|, flat, broker, now, keys)
    + SweepSteps(recovered, recovered, |recovered.orders|, broker, now, keys)
  }

  /** A stream event is one step of the order it locates, a synthesizing reconcile the snapshots it takes in
      turn, and no other transaction touches the ledger. */
  function StepsOf(db: Db, txn: Txn): seq<Step> {
    match txn
    case Stream(u, _, _) =>
      var found := Locate(db.orders, u.order);
      if found.Some? then [Event(found.value, u)] else []
    case Reconcile(broker, now, synthesize, keys) => if synthesize then ReconcileSteps(db, broker, now, keys) else []
    case Submitted(_, _, _) => []
    case Refused(_, _) => []
    case Persist(_) => []
  }

  function RunSteps(db: Db, run: seq<Txn>): seq<Step> {
    if run == [] then [] else RunSteps(db, run[..|run| - 1]) + StepsOf(CommitAll(db, run[..|run| - 1]), run[|run| - 1])
  }

  // ── ... are what the transaction does to the fills ───────────────

  lemma NoStep(fills: seq<Fill>)
    ensures RunFrom(Exact, fills, []) == fills
  {
  }

  lemma OneStep(start: seq<Fill>, steps: seq<Step>, step: Step)
    ensures RunFrom(Exact, start, steps + [step]) ==
            RunFrom(Exact, start, steps) + StepFills(Exact, RunFrom(Exact, start, steps), step)
  {
    assert (steps + [step])[..|steps|] == steps;
  }

  lemma AdoptIsStep(db: Db, o: nat, bo: BrokerOrder, now: Time, synthesize: bool, keys: Keys)
    requires o < |db.orders|
    ensures Adopt(db, o, bo, now, synthesize, keys).fills ==
            if synthesize then db.fills + StepFills(Exact, db.fills, SnapshotOf(o, bo, now)) else db.fills
  {
    hide CatchUp, InsertFill;
  }

  lemma {:induction false} ListedActs(p: Pass, flat: seq<Listed>, now: Time, synthesize: bool, keys: Keys)
    requires IndexInRange(p.index, |p.db.orders|)
    ensures AdoptAllListed(p, flat, now, synthesize, keys).db.fills ==
            if synthesize then RunFrom(Exact, p.db.fills, ListedSteps(p, flat, now, keys)) else p.db.fills
  {
    hide Adopt, NewLegs, StepFills, RunFrom;
    NoStep(p.db.fills);
    if flat != [] {
      var earlier, entry := flat[..|flat| - 1], flat[|flat| - 1];
      ListedActs(p, earlier, now, synthesize, keys);
      var q := WithLeg(AdoptAllListed(p, earlier, now, synthesize, keys), entry, now);
      var local := FindLocal(q.index, entry.order);
      if local.Some? {
        AdoptIsStep(q.db, local.value, entry.order, now, synthesize, keys);
        OneStep(p.db.fills, ListedSteps(p, earlier, now, keys), SnapshotOf(local.value, entry.order, now));
      } else {
        assert ListedSteps(p, earlier, now, keys) + [] == ListedSteps(p, earlier, now, keys);
      }
    }
  }

  lemma {:induction false} RecoverActs(r: Recovery, n: nat, flat: seq<Listed>, broker: Broker, now: Time, synthesize: bool, keys: Keys)
    requires n <= |r.pass.db.orders|
    ensures Recover(r, n, flat, broker, now, synthesize, keys).pass.db.fills ==
            if synthesize then RunFrom(Exact, r.pass.db.fills, RecoverSteps(r, n, flat, broker, now, keys)) else r.pass.db.fills
  {
    hide Adopt, NewLegs, StepFills, RunFrom, Skipped;
    NoStep(r.pass.db.fills);
    if n > 0 {
      RecoverActs(r, n - 1, flat, broker, now, synthesize, keys);
      var p := Recover(r, n - 1, flat, broker, now, synthesize, keys).pass;
      var found := Lookup(broker, p.db.orders[n - 1]);
      var steps := RecoverSteps(r, n - 1, flat, broker, now, keys);
      if !Skipped(p, n - 1, flat) && found.Some? {
        AdoptIsStep(p.db, n - 1, found.value, now, synthesize, keys);
        OneStep(r.pass.db.fills, steps, SnapshotOf(n - 1, found.value, now));
      } else {
        assert steps + [] == steps;
      }
    }
  }

  lemma {:induction false} SweepActs(db: Db, start: Db, n: nat, broker: Broker, now: Time, keys: Keys)
    requires n <= |db.orders| && n <= |start.orders|
    ensures Sweep(db, start, n, broker, now, keys).fills == RunFrom(Exact, db.fills, SweepSteps(db, start, n, broker, now, keys))
  {
    hide Adopt, CatchUp, InsertFill, RunFrom;
    NoStep(db.fills);
    if n > 0 {
      SweepActs(db, start, n - 1, broker, now, keys);
      var before := Sweep(db, start, n - 1, broker, now, keys);
      var steps := SweepSteps(db, start, n - 1, broker, now, keys);
      var row := before.orders[n - 1];
      var found := Lookup(broker, row);
      if Deficient(start, n - 1) && found.Some? {
        AdoptIsStep(before, n - 1, found.value, now, true, keys);
        OneStep(db.fills, steps, SnapshotOf(n - 1, found.value, now));
      } else if Deficient(start, n - 1) && row.filledAvg.Some? {
        OneStep(db.fills, steps, OwnColumns(n - 1, row, now));
      } else {
        assert steps + [] == steps;
      }
    }
  }

  lemma {:induction false} RetryKeepsOrders(db: Db, past: seq<Event>, n: nat)
    requires n <= |past|
    ensures RetryPass(db, past, n).fills == db.fills && RetryPass(db, past, n).orders == db.orders
  {
    if n > 0 {
      RetryKeepsOrders(db, past, n - 1);
    }
  }

  lemma ReconcileActs(db: Db, broker: Broker, now: Time, synthesize: bool, keys: Keys)
    ensures Reconciled(db, broker, now, synthesize, keys).fills ==
            if synthesize then RunFrom(Exact, db.fills, ReconcileSteps(db, broker, now, keys)) else db.fills
  {
    hide AdoptAllListed, Recover, Sweep, RetryPass, ListedSteps, RecoverSteps, SweepSteps, RunFrom;
    var flat := Flat(broker.open);
    var listed := AdoptAllListed(StartPass(db), flat, now, synthesize, keys);
    ListedActs(StartPass(db), flat, now, synthesize, keys);
    RecoverActs(Recovery(listed, 0), |db.orders|, flat, broker, now, synthesize, keys);
    if synthesize {
      var recovered := Recovered(db, broker, now, true, keys).pass.db;
      var a := ListedSteps(StartPass(db), flat, now, keys);
      var b := RecoverSteps(Recovery(listed, 0), |db.orders|, flat, broker, now, keys);
      var c := SweepSteps(recovered, recovered, |recovered.orders|, broker, now, keys);
      SweepActs(recovered, recovered, |recovered.orders|, broker, now, keys);
      var swept := Sweep(recovered, recovered, |recovered.orders|, broker, now, keys);
      RetryKeepsOrders(swept, swept.events, |swept.events|);
      RunFromConcat(Exact, db.fills, a, b);
      RunFromConcat(Exact, db.fills, a + b, c);
    }
  }

  lemma ProcessedActs(db: Db, u: TradeUpdate, nested: Option<BrokerOrder>, stamps: Stamps, o: nat)
    requires o < |db.orders|
    ensures var after, found := Processed(db, u, nested, stamps), Locate(db.orders, u.order);
            && o < |after.orders|
            && after.orders[o] == (if found == Some(o) then Adopted(db.orders[o], u.order) else db.orders[o])
            && after.fills == (if found.Some? then db.fills + EventFills(Exact, db.fills, found.value, u) else db.fills)
  {
    hide EventFills, NewLegs, InsertFills;
  }

  lemma NotLocated(db: Db, u: TradeUpdate, nested: Option<BrokerOrder>, stamps: Stamps)
    requires Locate(db.orders, u.order).None?
    ensures Processed(db, u, nested, stamps) == db
  {
  }

  /** Committing a transaction runs exactly its steps. */
  lemma TxnActs(db: Db, txn: Txn)
    ensures Commit(db, txn).fills == RunFrom(Exact, db.fills, StepsOf(db, txn))
  {
    hide EventFills, Reconciled, ReconcileSteps, NewLegs, Processed, RunFrom, Locate;
    NoStep(db.fills);
    match txn
    case Stream(u, nested, stamps) =>
      var found := Locate(db.orders, u.order);
      if found.None? {
        NotLocated(db, u, nested, stamps);
      } else {
        ProcessedActs(db, u, nested, stamps, found.value);
        OneStep(db.fills, [], Event(found.value, u));
        assert [] + [Event(found.value, u)] == [Event(found.value, u)];
      }
    case Reconcile(broker, now, synthesize, keys) => ReconcileActs(db, broker, now, synthesize, keys);
    case Submitted(_, _, _) =>
    case Refused(_, _) =>
    case Persist(_) =>
  }

  /** And a run of transactions is the run of their steps. */
  lemma {:induction false} RunActs(db: Db, run: seq<Txn>)
    ensures CommitAll(db, run).fills == RunFrom(Exact, db.fills, RunSteps(db, run))
  {
    hide Commit, StepsOf;
    if run != [] {
      var last := |run| - 1;
      var before := CommitAll(db, run[..last]);
      RunActs(db, run[..last]);
      TxnActs(before, run[last]);
      RunFromConcat(Exact, db.fills, RunSteps(db, run[..last]), StepsOf(before, run[last]));
    }
  }

  lemma {:induction false} StepsArePositive(db: Db, run: seq<Txn>)
    requires PositiveFills(run)
    ensures PositiveExecutions(RunSteps(db, run))
  {
    hide Commit;
    if run != [] {
      var last := |run| - 1;
      StepsArePositive(db, run[..last]);
      OnlySnapshots(CommitAll(db, run[..last]), run[last]);
    }
  }

  ghost predicate AllSnapshots(steps: seq<Step>) {
    forall k :: 0 <= k < |steps| ==> steps[k].Snapshot?
  }

  lemma OnlySnapshots(db: Db, txn: Txn)
    ensures !txn.Stream? ==> AllSnapshots(StepsOf(db, txn))
  {
    if txn.Reconcile? {
      var flat := Flat(txn.broker.open);
      var listed := AdoptAllListed(StartPass(db), flat, txn.now, true, txn.keys);
      var recovered := Recovered(db, txn.broker, txn.now, true, txn.keys).pass.db;
      hide AdoptAllListed, Recover, Recovered, Sweep;
      ListedAreSnapshots(StartPass(db), flat, txn.now, txn.keys);
      RecoveredAreSnapshots(Recovery(listed, 0), |db.orders|, flat, txn.broker, txn.now, txn.keys);
      SweptAreSnapshots(recovered, recovered, |recovered.orders|, txn.broker, txn.now, txn.keys);
    }
  }

  lemma {:induction false} ListedAreSnapshots(p: Pass, flat: seq<Listed>, now: Time, keys: Keys)
    requires IndexInRange(p.index, |p.db.orders|)
    ensures AllSnapshots(ListedSteps(p, flat, now, keys))
  {
    hide AdoptListed, WithLeg;
    if flat != [] {
      ListedAreSnapshots(p, flat[..|flat| - 1], now, keys);
    }
  }

  lemma {:induction false} RecoveredAreSnapshots(r: Recovery, n: nat, flat: seq<Listed>, broker: Broker, now: Time, keys: Keys)
    requires n <= |r.pass.db.orders|
    ensures AllSnapshots(RecoverSteps(r, n, flat, broker, now, keys))
  {
    hide RecoverOne, Skipped;
    if n > 0 {
      RecoveredAreSnapshots(r, n - 1, flat, broker, now, keys);
    }
  }

  lemma {:induction false} SweptAreSnapshots(db: Db, start: Db, n: nat, broker: Broker, now: Time, keys: Keys)
    requires n <= |db.orders| && n <= |start.orders|
    ensures AllSnapshots(SweepSteps(db, start, n, broker, now, keys))
  {
    hide SweepOne, Deficient;
    if n > 0 {
      SweptAreSnapshots(db, start, n - 1, broker, now, keys);
    }
  }

  /** With no trust in the broker, and whoever writes: from empty tables, an order's ledger is the largest
      cumulative the run reported for it outside duplicates, where what the run reports is its stream events
      and the snapshots its reconciles take. */
  lemma RunReachesLargestReported(db: Db, run: seq<Txn>, order: nat)
    requires db.fills == [] && PositiveFills(run)
    ensures LedgerOk(CommitAll(db, run).fills)
    ensures AppliedLedger(CommitAll(db, run).fills, order).qty == LargestReported(Exact, RunSteps(db, run), order)
  {
    hide RunFrom, CommitAll, LargestReported, AppliedLedger, LedgerOk, RunSteps;
    RunActs(db, run);
    StepsArePositive(db, run);
    LedgerIsLargestReported(Exact, RunSteps(db, run), order);
  }

  // ── Stream-only runs: the position row is the signed fills ───────

  ghost predicate PositionTracks(db: Db) {
    && NoFlatRows(db.positions)
    && forall symbol :: Net(db.positions, symbol) == Sum(db.fills, FillSigned(db.orders, symbol))
  }

  lemma OrdersKeepTracking(db: Db, orders: seq<Order>)
    requires PositionTracks(db) && FillsOk(db) && SameInstruments(db.orders, orders)
    ensures PositionTracks(db.(orders := orders))
  {
    forall symbol ensures Net(db.positions, symbol) == Sum(db.fills, FillSigned(orders, symbol)) {
      SumAgrees(db.fills, FillSigned(db.orders, symbol), FillSigned(orders, symbol));
    }
  }

  lemma InsertKeepsTracking(db: Db, fills: seq<Fill>, order: nat, stamp: Stamp)
    requires PositionTracks(db) && order < |db.orders| && ForOrder(fills, order)
    requires |fills| <= 1 && (fills != [] ==> fills[0].qty > 0.0)
    ensures PositionTracks(InsertFills(db, fills, order, stamp, true))
  {
    hide Lots.ApplyFill, ApplyToPosition, NoFlatRows;
    InsertNone(db, order, stamp, true);
    if fills != [] {
      var fill, row := fills[0], db.orders[order];
      assert fills == [fill];
      InsertOne(db, fill, stamp, true);
      PositionFollowsFill(db.positions, row.symbol, row.side, fill.qty, fill.price, row.symbol);
      var now := InsertFill(db, fill, stamp, true);
      forall symbol ensures Net(now.positions, symbol) == Sum(now.fills, FillSigned(now.orders, symbol)) {
        PositionFollowsFill(db.positions, row.symbol, row.side, fill.qty, fill.price, symbol);
        SumAppend(db.fills, fill, FillSigned(db.orders, symbol));
      }
    }
  }

  /** Without a broker overwrite, each symbol's row is the signed sum of its fills, and it exists exactly
      when that sum is not zero. */
  lemma {:induction false} StreamRunTracksPosition(db: Db, run: seq<Txn>)
    requires DbOk(db) && PositionTracks(db) && PositiveFills(run)
    requires forall i :: 0 <= i < |run| ==> !run[i].Reconcile?
    ensures PositionTracks(CommitAll(db, run))
  {
    hide DbOk, PositionTracks, Processed, NewLegs;
    if run != [] {
      var before, txn := CommitAll(db, run[..|run| - 1]), run[|run| - 1];
      StreamRunTracksPosition(db, run[..|run| - 1]);
      EveryRunKeepsOk(db, run[..|run| - 1]);
      OkHasFills(before);
      if txn.Stream? {
        ProcessedTracks(before, txn.u, txn.nested, txn.stamps);
      } else {
        assert SameInstruments(before.orders, Commit(before, txn).orders);
        OrdersKeepTracking(before, Commit(before, txn).orders);
        assert Commit(before, txn) == before.(orders := Commit(before, txn).orders);
      }
    }
  }

  lemma ProcessedTracks(db: Db, u: TradeUpdate, nested: Option<BrokerOrder>, stamps: Stamps)
    requires FillsOk(db) && PositionTracks(db) && (IsExecution(u) ==> u.qty.value > 0.0)
    ensures PositionTracks(Processed(db, u, nested, stamps))
  {
    hide PositionTracks, InsertFill, SpanPrice, PriorAvg, NewLegs, WithSnapshot, Resurrected;
    var found := Locate(db.orders, u.order);
    if found.Some? {
      var o := found.value;
      var alive := db.(orders := db.orders[o := Resurrected(db.orders[o])]);
      assert SameInstruments(db.orders, alive.orders) by { RowSame(db.orders[o], u.order); }
      OrdersKeepTracking(db, alive.orders);
      RecordedTracks(alive, o, u, stamps);
      var recorded := Recorded(alive, o, u, stamps);
      var done := Processed(db, u, nested, stamps);
      assert SameInstruments(recorded.orders, done.orders) by { RowSame(recorded.orders[o], u.order); }
      OrdersKeepTracking(recorded, done.orders);
    }
  }

  lemma RowSame(row: Order, broker: BrokerOrder)
    ensures Resurrected(row).strategy == row.strategy && Resurrected(row).symbol == row.symbol && Resurrected(row).side == row.side
    ensures var now := WithSnapshot(row, broker);
            now.strategy == row.strategy && now.symbol == row.symbol && now.side == row.side
  {
  }

  lemma RecordedTracks(db: Db, order: nat, u: TradeUpdate, stamps: Stamps)
    requires FillsOk(db) && PositionTracks(db) && order < |db.orders| && (IsExecution(u) ==> u.qty.value > 0.0)
    ensures PositionTracks(Recorded(db, order, u, stamps))
    ensures FillsOk(Recorded(db, order, u, stamps))
  {
    hide PositionTracks, InsertFill, SpanPrice, PriorAvg;
    var gap := GapFills(Exact, db.fills, order, u);
    var middle := InsertFills(db, gap, order, stamps.gap, true);
    EventReachesCumulative(Exact, db.fills, order, u, order);
    InsertKeepsTracking(db, gap, order, stamps.gap);
    if !Duplicate(db.fills, order, u) && IsExecution(u) {
      InsertKeepsTracking(middle, ExecutionFills(Exact, middle.fills, order, u), order, stamps.execution);
    }
  }

  // ── Reconciles: the position rows are the broker's ───────────────

  lemma {:induction false} InsertsSparePositions(db: Db, fills: seq<Fill>, order: nat, stamp: Stamp)
    requires order < |db.orders| && ForOrder(fills, order)
    ensures InsertFills(db, fills, order, stamp, false).positions == db.positions
    decreases |fills|
  {
    hide Lots.LotsAfter, Lots.WalkOf;
    if fills != [] {
      InsertsSparePositions(InsertFill(db, fills[0], stamp, false), fills[1..], order, stamp);
    }
  }

  lemma AdoptSparesPositions(db: Db, o: nat, bo: BrokerOrder, now: Time, synthesize: bool, keys: Keys)
    requires o < |db.orders|
    ensures Adopt(db, o, bo, now, synthesize, keys).positions == db.positions
  {
    hide CatchUp, InsertFills;
    var alive := WithRow(db, o, Resurrected(db.orders[o]));
    var fills := if synthesize then CatchUp(Exact, db.fills, o, bo.filledQty, bo.filledAvg, bo.filledAt.GetOr(now), Recon) else [];
    assert ForOrder(fills, o) by { CatchUpIsForOrder(db.fills, o, bo.filledQty, bo.filledAvg, bo.filledAt.GetOr(now)); }
    InsertsSparePositions(alive, fills, o, keys(|db.fills|));
  }

  lemma CatchUpIsForOrder(fills: seq<Fill>, o: nat, cumQty: real, cumAvg: Option<real>, at: Time)
    ensures ForOrder(CatchUp(Exact, fills, o, cumQty, cumAvg, at, Recon), o)
  {
  }

  lemma {:induction false} ListingSparesPositions(p: Pass, flat: seq<Listed>, now: Time, synthesize: bool, keys: Keys)
    requires IndexInRange(p.index, |p.db.orders|)
    ensures AdoptAllListed(p, flat, now, synthesize, keys).db.positions == p.db.positions
  {
    hide Adopt, NewLegs;
    if flat != [] {
      var entry := flat[|flat| - 1];
      ListingSparesPositions(p, flat[..|flat| - 1], now, synthesize, keys);
      var q := WithLeg(AdoptAllListed(p, flat[..|flat| - 1], now, synthesize, keys), entry, now);
      var local := FindLocal(q.index, entry.order);
      if local.Some? {
        AdoptSparesPositions(q.db, local.value, entry.order, now, synthesize, keys);
      }
    }
  }

  lemma {:induction false} RecoverySparesPositions(r: Recovery, n: nat, flat: seq<Listed>, broker: Broker, now: Time, synthesize: bool, keys: Keys)
    requires n <= |r.pass.db.orders|
    ensures Recover(r, n, flat, broker, now, synthesize, keys).pass.db.positions == r.pass.db.positions
  {
    hide Adopt, NewLegs, Skipped;
    if n > 0 {
      RecoverySparesPositions(r, n - 1, flat, broker, now, synthesize, keys);
      var p := Recover(r, n - 1, flat, broker, now, synthesize, keys).pass;
      var found := Lookup(broker, p.db.orders[n - 1]);
      if found.Some? {
        AdoptSparesPositions(p.db, n - 1, found.value, now, synthesize, keys);
      }
    }
  }

  lemma {:induction false} SweepSparesPositions(db: Db, start: Db, n: nat, broker: Broker, now: Time, keys: Keys)
    requires n <= |db.orders| && n <= |start.orders|
    ensures Sweep(db, start, n, broker, now, keys).positions == db.positions
  {
    hide Adopt, CatchUp, InsertFills, Deficient;
    if n > 0 {
      SweepSparesPositions(db, start, n - 1, broker, now, keys);
      var before := Sweep(db, start, n - 1, broker, now, keys);
      var row := before.orders[n - 1];
      var found := Lookup(broker, row);
      if found.Some? {
        AdoptSparesPositions(before, n - 1, found.value, now, true, keys);
      } else if row.filledAvg.Some? {
        var fills := CatchUp(Exact, before.fills, n - 1, row.filledQty, row.filledAvg, row.filledAt.GetOr(now), Recon);
        CatchUpIsForOrder(before.fills, n - 1, row.filledQty, row.filledAvg, row.filledAt.GetOr(now));
        InsertsSparePositions(before, fills, n - 1, keys(|before.fills|));
      }
    }
  }

  lemma {:induction false} RetriesSparePositions(db: Db, past: seq<Event>, n: nat)
    requires n <= |past|
    ensures RetryPass(db, past, n).positions == db.positions
  {
    hide Lots.LotsAfter, Lots.WalkOf, Companions;
    if n > 0 {
      RetriesSparePositions(db, past, n - 1);
    }
  }

  /** However many fills a reconcile makes up for, none moves a position: a suspect empty answer leaves every
      row as it was, and any other leaves each listed symbol at what the broker last listed and no other. */
  lemma ReconciledPositionsAreTheBrokers(db: Db, broker: Broker, now: Time, synthesize: bool, keys: Keys)
    ensures var rows := Reconciled(db, broker, now, synthesize, keys).positions;
            && (IsSuspect(broker.positions, broker.marketValue) ==> rows == db.positions)
            && (!IsSuspect(broker.positions, broker.marketValue) ==> HoldsTheBrokers(rows, broker.positions))
  {
    hide AdoptAllListed, Recover, Sweep, RetryPass, ReconciledPositions, IsSuspect, HoldsTheBrokers;
    var flat := Flat(broker.open);
    var listed := AdoptAllListed(StartPass(db), flat, now, synthesize, keys);
    ListingSparesPositions(StartPass(db), flat, now, synthesize, keys);
    RecoverySparesPositions(Recovery(listed, 0), |db.orders|, flat, broker, now, synthesize, keys);
    var recovered := Recovered(db, broker, now, synthesize, keys).pass.db;
    SweepSparesPositions(recovered, recovered, |recovered.orders|, broker, now, keys);
    var swept := Sweep(recovered, recovered, |recovered.orders|, broker, now, keys);
    RetriesSparePositions(swept, swept.events, |swept.events|);
    SuspectAnswerIsIgnored(db.positions, broker.positions, broker.marketValue);
    OtherwiseTheBrokersRowsHold(db.positions, broker.positions, broker.marketValue);
  }
}
