/** Every committed transaction is made of four kinds of change, so what those keep, every reachable state
    has: the ledger invariant first of all. */
module DbRuns {
  import opened Domain
  import opened Sums
  import opened Tables
  import opened FillLedger
  import opened OrderRows
  import opened Positions
  import opened Remainders
  import opened TradeUpdates
  import opened Reconciliation
  import opened Books

  // ── An induction principle for the tables ────────────────────────

  /** A fill a writer may insert: of a known order, positive, and leaving the ledger sound. */
  ghost predicate CanInsert(db: Db, fill: Fill) {
    fill.order < |db.orders| && fill.qty > 0.0 && LedgerOk(db.fills + [fill])
  }

  function WithOrders(db: Db, orders: seq<Order>): Db {
    db.(orders := orders)
  }

  function WithPositions(db: Db, positions: map<Symbol, Position>): Db {
    db.(positions := positions)
  }

  function Retried(db: Db): Db {
    RetryPass(db, db.events, |db.events|)
  }

  /** The only four ways the writers change the tables all keep the property. */
  ghost predicate IsKept(inv: Db -> bool) {
    && (forall db: Db :: inv(db) ==> FillsOk(db))
    && (forall db: Db, fill, stamp, applyPosition ::
          inv(db) && CanInsert(db, fill) ==> inv(InsertFill(db, fill, stamp, applyPosition)))
    && (forall db: Db, orders :: inv(db) && SameInstruments(db.orders, orders) ==> inv(WithOrders(db, orders)))
    && (forall db: Db :: inv(db) ==> inv(Retried(db)))
    && (forall db: Db, positions :: inv(db) ==> inv(WithPositions(db, positions)))
  }

  lemma KeptHasFills(inv: Db -> bool, db: Db)
    requires IsKept(inv) && inv(db)
    ensures FillsOk(db)
  {
  }

  lemma KeptByInsert(inv: Db -> bool, db: Db, fill: Fill, stamp: Stamp, applyPosition: bool)
    requires IsKept(inv) && inv(db) && CanInsert(db, fill)
    ensures inv(InsertFill(db, fill, stamp, applyPosition))
  {
  }

  lemma KeptByOrders(inv: Db -> bool, db: Db, orders: seq<Order>)
    requires IsKept(inv) && inv(db) && SameInstruments(db.orders, orders)
    ensures inv(db.(orders := orders))
  {
    assert inv(WithOrders(db, orders));
  }

  lemma KeptByRetries(inv: Db -> bool, db: Db)
    requires IsKept(inv) && inv(db)
    ensures inv(RetryPass(db, db.events, |db.events|))
  {
    assert inv(Retried(db));
  }

  lemma KeptByPositions(inv: Db -> bool, db: Db, positions: map<Symbol, Position>)
    requires IsKept(inv) && inv(db)
    ensures inv(db.(positions := positions))
  {
    assert inv(WithPositions(db, positions));
  }

  lemma KeptByRow(inv: Db -> bool, db: Db, o: nat, row: Order)
    requires IsKept(inv) && inv(db) && o < |db.orders|
    requires row.strategy == db.orders[o].strategy && row.symbol == db.orders[o].symbol && row.side == db.orders[o].side
    ensures inv(WithRow(db, o, row))
  {
    hide IsKept;
    KeptByOrders(inv, db, db.orders[o := row]);
  }

  lemma KeptByMoreRows(inv: Db -> bool, db: Db, rows: seq<Order>)
    requires IsKept(inv) && inv(db)
    ensures inv(db.(orders := db.orders + rows))
  {
    hide IsKept;
    KeptByOrders(inv, db, db.orders + rows);
  }

  // ── Inserting what a writer planned ──────────────────────────────

  lemma KeptByCatchUp(inv: Db -> bool, db: Db, order: nat, cumQty: real, cumAvg: Option<real>, at: Time, tag: Tag, stamp: Stamp, applyPosition: bool)
    requires IsKept(inv) && inv(db) && order < |db.orders|
    ensures inv(InsertFills(db, CatchUp(Exact, db.fills, order, cumQty, cumAvg, at, tag), order, stamp, applyPosition))
  {
    hide IsKept, InsertFill, SpanPrice;
    var fills := CatchUp(Exact, db.fills, order, cumQty, cumAvg, at, tag);
    InsertNone(db, order, stamp, applyPosition);
    KeptHasFills(inv, db);
    CatchUpReaches(Exact, db.fills, order, cumQty, cumAvg, at, tag, order);
    if fills != [] {
      assert fills == [fills[0]];
      InsertOne(db, fills[0], stamp, applyPosition);
      assert (db.fills + fills)[|db.fills|] == fills[0];
      KeptByInsert(inv, db, fills[0], stamp, applyPosition);
    }
  }

  lemma KeptByRecorded(inv: Db -> bool, db: Db, order: nat, u: TradeUpdate, stamps: Stamps)
    requires IsKept(inv) && inv(db) && order < |db.orders| && (IsExecution(u) ==> u.qty.value > 0.0)
    ensures inv(Recorded(db, order, u, stamps))
  {
    hide IsKept, InsertFill, SpanPrice, CatchUp, PriorAvg;
    if Duplicate(db.fills, order, u) {
      InsertNone(db, order, stamps.gap, true);
    } else if !IsExecution(u) {
      KeptByCatchUp(inv, db, order, u.order.filledQty, u.order.filledAvg, u.at, Gap, stamps.gap, true);
    } else {
      var start, prior := u.order.filledQty - u.qty.value, PriorAvg(u);
      var gap := GapFills(Exact, db.fills, order, u);
      KeptByCatchUp(inv, db, order, start, prior, u.at, Gap, stamps.gap, true);
      KeptHasFills(inv, db);
      CatchUpReaches(Exact, db.fills, order, start, prior, u.at, Gap, order);
      var middle := InsertFills(db, gap, order, stamps.gap, true);
      var last := ExecutionFills(Exact, middle.fills, order, u);
      InsertNone(middle, order, stamps.execution, true);
      if last != [] {
        KeptHasFills(inv, middle);
        ExecutionCompletes(Exact, middle.fills, order, u, order);
        assert last == [last[0]];
        InsertOne(middle, last[0], stamps.execution, true);
        KeptByInsert(inv, middle, last[0], stamps.execution, true);
      }
    }
  }

  /** A stream event is made of those four. */
  lemma KeptByProcessed(inv: Db -> bool, db: Db, u: TradeUpdate, nested: Option<BrokerOrder>, stamps: Stamps)
    requires IsKept(inv) && inv(db) && (IsExecution(u) ==> u.qty.value > 0.0)
    ensures inv(Processed(db, u, nested, stamps))
  {
    hide IsKept, InsertFill, InsertFills, Recorded, NewLegs;
    var found := Locate(db.orders, u.order);
    if found.Some? {
      var o := found.value;
      var alive := db.(orders := db.orders[o := Resurrected(db.orders[o])]);
      KeptByRow(inv, db, o, Resurrected(db.orders[o]));
      var recorded := Recorded(alive, o, u, stamps);
      KeptByRecorded(inv, alive, o, u, stamps);
      var applied := recorded.(orders := recorded.orders[o := WithSnapshot(recorded.orders[o], u.order)]);
      KeptByRow(inv, recorded, o, WithSnapshot(recorded.orders[o], u.order));
      if nested.Some? {
        KeptByMoreRows(inv, applied, NewLegs(applied.orders, o, nested.value.legs, stamps.gap.createdAt));
      }
    }
  }

  // ── Reconciliation ───────────────────────────────────────────────

  lemma KeptByAdopt(inv: Db -> bool, db: Db, o: nat, broker: BrokerOrder, now: Time, synthesize: bool, keys: Keys)
    requires IsKept(inv) && inv(db) && o < |db.orders|
    ensures inv(Adopt(db, o, broker, now, synthesize, keys))
  {
    hide IsKept, InsertFill, SpanPrice;
    var alive := WithRow(db, o, Resurrected(db.orders[o]));
    KeptByRow(inv, db, o, Resurrected(db.orders[o]));
    InsertNone(alive, o, keys(|db.fills|), false);
    if synthesize {
      KeptByCatchUp(inv, alive, o, broker.filledQty, broker.filledAvg, broker.filledAt.GetOr(now), Recon, keys(|db.fills|), false);
    }
    var fills := if synthesize then CatchUp(Exact, db.fills, o, broker.filledQty, broker.filledAvg, broker.filledAt.GetOr(now), Recon) else [];
    var caught := InsertFills(alive, fills, o, keys(|db.fills|), false);
    KeptByRow(inv, caught, o, WithSnapshot(caught.orders[o], broker));
  }

  lemma {:induction false} KeptByListed(inv: Db -> bool, p: Pass, flat: seq<Listed>, now: Time, synthesize: bool, keys: Keys)
    requires IsKept(inv) && IndexInRange(p.index, |p.db.orders|) && inv(p.db)
    ensures inv(AdoptAllListed(p, flat, now, synthesize, keys).db)
  {
    hide IsKept, Adopt, NewLegs;
    if flat != [] {
      var entry := flat[|flat| - 1];
      KeptByListed(inv, p, flat[..|flat| - 1], now, synthesize, keys);
      var before := AdoptAllListed(p, flat[..|flat| - 1], now, synthesize, keys);
      var q := WithLeg(before, entry, now);
      assert inv(q.db) by {
        if entry.parent.Some? && FindLocal(before.index, entry.parent.value).Some? {
          KeptByMoreRows(inv, before.db, NewLegs(before.db.orders, FindLocal(before.index, entry.parent.value).value, entry.parent.value.legs, now));
        }
      }
      var local := FindLocal(q.index, entry.order);
      if local.Some? {
        KeptByAdopt(inv, q.db, local.value, entry.order, now, synthesize, keys);
      }
    }
  }

  lemma {:induction false} KeptByRecover(inv: Db -> bool, r: Recovery, n: nat, flat: seq<Listed>, broker: Broker, now: Time, synthesize: bool, keys: Keys)
    requires IsKept(inv) && n <= |r.pass.db.orders| && inv(r.pass.db)
    ensures inv(Recover(r, n, flat, broker, now, synthesize, keys).pass.db)
  {
    hide IsKept, Adopt, NewLegs, Skipped;
    if n > 0 {
      KeptByRecover(inv, r, n - 1, flat, broker, now, synthesize, keys);
      var p := Recover(r, n - 1, flat, broker, now, synthesize, keys).pass;
      var row := p.db.orders[n - 1];
      KeptByRow(inv, p.db, n - 1, row.(status := Failed));
      var found := Lookup(broker, row);
      if found.Some? {
        KeptByAdopt(inv, p.db, n - 1, found.value, now, synthesize, keys);
        var adopted := Adopt(p.db, n - 1, found.value, now, synthesize, keys);
        KeptByMoreRows(inv, adopted, NewLegs(adopted.orders, n - 1, found.value.legs, now));
      }
    }
  }

  lemma {:induction false} KeptBySweep(inv: Db -> bool, db: Db, start: Db, n: nat, broker: Broker, now: Time, keys: Keys)
    requires IsKept(inv) && n <= |db.orders| && n <= |start.orders| && inv(db)
    ensures inv(Sweep(db, start, n, broker, now, keys))
  {
    hide IsKept, Adopt, CatchUp, InsertFills;
    if n > 0 {
      KeptBySweep(inv, db, start, n - 1, broker, now, keys);
      var before := Sweep(db, start, n - 1, broker, now, keys);
      var row := before.orders[n - 1];
      var found := Lookup(broker, row);
      if found.Some? {
        KeptByAdopt(inv, before, n - 1, found.value, now, true, keys);
      } else {
        KeptByCatchUp(inv, before, n - 1, row.filledQty, row.filledAvg, row.filledAt.GetOr(now), Recon, keys(|before.fills|), false);
      }
    }
  }

  /** So is a reconcile, synthesizing or not. */
  lemma KeptByReconciled(inv: Db -> bool, db: Db, broker: Broker, now: Time, synthesize: bool, keys: Keys)
    requires IsKept(inv) && inv(db)
    ensures inv(Reconciled(db, broker, now, synthesize, keys))
  {
    hide IsKept, AdoptAllListed, Recover, Sweep, RetryPass, ReconciledPositions;
    var flat := Flat(broker.open);
    KeptByListed(inv, StartPass(db), flat, now, synthesize, keys);
    var listed := AdoptAllListed(StartPass(db), flat, now, synthesize, keys);
    KeptByRecover(inv, Recovery(listed, 0), |db.orders|, flat, broker, now, synthesize, keys);
    var recovered := Recovered(db, broker, now, synthesize, keys).pass.db;
    KeptBySweep(inv, recovered, recovered, |recovered.orders|, broker, now, keys);
    var swept := Sweep(recovered, recovered, |recovered.orders|, broker, now, keys);
    KeptByRetries(inv, swept);
    var repaired := if synthesize then RetryPass(swept, swept.events, |swept.events|) else recovered;
    KeptByPositions(inv, repaired, ReconciledPositions(repaired.positions, broker.positions, broker.marketValue));
  }

  // ── Runs ─────────────────────────────────────────────────────────

  /** One committed transaction of any writer. */
  datatype Txn =
    | Stream(u: TradeUpdate, nested: Option<BrokerOrder>, stamps: Stamps)
    | Reconcile(broker: Broker, now: Time, synthesize: bool, keys: Keys)
    | Submitted(order: nat, answer: BrokerOrder, now: Time)
    | Refused(order: nat, status: Status)
    | Persist(row: Order)

  function Commit(db: Db, txn: Txn): Db {
    match txn
    case Stream(u, nested, stamps) => Processed(db, u, nested, stamps)
    case Reconcile(broker, now, synthesize, keys) => Reconciled(db, broker, now, synthesize, keys)
    case Submitted(o, answer, now) =>
      if o < |db.orders|
      then
        var rows := db.orders[o := WithSnapshot(db.orders[o], answer)];
        db.(orders := rows + NewLegs(rows, o, answer.legs, now))
      else db
    case Refused(o, status) => if o < |db.orders| then WithRow(db, o, db.orders[o].(status := status)) else db
    case Persist(row) => db.(orders := db.orders + [row])
  }

  function CommitAll(db: Db, run: seq<Txn>): Db {
    if run == [] then db else Commit(CommitAll(db, run[..|run| - 1]), run[|run| - 1])
  }

  ghost predicate PositiveFills(run: seq<Txn>) {
    forall i :: 0 <= i < |run| && run[i].Stream? && IsExecution(run[i].u) ==> run[i].u.qty.value > 0.0
  }

  lemma KeptByCommit(inv: Db -> bool, db: Db, txn: Txn)
    requires IsKept(inv) && inv(db) && (txn.Stream? && IsExecution(txn.u) ==> txn.u.qty.value > 0.0)
    ensures inv(Commit(db, txn))
  {
    hide IsKept, Processed, Reconciled, NewLegs;
    match txn
    case Stream(u, nested, stamps) => KeptByProcessed(inv, db, u, nested, stamps);
    case Reconcile(broker, now, synthesize, keys) => KeptByReconciled(inv, db, broker, now, synthesize, keys);
    case Submitted(o, answer, now) =>
      if o < |db.orders| {
        KeptByRow(inv, db, o, WithSnapshot(db.orders[o], answer));
        var applied := WithRow(db, o, WithSnapshot(db.orders[o], answer));
        KeptByMoreRows(inv, applied, NewLegs(applied.orders, o, answer.legs, now));
      }
    case Refused(o, status) =>
      if o < |db.orders| {
        KeptByRow(inv, db, o, db.orders[o].(status := status));
      }
    case Persist(row) => KeptByMoreRows(inv, db, [row]);
  }

  /** What the four ways of changing the tables keep, every run keeps, whatever the broker answers and
      however the writers interleave. */
  lemma {:induction false} KeptByEveryRun(inv: Db -> bool, db: Db, run: seq<Txn>)
    requires IsKept(inv) && inv(db) && PositiveFills(run)
    ensures inv(CommitAll(db, run))
  {
    hide IsKept, Commit;
    if run != [] {
      KeptByEveryRun(inv, db, run[..|run| - 1]);
      KeptByCommit(inv, CommitAll(db, run[..|run| - 1]), run[|run| - 1]);
    }
  }

  const NO_ROWS := Db([], [], [], [], map[], [])

  // ── The double-entry books ───────────────────────────────────────

  lemma BooksAreKept()
    ensures IsKept(DbOk)
  {
    hide DbOk, InsertFill, RetryPass, LedgerOk;
    forall db: Db | DbOk(db) ensures FillsOk(db) && DbOk(Retried(db)) {
      OkHasFills(db);
      PassKeepsOk(db, |db.events|);
    }
    forall db: Db, fill, stamp, applyPosition | DbOk(db) && CanInsert(db, fill)
      ensures DbOk(InsertFill(db, fill, stamp, applyPosition))
    {
      InsertFillKeepsOk(db, fill, stamp, applyPosition);
    }
    forall db: Db, orders | DbOk(db) && SameInstruments(db.orders, orders) ensures DbOk(WithOrders(db, orders)) {
      OrdersKeepOk(db, orders);
    }
    forall db: Db, positions | DbOk(db) ensures DbOk(WithPositions(db, positions)) {
      PositionsKeepOk(db, positions);
    }
  }

  lemma OkHasFills(db: Db)
    requires DbOk(db)
    ensures FillsOk(db)
  {
  }

  lemma RowKeepsOk(db: Db, o: nat, row: Order)
    requires DbOk(db) && o < |db.orders|
    requires row.strategy == db.orders[o].strategy && row.symbol == db.orders[o].symbol && row.side == db.orders[o].side
    ensures DbOk(WithRow(db, o, row))
  {
    OrdersKeepOk(db, db.orders[o := row]);
  }

  lemma MoreRowsKeepOk(db: Db, rows: seq<Order>)
    requires DbOk(db)
    ensures DbOk(db.(orders := db.orders + rows))
  {
    OrdersKeepOk(db, db.orders + rows);
  }

  lemma CatchUpKeepsOk(db: Db, order: nat, cumQty: real, cumAvg: Option<real>, at: Time, tag: Tag, stamp: Stamp, applyPosition: bool)
    requires DbOk(db) && order < |db.orders|
    ensures DbOk(InsertFills(db, CatchUp(Exact, db.fills, order, cumQty, cumAvg, at, tag), order, stamp, applyPosition))
  {
    hide DbOk, IsKept;
    BooksAreKept();
    KeptByCatchUp(DbOk, db, order, cumQty, cumAvg, at, tag, stamp, applyPosition);
  }

  /** A stream event keeps the books. */
  lemma ProcessedKeepsOk(db: Db, u: TradeUpdate, nested: Option<BrokerOrder>, stamps: Stamps)
    requires DbOk(db) && (IsExecution(u) ==> u.qty.value > 0.0)
    ensures DbOk(Processed(db, u, nested, stamps))
  {
    hide DbOk, IsKept;
    BooksAreKept();
    KeptByProcessed(DbOk, db, u, nested, stamps);
  }

  lemma AdoptKeepsOk(db: Db, o: nat, broker: BrokerOrder, now: Time, synthesize: bool, keys: Keys)
    requires DbOk(db) && o < |db.orders|
    ensures DbOk(Adopt(db, o, broker, now, synthesize, keys))
  {
    hide DbOk, IsKept;
    BooksAreKept();
    KeptByAdopt(DbOk, db, o, broker, now, synthesize, keys);
  }

  /** A reconcile, synthesizing or not, keeps the books. */
  lemma ReconciledKeepsOk(db: Db, broker: Broker, now: Time, synthesize: bool, keys: Keys)
    requires DbOk(db)
    ensures DbOk(Reconciled(db, broker, now, synthesize, keys))
  {
    hide DbOk, IsKept;
    BooksAreKept();
    KeptByReconciled(DbOk, db, broker, now, synthesize, keys);
  }

  /** The double-entry books balance in every reachable state, whatever the broker answers and however
      the writers interleave. */
  lemma EveryRunKeepsOk(db: Db, run: seq<Txn>)
    requires DbOk(db) && PositiveFills(run)
    ensures DbOk(CommitAll(db, run))
  {
    hide DbOk, IsKept;
    BooksAreKept();
    KeptByEveryRun(DbOk, db, run);
  }

  /** So every state the writers can reach from empty tables has balanced books. */
  lemma EveryReachableStateIsOk(run: seq<Txn>)
    requires PositiveFills(run)
    ensures DbOk(CommitAll(NO_ROWS, run))
  {
    hide DbOk, CommitAll;
    EmptyDbIsOk(NO_ROWS);
    EveryRunKeepsOk(NO_ROWS, run);
  }
}
