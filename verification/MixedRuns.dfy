/** Runs of every writer at once, against a market that tells the truth: rows, ledger and trace agree. */
module MixedRuns {
  import opened Domain
  import opened Tables
  import opened FillLedger
  import opened LedgerRuns
  import opened OrderRows
  import opened Remainders
  import opened TradeUpdates
  import opened Reconciliation
  import opened DbRuns
  import opened DbLedger
  import opened OrderConfluence
  import opened TraceRefinement
  import opened ReconcileQuiet
  import opened Evidence

  // ── The market ───────────────────────────────────────────────────

  /** Whose order each broker id is, each order's trace, and the end of those that have ended. */
  datatype Market = Market(
    owner: BrokerId -> ClientId,
    trace: ClientId -> Trace,
    final: ClientId -> Option<BrokerOrder>)

  ghost predicate MarketOk(m: Market) {
    && (forall c :: PlainTrace(Exact, m.trace(c)))
    && (forall c, d, i, j :: c != d && 0 <= i < |m.trace(c)| && 0 <= j < |m.trace(d)| ==> m.trace(c)[i].id != m.trace(d)[j].id)
    && (forall c :: m.final(c).Some? ==>
          && IsAbsorbing(m.final(c).value.status) && m.final(c).value.status != Failed
          && Reports(m.trace(c), |m.trace(c)|, m.final(c).value.filledQty, m.final(c).value.filledAvg))
  }

  ghost predicate IsReported(m: Market, c: ClientId, qty: real, avg: Option<real>) {
    exists k :: Reports(m.trace(c), k, qty, avg)
  }

  /** A snapshot of some moment of its order: a reported prefix, on the way to the end if there is one. */
  ghost predicate TruthfulOrder(m: Market, bo: BrokerOrder) {
    var c := m.owner(bo.brokerId);
    && (bo.clientId.Some? ==> bo.clientId.value == c)
    && IsReported(m, c, bo.filledQty, bo.filledAvg)
    && bo.status != Failed
    && (m.final(c).Some? ==> LeadsTo(bo, m.final(c).value))
  }

  ghost predicate TruthfulFamily(m: Market, bo: BrokerOrder) {
    TruthfulOrder(m, bo) && forall k :: 0 <= k < |bo.legs| ==> TruthfulOrder(m, bo.legs[k])
  }

  /** Every answer is truthful, and the lookups return what was asked for. */
  ghost predicate TruthfulBroker(m: Market, broker: Broker) {
    && (forall i :: 0 <= i < |broker.open| ==> TruthfulFamily(m, broker.open[i]))
    && (forall b :: b in broker.byId ==> broker.byId[b].brokerId == b && TruthfulFamily(m, broker.byId[b]))
    && (forall c :: c in broker.byClient ==> broker.byClient[c].clientId == Some(c) && TruthfulFamily(m, broker.byClient[c]))
  }

  /** Events are of the trace, answers are truthful, a refused order is one the broker never ends, and a
      pending row is persisted before anything is known of it. */
  ghost predicate TruthfulTxn(m: Market, db: Db, txn: Txn) {
    match txn
    case Stream(u, nested, _) =>
      && TruthfulOrder(m, u.order) && (exists k :: EventAt(m.trace(m.owner(u.order.brokerId)), k, u))
      && (nested.Some? ==> TruthfulFamily(m, nested.value))
    case Reconcile(broker, _, _, _) => TruthfulBroker(m, broker)
    case Submitted(o, answer, _) =>
      o < |db.orders| ==> answer.clientId == Some(db.orders[o].clientId) && TruthfulFamily(m, answer)
    case Refused(o, _) => o < |db.orders| ==> m.final(db.orders[o].clientId).None?
    case Persist(row) => row.status == PendingSubmit && row.brokerId.None? && row.filledQty == 0.0
  }

  ghost predicate TruthfulRun(m: Market, db: Db, run: seq<Txn>) {
    forall i :: 0 <= i < |run| ==> TruthfulTxn(m, CommitAll(db, run[..i]), run[i])
  }

  // ── Rows stay true ───────────────────────────────────────────────

  /** A row's identifiers agree, its columns are a reported prefix, and it is on the way to its order's end. */
  ghost predicate RowTrue(m: Market, row: Order) {
    && (row.brokerId.Some? ==> m.owner(row.brokerId.value) == row.clientId)
    && IsReported(m, row.clientId, row.filledQty, row.filledAvg)
    && (m.final(row.clientId).Some? ==> OnTheWay(row, m.final(row.clientId).value))
  }

  ghost predicate AllTrue(m: Market, orders: seq<Order>) {
    forall o :: 0 <= o < |orders| ==> RowTrue(m, orders[o])
  }

  /** An unreported average belongs to nothing filled, where any average will do. */
  lemma SnapshotIsReported(m: Market, row: Order, bo: BrokerOrder)
    requires IsReported(m, row.clientId, row.filledQty, row.filledAvg) && IsReported(m, row.clientId, bo.filledQty, bo.filledAvg)
    ensures IsReported(m, row.clientId, WithSnapshot(row, bo).filledQty, WithSnapshot(row, bo).filledAvg)
  {
    hide Cum;
    if PlanFor(row, bo).Apply? {
      var k :| Reports(m.trace(row.clientId), k, bo.filledQty, bo.filledAvg);
      assert Reports(m.trace(row.clientId), k, bo.filledQty, WithSnapshot(row, bo).filledAvg);
    }
  }

  lemma SnapshotStaysTrue(m: Market, row: Order, bo: BrokerOrder)
    requires RowTrue(m, row) && TruthfulOrder(m, bo) && m.owner(bo.brokerId) == row.clientId
    ensures RowTrue(m, WithSnapshot(row, bo))
  {
    hide IsReported;
    SnapshotIsReported(m, row, bo);
  }

  lemma WriteStaysTrue(m: Market, row: Order, bo: BrokerOrder)
    requires RowTrue(m, row) && TruthfulOrder(m, bo) && Names(row, bo)
    ensures RowTrue(m, Adopted(row, bo)) && RowTrue(m, WithSnapshot(row, bo))
  {
    hide IsReported, WithSnapshot, LeadsTo;
    assert RowTrue(m, Resurrected(row));
    hide OnTheWay;
    SnapshotStaysTrue(m, row, bo);
    SnapshotStaysTrue(m, Resurrected(row), bo);
  }

  lemma LegRowIsTrue(m: Market, parent: nat, row: Order, leg: BrokerOrder, now: Time)
    requires TruthfulOrder(m, leg) && leg.clientId.Some?
    ensures RowTrue(m, LegRow(parent, row, leg, now))
  {
    hide IsReported;
  }

  lemma LegsAreTrue(m: Market, orders: seq<Order>, parent: nat, legs: seq<BrokerOrder>, now: Time)
    requires parent < |orders| && AllTrue(m, orders)
    requires forall k :: 0 <= k < |legs| ==> TruthfulOrder(m, legs[k])
    ensures AllTrue(m, orders + NewLegs(orders, parent, legs, now))
  {
    hide RowTrue, TruthfulOrder, LegRow, KnownLeg;
    LegsAreTrueAlone(m, orders, parent, legs, now);
  }

  lemma {:induction false} LegsAreTrueAlone(m: Market, orders: seq<Order>, parent: nat, legs: seq<BrokerOrder>, now: Time)
    requires parent < |orders|
    requires forall k :: 0 <= k < |legs| ==> TruthfulOrder(m, legs[k])
    ensures AllTrue(m, NewLegs(orders, parent, legs, now))
  {
    hide RowTrue, TruthfulOrder, LegRow, KnownLeg;
    if legs != [] {
      LegsAreTrueAlone(m, orders, parent, legs[..|legs| - 1], now);
      if legs[|legs| - 1].clientId.Some? {
        LegRowIsTrue(m, parent, orders[parent], legs[|legs| - 1], now);
      }
    }
  }

  lemma RowUpdateIsTrue(m: Market, orders: seq<Order>, o: nat, row: Order)
    requires AllTrue(m, orders) && o < |orders| && RowTrue(m, row)
    ensures AllTrue(m, orders[o := row])
  {
    hide RowTrue;
  }

  lemma AdoptStaysTrue(m: Market, db: Db, o: nat, bo: BrokerOrder, now: Time, synthesize: bool, keys: Keys)
    requires AllTrue(m, db.orders) && o < |db.orders| && TruthfulOrder(m, bo) && Names(db.orders[o], bo)
    ensures AllTrue(m, Adopt(db, o, bo, now, synthesize, keys).orders)
  {
    hide Adopt, RowTrue, TruthfulOrder, Adopted;
    AdoptAdvances(db, o, bo, now, synthesize, keys);
    WriteStaysTrue(m, db.orders[o], bo);
    RowUpdateIsTrue(m, db.orders, o, Adopted(db.orders[o], bo));
  }

  // ── A reconcile keeps rows true ──────────────────────────────────

  lemma ListedIsTruthful(m: Market, broker: Broker, j: nat)
    requires TruthfulBroker(m, broker) && j < |Flat(broker.open)|
    ensures TruthfulOrder(m, Flat(broker.open)[j].order)
    ensures Flat(broker.open)[j].parent.Some? ==> TruthfulFamily(m, Flat(broker.open)[j].parent.value)
  {
    hide TruthfulOrder;
    FlatIsOpen(broker.open, j);
  }

  lemma LegStaysTrue(m: Market, broker: Broker, p: Pass, j: nat, now: Time)
    requires TruthfulBroker(m, broker) && j < |Flat(broker.open)| && AllTrue(m, p.db.orders)
    requires IndexInRange(p.index, |p.db.orders|)
    ensures AllTrue(m, WithLeg(p, Flat(broker.open)[j], now).db.orders)
  {
    hide NewLegs, RowTrue, TruthfulOrder, TruthfulBroker, Flat;
    var entry := Flat(broker.open)[j];
    ListedIsTruthful(m, broker, j);
    if entry.parent.Some? && FindLocal(p.index, entry.parent.value).Some? {
      LegsAreTrue(m, p.db.orders, FindLocal(p.index, entry.parent.value).value, entry.parent.value.legs, now);
    }
  }

  lemma {:induction false} ListedStaysTrue(m: Market, broker: Broker, db: Db, now: Time, synthesize: bool, keys: Keys, n: nat)
    requires TruthfulBroker(m, broker) && AllTrue(m, db.orders) && n <= |Flat(broker.open)|
    ensures var p := AdoptAllListed(StartPass(db), Flat(broker.open)[..n], now, synthesize, keys);
            IndexSound(p.index, p.db.orders) && AllTrue(m, p.db.orders)
  {
    hide AdoptListed, IndexOf, Flat, IndexSound, AllTrue, TruthfulBroker;
    IndexIsSound(db.orders);
    if n > 0 {
      var flat := Flat(broker.open);
      ListedStaysTrue(m, broker, db, now, synthesize, keys, n - 1);
      assert flat[..n][..n - 1] == flat[..n - 1];
      EntryStaysTrue(m, broker, AdoptAllListed(StartPass(db), flat[..n - 1], now, synthesize, keys), n - 1, now, synthesize, keys);
    }
  }

  lemma EntryStaysTrue(m: Market, broker: Broker, p: Pass, j: nat, now: Time, synthesize: bool, keys: Keys)
    requires TruthfulBroker(m, broker) && j < |Flat(broker.open)| && AllTrue(m, p.db.orders)
    requires IndexSound(p.index, p.db.orders) && IndexInRange(p.index, |p.db.orders|)
    ensures var after := AdoptListed(p, Flat(broker.open)[j], now, synthesize, keys);
            IndexSound(after.index, after.db.orders) && AllTrue(m, after.db.orders)
  {
    hide Adopt, Flat, WithLeg, AllTrue, TruthfulBroker, TruthfulOrder, IndexSound, FindLocal, RowsAdvance;
    var entry := Flat(broker.open)[j];
    var q := WithLeg(p, entry, now);
    LegKeepsSound(p, entry, now);
    LegStaysTrue(m, broker, p, j, now);
    FoundIsNamed(q.index, q.db.orders, entry.order);
    var local := FindLocal(q.index, entry.order);
    if local.Some? {
      ListedIsTruthful(m, broker, j);
      AdoptStaysTrue(m, q.db, local.value, entry.order, now, synthesize, keys);
      AdoptAdvances(q.db, local.value, entry.order, now, synthesize, keys);
      AdvanceKeepsSound(q.index, q.db.orders, Adopt(q.db, local.value, entry.order, now, synthesize, keys).orders);
    }
  }

  lemma LookupIsTruthful(m: Market, broker: Broker, row: Order)
    requires TruthfulBroker(m, broker) && Lookup(broker, row).Some?
    ensures TruthfulFamily(m, Lookup(broker, row).value) && Names(row, Lookup(broker, row).value)
  {
    hide TruthfulOrder;
  }

  lemma RecoverOneStaysTrue(m: Market, r: Recovery, i: nat, flat: seq<Listed>, broker: Broker, now: Time, synthesize: bool, keys: Keys)
    requires TruthfulBroker(m, broker) && AllTrue(m, r.pass.db.orders) && i < |r.pass.db.orders|
    ensures AllTrue(m, RecoverOne(r, i, flat, broker, now, synthesize, keys).pass.db.orders)
  {
    var db, row := r.pass.db, r.pass.db.orders[i];
    assert RowTrue(m, row.(status := Failed)) by {
      hide IsReported;
    }
    RowUpdateIsTrue(m, db.orders, i, row.(status := Failed));
    hide Adopt, NewLegs, Skipped, RowTrue, TruthfulOrder, TruthfulBroker, AllTrue, Lookup;
    var found := Lookup(broker, row);
    if found.Some? {
      LookupIsTruthful(m, broker, row);
      AdoptStaysTrue(m, db, i, found.value, now, synthesize, keys);
      LegsAreTrue(m, Adopt(db, i, found.value, now, synthesize, keys).orders, i, found.value.legs, now);
    }
  }

  lemma {:induction false} RecoverStaysTrue(m: Market, r: Recovery, n: nat, flat: seq<Listed>, broker: Broker, now: Time, synthesize: bool, keys: Keys)
    requires TruthfulBroker(m, broker) && AllTrue(m, r.pass.db.orders) && n <= |r.pass.db.orders|
    ensures AllTrue(m, Recover(r, n, flat, broker, now, synthesize, keys).pass.db.orders)
  {
    hide RecoverOne, AllTrue, TruthfulBroker;
    if n > 0 {
      RecoverStaysTrue(m, r, n - 1, flat, broker, now, synthesize, keys);
      RecoverOneStaysTrue(m, Recover(r, n - 1, flat, broker, now, synthesize, keys), n - 1, flat, broker, now, synthesize, keys);
    }
  }

  lemma {:induction false} SweepStaysTrue(m: Market, db: Db, start: Db, n: nat, broker: Broker, now: Time, keys: Keys)
    requires TruthfulBroker(m, broker) && AllTrue(m, db.orders) && n <= |db.orders| && n <= |start.orders|
    ensures AllTrue(m, Sweep(db, start, n, broker, now, keys).orders)
  {
    hide Adopt, CatchUp, InsertFill, AllTrue, TruthfulBroker, Lookup, TruthfulOrder, Deficient;
    if n > 0 {
      SweepStaysTrue(m, db, start, n - 1, broker, now, keys);
      var before := Sweep(db, start, n - 1, broker, now, keys);
      var found := Lookup(broker, before.orders[n - 1]);
      if found.Some? {
        LookupIsTruthful(m, broker, before.orders[n - 1]);
        AdoptStaysTrue(m, before, n - 1, found.value, now, true, keys);
      }
    }
  }

  lemma ReconcileStaysTrue(m: Market, db: Db, broker: Broker, now: Time, synthesize: bool, keys: Keys)
    requires TruthfulBroker(m, broker) && AllTrue(m, db.orders)
    ensures AllTrue(m, Reconciled(db, broker, now, synthesize, keys).orders)
  {
    hide Flat, AdoptAllListed, Recover, Sweep, RetryPass, AllTrue, TruthfulBroker, IndexSound;
    var flat := Flat(broker.open);
    assert flat[..|flat|] == flat;
    ListedStaysTrue(m, broker, db, now, synthesize, keys, |flat|);
    var listed := AdoptAllListed(StartPass(db), flat, now, synthesize, keys);
    RecoverStaysTrue(m, Recovery(listed, 0), |db.orders|, flat, broker, now, synthesize, keys);
    var recovered := Recovered(db, broker, now, synthesize, keys).pass.db;
    SweepStaysTrue(m, recovered, recovered, |recovered.orders|, broker, now, keys);
    var swept := Sweep(recovered, recovered, |recovered.orders|, broker, now, keys);
    RetryKeepsOrders(swept, swept.events, |swept.events|);
  }

  // ── So does every transaction ────────────────────────────────────

  lemma LocatedIsNamed(orders: seq<Order>, bo: BrokerOrder)
    ensures Locate(orders, bo).Some? ==> Names(orders[Locate(orders, bo).value], bo)
  {
  }

  lemma StreamStaysTrue(m: Market, db: Db, u: TradeUpdate, nested: Option<BrokerOrder>, stamps: Stamps)
    requires AllTrue(m, db.orders) && TruthfulOrder(m, u.order) && (nested.Some? ==> TruthfulFamily(m, nested.value))
    ensures AllTrue(m, Processed(db, u, nested, stamps).orders)
  {
    var found := Locate(db.orders, u.order);
    if found.Some? {
      ProcessedRows(db, u, nested, stamps);
      LocatedIsNamed(db.orders, u.order);
      hide Processed, NewLegs, RowTrue, TruthfulOrder, Adopted, Locate;
      WriteStaysTrue(m, db.orders[found.value], u.order);
      var rows := db.orders[found.value := Adopted(db.orders[found.value], u.order)];
      RowUpdateIsTrue(m, db.orders, found.value, Adopted(db.orders[found.value], u.order));
      if nested.Some? {
        LegsAreTrue(m, rows, found.value, nested.value.legs, stamps.gap.createdAt);
      }
    }
  }

  lemma FreshRowIsTrue(m: Market, row: Order)
    requires MarketOk(m) && row.status == PendingSubmit && row.brokerId.None? && row.filledQty == 0.0
    ensures RowTrue(m, row)
  {
    assert m.trace(row.clientId)[..0] == [];
    CumGrows(Exact, m.trace(row.clientId), 0, |m.trace(row.clientId)|);
    assert Reports(m.trace(row.clientId), 0, row.filledQty, row.filledAvg);
  }

  lemma RefusedRowIsTrue(m: Market, row: Order, status: Status)
    requires RowTrue(m, row) && m.final(row.clientId).None?
    ensures RowTrue(m, row.(status := status))
  {
    hide IsReported;
  }

  lemma TxnStaysTrue(m: Market, db: Db, txn: Txn)
    requires MarketOk(m) && AllTrue(m, db.orders) && TruthfulTxn(m, db, txn)
    ensures AllTrue(m, Commit(db, txn).orders)
  {
    hide MarketOk, Processed, Reconciled, NewLegs, RowTrue, TruthfulOrder, TruthfulBroker, EventAt;
    match txn
    case Stream(u, nested, stamps) => StreamStaysTrue(m, db, u, nested, stamps);
    case Reconcile(broker, now, synthesize, keys) => ReconcileStaysTrue(m, db, broker, now, synthesize, keys);
    case Submitted(o, answer, now) =>
      if o < |db.orders| {
        WriteStaysTrue(m, db.orders[o], answer);
        RowUpdateIsTrue(m, db.orders, o, WithSnapshot(db.orders[o], answer));
        LegsAreTrue(m, db.orders[o := WithSnapshot(db.orders[o], answer)], o, answer.legs, now);
      }
    case Refused(o, status) =>
      if o < |db.orders| {
        RefusedRowIsTrue(m, db.orders[o], status);
        RowUpdateIsTrue(m, db.orders, o, db.orders[o].(status := status));
      }
    case Persist(row) => FreshRowIsTrue(m, row);
  }

  lemma {:induction false} RunStaysTrue(m: Market, db: Db, run: seq<Txn>)
    requires MarketOk(m) && AllTrue(m, db.orders) && TruthfulRun(m, db, run)
    ensures AllTrue(m, CommitAll(db, run).orders)
  {
    hide MarketOk, AllTrue, Commit, TruthfulTxn;
    if run != [] {
      var last := |run| - 1;
      TruthfulBefore(m, db, run, last);
      RunStaysTrue(m, db, run[..last]);
      TxnStaysTrue(m, CommitAll(db, run[..last]), run[last]);
    }
  }

  lemma TruthfulBefore(m: Market, db: Db, run: seq<Txn>, n: nat)
    requires TruthfulRun(m, db, run) && n <= |run|
    ensures TruthfulRun(m, db, run[..n])
  {
    hide TruthfulTxn, CommitAll;
    forall i | 0 <= i < n ensures TruthfulTxn(m, CommitAll(db, run[..n][..i]), run[..n][i]) {
      assert run[..n][..i] == run[..i];
    }
  }

  // ── Every step is told by its order's trace ──────────────────────

  ghost predicate ClientsStay(was: seq<Order>, now: seq<Order>) {
    |was| <= |now| && forall o :: 0 <= o < |was| ==> now[o].clientId == was[o].clientId
  }

  lemma TxnKeepsClients(db: Db, txn: Txn)
    ensures ClientsStay(db.orders, Commit(db, txn).orders)
  {
    hide Processed, Reconciled, NewLegs;
    if !txn.Refused? {
      TxnAdvances(db, txn);
      AdvancingKeepsClients(db.orders, Commit(db, txn).orders);
    }
  }

  lemma AdvancingKeepsClients(was: seq<Order>, now: seq<Order>)
    requires RowsAdvance(was, now)
    ensures ClientsStay(was, now)
  {
    forall o | 0 <= o < |was| ensures now[o].clientId == was[o].clientId {
      assert Advances(was[o], now[o]);
    }
  }

  lemma {:induction false} RunKeepsClients(db: Db, run: seq<Txn>, n: nat)
    requires n <= |run|
    ensures ClientsStay(CommitAll(db, run[..n]).orders, CommitAll(db, run).orders)
  {
    hide Commit;
    if n < |run| {
      var last := |run| - 1;
      RunKeepsClients(db, run[..last], n);
      assert run[..last][..n] == run[..n];
      TxnKeepsClients(CommitAll(db, run[..last]), run[last]);
    } else {
      assert run[..n] == run;
    }
  }

  /** The step says something its order's trace bears out. */
  ghost predicate Told(m: Market, orders: seq<Order>, step: Step) {
    && step.order < |orders|
    && match step
       case Event(o, u) => exists k :: EventAt(m.trace(orders[o].clientId), k, u)
       case Snapshot(o, cumQty, cumAvg, _) => IsReported(m, orders[o].clientId, cumQty, cumAvg)
  }

  ghost predicate AllTold(m: Market, orders: seq<Order>, steps: seq<Step>) {
    forall k :: 0 <= k < |steps| ==> Told(m, orders, steps[k])
  }

  lemma ToldStays(m: Market, was: seq<Order>, now: seq<Order>, steps: seq<Step>)
    requires AllTold(m, was, steps) && ClientsStay(was, now)
    ensures AllTold(m, now, steps)
  {
    hide EventAt, IsReported;
    forall k | 0 <= k < |steps| ensures Told(m, now, steps[k]) {
      assert Told(m, was, steps[k]);
    }
  }

  lemma AnswerIsTruthful(m: Market, broker: Broker, row: Order, bo: BrokerOrder)
    requires TruthfulBroker(m, broker) && RowTrue(m, row) && AnswersFor(broker, row, bo)
    ensures IsReported(m, row.clientId, bo.filledQty, bo.filledAvg)
  {
    hide Flat, IsReported, LeadsTo, OnTheWay;
    if exists j :: 0 <= j < |Flat(broker.open)| && Flat(broker.open)[j].order == bo && Names(row, bo) {
      var j :| 0 <= j < |Flat(broker.open)| && Flat(broker.open)[j].order == bo && Names(row, bo);
      ListedIsTruthful(m, broker, j);
    }
  }

  lemma EvidentIsTold(m: Market, broker: Broker, orders: seq<Order>, now: Time, step: Step)
    requires TruthfulBroker(m, broker) && AllTrue(m, orders) && Evident(broker, orders, now, step)
    ensures Told(m, orders, step)
  {
    hide TruthfulBroker, AnswersFor, IsReported, OnTheWay;
    var row := orders[step.order];
    assert RowTrue(m, row);
    if step != OwnColumns(step.order, row, now) {
      var bo :| AnswersFor(broker, row, bo) && step == SnapshotOf(step.order, bo, now);
      AnswerIsTruthful(m, broker, row, bo);
    }
  }

  lemma LocatedIsTold(m: Market, orders: seq<Order>, u: TradeUpdate)
    requires AllTrue(m, orders) && TruthfulOrder(m, u.order) && Locate(orders, u.order).Some?
    ensures orders[Locate(orders, u.order).value].clientId == m.owner(u.order.brokerId)
  {
    hide IsReported, OnTheWay, LeadsTo, Locate;
    LocatedIsNamed(orders, u.order);
    assert RowTrue(m, orders[Locate(orders, u.order).value]);
  }

  lemma TxnStepsAreTold(m: Market, db: Db, txn: Txn)
    requires MarketOk(m) && AllTrue(m, db.orders) && TruthfulTxn(m, db, txn)
    ensures AllTold(m, Commit(db, txn).orders, StepsOf(db, txn))
  {
    hide MarketOk, Processed, Reconciled, AllTrue, TruthfulOrder, TruthfulBroker, EventAt, Locate, ReconcileSteps, Evident;
    TxnStaysTrue(m, db, txn);
    TxnKeepsClients(db, txn);
    if txn.Stream? && Locate(db.orders, txn.u.order).Some? {
      LocatedIsTold(m, db.orders, txn.u);
      assert Told(m, Commit(db, txn).orders, StepsOf(db, txn)[0]);
    } else if txn.Reconcile? && txn.synthesize {
      ReconcileStepsAreEvident(db, txn.broker, txn.now, txn.keys);
      var steps, after := StepsOf(db, txn), Commit(db, txn).orders;
      forall k | 0 <= k < |steps| ensures Told(m, after, steps[k]) {
        EvidentIsTold(m, txn.broker, after, txn.now, steps[k]);
      }
    }
  }

  lemma {:induction false} RunStepsAreTold(m: Market, db: Db, run: seq<Txn>)
    requires MarketOk(m) && AllTrue(m, db.orders) && TruthfulRun(m, db, run)
    ensures AllTold(m, CommitAll(db, run).orders, RunSteps(db, run))
  {
    hide MarketOk, AllTrue, Commit, TruthfulTxn, Told, StepsOf;
    if run != [] {
      var last := |run| - 1;
      var before := CommitAll(db, run[..last]);
      TruthfulBefore(m, db, run, last);
      RunStepsAreTold(m, db, run[..last]);
      RunStaysTrue(m, db, run[..last]);
      TxnKeepsClients(before, run[last]);
      ToldStays(m, before.orders, Commit(before, run[last]).orders, RunSteps(db, run[..last]));
      TxnStepsAreTold(m, before, run[last]);
    }
  }

  // ── Rows, ledger and trace ───────────────────────────────────────

  ghost function TracesOf(m: Market, orders: seq<Order>): (traces: seq<Trace>)
    ensures |traces| == |orders| && forall o :: 0 <= o < |orders| ==> traces[o] == m.trace(orders[o].clientId)
  {
    seq(|orders|, o requires 0 <= o < |orders| => m.trace(orders[o].clientId))
  }

  lemma TracesArePlain(m: Market, orders: seq<Order>)
    requires MarketOk(m) && UniqueClients(orders)
    ensures PlainTraces(Exact, TracesOf(m, orders))
  {
    hide PlainTrace;
    var traces: seq<Trace> := TracesOf(m, orders);
    forall o: nat, p: nat, i: nat, j: nat | 0 <= o < |traces| && 0 <= p < |traces| && o != p && 0 <= i < |traces[o]| && 0 <= j < |traces[p]|
      ensures traces[o][i].id != traces[p][j].id
    {
      assert orders[o].clientId != orders[p].clientId;
    }
  }

  /** The run's steps with the trace index each of them shows. */
  lemma {:induction false} Delivered(m: Market, orders: seq<Order>, steps: seq<Step>) returns (deliveries: seq<Delivery>)
    requires AllTold(m, orders, steps)
    ensures Steps(deliveries) == steps && |deliveries| == |steps|
    ensures forall i :: 0 <= i < |deliveries| ==> deliveries[i].step == steps[i] && Consistent(TracesOf(m, orders), deliveries[i])
  {
    hide EventAt, Reports, Told;
    deliveries := [];
    if steps != [] {
      var last := |steps| - 1;
      var earlier := Delivered(m, orders, steps[..last]);
      var d := DeliveredOne(m, orders, steps[last]);
      deliveries := earlier + [d];
      assert deliveries[..last] == earlier;
    }
  }

  lemma DeliveredOne(m: Market, orders: seq<Order>, step: Step) returns (d: Delivery)
    requires Told(m, orders, step)
    ensures d.step == step && Consistent(TracesOf(m, orders), d)
  {
    hide EventAt, Reports;
    var trace := m.trace(orders[step.order].clientId);
    match step
    case Event(o, u) =>
      var k :| EventAt(trace, k, u);
      d := Delivery(step, k);
    case Snapshot(o, cumQty, cumAvg, _) =>
      var k :| Reports(trace, k, cumQty, cumAvg);
      d := Delivery(step, k);
  }

  /** Whoever writes: in a run against a truthful market every order's ledger is a prefix of its trace, and
      so are its row's columns. */
  lemma MixedRunIsPrefix(m: Market, db: Db, run: seq<Txn>, o: nat) returns (k: nat)
    requires MarketOk(m) && AllTrue(m, db.orders) && db.fills == [] && TruthfulRun(m, db, run)
    requires UniqueClients(CommitAll(db, run).orders) && o < |CommitAll(db, run).orders|
    ensures var after := CommitAll(db, run);
            var trace := m.trace(after.orders[o].clientId);
            && k <= |trace| && AppliedLedger(after.fills, o) == Cum(trace, k)
            && IsReported(m, after.orders[o].clientId, after.orders[o].filledQty, after.orders[o].filledAvg)
    ensures forall i :: 0 <= i < |RunSteps(db, run)| && RunSteps(db, run)[i].order == o ==>
              Reported(RunSteps(db, run)[i]) <= AppliedLedger(CommitAll(db, run).fills, o).qty
  {
    hide MarketOk, Cum, AppliedLedger, CommitAll, TruthfulRun, RunSteps, PlainTraces, Seen, Consistent, RunFrom, AllTold, IsReported;
    var after, steps := CommitAll(db, run), RunSteps(db, run);
    RunStaysTrue(m, db, run);
    assert RowTrue(m, after.orders[o]);
    RunStepsAreTold(m, db, run);
    RunActs(db, run);
    TracesArePlain(m, after.orders);
    var deliveries := Delivered(m, after.orders, steps);
    var traces := TracesOf(m, after.orders);
    ExactRunIsPrefix(traces, deliveries, o);
    k := Seen(traces, deliveries)[o];
    forall i | 0 <= i < |steps| && steps[i].order == o ensures Reported(steps[i]) <= Cum(traces[o], k).qty {
      SeenIsLargest(traces, deliveries, i);
      ReportedIsBelow(traces, deliveries[i], k);
    }
  }

  lemma {:induction false} SeenIsLargest(traces: seq<Trace>, run: seq<Delivery>, i: nat)
    requires i < |run| && run[i].step.order < |traces|
    ensures Seen(traces, run)[run[i].step.order] >= run[i].k
  {
    if i < |run| - 1 {
      SeenIsLargest(traces, run[..|run| - 1], i);
    }
  }

  lemma ReportedIsBelow(traces: seq<Trace>, d: Delivery, k: nat)
    requires PlainTraces(Exact, traces) && Consistent(traces, d) && d.k <= k <= |traces[d.step.order]|
    ensures Reported(d.step) <= Cum(traces[d.step.order], k).qty
  {
    hide Cum;
    CumGrows(Exact, traces[d.step.order], d.k, k);
  }

  // ── An order that has ended ──────────────────────────────────────

  lemma EventSettlesRow(m: Market, db: Db, u: TradeUpdate, nested: Option<BrokerOrder>, stamps: Stamps, o: nat)
    requires AllTrue(m, db.orders) && TruthfulOrder(m, u.order) && Locate(db.orders, u.order) == Some(o)
    requires m.final(m.owner(u.order.brokerId)) == Some(u.order)
    requires IsAbsorbing(u.order.status) && u.order.status != Failed
    ensures o < |db.orders| && o < |Processed(db, u, nested, stamps).orders|
    ensures Settles(Processed(db, u, nested, stamps).orders[o], u.order)
  {
    LocatedIsTold(m, db.orders, u);
    ProcessedActs(db, u, nested, stamps, o);
    assert RowTrue(m, db.orders[o]);
    hide Processed, Locate, IsReported, EventFills;
    assert OnTheWay(db.orders[o], u.order);
  }

  lemma SettledStays(m: Market, db: Db, txn: Txn, o: nat, final: BrokerOrder)
    requires TruthfulTxn(m, db, txn) && o < |db.orders| && Settles(db.orders[o], final)
    requires IsAbsorbing(final.status) && final.status != Failed && m.final(db.orders[o].clientId).Some?
    ensures o < |Commit(db, txn).orders| && Settles(Commit(db, txn).orders[o], final)
  {
    hide Processed, Reconciled, NewLegs, TruthfulOrder, TruthfulBroker, EventAt;
    if !txn.Refused? {
      TxnAdvances(db, txn);
      assert Advances(db.orders[o], Commit(db, txn).orders[o]);
    }
  }

  lemma {:induction false} SettledForGood(m: Market, db: Db, run: seq<Txn>, n: nat, o: nat, final: BrokerOrder)
    requires TruthfulRun(m, db, run) && n <= |run|
    requires o < |CommitAll(db, run[..n]).orders| && Settles(CommitAll(db, run[..n]).orders[o], final)
    requires IsAbsorbing(final.status) && final.status != Failed && m.final(CommitAll(db, run[..n]).orders[o].clientId).Some?
    ensures o < |CommitAll(db, run).orders| && Settles(CommitAll(db, run).orders[o], final)
  {
    hide Commit, TruthfulTxn, Settles;
    if n < |run| {
      var last := |run| - 1;
      assert run[..last][..n] == run[..n];
      TruthfulBefore(m, db, run, last);
      SettledForGood(m, db, run[..last], n, o, final);
      RunKeepsClients(db, run[..last], n);
      SettledStays(m, CommitAll(db, run[..last]), run[last], o, final);
    } else {
      assert run[..n] == run;
    }
  }

  lemma {:induction false} StepsGrow(db: Db, run: seq<Txn>, n: nat)
    requires n <= |run|
    ensures RunSteps(db, run[..n]) <= RunSteps(db, run)
  {
    hide StepsOf, CommitAll;
    if n < |run| {
      var last := |run| - 1;
      assert run[..last][..n] == run[..n];
      StepsGrow(db, run[..last], n);
    } else {
      assert run[..n] == run;
    }
  }

  /** A located event is a step of the whole run. */
  lemma EventIsStep(db: Db, run: seq<Txn>, i: nat, o: nat) returns (k: nat)
    requires i < |run| && run[i].Stream? && Locate(CommitAll(db, run[..i]).orders, run[i].u.order) == Some(o)
    ensures k < |RunSteps(db, run)| && RunSteps(db, run)[k] == Event(o, run[i].u)
  {
    hide CommitAll, Locate;
    assert run[..i + 1][..i] == run[..i];
    var steps := RunSteps(db, run[..i + 1]);
    k := |RunSteps(db, run[..i])|;
    assert steps[k] == Event(o, run[i].u);
    StepsGrow(db, run, i + 1);
  }

  lemma WholeIsLargest(trace: Trace, k: nat)
    requires PlainTrace(Exact, trace) && k <= |trace| && Cum(trace, k).qty >= Cum(trace, |trace|).qty
    ensures k == |trace|
  {
    CumGrows(Exact, trace, k, |trace|);
  }

  /** End to end, whoever else writes in between: once the stream has delivered an order's end, wherever in
      the run, its row shows that end, its ledger is its whole trace, and the two agree. */
  lemma FinalEventSettlesRowAndLedger(m: Market, db: Db, run: seq<Txn>, i: nat, o: nat)
    requires MarketOk(m) && AllTrue(m, db.orders) && db.fills == [] && TruthfulRun(m, db, run)
    requires UniqueClients(CommitAll(db, run).orders)
    requires i < |run| && run[i].Stream? && Locate(CommitAll(db, run[..i]).orders, run[i].u.order) == Some(o)
    requires m.final(m.owner(run[i].u.order.brokerId)) == Some(run[i].u.order)
    ensures var after, final := CommitAll(db, run), run[i].u.order;
            var trace := m.trace(m.owner(final.brokerId));
            && o < |after.orders| && Settles(after.orders[o], final)
            && AppliedLedger(after.fills, o) == Cum(trace, |trace|)
            && AppliedLedger(after.fills, o).qty == after.orders[o].filledQty
  {
    hide CommitAll, TruthfulRun, RunSteps, Locate, AppliedLedger, Cum, TruthfulOrder, AllTrue, PlainTrace, Processed, Settles, EventAt;
    var before, u := CommitAll(db, run[..i]), run[i].u;
    var c := m.owner(u.order.brokerId);
    EventSettles(m, db, run, i, o);
    RunKeepsClients(db, run, i + 1);
    SettledForGood(m, db, run, i + 1, o, u.order);
    var k := MixedRunIsPrefix(m, db, run, o);
    var n := EventIsStep(db, run, i, o);
    assert Reported(RunSteps(db, run)[n]) <= AppliedLedger(CommitAll(db, run).fills, o).qty;
    WholeIsLargest(m.trace(c), k);
    assert CommitAll(db, run).orders[o].filledQty == u.order.filledQty by { SettledQty(CommitAll(db, run).orders[o], u.order); }
  }

  lemma SettledQty(row: Order, final: BrokerOrder)
    requires Settles(row, final)
    ensures row.filledQty == final.filledQty
  {
  }

  /** Right after the event: the located row is its order's, and shows the end. */
  lemma EventSettles(m: Market, db: Db, run: seq<Txn>, i: nat, o: nat)
    requires MarketOk(m) && AllTrue(m, db.orders) && TruthfulRun(m, db, run)
    requires i < |run| && run[i].Stream? && Locate(CommitAll(db, run[..i]).orders, run[i].u.order) == Some(o)
    requires m.final(m.owner(run[i].u.order.brokerId)) == Some(run[i].u.order)
    ensures var rows := CommitAll(db, run[..i + 1]).orders;
            o < |rows| && Settles(rows[o], run[i].u.order) && rows[o].clientId == m.owner(run[i].u.order.brokerId)
    ensures IsAbsorbing(run[i].u.order.status) && run[i].u.order.status != Failed
  {
    hide AllTrue, TruthfulOrder, Processed, Settles, EventAt, Locate, Reports, PlainTrace;
    var before, txn := CommitAll(db, run[..i]), run[i];
    assert run[..i + 1][..i] == run[..i];
    TruthfulBefore(m, db, run, i);
    RunStaysTrue(m, db, run[..i]);
    assert TruthfulTxn(m, before, txn);
    assert m.final(m.owner(txn.u.order.brokerId)).Some?;
    EventSettlesRow(m, before, txn.u, txn.nested, txn.stamps, o);
    LocatedIsTold(m, before.orders, txn.u);
    TxnKeepsClients(before, txn);
  }
}
