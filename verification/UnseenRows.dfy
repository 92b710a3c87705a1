/** Rows no snapshot has reached, and rows written off, have nothing filled; and when a run breaks that. */
module UnseenRows {
  import opened Domain
  import opened Tables
  import opened FillLedger
  import opened OrderRows
  import opened Remainders
  import opened TradeUpdates
  import opened Reconciliation
  import opened DbRuns
  import opened DbLedger
  import opened OrderConfluence
  import opened ReconcileQuiet

  ghost predicate AllUnfilled(orders: seq<Order>) {
    forall o :: 0 <= o < |orders| ==> UnseenIsUnfilled(orders[o])
  }

  /** No broker name is read as `failed`, for an order or its legs. */
  ghost predicate NeverFailed(bo: BrokerOrder) {
    bo.status != Failed && forall k :: 0 <= k < |bo.legs| ==> bo.legs[k].status != Failed
  }

  ghost predicate NoneNamedFailed(broker: Broker) {
    && (forall i :: 0 <= i < |broker.open| ==> NeverFailed(broker.open[i]))
    && (forall b :: b in broker.byId ==> NeverFailed(broker.byId[b]))
    && (forall c :: c in broker.byClient ==> NeverFailed(broker.byClient[c]))
  }

  /** What the broker's names are read as, in everything it says to the transaction. */
  ghost predicate Mapped(txn: Txn) {
    match txn
    case Stream(u, nested, _) => u.order.status != Failed && (nested.Some? ==> NeverFailed(nested.value))
    case Reconcile(broker, _, _, _) => NoneNamedFailed(broker)
    case Submitted(_, answer, _) => NeverFailed(answer)
    case _ => true
  }

  /** The refused-submit path writes its status over whatever the stream has filled, and a row may be
      persisted with anything on it; this is when neither leaves an unseen row with a fill. */
  predicate LeavesUnfilled(db: Db, txn: Txn) {
    match txn
    case Refused(o, status) => o < |db.orders| && db.orders[o].filledQty > 0.0 ==>
      status != Failed && (status == PendingSubmit ==> db.orders[o].brokerId.Some?)
    case Persist(row) => row.filledQty > 0.0 ==>
      row.status != Failed && (row.status == PendingSubmit ==> row.brokerId.Some?)
    case _ => true
  }

  // ── The writes ───────────────────────────────────────────────────

  lemma AdoptedIsUnfilled(row: Order, bo: BrokerOrder)
    requires UnseenIsUnfilled(row) && bo.status != Failed
    ensures UnseenIsUnfilled(Adopted(row, bo)) && UnseenIsUnfilled(WithSnapshot(row, bo))
  {
  }

  lemma RowStaysUnfilled(orders: seq<Order>, o: nat, row: Order)
    requires AllUnfilled(orders) && o < |orders|
    ensures AllUnfilled(orders[o := row]) <==> UnseenIsUnfilled(row)
  {
    hide UnseenIsUnfilled;
    assert orders[o := row][o] == row;
  }

  lemma {:induction false} LegsAreUnfilled(orders: seq<Order>, parent: nat, legs: seq<BrokerOrder>, now: Time)
    requires parent < |orders| && forall k :: 0 <= k < |legs| ==> legs[k].status != Failed
    ensures AllUnfilled(NewLegs(orders, parent, legs, now))
  {
    hide KnownLeg;
    if legs != [] {
      LegsAreUnfilled(orders, parent, legs[..|legs| - 1], now);
    }
  }

  lemma MoreUnfilled(orders: seq<Order>, more: seq<Order>)
    requires AllUnfilled(orders)
    ensures AllUnfilled(orders + more) <==> AllUnfilled(more)
  {
    hide UnseenIsUnfilled;
    var all := orders + more;
    forall i | 0 <= i < |more| ensures all[|orders| + i] == more[i] {
    }
  }

  lemma AdoptStaysUnfilled(db: Db, o: nat, bo: BrokerOrder, now: Time, synthesize: bool, keys: Keys)
    requires AllUnfilled(db.orders) && o < |db.orders| && bo.status != Failed
    ensures AllUnfilled(Adopt(db, o, bo, now, synthesize, keys).orders)
  {
    hide Adopt, Adopted, AllUnfilled, UnseenIsUnfilled;
    AdoptAdvances(db, o, bo, now, synthesize, keys);
    AdoptedIsUnfilled(db.orders[o], bo) by {
      RowIsUnfilled(db.orders, o);
    }
    RowStaysUnfilled(db.orders, o, Adopted(db.orders[o], bo));
  }

  lemma RowIsUnfilled(orders: seq<Order>, o: nat)
    requires AllUnfilled(orders) && o < |orders|
    ensures UnseenIsUnfilled(orders[o])
  {
  }

  // ── A reconcile ──────────────────────────────────────────────────

  lemma ListedIsNotFailed(broker: Broker, j: nat)
    requires NoneNamedFailed(broker) && j < |Flat(broker.open)|
    ensures Flat(broker.open)[j].order.status != Failed
    ensures Flat(broker.open)[j].parent.Some? ==> NeverFailed(Flat(broker.open)[j].parent.value)
  {
    FlatIsOpen(broker.open, j);
  }

  lemma LookupIsNotFailed(broker: Broker, row: Order)
    requires NoneNamedFailed(broker) && Lookup(broker, row).Some?
    ensures NeverFailed(Lookup(broker, row).value)
  {
  }

  lemma FamilyStaysUnfilled(orders: seq<Order>, o: nat, bo: BrokerOrder, now: Time)
    requires AllUnfilled(orders) && o < |orders| && NeverFailed(bo)
    ensures AllUnfilled(orders + NewLegs(orders, o, bo.legs, now))
  {
    hide AllUnfilled, NewLegs;
    LegsAreUnfilled(orders, o, bo.legs, now);
    MoreUnfilled(orders, NewLegs(orders, o, bo.legs, now));
  }

  lemma EntryStaysUnfilled(broker: Broker, p: Pass, j: nat, now: Time, synthesize: bool, keys: Keys)
    requires NoneNamedFailed(broker) && j < |Flat(broker.open)| && AllUnfilled(p.db.orders) && IndexInRange(p.index, |p.db.orders|)
    ensures AllUnfilled(AdoptListed(p, Flat(broker.open)[j], now, synthesize, keys).db.orders)
  {
    hide Adopt, Flat, NewLegs, AllUnfilled, NoneNamedFailed, NeverFailed, FindBrokerId, Indexed;
    var entry := Flat(broker.open)[j];
    ListedIsNotFailed(broker, j);
    if entry.parent.Some? && FindLocal(p.index, entry.parent.value).Some? {
      FamilyStaysUnfilled(p.db.orders, FindLocal(p.index, entry.parent.value).value, entry.parent.value, now);
    }
    var q := WithLeg(p, entry, now);
    assert AllUnfilled(q.db.orders);
    hide WithLeg;
    var local := FindLocal(q.index, entry.order);
    if local.Some? {
      AdoptStaysUnfilled(q.db, local.value, entry.order, now, synthesize, keys);
    }
  }

  lemma {:induction false} ListingStaysUnfilled(broker: Broker, db: Db, n: nat, now: Time, synthesize: bool, keys: Keys)
    requires NoneNamedFailed(broker) && n <= |Flat(broker.open)| && AllUnfilled(db.orders)
    ensures AllUnfilled(AdoptAllListed(StartPass(db), Flat(broker.open)[..n], now, synthesize, keys).db.orders)
  {
    hide AdoptListed, Flat, AllUnfilled, NoneNamedFailed, IndexOf;
    if n > 0 {
      var flat := Flat(broker.open);
      ListingStaysUnfilled(broker, db, n - 1, now, synthesize, keys);
      assert flat[..n][..n - 1] == flat[..n - 1];
      EntryStaysUnfilled(broker, AdoptAllListed(StartPass(db), flat[..n - 1], now, synthesize, keys), n - 1, now, synthesize, keys);
    }
  }

  /** A submission given up was never seen, so nothing is filled on it. */
  lemma GivenUpIsUnfilled(row: Order, now: Time)
    requires UnseenIsUnfilled(row) && NeverSubmitted(row, now)
    ensures UnseenIsUnfilled(row.(status := Failed))
  {
  }

  lemma StragglerStaysUnfilled(r: Recovery, i: nat, flat: seq<Listed>, broker: Broker, now: Time, synthesize: bool, keys: Keys)
    requires NoneNamedFailed(broker) && i < |r.pass.db.orders| && AllUnfilled(r.pass.db.orders)
    ensures AllUnfilled(RecoverOne(r, i, flat, broker, now, synthesize, keys).pass.db.orders)
  {
    hide Adopt, NewLegs, AllUnfilled, UnseenIsUnfilled, NoneNamedFailed, Skipped, Lookup, NeverSubmitted;
    var db, row := r.pass.db, r.pass.db.orders[i];
    RowIsUnfilled(db.orders, i);
    var found := Lookup(broker, row);
    if found.Some? {
      LookupIsNotFailed(broker, row);
      AdoptStaysUnfilled(db, i, found.value, now, synthesize, keys);
      FamilyStaysUnfilled(Adopt(db, i, found.value, now, synthesize, keys).orders, i, found.value, now);
    } else if NeverSubmitted(row, now) {
      GivenUpIsUnfilled(row, now);
      RowStaysUnfilled(db.orders, i, row.(status := Failed));
    }
  }

  lemma {:induction false} RecoveryStaysUnfilled(r: Recovery, n: nat, flat: seq<Listed>, broker: Broker, now: Time, synthesize: bool, keys: Keys)
    requires NoneNamedFailed(broker) && n <= |r.pass.db.orders| && AllUnfilled(r.pass.db.orders)
    ensures AllUnfilled(Recover(r, n, flat, broker, now, synthesize, keys).pass.db.orders)
  {
    hide RecoverOne, AllUnfilled, NoneNamedFailed;
    if n > 0 {
      RecoveryStaysUnfilled(r, n - 1, flat, broker, now, synthesize, keys);
      StragglerStaysUnfilled(Recover(r, n - 1, flat, broker, now, synthesize, keys), n - 1, flat, broker, now, synthesize, keys);
    }
  }

  lemma {:induction false} SweepStaysUnfilled(db: Db, start: Db, n: nat, broker: Broker, now: Time, keys: Keys)
    requires NoneNamedFailed(broker) && n <= |db.orders| && n <= |start.orders| && AllUnfilled(db.orders)
    ensures AllUnfilled(Sweep(db, start, n, broker, now, keys).orders)
  {
    hide Adopt, CatchUp, InsertFill, AllUnfilled, NoneNamedFailed, Deficient, Lookup;
    if n > 0 {
      SweepStaysUnfilled(db, start, n - 1, broker, now, keys);
      var before := Sweep(db, start, n - 1, broker, now, keys);
      var found := Lookup(broker, before.orders[n - 1]);
      if found.Some? {
        LookupIsNotFailed(broker, before.orders[n - 1]);
        AdoptStaysUnfilled(before, n - 1, found.value, now, true, keys);
      }
    }
  }

  lemma ReconcileStaysUnfilled(db: Db, broker: Broker, now: Time, synthesize: bool, keys: Keys)
    requires NoneNamedFailed(broker) && AllUnfilled(db.orders)
    ensures AllUnfilled(Reconciled(db, broker, now, synthesize, keys).orders)
  {
    hide Flat, AdoptAllListed, Recover, Sweep, RetryPass, AllUnfilled, NoneNamedFailed, ReconciledPositions;
    var flat := Flat(broker.open);
    assert flat[..|flat|] == flat;
    ListingStaysUnfilled(broker, db, |flat|, now, synthesize, keys);
    var listed := AdoptAllListed(StartPass(db), flat, now, synthesize, keys);
    RecoveryStaysUnfilled(Recovery(listed, 0), |db.orders|, flat, broker, now, synthesize, keys);
    var recovered := Recovered(db, broker, now, synthesize, keys).pass.db;
    SweepStaysUnfilled(recovered, recovered, |recovered.orders|, broker, now, keys);
    var swept := Sweep(recovered, recovered, |recovered.orders|, broker, now, keys);
    RetryKeepsOrders(swept, swept.events, |swept.events|);
  }

  // ── Every transaction ────────────────────────────────────────────

  lemma StreamStaysUnfilled(db: Db, u: TradeUpdate, nested: Option<BrokerOrder>, stamps: Stamps)
    requires AllUnfilled(db.orders) && u.order.status != Failed && (nested.Some? ==> NeverFailed(nested.value))
    ensures AllUnfilled(Processed(db, u, nested, stamps).orders)
  {
    var found := Locate(db.orders, u.order);
    if found.Some? {
      ProcessedRows(db, u, nested, stamps);
      hide Processed, NewLegs, Adopted, Locate, AllUnfilled, UnseenIsUnfilled, NeverFailed;
      RowIsUnfilled(db.orders, found.value);
      AdoptedIsUnfilled(db.orders[found.value], u.order);
      RowStaysUnfilled(db.orders, found.value, Adopted(db.orders[found.value], u.order));
      if nested.Some? {
        FamilyStaysUnfilled(db.orders[found.value := Adopted(db.orders[found.value], u.order)], found.value, nested.value, stamps.gap.createdAt);
      }
    }
  }

  lemma SubmittedStaysUnfilled(db: Db, o: nat, answer: BrokerOrder, now: Time)
    requires AllUnfilled(db.orders) && NeverFailed(answer)
    ensures AllUnfilled(Commit(db, Txn.Submitted(o, answer, now)).orders)
  {
    hide NewLegs, WithSnapshot, AllUnfilled, UnseenIsUnfilled;
    if o < |db.orders| {
      RowIsUnfilled(db.orders, o);
      AdoptedIsUnfilled(db.orders[o], answer);
      RowStaysUnfilled(db.orders, o, WithSnapshot(db.orders[o], answer));
      FamilyStaysUnfilled(db.orders[o := WithSnapshot(db.orders[o], answer)], o, answer, now);
    }
  }

  /** A transaction leaves every unseen or written-off row without a fill exactly when it is not a refusal
      over a row with one, nor persists such a row. */
  lemma TxnKeepsUnfilled(db: Db, txn: Txn)
    requires AllUnfilled(db.orders) && Mapped(txn)
    ensures AllUnfilled(Commit(db, txn).orders) <==> LeavesUnfilled(db, txn)
  {
    hide Processed, Reconciled, NewLegs, AllUnfilled, NeverFailed, NoneNamedFailed;
    match txn
    case Stream(u, nested, stamps) => StreamStaysUnfilled(db, u, nested, stamps);
    case Reconcile(broker, now, synthesize, keys) => ReconcileStaysUnfilled(db, broker, now, synthesize, keys);
    case Submitted(o, answer, now) => SubmittedStaysUnfilled(db, o, answer, now);
    case Refused(o, status) =>
      if o < |db.orders| {
        RowIsUnfilled(db.orders, o);
        RowStaysUnfilled(db.orders, o, db.orders[o].(status := status));
      }
    case Persist(row) =>
      MoreUnfilled(db.orders, [row]);
      OneUnfilled(row);
  }

  lemma OneUnfilled(row: Order)
    ensures AllUnfilled([row]) <==> UnseenIsUnfilled(row)
  {
    hide UnseenIsUnfilled;
    assert [row][0] == row;
  }

  /** So over whole runs of every writer, from tables that have it: unless a refusal is written over a fill,
      what was never seen or was written off has nothing filled. */
  lemma {:induction false} RunKeepsUnfilled(db: Db, run: seq<Txn>)
    requires AllUnfilled(db.orders) && forall i :: 0 <= i < |run| ==> Mapped(run[i]) && LeavesUnfilled(CommitAll(db, run[..i]), run[i])
    ensures AllUnfilled(CommitAll(db, run).orders)
  {
    hide Commit, Mapped, LeavesUnfilled, AllUnfilled;
    if run != [] {
      var last := |run| - 1;
      forall i | 0 <= i < last ensures LeavesUnfilled(CommitAll(db, run[..last][..i]), run[..last][i]) {
        assert run[..last][..i] == run[..i];
      }
      RunKeepsUnfilled(db, run[..last]);
      TxnKeepsUnfilled(CommitAll(db, run[..last]), run[last]);
    }
  }

  /** A submit reported as rate-limited although the order was placed: the stream fills two shares, the handler
      then writes `failed`, and a written-off row has a fill. */
  lemma RefusalOverAFill()
    ensures var filled := FRESH_ROW.(status := PartiallyFilled, brokerId := Some(1), filledQty := 2.0);
            var after := Commit(Db([filled], [], [], [], map[], []), Refused(0, Failed));
            AllUnfilled([filled]) && after.orders == [filled.(status := Failed)] && !AllUnfilled(after.orders)
  {
    var filled := FRESH_ROW.(status := PartiallyFilled, brokerId := Some(1), filledQty := 2.0);
    OneUnfilled(filled);
    OneUnfilled(filled.(status := Failed));
    assert [filled][0 := filled.(status := Failed)] == [filled.(status := Failed)];
  }
}
