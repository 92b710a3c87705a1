/** Status confluence: however consistent snapshots are delivered, the order row ends in one state. */
module OrderConfluence {
  import opened Domain
  import opened Sums
  import opened Tables
  import opened FillLedger
  import opened LedgerRuns
  import opened OrderRows
  import opened Remainders
  import opened TradeUpdates
  import opened Reconciliation
  import opened DbRuns
  import opened DbLedger
  import opened TraceRefinement

  // ── Writes to one row ────────────────────────────────────────────

  /** The three ways a row's state is written: stream and adopting reconcile resurrect first, the submit
      handler does not, and a reconcile may give an unseen submission up. */
  datatype Write =
    | Adopting(broker: BrokerOrder)
    | Submitting(broker: BrokerOrder)
    | GivingUp(now: Time)

  function Written(row: Order, write: Write): Order {
    match write
    case Adopting(broker) => Adopted(row, broker)
    case Submitting(broker) => WithSnapshot(row, broker)
    case GivingUp(now) => if NeverSubmitted(row, now) then row.(status := Failed) else row
  }

  function WrittenAll(row: Order, writes: seq<Write>): Order {
    if writes == [] then row else Written(WrittenAll(row, writes[..|writes| - 1]), writes[|writes| - 1])
  }

  // ── What no write undoes ─────────────────────────────────────────

  /** The instrument and the identities stay, quantity only grows, and an absorbing state other than
      `failed` is for good. */
  ghost predicate Advances(was: Order, now: Order) {
    && now.clientId == was.clientId && now.symbol == was.symbol && now.side == was.side
    && now.strategy == was.strategy && now.parent == was.parent
    && (was.brokerId.Some? ==> now.brokerId == was.brokerId)
    && was.filledQty <= now.filledQty
    && (IsAbsorbing(was.status) && was.status != Failed ==>
          now.status == was.status && now.filledQty == was.filledQty && now.filledAvg == was.filledAvg)
  }

  lemma WriteAdvances(row: Order, write: Write)
    ensures Advances(row, Written(row, write))
    ensures row.status == Failed && Written(row, write).status != Failed ==> write.Adopting?
  {
  }

  lemma {:induction false} WritesAdvance(row: Order, writes: seq<Write>, n: nat)
    requires n <= |writes|
    ensures Advances(WrittenAll(row, writes[..n]), WrittenAll(row, writes))
  {
    if n < |writes| {
      var last := |writes| - 1;
      WritesAdvance(row, writes[..last], n);
      assert writes[..last][..n] == writes[..n];
      WriteAdvances(WrittenAll(row, writes[..last]), writes[last]);
    } else {
      assert writes[..n] == writes;
    }
  }

  /** A row no snapshot has reached, or one written off, has nothing filled. */
  ghost predicate UnseenIsUnfilled(row: Order) {
    row.status == Failed || (row.status == PendingSubmit && row.brokerId.None?) ==> row.filledQty <= 0.0
  }

  lemma {:induction false} WritesKeepUnseenUnfilled(row: Order, writes: seq<Write>)
    requires UnseenIsUnfilled(row)
    requires forall i :: 0 <= i < |writes| && !writes[i].GivingUp? ==> writes[i].broker.status != Failed
    ensures UnseenIsUnfilled(WrittenAll(row, writes))
  {
    if writes != [] {
      WritesKeepUnseenUnfilled(row, writes[..|writes| - 1]);
    }
  }

  // ── Confluence ───────────────────────────────────────────────────

  /** A snapshot the broker could have reported on the way to `final`. */
  ghost predicate LeadsTo(broker: BrokerOrder, final: BrokerOrder) {
    && broker.status != Failed
    && broker.filledQty <= final.filledQty
    && (IsAbsorbing(broker.status) ==>
          broker.status == final.status && broker.filledQty == final.filledQty && broker.filledAvg == final.filledAvg)
  }

  ghost predicate AllLeadTo(writes: seq<Write>, final: BrokerOrder) {
    forall i :: 0 <= i < |writes| && !writes[i].GivingUp? ==> LeadsTo(writes[i].broker, final)
  }

  ghost predicate Settles(row: Order, final: BrokerOrder) {
    && row.status == final.status && row.filledQty == final.filledQty
    && (final.filledAvg.Some? ==> row.filledAvg == final.filledAvg)
  }

  ghost predicate OnTheWay(row: Order, final: BrokerOrder) {
    && row.filledQty <= final.filledQty
    && (IsAbsorbing(row.status) && row.status != Failed ==> Settles(row, final))
  }

  /** Every delivery order, with repetition, that includes the final snapshot ends in it: late, early and
      duplicate snapshots, the submit response and a premature giving-up change nothing. */
  lemma {:induction false} SnapshotsAreConfluent(row: Order, writes: seq<Write>, final: BrokerOrder, k: nat)
    requires OnTheWay(row, final) && AllLeadTo(writes, final)
    requires IsAbsorbing(final.status) && final.status != Failed
    ensures OnTheWay(WrittenAll(row, writes), final)
    ensures k < |writes| && writes[k] == Adopting(final) ==> Settles(WrittenAll(row, writes), final)
  {
    if writes != [] {
      var last := |writes| - 1;
      SnapshotsAreConfluent(row, writes[..last], final, k);
    }
  }

  /** Two runs over the same final snapshot agree, wherever each started. */
  lemma RunsAgree(one: Order, ones: seq<Write>, two: Order, twos: seq<Write>, final: BrokerOrder)
    requires one.status in {PendingSubmit, Failed} && two.status in {PendingSubmit, Failed}
    requires one.filledQty <= final.filledQty && two.filledQty <= final.filledQty
    requires AllLeadTo(ones, final) && AllLeadTo(twos, final)
    requires IsAbsorbing(final.status) && final.status != Failed && final.filledAvg.Some?
    requires Adopting(final) in ones && Adopting(final) in twos
    ensures var a, b := WrittenAll(one, ones), WrittenAll(two, twos);
            a.status == b.status && a.filledQty == b.filledQty && a.filledAvg == b.filledAvg
  {
    var j :| 0 <= j < |ones| && ones[j] == Adopting(final);
    var k :| 0 <= k < |twos| && twos[k] == Adopting(final);
    SnapshotsAreConfluent(one, ones, final, j);
    SnapshotsAreConfluent(two, twos, final, k);
  }

  /** And the condition is exact, in the broker's own names: a snapshot under the final one commutes with it
      just when its name is not one a row takes for good, or it is the same end. */
  lemma CommutesWithTheFinal(row: Order, broker: BrokerOrder, raw: string, final: BrokerOrder, finalRaw: string)
    requires row.status == PendingSubmit && row.filledQty <= broker.filledQty <= final.filledQty
    requires broker.status == MapStatus(raw) && final.status == MapStatus(finalRaw) && finalRaw in FINAL_NAMES
    ensures var before, after := Adopted(Adopted(row, broker), final), Adopted(Adopted(row, final), broker);
            (before.status == after.status && before.filledQty == after.filledQty)
            <==> (raw in FINAL_NAMES ==> broker.status == final.status && broker.filledQty == final.filledQty)
  {
    MappedStatuses(raw);
    MappedStatuses(finalRaw);
    hide MapStatus;
    assert Adopted(row, broker).status == broker.status;
  }

  /** A snapshot of an order for five shares, from its raw name. */
  function Named(raw: string, filledQty: real): BrokerOrder {
    BrokerOrder(1, Some(1), 1, Buy, false, MapStatus(raw), Some(5.0), filledQty, Some(10.0), None, [])
  }

  const FRESH_ROW := Order(1, None, None, 1, Buy, false, None, PendingSubmit, 5.0, 0.0, None, None, 0)

  /** An order restated in mid-life and then filled: delivered in that order the row stays at `replaced` with
      two shares, delivered the other way round it is filled with five. */
  lemma RestatedMidLifeSplitsRuns()
    ensures var restatedFirst := Adopted(Adopted(FRESH_ROW, Named("restated", 2.0)), Named("filled", 5.0));
            restatedFirst.status == Replaced && restatedFirst.filledQty == 2.0
    ensures var filledFirst := Adopted(Adopted(FRESH_ROW, Named("filled", 5.0)), Named("restated", 2.0));
            filledFirst.status == Filled && filledFirst.filledQty == 5.0
  {
  }

  /** What a stream transaction does to the rows. */
  lemma ProcessedRows(db: Db, u: TradeUpdate, nested: Option<BrokerOrder>, stamps: Stamps)
    requires Locate(db.orders, u.order).Some?
    ensures var o := Locate(db.orders, u.order).value;
            var rows := db.orders[o := Adopted(db.orders[o], u.order)];
            var after := Processed(db, u, nested, stamps).orders;
            || after == rows
            || (nested.Some? && after == rows + NewLegs(rows, o, nested.value.legs, stamps.gap.createdAt))
  {
    hide EventFills, NewLegs, InsertFills;
    var o := Locate(db.orders, u.order).value;
    var alive := db.(orders := db.orders[o := Resurrected(db.orders[o])]);
    var recorded := Recorded(alive, o, u, stamps);
    assert recorded.orders[o := WithSnapshot(recorded.orders[o], u.order)] == db.orders[o := Adopted(db.orders[o], u.order)];
  }

  // ── Every transaction advances every row ─────────────────────────

  ghost predicate RowsAdvance(was: seq<Order>, now: seq<Order>) {
    |was| <= |now| && forall o :: 0 <= o < |was| ==> Advances(was[o], now[o])
  }

  lemma AdvancesItself(rows: seq<Order>, more: seq<Order>)
    ensures RowsAdvance(rows, rows) && RowsAdvance(rows, rows + more)
  {
  }

  lemma AdvancesChain(a: seq<Order>, b: seq<Order>, c: seq<Order>)
    requires RowsAdvance(a, b) && RowsAdvance(b, c)
    ensures RowsAdvance(a, c)
  {
  }

  lemma RowChangeAdvances(was: seq<Order>, now: seq<Order>, o: nat)
    requires o < |was| <= |now| && Advances(was[o], now[o])
    requires forall i :: 0 <= i < |was| && i != o ==> now[i] == was[i]
    ensures RowsAdvance(was, now)
  {
  }

  lemma AdoptAdvances(db: Db, o: nat, broker: BrokerOrder, now: Time, synthesize: bool, keys: Keys)
    requires o < |db.orders|
    ensures Adopt(db, o, broker, now, synthesize, keys).orders == db.orders[o := Adopted(db.orders[o], broker)]
    ensures RowsAdvance(db.orders, Adopt(db, o, broker, now, synthesize, keys).orders)
  {
    hide CatchUp, InsertFill;
    WriteAdvances(db.orders[o], Adopting(broker));
  }

  lemma AdoptListedAdvances(p: Pass, entry: Listed, now: Time, synthesize: bool, keys: Keys)
    requires IndexInRange(p.index, |p.db.orders|)
    ensures RowsAdvance(p.db.orders, AdoptListed(p, entry, now, synthesize, keys).db.orders)
  {
    hide Adopt, NewLegs, RowsAdvance;
    var q := WithLeg(p, entry, now);
    AdvancesItself(p.db.orders, q.db.orders[|p.db.orders|..]);
    assert q.db.orders == p.db.orders + q.db.orders[|p.db.orders|..];
    var local := FindLocal(q.index, entry.order);
    if local.Some? {
      AdoptAdvances(q.db, local.value, entry.order, now, synthesize, keys);
      AdvancesChain(p.db.orders, q.db.orders, AdoptListed(p, entry, now, synthesize, keys).db.orders);
    }
  }

  lemma {:induction false} ListedAdvances(p: Pass, flat: seq<Listed>, now: Time, synthesize: bool, keys: Keys)
    requires IndexInRange(p.index, |p.db.orders|)
    ensures RowsAdvance(p.db.orders, AdoptAllListed(p, flat, now, synthesize, keys).db.orders)
  {
    hide AdoptListed, RowsAdvance;
    AdvancesItself(p.db.orders, []);
    if flat != [] {
      var earlier := flat[..|flat| - 1];
      ListedAdvances(p, earlier, now, synthesize, keys);
      var before := AdoptAllListed(p, earlier, now, synthesize, keys);
      AdoptListedAdvances(before, flat[|flat| - 1], now, synthesize, keys);
      AdvancesChain(p.db.orders, before.db.orders, AdoptAllListed(p, flat, now, synthesize, keys).db.orders);
    }
  }

  lemma {:induction false} RecoverAdvances(r: Recovery, n: nat, flat: seq<Listed>, broker: Broker, now: Time, synthesize: bool, keys: Keys)
    requires n <= |r.pass.db.orders|
    ensures RowsAdvance(r.pass.db.orders, Recover(r, n, flat, broker, now, synthesize, keys).pass.db.orders)
  {
    hide RecoverOne, RowsAdvance;
    AdvancesItself(r.pass.db.orders, []);
    if n > 0 {
      RecoverAdvances(r, n - 1, flat, broker, now, synthesize, keys);
      var before := Recover(r, n - 1, flat, broker, now, synthesize, keys);
      RecoverOneAdvances(before, n - 1, flat, broker, now, synthesize, keys);
      AdvancesChain(r.pass.db.orders, before.pass.db.orders, Recover(r, n, flat, broker, now, synthesize, keys).pass.db.orders);
    }
  }

  lemma {:induction false} LaterStragglers(r: Recovery, n: nat, k: nat, flat: seq<Listed>, broker: Broker, now: Time, keys: Keys)
    requires n <= k <= |r.pass.db.orders|
    ensures RowsAdvance(Recover(r, n, flat, broker, now, true, keys).pass.db.orders, Recover(r, k, flat, broker, now, true, keys).pass.db.orders)
  {
    hide RecoverOne, RowsAdvance;
    AdvancesItself(Recover(r, n, flat, broker, now, true, keys).pass.db.orders, []);
    if n < k {
      LaterStragglers(r, n, k - 1, flat, broker, now, keys);
      RecoverOneAdvances(Recover(r, k - 1, flat, broker, now, true, keys), k - 1, flat, broker, now, true, keys);
      AdvancesChain(Recover(r, n, flat, broker, now, true, keys).pass.db.orders, Recover(r, k - 1, flat, broker, now, true, keys).pass.db.orders,
                    Recover(r, k, flat, broker, now, true, keys).pass.db.orders);
    }
  }

  lemma RecoverOneAdvances(r: Recovery, i: nat, flat: seq<Listed>, broker: Broker, now: Time, synthesize: bool, keys: Keys)
    requires i < |r.pass.db.orders|
    ensures RowsAdvance(r.pass.db.orders, RecoverOne(r, i, flat, broker, now, synthesize, keys).pass.db.orders)
  {
    hide Adopt, NewLegs, Skipped;
    var row := r.pass.db.orders[i];
    WriteAdvances(row, GivingUp(now));
    var found := Lookup(broker, row);
    if found.Some? {
      AdoptAdvances(r.pass.db, i, found.value, now, synthesize, keys);
    }
  }

  lemma {:induction false} SweepAdvances(db: Db, start: Db, n: nat, broker: Broker, now: Time, keys: Keys)
    requires n <= |db.orders| && n <= |start.orders|
    ensures RowsAdvance(db.orders, Sweep(db, start, n, broker, now, keys).orders)
  {
    hide Adopt, CatchUp, InsertFill;
    if n > 0 {
      SweepAdvances(db, start, n - 1, broker, now, keys);
      var before := Sweep(db, start, n - 1, broker, now, keys);
      var found := Lookup(broker, before.orders[n - 1]);
      if found.Some? {
        AdoptAdvances(before, n - 1, found.value, now, true, keys);
      }
    }
  }

  /** The refused-submit path writes its status without asking; this is when that undoes nothing. */
  predicate IsTimely(db: Db, txn: Txn) {
    txn.Refused? && txn.order < |db.orders| ==>
      var status := db.orders[txn.order].status;
      !IsAbsorbing(status) || status == Failed || status == txn.status
  }

  /** A transaction advances every row exactly when it is not a refusal of an order that had finished. */
  lemma TxnAdvances(db: Db, txn: Txn)
    ensures RowsAdvance(db.orders, Commit(db, txn).orders) <==> IsTimely(db, txn)
  {
    hide NewLegs, Recorded, AdoptAllListed, Recover, Sweep, RetryPass, Locate;
    AdvancesItself(db.orders, []);
    match txn
    case Stream(u, nested, stamps) =>
      var found := Locate(db.orders, u.order);
      if found.Some? {
        WriteAdvances(db.orders[found.value], Adopting(u.order));
        hide Advances, RowsAdvance, WithSnapshot, Resurrected;
        RowChangeAdvances(db.orders, Commit(db, txn).orders, found.value);
      }
    case Reconcile(broker, now, synthesize, keys) =>
      var flat := Flat(broker.open);
      var listed := AdoptAllListed(StartPass(db), flat, now, synthesize, keys);
      ListedAdvances(StartPass(db), flat, now, synthesize, keys);
      RecoverAdvances(Recovery(listed, 0), |db.orders|, flat, broker, now, synthesize, keys);
      var recovered := Recovered(db, broker, now, synthesize, keys).pass.db;
      SweepAdvances(recovered, recovered, |recovered.orders|, broker, now, keys);
      var swept := Sweep(recovered, recovered, |recovered.orders|, broker, now, keys);
      RetryKeepsOrders(swept, swept.events, |swept.events|);
    case Submitted(o, answer, now) =>
      if o < |db.orders| {
        WriteAdvances(db.orders[o], Submitting(answer));
      }
    case Refused(o, status) =>
      if o < |db.orders| {
        assert Advances(db.orders[o], db.orders[o].(status := status)) <==> IsTimely(db, txn);
      }
    case Persist(_) =>
  }

  /** A refusal written over an order the stream has already filled takes the row out of `filled`. */
  lemma RefusalUndoesAFill()
    ensures var filled := FRESH_ROW.(status := Filled, filledQty := 5.0);
            var db := Db([filled], [], [], [], map[], []);
            var after := Commit(db, Refused(0, Rejected));
            after.orders[0].status == Rejected && !RowsAdvance(db.orders, after.orders) && !IsTimely(db, Refused(0, Rejected))
  {
    var filled := FRESH_ROW.(status := Filled, filledQty := 5.0);
    TxnAdvances(Db([filled], [], [], [], map[], []), Refused(0, Rejected));
  }

  /** Over whole runs of every writer: no row disappears, no filled quantity falls, and a row leaves an
      absorbing status only when it was `failed`. */
  lemma {:induction false} RunAdvances(db: Db, run: seq<Txn>, n: nat)
    requires n <= |run| && forall i :: 0 <= i < |run| ==> IsTimely(CommitAll(db, run[..i]), run[i])
    ensures RowsAdvance(CommitAll(db, run[..n]).orders, CommitAll(db, run).orders)
  {
    hide Commit, IsTimely, RowsAdvance;
    AdvancesItself(CommitAll(db, run).orders, []);
    if n < |run| {
      var last := |run| - 1;
      forall i | 0 <= i < last ensures IsTimely(CommitAll(db, run[..last][..i]), run[..last][i]) {
        assert run[..last][..i] == run[..i];
      }
      RunAdvances(db, run[..last], n);
      assert run[..last][..n] == run[..n];
      TxnAdvances(CommitAll(db, run[..last]), run[last]);
      AdvancesChain(CommitAll(db, run[..n]).orders, CommitAll(db, run[..last]).orders, CommitAll(db, run).orders);
    } else {
      assert run[..n] == run;
    }
  }
}
