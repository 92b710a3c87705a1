/** Tables about which a coherent broker has nothing new to say: reconciling them changes no row. */
module ReconcileQuiet {
  import opened Domain
  import opened Tables
  import opened Lots
  import opened FillLedger
  import opened OrderRows
  import opened Remainders
  import opened TradeUpdates
  import opened Reconciliation
  import opened OrderConfluence

  // ── Answers that agree with each other ───────────────────────────

  /** An order the broker also returns by its id, in the same state. */
  ghost predicate Known(broker: Broker, bo: BrokerOrder) {
    && bo.brokerId in broker.byId && broker.byId[bo.brokerId].(legs := []) == bo.(legs := [])
    && bo.status != Failed
    && (bo.filledAt.Some? ==> bo.filledQty > 0.0)
  }

  ghost predicate KnownWithLegs(broker: Broker, bo: BrokerOrder) {
    Known(broker, bo) && forall k :: 0 <= k < |bo.legs| ==> Known(broker, bo.legs[k])
  }

  /** Both lookups and the open list tell the same story; an order without a client id is only under its own. */
  ghost predicate Coherent(broker: Broker) {
    && (forall c :: c in broker.byClient ==>
          && broker.byClient[c].clientId == Some(c)
          && broker.byClient[c].brokerId in broker.byId && broker.byId[broker.byClient[c].brokerId] == broker.byClient[c])
    && (forall b :: b in broker.byId ==>
          && broker.byId[b].brokerId == b && KnownWithLegs(broker, broker.byId[b])
          && (broker.byId[b].clientId.Some? ==>
                broker.byId[b].clientId.value in broker.byClient && broker.byClient[broker.byId[b].clientId.value] == broker.byId[b]))
    && (forall i :: 0 <= i < |broker.open| ==> KnownWithLegs(broker, broker.open[i]))
  }

  /** The row's two identifiers name one broker order. */
  ghost predicate Identified(broker: Broker, row: Order) {
    row.brokerId.Some? ==>
      && (row.clientId in broker.byClient ==> broker.byClient[row.clientId].brokerId == row.brokerId.value)
      && (row.brokerId.value in broker.byId && broker.byId[row.brokerId.value].clientId.Some? ==>
            broker.byId[row.brokerId.value].clientId == Some(row.clientId))
  }

  ghost predicate AllIdentified(broker: Broker, orders: seq<Order>) {
    forall o :: 0 <= o < |orders| ==> Identified(broker, orders[o])
  }

  /** The unique constraints on client and broker order ids. */
  ghost predicate UniqueClients(orders: seq<Order>) {
    forall i, j :: 0 <= i < j < |orders| ==> orders[i].clientId != orders[j].clientId
  }

  ghost predicate UniqueRows(orders: seq<Order>) {
    && UniqueClients(orders)
    && forall i, j :: 0 <= i < j < |orders| && orders[i].brokerId.Some? ==> orders[i].brokerId != orders[j].brokerId
  }

  lemma LookupIsKnown(broker: Broker, row: Order)
    requires Coherent(broker) && Identified(broker, row) && Lookup(broker, row).Some?
    ensures KnownWithLegs(broker, Lookup(broker, row).value) && Names(row, Lookup(broker, row).value)
  {
  }

  ghost predicate HasRow(orders: seq<Order>, bo: BrokerOrder) {
    exists o :: 0 <= o < |orders| && Names(orders[o], bo)
  }

  ghost predicate ListsRow(flat: seq<Listed>, row: Order) {
    exists j :: 0 <= j < |flat| && Names(row, flat[j].order)
  }

  /** Every listed entry is an open order, or a leg of one. */
  ghost predicate EntryOf(open: seq<BrokerOrder>, entry: Listed) {
    || (entry.parent.None? && exists i :: 0 <= i < |open| && open[i] == entry.order)
    || (entry.parent.Some? && (exists i :: 0 <= i < |open| && open[i] == entry.parent.value)
        && exists k :: 0 <= k < |entry.parent.value.legs| && entry.parent.value.legs[k] == entry.order)
  }

  lemma {:induction false} LegsOfAre(parent: BrokerOrder, legs: seq<BrokerOrder>, j: nat)
    requires j < |LegsOf(parent, legs)|
    ensures LegsOf(parent, legs)[j].parent == Some(parent)
    ensures j < |legs| && LegsOf(parent, legs)[j].order == legs[j]
  {
    if j > 0 {
      LegsOfAre(parent, legs[1..], j - 1);
    }
  }

  lemma {:induction false} FlatIsOpen(open: seq<BrokerOrder>, j: nat)
    requires j < |Flat(open)|
    ensures EntryOf(open, Flat(open)[j])
  {
    var head := LegsOf(open[0], open[0].legs);
    if j == 0 {
    } else if j <= |head| {
      LegsOfAre(open[0], open[0].legs, j - 1);
    } else {
      var entry := Flat(open[1..])[j - 1 - |head|];
      FlatIsOpen(open[1..], j - 1 - |head|);
      assert Flat(open)[j] == entry;
      if entry.parent.None? {
        var i :| 0 <= i < |open[1..]| && open[1..][i] == entry.order;
        assert open[i + 1] == entry.order;
      } else {
        var i :| 0 <= i < |open[1..]| && open[1..][i] == entry.parent.value;
        assert open[i + 1] == entry.parent.value;
      }
    }
  }

  lemma ListedIsKnown(broker: Broker, j: nat)
    requires Coherent(broker) && j < |Flat(broker.open)|
    ensures var entry := Flat(broker.open)[j];
            && Known(broker, entry.order)
            && (entry.parent.Some? ==> KnownWithLegs(broker, entry.parent.value))
            && (entry.parent.Some? ==> exists k :: 0 <= k < |entry.parent.value.legs| && entry.parent.value.legs[k] == entry.order)
  {
    FlatIsOpen(broker.open, j);
  }

  // ── The index finds the row of an order ──────────────────────────

  lemma {:induction false} BrokerIdsAreIndexed(orders: seq<Order>)
    ensures forall o :: 0 <= o < |orders| && orders[o].brokerId.Some? ==> orders[o].brokerId.value in IndexOf(orders).byBroker
  {
    if orders != [] {
      BrokerIdsAreIndexed(orders[..|orders| - 1]);
    }
  }

  lemma IndexIsComplete(orders: seq<Order>, bo: BrokerOrder)
    ensures FindLocal(IndexOf(orders), bo).Some? <==> HasRow(orders, bo)
  {
    IndexIsSound(orders);
    BrokerIdsAreIndexed(orders);
    hide IndexOf;
    FoundIsNamed(IndexOf(orders), orders, bo);
  }

  /** A row an order names is looked up in the order's state. */
  lemma NamedIsKnown(broker: Broker, row: Order, bo: BrokerOrder)
    requires Coherent(broker) && Known(broker, bo) && Identified(broker, row) && Names(row, bo)
    ensures Lookup(broker, row).Some? && Lookup(broker, row).value.(legs := []) == bo.(legs := [])
    ensures bo.clientId.Some? ==> bo.clientId == Some(row.clientId)
  {
    var same := broker.byId[bo.brokerId];
    assert same == same.(legs := []).(legs := same.legs) && bo == bo.(legs := []).(legs := bo.legs);
    assert same.clientId == bo.clientId;
  }

  lemma OneRowForAnOrder(broker: Broker, orders: seq<Order>, bo: BrokerOrder, o: nat, i: nat)
    requires Coherent(broker) && Known(broker, bo) && AllIdentified(broker, orders) && UniqueRows(orders)
    requires o < |orders| && i < |orders| && Names(orders[o], bo) && Names(orders[i], bo)
    ensures o == i
  {
    hide Coherent, Known, Identified;
    assert Identified(broker, orders[o]) && Identified(broker, orders[i]);
    NamedIsKnown(broker, orders[o], bo);
    NamedIsKnown(broker, orders[i], bo);
  }

  /** The stream's own lookup agrees: by broker id or by client id, an event reaches the one row of its order. */
  lemma EventFindsItsRow(broker: Broker, orders: seq<Order>, bo: BrokerOrder, o: nat)
    requires Coherent(broker) && Known(broker, bo) && AllIdentified(broker, orders) && UniqueRows(orders)
    ensures Locate(orders, bo) == Some(o) <==> o < |orders| && Names(orders[o], bo)
  {
    hide Coherent, Known, Identified, UniqueRows;
    var found := Locate(orders, bo);
    assert found.Some? ==> Names(orders[found.value], bo);
    if found.Some? && o < |orders| && Names(orders[o], bo) {
      OneRowForAnOrder(broker, orders, bo, o, found.value);
    }
  }

  // ── Quiet rows ───────────────────────────────────────────────────

  /** The row and its ledger already hold what the broker says. */
  ghost predicate Caught(broker: Broker, db: Db, o: nat)
    requires o < |db.orders|
  {
    var row := db.orders[o];
    && Lookup(broker, row).Some?
    && Adopted(row, Lookup(broker, row).value) == row
    && AppliedLedger(db.fills, o).qty >= Lookup(broker, row).value.filledQty
  }

  /** The broker has nothing on the row, or it has finished and left the open list; and no repair is due. */
  ghost predicate Resting(broker: Broker, db: Db, o: nat, now: Time)
    requires o < |db.orders|
  {
    var row := db.orders[o];
    && (Lookup(broker, row).None? || (IsAbsorbing(row.status) && !ListsRow(Flat(broker.open), row)))
    && (!NeverSubmitted(row, now) || Lookup(broker, row).Some?)
    && (Deficient(db, o) ==> Lookup(broker, row).None? && row.filledAvg.None?)
  }

  ghost predicate LegsKnown(orders: seq<Order>, o: nat, legs: seq<BrokerOrder>) {
    forall k :: 0 <= k < |legs| && legs[k].clientId.Some? ==> KnownLeg(orders, o, legs[k])
  }

  /** An unlisted live bracket has the rows of its legs. */
  ghost predicate LegsSettled(broker: Broker, db: Db, o: nat)
    requires o < |db.orders|
  {
    var row := db.orders[o];
    !IsAbsorbing(row.status) && row.parent.None? && Lookup(broker, row).Some? && !ListsRow(Flat(broker.open), row) ==>
      Lookup(broker, row).value.bracket ==> LegsKnown(db.orders, o, Lookup(broker, row).value.legs)
  }

  ghost predicate QuietRow(broker: Broker, db: Db, o: nat, now: Time)
    requires o < |db.orders|
  {
    (Caught(broker, db, o) || Resting(broker, db, o, now)) && LegsSettled(broker, db, o)
  }

  /** A listed leg has a row, or its parent's row has all the legs the broker named. */
  ghost predicate FamilyThere(was: seq<Order>, orders: seq<Order>, entry: Listed) {
    entry.parent.Some? ==>
      || HasRow(orders, entry.order)
      || forall o :: 0 <= o < |was| && Names(was[o], entry.parent.value) ==> LegsKnown(orders, o, entry.parent.value.legs)
  }

  ghost predicate FamiliesKnown(orders: seq<Order>, flat: seq<Listed>) {
    forall j :: 0 <= j < |flat| ==> FamilyThere(orders, orders, flat[j])
  }

  ghost predicate Quiet(broker: Broker, db: Db, now: Time) {
    && AllIdentified(broker, db.orders) && UniqueRows(db.orders)
    && (forall o :: 0 <= o < |db.orders| ==> QuietRow(broker, db, o, now))
    && FamiliesKnown(db.orders, Flat(broker.open))
  }

  // ── Reconciling quiet tables ─────────────────────────────────────

  lemma AdoptingCaught(db: Db, o: nat, bo: BrokerOrder, now: Time, synthesize: bool, keys: Keys)
    requires o < |db.orders| && Adopted(db.orders[o], bo) == db.orders[o]
    requires AppliedLedger(db.fills, o).qty >= bo.filledQty
    ensures Adopt(db, o, bo, now, synthesize, keys) == db
  {
    var alive := WithRow(db, o, Resurrected(db.orders[o]));
    InsertNone(alive, o, keys(|db.fills|), false);
  }

  lemma SameStateAdopts(row: Order, one: BrokerOrder, two: BrokerOrder)
    requires one.(legs := []) == two.(legs := [])
    ensures Adopted(row, one) == Adopted(row, two) && one.filledQty == two.filledQty
  {
    assert one == one.(legs := []).(legs := one.legs) && two == two.(legs := []).(legs := two.legs);
  }

  /** Step 1 finds every listed row caught up. */
  lemma {:induction false} ListingIsQuiet(broker: Broker, db: Db, now: Time, synthesize: bool, keys: Keys, n: nat)
    requires Coherent(broker) && Quiet(broker, db, now) && n <= |Flat(broker.open)|
    ensures var p := AdoptAllListed(StartPass(db), Flat(broker.open)[..n], now, synthesize, keys);
            && p.db == db && p.updated == 0 && p.synthesized == 0 && p.index == IndexOf(db.orders)
            && forall o, j :: 0 <= o < |db.orders| && 0 <= j < n && Names(db.orders[o], Flat(broker.open)[j].order) ==> o in p.matched
  {
    hide AdoptListed, IndexOf, Coherent, Quiet, Flat, Names;
    if n > 0 {
      var flat := Flat(broker.open);
      ListingIsQuiet(broker, db, now, synthesize, keys, n - 1);
      assert flat[..n][..n - 1] == flat[..n - 1];
      var p := AdoptAllListed(StartPass(db), flat[..n - 1], now, synthesize, keys);
      EntryIsQuiet(broker, db, now, synthesize, keys, n - 1, p);
    }
  }

  /** A listed row of quiet tables has nothing to adopt. */
  lemma ListedRowIsQuiet(broker: Broker, db: Db, now: Time, synthesize: bool, keys: Keys, j: nat, o: nat)
    requires Coherent(broker) && Quiet(broker, db, now) && j < |Flat(broker.open)|
    requires o < |db.orders| && Names(db.orders[o], Flat(broker.open)[j].order)
    ensures Adopt(db, o, Flat(broker.open)[j].order, now, synthesize, keys) == db
  {
    hide Adopt, Adopted, AppliedLedger, Coherent, Flat, LegsSettled, FamiliesKnown, UniqueRows, Names, Identified, Lookup;
    var entry := Flat(broker.open)[j];
    ListedIsKnown(broker, j);
    assert Identified(broker, db.orders[o]) && QuietRow(broker, db, o, now);
    assert ListsRow(Flat(broker.open), db.orders[o]);
    NamedIsKnown(broker, db.orders[o], entry.order);
    assert Caught(broker, db, o);
    SameStateAdopts(db.orders[o], Lookup(broker, db.orders[o]).value, entry.order);
    AdoptingCaught(db, o, entry.order, now, synthesize, keys);
  }

  lemma EntryIsQuiet(broker: Broker, db: Db, now: Time, synthesize: bool, keys: Keys, j: nat, p: Pass)
    requires Coherent(broker) && Quiet(broker, db, now) && j < |Flat(broker.open)|
    requires p.db == db && p.index == IndexOf(db.orders)
    ensures var entry := Flat(broker.open)[j];
            var q := AdoptListed(p, entry, now, synthesize, keys);
            && q.db == db && q.updated == p.updated && q.synthesized == p.synthesized && q.index == p.index
            && p.matched <= q.matched
            && forall o :: 0 <= o < |db.orders| && Names(db.orders[o], entry.order) ==> o in q.matched
  {
    hide Adopt, Adopted, AppliedLedger, IndexOf, NewLegs, Coherent, Flat, QuietRow, LegsKnown, Names, UniqueRows;
    var entry, index := Flat(broker.open)[j], IndexOf(db.orders);
    ListedIsKnown(broker, j);
    IndexIsSound(db.orders);
    FoundIsNamed(index, db.orders, entry.order);
    IndexIsComplete(db.orders, entry.order);
    var local := FindLocal(index, entry.order);
    if local.Some? {
      ListedRowIsQuiet(broker, db, now, synthesize, keys, j, local.value);
      forall o | 0 <= o < |db.orders| && Names(db.orders[o], entry.order) ensures o == local.value {
        OneRowForAnOrder(broker, db.orders, entry.order, o, local.value);
      }
    } else if entry.parent.Some? {
      FoundIsNamed(index, db.orders, entry.parent.value);
      var parent := FindLocal(index, entry.parent.value);
      assert FamilyThere(db.orders, db.orders, entry);
      if parent.Some? {
        assert LegsKnown(db.orders, parent.value, entry.parent.value.legs);
        LegsKnownAddNothing(db.orders, parent.value, entry.parent.value.legs, now);
        assert db.orders + [] == db.orders;
      }
    }
  }

  lemma LegsKnownAddNothing(orders: seq<Order>, o: nat, legs: seq<BrokerOrder>, now: Time)
    requires o < |orders| && LegsKnown(orders, o, legs)
    ensures NewLegs(orders, o, legs, now) == []
  {
    KnownLegsAddNothing(orders, o, legs, now);
  }

  /** Step 2 finds every straggler caught up or unknown to the broker. */
  lemma {:induction false} RecoveryIsQuiet(broker: Broker, db: Db, now: Time, synthesize: bool, keys: Keys, n: nat, r: Recovery)
    requires Quiet(broker, db, now) && n <= |db.orders| && r.pass.db == db
    requires forall o :: 0 <= o < |db.orders| && ListsRow(Flat(broker.open), db.orders[o]) ==> o in r.pass.matched
    ensures Recover(r, n, Flat(broker.open), broker, now, synthesize, keys).pass == r.pass
  {
    hide Adopt, Adopted, AppliedLedger, NewLegs, NeverSubmitted, Flat, FamiliesKnown, ListsRow, Lookup, LegsKnown, UniqueRows;
    if n > 0 {
      RecoveryIsQuiet(broker, db, now, synthesize, keys, n - 1, r);
      var i := n - 1;
      assert QuietRow(broker, db, i, now);
      if !Skipped(r.pass, i, Flat(broker.open)) && Lookup(broker, db.orders[i]).Some? {
        var bo := Lookup(broker, db.orders[i]).value;
        assert Caught(broker, db, i);
        AdoptingCaught(db, i, bo, now, synthesize, keys);
        if bo.bracket && db.orders[i].parent.None? {
          LegsKnownAddNothing(db.orders, i, bo.legs, now);
          assert db.orders + [] == db.orders;
        }
      }
    }
  }

  /** Step 3 finds no deficit it can repair. */
  lemma {:induction false} SweepIsQuiet(broker: Broker, db: Db, now: Time, keys: Keys, n: nat)
    requires Quiet(broker, db, now) && n <= |db.orders|
    ensures Sweep(db, db, n, broker, now, keys) == db
  {
    hide Adopt, Adopted, AppliedLedger, NeverSubmitted, Flat, FamiliesKnown, Lookup, UniqueRows;
    if n > 0 {
      SweepIsQuiet(broker, db, now, keys, n - 1);
      assert QuietRow(broker, db, n - 1, now);
      if Caught(broker, db, n - 1) {
        AdoptingCaught(db, n - 1, Lookup(broker, db.orders[n - 1]).value, now, true, keys);
      }
    }
  }

  /** A parked remainder with nothing to close closes nothing. */
  lemma NothingToCloseClosesNothing(lots: seq<Lot>, what: Remainder)
    requires NothingToClose(lots, what)
    ensures WalkOf(lots, RetryFill(what)) == Walk(lots, [], what.qty)
    ensures LotsAfter(lots, RetryFill(what)) == lots
  {
    var f := RetryFill(what);
    if OpenLots(lots, f, |lots|) != [] {
      QueuedIsEligible(lots, f, |lots|, 0);
      assert false;
    }
  }

  lemma {:induction false} RetryIsQuiet(db: Db, n: nat)
    requires n <= |db.events|
    requires forall i :: 0 <= i < n && IsOpen(db.events, i) ==> NothingToClose(db.lots, db.events[i].what)
    ensures var after := RetryPass(db, db.events, n);
            && after.lots == db.lots && after.closes == db.closes
            && |db.events| <= |after.events| && after.events[..|db.events|] == db.events
            && forall k :: |db.events| <= k < |after.events| ==> after.events[k].RetryFailed? || after.events[k].Alert?
  {
    if n > 0 {
      RetryIsQuiet(db, n - 1);
      var before := RetryPass(db, db.events, n - 1);
      if IsOpen(db.events, n - 1) {
        NothingToCloseClosesNothing(db.lots, db.events[n - 1].what);
        assert before.closes + [] == before.closes;
      }
    }
  }

  // ── Positions ────────────────────────────────────────────────────

  /** Overwriting twice with the same answer is overwriting once, suspect answer or not. */
  lemma PositionsOverwriteOnce(local: map<Symbol, Position>, broker: seq<BrokerPosition>, marketValue: real)
    ensures var once := ReconciledPositions(local, broker, marketValue);
            ReconciledPositions(once, broker, marketValue) == once
  {
    var once := ReconciledPositions(local, broker, marketValue);
    if broker != [] || marketValue == 0.0 {
      PositionsAreTheBrokers(local, once, broker, marketValue);
    }
  }
}
