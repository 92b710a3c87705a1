/** The first steps of a reconcile against a coherent broker: what the open list leaves behind. */
module ReconcileListing {
  import opened Domain
  import opened Sums
  import opened Tables
  import opened FillLedger
  import opened OrderRows
  import opened Remainders
  import opened TradeUpdates
  import opened Reconciliation
  import opened Books
  import opened DbRuns
  import opened DbLedger
  import opened OrderConfluence
  import opened ReconcileQuiet

  // ── One adoption ─────────────────────────────────────────────────

  /** All rows but one, and their ledgers, are as they were. */
  ghost predicate OnlyRow(db: Db, after: Db, o: nat) {
    && |after.orders| == |db.orders|
    && forall other :: 0 <= other < |db.orders| && other != o ==>
         && after.orders[other] == db.orders[other]
         && AppliedLedger(after.fills, other).qty == AppliedLedger(db.fills, other).qty
  }

  lemma AdoptedTwice(row: Order, bo: BrokerOrder)
    requires bo.status != Failed
    ensures Adopted(Adopted(row, bo), bo) == Adopted(row, bo)
  {
  }

  lemma AdoptActs(db: Db, o: nat, bo: BrokerOrder, now: Time, keys: Keys)
    requires DbOk(db) && o < |db.orders|
    ensures var after := Adopt(db, o, bo, now, true, keys);
            && DbOk(after) && OnlyRow(db, after, o)
            && after.orders == db.orders[o := Adopted(db.orders[o], bo)]
            && AppliedLedger(after.fills, o).qty == Max(AppliedLedger(db.fills, o).qty, bo.filledQty)
  {
    hide DbOk, InsertFill, CatchUp, AppliedLedger, LedgerOk;
    AdoptKeepsOk(db, o, bo, now, true, keys);
    OkHasFills(db);
    var after := Adopt(db, o, bo, now, true, keys);
    forall other
      ensures AppliedLedger(after.fills, other).qty ==
              if other == o then Max(AppliedLedger(db.fills, o).qty, bo.filledQty) else AppliedLedger(db.fills, other).qty
    {
      CatchUpReaches(Exact, db.fills, o, bo.filledQty, bo.filledAvg, bo.filledAt.GetOr(now), Recon, other);
    }
  }

  /** After adopting a known snapshot of its own order, a row is caught up. */
  lemma AdoptCatches(broker: Broker, db: Db, o: nat, bo: BrokerOrder, now: Time, keys: Keys)
    requires DbOk(db) && Coherent(broker) && Known(broker, bo) && AllIdentified(broker, db.orders)
    requires o < |db.orders| && Names(db.orders[o], bo)
    ensures var after := Adopt(db, o, bo, now, true, keys);
            && DbOk(after) && AllIdentified(broker, after.orders) && OnlyRow(db, after, o)
            && after.orders[o] == Adopted(db.orders[o], bo) && Caught(broker, after, o)
            && Advances(db.orders[o], after.orders[o]) && SameLookups(broker, db.orders, after.orders)
  {
    hide DbOk, Adopt, AppliedLedger, Adopted, Coherent, Known, Lookup, Identified, Names;
    var row := db.orders[o];
    assert Identified(broker, row);
    AdoptActs(db, o, bo, now, keys);
    NamedIsKnown(broker, row, bo);
    var truth := Lookup(broker, row).value;
    SameStateAdopts(row, bo, truth);
    SameStateAdopts(Adopted(row, bo), bo, truth);
    KnownIsAlive(broker, bo);
    AdoptedTwice(row, bo);
    LookupStays(broker, row, bo);
    WriteAdvances(row, Adopting(bo));
  }

  lemma KnownIsAlive(broker: Broker, bo: BrokerOrder)
    requires Known(broker, bo)
    ensures bo.status != Failed
  {
  }

  /** Taking its own order's identity changes nothing about what a row is looked up as. */
  lemma LookupStays(broker: Broker, row: Order, bo: BrokerOrder)
    requires Coherent(broker) && Known(broker, bo) && Identified(broker, row) && Names(row, bo)
    ensures Identified(broker, Adopted(row, bo)) && Lookup(broker, Adopted(row, bo)) == Lookup(broker, row)
  {
    NamedIsKnown(broker, row, bo);
    var same := broker.byId[bo.brokerId];
    assert same == same.(legs := []).(legs := same.legs) && bo == bo.(legs := []).(legs := bo.legs);
    assert same.clientId == bo.clientId;
    AdoptedNames(row, bo);
    hide Adopted, KnownWithLegs, Known;
  }

  lemma AdoptedNames(row: Order, bo: BrokerOrder)
    ensures Adopted(row, bo).clientId == row.clientId
    ensures Adopted(row, bo).brokerId == if row.brokerId.None? then Some(bo.brokerId) else row.brokerId
  {
  }

  /** Every row is looked up as before. */
  ghost predicate SameLookups(broker: Broker, was: seq<Order>, now: seq<Order>) {
    |was| <= |now| && forall o :: 0 <= o < |was| ==> Lookup(broker, now[o]) == Lookup(broker, was[o])
  }

  // ── One row for each order, and each leg's under its parent ──────

  /** The parents whose legs a pass may create: listed orders and known ones. */
  ghost predicate IsParent(broker: Broker, bo: BrokerOrder) {
    || (bo.brokerId in broker.byId && broker.byId[bo.brokerId] == bo)
    || (exists i :: 0 <= i < |broker.open| && broker.open[i] == bo)
  }

  /** Brackets are one level deep, and a leg has one parent, once. */
  ghost predicate Bracketed(broker: Broker) {
    && (forall p, q, k :: IsParent(broker, p) && IsParent(broker, q) && p.legs != [] && 0 <= k < |q.legs| ==>
          q.legs[k].brokerId != p.brokerId)
    && (forall p, q, k, l :: IsParent(broker, p) && IsParent(broker, q) && 0 <= k < |p.legs| && 0 <= l < |q.legs| ==>
          p.legs[k].brokerId == q.legs[l].brokerId ==> p.brokerId == q.brokerId)
    && (forall p, k, l :: IsParent(broker, p) && 0 <= k < l < |p.legs| ==> p.legs[k].brokerId != p.legs[l].brokerId)
  }

  /** A row that is a leg's belongs to the row that is its parent's. */
  ghost predicate LegsHoused(broker: Broker, orders: seq<Order>) {
    forall p, k, r, o :: IsParent(broker, p) && 0 <= k < |p.legs| && 0 <= r < |orders| && 0 <= o < |orders| ==>
      Names(orders[r], p.legs[k]) && Names(orders[o], p) ==> orders[r].parent == Some(o)
  }

  ghost predicate Housed(broker: Broker, orders: seq<Order>) {
    AllIdentified(broker, orders) && UniqueRows(orders) && LegsHoused(broker, orders)
  }

  lemma ParentIsKnown(broker: Broker, p: BrokerOrder)
    requires Coherent(broker) && IsParent(broker, p)
    ensures KnownWithLegs(broker, p)
  {
  }

  lemma SameClients(broker: Broker, one: BrokerOrder, two: BrokerOrder)
    requires Coherent(broker) && Known(broker, one) && Known(broker, two)
    ensures one.brokerId == two.brokerId ==> one.clientId == two.clientId
    ensures one.clientId.Some? && one.clientId == two.clientId ==> one.brokerId == two.brokerId
  {
    var a, b := broker.byId[one.brokerId], broker.byId[two.brokerId];
    assert a == a.(legs := []).(legs := a.legs) && one == one.(legs := []).(legs := one.legs);
    assert b == b.(legs := []).(legs := b.legs) && two == two.(legs := []).(legs := two.legs);
    assert a.clientId == one.clientId && b.clientId == two.clientId;
  }

  /** Taking its own order's identity, a row answers to the same orders as before. */
  lemma NamesStay(broker: Broker, row: Order, bo: BrokerOrder, other: BrokerOrder)
    requires Coherent(broker) && Known(broker, bo) && Known(broker, other) && Names(row, bo)
    ensures Names(Adopted(row, bo), other) <==> Names(row, other)
  {
    hide Coherent, Known;
    SameClients(broker, bo, other);
  }

  lemma AdoptKeepsHoused(broker: Broker, orders: seq<Order>, o: nat, bo: BrokerOrder)
    requires Coherent(broker) && Known(broker, bo) && Housed(broker, orders) && o < |orders| && Names(orders[o], bo)
    ensures Housed(broker, orders[o := Adopted(orders[o], bo)])
  {
    hide Coherent, Known, KnownWithLegs, Adopted, IsParent, Names, Identified, Lookup;
    var after := orders[o := Adopted(orders[o], bo)];
    assert Identified(broker, orders[o]);
    LookupStays(broker, orders[o], bo);
    WriteAdvances(orders[o], Adopting(bo));
    AdoptKeepsUnique(broker, orders, o, bo);
    forall p, k, r, i | IsParent(broker, p) && 0 <= k < |p.legs| && 0 <= r < |after| && 0 <= i < |after|
      && Names(after[r], p.legs[k]) && Names(after[i], p)
      ensures after[r].parent == Some(i)
    {
      ParentIsKnown(broker, p);
      LegsAreKnown(broker, p, k);
      NamesStay(broker, orders[o], bo, p);
      NamesStay(broker, orders[o], bo, p.legs[k]);
      assert Names(orders[r], p.legs[k]) && Names(orders[i], p);
    }
  }

  lemma LegsAreKnown(broker: Broker, p: BrokerOrder, k: nat)
    requires KnownWithLegs(broker, p) && k < |p.legs|
    ensures Known(broker, p) && Known(broker, p.legs[k])
  {
  }

  lemma AdoptKeepsUnique(broker: Broker, orders: seq<Order>, o: nat, bo: BrokerOrder)
    requires Coherent(broker) && Known(broker, bo) && AllIdentified(broker, orders) && UniqueRows(orders)
    requires o < |orders| && Names(orders[o], bo)
    ensures UniqueRows(orders[o := Adopted(orders[o], bo)])
  {
    hide Coherent, Known, Identified, PlanFor;
    var after := orders[o := Adopted(orders[o], bo)];
    forall i | 0 <= i < |orders| && i != o ensures after[o].brokerId.Some? ==> after[i].brokerId != after[o].brokerId {
      if orders[i].brokerId == Some(bo.brokerId) {
        OneRowForAnOrder(broker, orders, bo, i, o);
      }
    }
  }

  // ── Leg rows a pass creates ──────────────────────────────────────

  ghost predicate IsLegOf(broker: Broker, row: Order) {
    exists p, k :: IsParent(broker, p) && 0 <= k < |p.legs| && CarriesNames(row, p.legs[k])
  }

  ghost predicate CarriesNames(row: Order, leg: BrokerOrder) {
    row.brokerId == Some(leg.brokerId) && Some(row.clientId) == leg.clientId
  }

  /** A leg's row holds the leg's state from its creation; its ledger is empty until someone adopts it. */
  ghost predicate FreshLeg(broker: Broker, db: Db, o: nat)
    requires o < |db.orders|
  {
    var row := db.orders[o];
    && row.parent.Some? && IsLegOf(broker, row) && Lookup(broker, row).Some?
    && (Caught(broker, db, o) || (Mirrors(row, Lookup(broker, row).value) && AppliedLedger(db.fills, o).qty == 0.0))
  }

  ghost predicate Mirrors(row: Order, bo: BrokerOrder) {
    && row.status == bo.status && row.filledQty == bo.filledQty && row.filledAvg == bo.filledAvg
    && row.brokerId == Some(bo.brokerId) && row.filledAt.None?
  }

  lemma {:induction false} NewLegIs(orders: seq<Order>, parent: nat, legs: seq<BrokerOrder>, now: Time, i: nat) returns (k: nat)
    requires parent < |orders| && i < |NewLegs(orders, parent, legs, now)|
    ensures k < |legs| && legs[k].clientId.Some? && !KnownLeg(orders, parent, legs[k])
    ensures NewLegs(orders, parent, legs, now)[i] == LegRow(parent, orders[parent], legs[k], now)
  {
    var last := |legs| - 1;
    if i < |NewLegs(orders, parent, legs[..last], now)| {
      k := NewLegIs(orders, parent, legs[..last], now, i);
    } else {
      k := last;
    }
  }

  lemma EmptyLedger(db: Db, o: nat)
    requires FillsOk(db) && o >= |db.orders|
    ensures AppliedLedger(db.fills, o).qty == 0.0
  {
    SumIsZero(db.fills, QtyOf(o));
  }

  lemma LegRowIsIdentified(broker: Broker, leg: BrokerOrder, parent: nat, row: Order, now: Time)
    requires Coherent(broker) && Known(broker, leg) && leg.clientId.Some?
    ensures Identified(broker, LegRow(parent, row, leg, now)) && Names(LegRow(parent, row, leg, now), leg)
  {
    var same := broker.byId[leg.brokerId];
    assert same == same.(legs := []).(legs := same.legs) && leg == leg.(legs := []).(legs := leg.legs);
    assert same.clientId == leg.clientId;
  }

  lemma LegRowIsFresh(broker: Broker, db: Db, o: nat, p: BrokerOrder, k: nat, leg: BrokerOrder, parent: nat, row: Order, now: Time)
    requires Coherent(broker) && Known(broker, leg) && leg.clientId.Some?
    requires IsParent(broker, p) && k < |p.legs| && p.legs[k] == leg
    requires o < |db.orders| && db.orders[o] == LegRow(parent, row, leg, now) && AppliedLedger(db.fills, o).qty == 0.0
    ensures FreshLeg(broker, db, o) && Identified(broker, db.orders[o])
  {
    hide AppliedLedger, Adopted, Coherent, Known, Identified, Lookup, IsParent;
    LegRowIsIdentified(broker, leg, parent, row, now);
    assert CarriesNames(db.orders[o], p.legs[k]);
    NamedIsKnown(broker, db.orders[o], leg);
    var truth := Lookup(broker, db.orders[o]).value;
    assert truth == truth.(legs := []).(legs := truth.legs) && leg == leg.(legs := []).(legs := leg.legs);
  }

  /** No starting row is a leg's for which one is created: it would be known as its parent's. */
  lemma NewLegHasNoRow(broker: Broker, orders: seq<Order>, o: nat, p: BrokerOrder, k: nat)
    requires Housed(broker, orders) && IsParent(broker, p) && o < |orders| && Names(orders[o], p)
    requires k < |p.legs| && !KnownLeg(orders, o, p.legs[k])
    ensures !HasRow(orders, p.legs[k])
  {
    hide IsParent, AllIdentified, UniqueRows;
    forall r | 0 <= r < |orders| ensures !Names(orders[r], p.legs[k]) {
      if Names(orders[r], p.legs[k]) {
        NamedChildIsKnown(orders, o, p.legs[k], r);
      }
    }
  }

  lemma NamedChildIsKnown(orders: seq<Order>, parent: nat, leg: BrokerOrder, r: nat)
    requires r < |orders| && orders[r].parent == Some(parent) && Names(orders[r], leg)
    ensures KnownLeg(orders, parent, leg)
  {
  }

  ghost predicate DistinctLegs(legs: seq<BrokerOrder>) {
    forall k, l :: 0 <= k < l < |legs| ==>
      legs[k].brokerId != legs[l].brokerId && (legs[k].clientId.Some? ==> legs[k].clientId != legs[l].clientId)
  }

  lemma ParentHasDistinctLegs(broker: Broker, p: BrokerOrder)
    requires Coherent(broker) && Bracketed(broker) && IsParent(broker, p)
    ensures DistinctLegs(p.legs)
  {
    hide Coherent, Known, IsParent;
    ParentIsKnown(broker, p);
    forall k, l | 0 <= k < l < |p.legs|
      ensures p.legs[k].brokerId != p.legs[l].brokerId && (p.legs[k].clientId.Some? ==> p.legs[k].clientId != p.legs[l].clientId)
    {
      SameClients(broker, p.legs[k], p.legs[l]);
    }
  }

  lemma {:induction false} NewLegsAreDistinct(orders: seq<Order>, parent: nat, legs: seq<BrokerOrder>, now: Time, i: nat, j: nat)
    requires DistinctLegs(legs) && parent < |orders| && i < j < |NewLegs(orders, parent, legs, now)|
    ensures var rows := NewLegs(orders, parent, legs, now);
            rows[i].clientId != rows[j].clientId && rows[i].brokerId != rows[j].brokerId
  {
    var last := |legs| - 1;
    var earlier := NewLegs(orders, parent, legs[..last], now);
    if j < |earlier| {
      NewLegsAreDistinct(orders, parent, legs[..last], now, i, j);
    } else {
      var k := NewLegIs(orders, parent, legs[..last], now, i);
    }
  }

  /** A row that persisting a parent's legs creates is that of a leg which had none. */
  lemma NewRowIs(broker: Broker, orders: seq<Order>, o: nat, p: BrokerOrder, now: Time, r: nat) returns (k: nat)
    requires Coherent(broker) && Housed(broker, orders) && IsParent(broker, p) && o < |orders| && Names(orders[o], p)
    requires |orders| <= r < |orders + NewLegs(orders, o, p.legs, now)|
    ensures k < |p.legs| && p.legs[k].clientId.Some? && Known(broker, p.legs[k]) && !HasRow(orders, p.legs[k])
    ensures (orders + NewLegs(orders, o, p.legs, now))[r] == LegRow(o, orders[o], p.legs[k], now)
  {
    hide Coherent, Known, IsParent, Housed, Names, HasRow, LegRow, KnownLeg;
    ParentIsKnown(broker, p);
    k := NewLegIs(orders, o, p.legs, now, r - |orders|);
    NewLegHasNoRow(broker, orders, o, p, k);
  }

  lemma LegsKeepUnique(broker: Broker, orders: seq<Order>, o: nat, p: BrokerOrder, now: Time)
    requires Coherent(broker) && Bracketed(broker) && Housed(broker, orders)
    requires IsParent(broker, p) && o < |orders| && Names(orders[o], p)
    ensures var after := orders + NewLegs(orders, o, p.legs, now);
            UniqueRows(after) && AllIdentified(broker, after)
  {
    hide Coherent, Bracketed, Known, IsParent, LegsHoused, Identified, NewLegs;
    var legs := NewLegs(orders, o, p.legs, now);
    var after := orders + legs;
    ParentHasDistinctLegs(broker, p);
    forall r | |orders| <= r < |after| ensures Identified(broker, after[r]) {
      var k := NewRowIs(broker, orders, o, p, now, r);
      LegRowIsIdentified(broker, p.legs[k], o, orders[o], now);
    }
    forall i, r | 0 <= i < r < |after|
      ensures after[i].clientId != after[r].clientId && (after[i].brokerId.Some? ==> after[i].brokerId != after[r].brokerId)
    {
      if |orders| <= i {
        NewLegsAreDistinct(orders, o, p.legs, now, i - |orders|, r - |orders|);
      } else if |orders| <= r {
        var k := NewRowIs(broker, orders, o, p, now, r);
        assert !Names(orders[i], p.legs[k]);
      }
    }
  }

  /** A new row answers to no order with legs: brackets are one level deep. */
  lemma NewRowIsNoParent(broker: Broker, leg: BrokerOrder, p: BrokerOrder, q: BrokerOrder, k: nat, row: Order)
    requires Coherent(broker) && Bracketed(broker) && IsParent(broker, p) && IsParent(broker, q) && q.legs != []
    requires k < |p.legs| && p.legs[k] == leg && Known(broker, leg)
    requires row.brokerId == Some(leg.brokerId) && Some(row.clientId) == leg.clientId
    ensures !Names(row, q)
  {
    hide Coherent, Known, IsParent;
    ParentIsKnown(broker, q);
    SameClients(broker, leg, q);
  }

  /** A new row of a parent's leg is no other parent's. */
  lemma NewRowHasOneParent(broker: Broker, leg: BrokerOrder, p: BrokerOrder, q: BrokerOrder, k: nat, l: nat, row: Order, other: Order)
    requires Coherent(broker) && Bracketed(broker) && IsParent(broker, p) && IsParent(broker, q)
    requires k < |p.legs| && p.legs[k] == leg && l < |q.legs|
    requires row.brokerId == Some(leg.brokerId) && Some(row.clientId) == leg.clientId
    ensures Names(row, q.legs[l]) ==> (Names(other, q) <==> Names(other, p))
  {
    hide Coherent, Known, IsParent;
    ParentIsKnown(broker, p);
    ParentIsKnown(broker, q);
    SameClients(broker, leg, q.legs[l]);
    SameClients(broker, p, q);
  }

  lemma LegsKeepHoused(broker: Broker, orders: seq<Order>, o: nat, p: BrokerOrder, now: Time)
    requires Coherent(broker) && Bracketed(broker) && Housed(broker, orders)
    requires IsParent(broker, p) && o < |orders| && Names(orders[o], p)
    ensures Housed(broker, orders + NewLegs(orders, o, p.legs, now))
  {
    LegsKeepUnique(broker, orders, o, p, now);
    hide Coherent, Bracketed, Known, KnownWithLegs, IsParent, UniqueRows, AllIdentified, NewLegs, Names, HasRow;
    var after := orders + NewLegs(orders, o, p.legs, now);
    ParentIsKnown(broker, p);
    forall q, l, r, i | IsParent(broker, q) && 0 <= l < |q.legs| && 0 <= r < |after| && 0 <= i < |after|
      && Names(after[r], q.legs[l]) && Names(after[i], q)
      ensures after[r].parent == Some(i)
    {
      if |orders| <= i {
        var k := NewRowIs(broker, orders, o, p, now, i);
        NewRowIsNoParent(broker, p.legs[k], p, q, k, after[i]);
      } else if |orders| <= r {
        var k := NewRowIs(broker, orders, o, p, now, r);
        NewRowHasOneParent(broker, p.legs[k], p, q, k, l, after[r], after[i]);
        LegsAreKnown(broker, p, k);
        OneRowForAnOrder(broker, orders, p, o, i);
      }
    }
  }

  /** Persisting a parent's legs leaves every other row alone, and the family complete. */
  lemma LegsArrive(broker: Broker, db: Db, parent: nat, bo: BrokerOrder, now: Time)
    requires DbOk(db) && Coherent(broker) && Bracketed(broker) && Housed(broker, db.orders)
    requires IsParent(broker, bo) && parent < |db.orders| && Names(db.orders[parent], bo)
    ensures var after := db.(orders := db.orders + NewLegs(db.orders, parent, bo.legs, now));
            && DbOk(after) && Housed(broker, after.orders) && LegsKnown(after.orders, parent, bo.legs)
            && forall o :: |db.orders| <= o < |after.orders| ==> FreshLeg(broker, after, o)
  {
    hide DbOk, AppliedLedger, FreshLeg, NewLegs, Coherent, Bracketed, Known, Housed, IsParent, KnownLeg, Names, HasRow, LegRow, Identified;
    var legs := NewLegs(db.orders, parent, bo.legs, now);
    var after := db.(orders := db.orders + legs);
    MoreRowsKeepOk(db, legs);
    OkHasFills(db);
    LegsKeepHoused(broker, db.orders, parent, bo, now);
    forall o | |db.orders| <= o < |after.orders| ensures FreshLeg(broker, after, o) {
      var k := NewRowIs(broker, db.orders, parent, bo, now, o);
      EmptyLedger(db, o);
      LegRowIsFresh(broker, after, o, bo, k, bo.legs[k], parent, db.orders[parent], now);
    }
    forall k | 0 <= k < |bo.legs| && bo.legs[k].clientId.Some? ensures KnownLeg(after.orders, parent, bo.legs[k]) {
      EveryNamedLegIsThere(db.orders, parent, bo.legs, now, k);
    }
  }

  lemma KnownHasRow(orders: seq<Order>, parent: nat, leg: BrokerOrder)
    requires KnownLeg(orders, parent, leg)
    ensures HasRow(orders, leg)
  {
    var i :| 0 <= i < |orders| && orders[i].parent == Some(parent)
      && (orders[i].brokerId == Some(leg.brokerId) || (leg.clientId.Some? && orders[i].clientId == leg.clientId.value));
    assert Names(orders[i], leg);
  }

  lemma KnownLegStays(was: seq<Order>, now: seq<Order>, parent: nat, legs: seq<BrokerOrder>)
    requires RowsAdvance(was, now) && LegsKnown(was, parent, legs)
    ensures LegsKnown(now, parent, legs)
  {
    forall k | 0 <= k < |legs| && legs[k].clientId.Some? ensures KnownLeg(now, parent, legs[k]) {
      var leg := legs[k];
      var i :| 0 <= i < |was| && was[i].parent == Some(parent)
        && (was[i].brokerId == Some(leg.brokerId) || (leg.clientId.Some? && was[i].clientId == leg.clientId.value));
      assert Advances(was[i], now[i]);
    }
  }

  lemma FreshStays(broker: Broker, db: Db, after: Db, o: nat)
    requires o < |db.orders| && o < |after.orders| && FreshLeg(broker, db, o)
    requires after.orders[o].parent == db.orders[o].parent && after.orders[o].clientId == db.orders[o].clientId
    requires db.orders[o].brokerId.Some? ==> after.orders[o].brokerId == db.orders[o].brokerId
    requires Caught(broker, after, o)
          || (after.orders[o] == db.orders[o] && AppliedLedger(after.fills, o).qty == AppliedLedger(db.fills, o).qty)
    ensures FreshLeg(broker, after, o)
  {
    hide AppliedLedger, Adopted, Lookup, IsParent;
  }

  lemma NamedStays(was: seq<Order>, now: seq<Order>, o: nat, bo: BrokerOrder)
    requires RowsAdvance(was, now) && o < |was| && Names(was[o], bo)
    ensures Names(now[o], bo)
  {
    assert Advances(was[o], now[o]);
  }

  lemma FamilyStays(start: seq<Order>, was: seq<Order>, now: seq<Order>, entry: Listed)
    requires RowsAdvance(was, now) && FamilyThere(start, was, entry)
    ensures FamilyThere(start, now, entry)
  {
    hide RowsAdvance, Names, LegsKnown;
    if entry.parent.Some? {
      if HasRow(was, entry.order) {
        var o :| 0 <= o < |was| && Names(was[o], entry.order);
        NamedStays(was, now, o, entry.order);
        assert |was| <= |now| by { AdvancingGrows(was, now); }
      } else {
        forall o | 0 <= o < |start| && Names(start[o], entry.parent.value) ensures LegsKnown(now, o, entry.parent.value.legs) {
          KnownLegStays(was, now, o, entry.parent.value.legs);
        }
      }
    }
  }

  lemma AdvancingGrows(was: seq<Order>, now: seq<Order>)
    requires RowsAdvance(was, now)
    ensures |was| <= |now|
  {
  }

  // ── Step 1 of the first pass ─────────────────────────────────────

  /** The row and what is recorded for it are as they were. */
  ghost predicate SameRow(was: Db, now: Db, o: nat) {
    && o < |was.orders| && o < |now.orders| && now.orders[o] == was.orders[o]
    && AppliedLedger(now.fills, o).qty == AppliedLedger(was.fills, o).qty
  }

  /** What the listing pass has established after the entries in `done`: about rows, ... */
  ghost predicate ListedRows(broker: Broker, db: Db, now: Db, matched: set<nat>, done: seq<Listed>) {
    && DbOk(now) && Housed(broker, now.orders) && RowsAdvance(db.orders, now.orders) && SameLookups(broker, db.orders, now.orders)
    && (forall o :: o in matched ==>
          o < |now.orders| && Caught(broker, now, o) && ListsRow(Flat(broker.open), now.orders[o]))
    && (forall o :: 0 <= o < |db.orders| && ListsRow(done, db.orders[o]) ==> o in matched)
    && (forall o :: 0 <= o < |db.orders| && o !in matched ==> SameRow(db, now, o))
    && (forall o :: |db.orders| <= o < |now.orders| ==> FreshLeg(broker, now, o))
    && (forall j :: 0 <= j < |done| ==> FamilyThere(db.orders, now.orders, done[j]))
  }

  /** ... and about the index. */
  ghost predicate IndexReady(db: Db, index: Index, orders: seq<Order>) {
    && IndexSound(index, orders)
    && (forall o :: 0 <= o < |db.orders| ==>
          && db.orders[o].clientId in index.byClient
          && (db.orders[o].brokerId.Some? ==> db.orders[o].brokerId.value in index.byBroker))
  }

  ghost predicate Listing(broker: Broker, db: Db, p: Pass, done: seq<Listed>) {
    ListedRows(broker, db, p.db, p.matched, done) && IndexReady(db, p.index, p.db.orders)
  }

  lemma WithLegKeepsIndex(db: Db, p: Pass, entry: Listed, now: Time)
    requires IndexReady(db, p.index, p.db.orders) && IndexInRange(p.index, |p.db.orders|)
    ensures IndexReady(db, WithLeg(p, entry, now).index, WithLeg(p, entry, now).db.orders)
  {
    hide NewLegs;
  }

  /** What the starting rows name, the index finds. */
  lemma ReadyFinds(db: Db, index: Index, orders: seq<Order>, bo: BrokerOrder, o: nat)
    requires IndexReady(db, index, orders) && o < |db.orders| && Names(db.orders[o], bo)
    ensures FindLocal(index, bo).Some?
  {
  }

  lemma LegsKeepListed(broker: Broker, db: Db, was: Db, now: Db, matched: set<nat>, done: seq<Listed>)
    requires ListedRows(broker, db, was, matched, done) && DbOk(now) && Housed(broker, now.orders)
    requires now == was.(orders := now.orders) && was.orders <= now.orders
    requires forall o :: |was.orders| <= o < |now.orders| ==> FreshLeg(broker, now, o)
    ensures ListedRows(broker, db, now, matched, done)
  {
    hide DbOk, AppliedLedger, Adopted, Flat, Housed, FreshLeg, Advances, FamilyThere, Lookup, ListsRow;
    var legs := now.orders[|was.orders|..];
    assert now.orders == was.orders + legs;
    AdvancesItself(was.orders, legs);
    AdvancesChain(db.orders, was.orders, now.orders);
    forall o | |db.orders| <= o < |was.orders| ensures FreshLeg(broker, now, o) {
      FreshStays(broker, was, now, o);
    }
    forall i | 0 <= i < |done| ensures FamilyThere(db.orders, now.orders, done[i]) {
      FamilyStays(db.orders, was.orders, now.orders, done[i]);
    }
  }

  /** A listed leg without a row gets its family's when its parent has one. */
  lemma LegStep(broker: Broker, db: Db, p: Pass, done: seq<Listed>, j: nat, now: Time)
    requires Coherent(broker) && Bracketed(broker) && Listing(broker, db, p, done) && j < |Flat(broker.open)|
    requires IndexInRange(p.index, |p.db.orders|)
    ensures var entry, q := Flat(broker.open)[j], WithLeg(p, Flat(broker.open)[j], now);
            && Listing(broker, db, q, done)
            && (FindLocal(q.index, entry.order).None? ==> FindLocal(p.index, entry.order).None? && FamilyThere(db.orders, q.db.orders, entry))
  {
    hide DbOk, AppliedLedger, NewLegs, Adopted, Coherent, Bracketed, FreshLeg, Flat, Caught, RowsAdvance, Housed, Names, LegsKnown, HasRow, ListsRow, IndexReady, IsParent, FindBrokerId;
    var entry := Flat(broker.open)[j];
    WithLegKeepsIndex(db, p, entry, now);
    if FindLocal(p.index, entry.order).None? && entry.parent.Some? {
      var bo := entry.parent.value;
      var parent := FindLocal(p.index, bo);
      FlatIsOpen(broker.open, j);
      OpenIsParent(broker, bo);
      NoParentNoFamily(db, p.index, p.db.orders, entry);
      if parent.Some? {
        ReadyIsNamed(db, p.index, p.db.orders, bo);
        LegsArrive(broker, p.db, parent.value, bo, now);
        var after := p.db.(orders := p.db.orders + NewLegs(p.db.orders, parent.value, bo.legs, now));
        LegsKeepListed(broker, db, p.db, after, p.matched, done);
        FamilyArrives(broker, db.orders, after.orders, parent.value, p.db.orders, entry);
      }
    }
  }

  lemma OpenIsParent(broker: Broker, bo: BrokerOrder)
    requires exists i :: 0 <= i < |broker.open| && broker.open[i] == bo
    ensures IsParent(broker, bo)
  {
  }

  lemma ReadyIsNamed(db: Db, index: Index, orders: seq<Order>, bo: BrokerOrder)
    requires IndexReady(db, index, orders)
    ensures FindLocal(index, bo).Some? ==> FindLocal(index, bo).value < |orders| && Names(orders[FindLocal(index, bo).value], bo)
  {
    FoundIsNamed(index, orders, bo);
  }

  lemma NoParentNoFamily(db: Db, index: Index, orders: seq<Order>, entry: Listed)
    requires IndexReady(db, index, orders) && entry.parent.Some?
    ensures FindLocal(index, entry.parent.value).None? ==> FamilyThere(db.orders, orders, entry)
  {
    hide IndexReady, Names, FindLocal, LegsKnown;
    forall o | 0 <= o < |db.orders| && Names(db.orders[o], entry.parent.value) ensures FindLocal(index, entry.parent.value).Some? {
      ReadyFinds(db, index, orders, entry.parent.value, o);
    }
  }

  /** The rows that name the parent are the one that now has the legs. */
  lemma FamilyArrives(broker: Broker, start: seq<Order>, after: seq<Order>, parent: nat, was: seq<Order>, entry: Listed)
    requires Coherent(broker) && entry.parent.Some? && IsParent(broker, entry.parent.value) && Housed(broker, was)
    requires RowsAdvance(start, was) && parent < |was| && Names(was[parent], entry.parent.value)
    requires LegsKnown(after, parent, entry.parent.value.legs)
    ensures FamilyThere(start, after, entry)
  {
    hide Coherent, Known, UniqueRows, AllIdentified, LegsHoused, LegsKnown, Names, RowsAdvance, HasRow;
    ParentIsKnown(broker, entry.parent.value);
    AdvancingGrows(start, was);
    forall o | 0 <= o < |start| && Names(start[o], entry.parent.value) ensures o == parent {
      NamedStays(start, was, o, entry.parent.value);
      OneRowForAnOrder(broker, was, entry.parent.value, o, parent);
    }
  }

  /** A found row is caught up ... */
  lemma FoundRows(broker: Broker, db: Db, was: Db, matched: set<nat>, done: seq<Listed>, j: nat, o: nat, now: Time, keys: Keys)
    requires Coherent(broker) && ListedRows(broker, db, was, matched, done)
    requires j < |Flat(broker.open)| && o < |was.orders| && Names(was.orders[o], Flat(broker.open)[j].order)
    ensures var entry := Flat(broker.open)[j];
            ListedRows(broker, db, Adopt(was, o, entry.order, now, true, keys), matched + {o}, done + [entry])
  {
    hide DbOk, AppliedLedger, Adopt, Adopted, Coherent, Known, Flat, FreshLeg, UniqueRows, LegsHoused, AllIdentified, Advances, FamilyThere, Lookup, Names, ListsRow;
    var flat, entry := Flat(broker.open), Flat(broker.open)[j];
    var after, more := Adopt(was, o, entry.order, now, true, keys), done + [entry];
    ListedIsKnown(broker, j);
    AdoptCatches(broker, was, o, entry.order, now, keys);
    AdoptAdvances(was, o, entry.order, now, true, keys);
    AdoptKeepsHoused(broker, was.orders, o, entry.order);
    AdvancesChain(db.orders, was.orders, after.orders);
    NamedStays(was.orders, after.orders, o, entry.order);
    forall i | i in matched + {o} ensures ListsRow(flat, after.orders[i]) {
      FoundIsListed(flat, j, was.orders, after.orders, i, o);
    }
    forall other | |db.orders| <= other < |was.orders| ensures FreshLeg(broker, after, other) {
      assert Advances(was.orders[other], after.orders[other]);
      SameLeg(was.orders[other], after.orders[other]);
      FreshStays(broker, was, after, other);
    }
    FoundFamily(db.orders, after.orders, entry, o);
    forall i | 0 <= i < |more| ensures FamilyThere(db.orders, after.orders, more[i]) {
      if i < |done| {
        FamilyStays(db.orders, was.orders, after.orders, done[i]);
      }
    }
    forall i | 0 <= i < |db.orders| && ListsRow(more, db.orders[i]) ensures i in matched + {o} {
      ListedEarlier(done, entry, db.orders[i]);
      if Names(db.orders[i], entry.order) {
        NamedStays(db.orders, was.orders, i, entry.order);
        OneRowForAnOrder(broker, was.orders, entry.order, i, o);
      }
    }
  }

  lemma SameLeg(was: Order, now: Order)
    requires Advances(was, now)
    ensures now.parent == was.parent && now.clientId == was.clientId && (was.brokerId.Some? ==> now.brokerId == was.brokerId)
  {
  }

  lemma FoundFamily(start: seq<Order>, after: seq<Order>, entry: Listed, o: nat)
    requires o < |after| && Names(after[o], entry.order)
    ensures FamilyThere(start, after, entry)
  {
    hide Names, LegsKnown;
  }

  lemma FoundIsListed(flat: seq<Listed>, j: nat, was: seq<Order>, after: seq<Order>, i: nat, o: nat)
    requires j < |flat| && i < |was| && i < |after| && (i == o ==> Names(after[o], flat[j].order))
    requires i != o ==> after[i] == was[i] && ListsRow(flat, was[i])
    ensures ListsRow(flat, after[i])
  {
    hide Names;
  }

  lemma SameNames(was: seq<Order>, now: seq<Order>)
    requires RowsAdvance(was, now)
    ensures forall o :: 0 <= o < |was| ==> now[o].clientId == was[o].clientId && now[o].parent == was[o].parent
    ensures forall o :: 0 <= o < |was| && was[o].brokerId.Some? ==> now[o].brokerId == was[o].brokerId
  {
    forall o | 0 <= o < |was| ensures now[o].clientId == was[o].clientId && now[o].parent == was[o].parent {
      assert Advances(was[o], now[o]);
    }
    forall o | 0 <= o < |was| && was[o].brokerId.Some? ensures now[o].brokerId == was[o].brokerId {
      assert Advances(was[o], now[o]);
    }
  }

  /** ... and matched. */
  lemma FoundStep(broker: Broker, db: Db, p: Pass, done: seq<Listed>, j: nat, now: Time, keys: Keys)
    requires Coherent(broker) && Listing(broker, db, p, done) && j < |Flat(broker.open)|
    requires FindLocal(p.index, Flat(broker.open)[j].order).Some?
    ensures var entry, o := Flat(broker.open)[j], FindLocal(p.index, Flat(broker.open)[j].order).value;
            && o < |p.db.orders|
            && Listing(broker, db, AdoptInto(p.(matched := p.matched + {o}), o, entry.order, now, true, keys), done + [entry])
  {
    hide DbOk, Adopt, Coherent, Flat, Advances, FindLocal, ListedRows, Names;
    var entry := Flat(broker.open)[j];
    ReadyIsNamed(db, p.index, p.db.orders, entry.order);
    var o := FindLocal(p.index, entry.order).value;
    FoundRows(broker, db, p.db, p.matched, done, j, o, now, keys);
    AdoptAdvances(p.db, o, entry.order, now, true, keys);
    SameNames(p.db.orders, Adopt(p.db, o, entry.order, now, true, keys).orders);
  }

  lemma ListedEarlier(done: seq<Listed>, entry: Listed, row: Order)
    requires ListsRow(done + [entry], row)
    ensures ListsRow(done, row) || Names(row, entry.order)
  {
    hide Names;
    var i :| 0 <= i < |done + [entry]| && Names(row, (done + [entry])[i].order);
    if i < |done| {
      assert Names(row, done[i].order);
    }
  }

  /** An entry without a row, orphan or not yet adopted, leaves what was established. */
  lemma OrphanStep(broker: Broker, db: Db, p: Pass, done: seq<Listed>, entry: Listed)
    requires Listing(broker, db, p, done) && FindLocal(p.index, entry.order).None? && FamilyThere(db.orders, p.db.orders, entry)
    ensures Listing(broker, db, p.(orphans := p.orphans + 1), done + [entry])
  {
    hide DbOk, Flat, FreshLeg, Caught, RowsAdvance, Housed, IndexReady, FamilyThere, FindLocal, Names, ListsRow;
    forall o | 0 <= o < |db.orders| && ListsRow(done + [entry], db.orders[o]) ensures o in p.matched {
      ListedEarlier(done, entry, db.orders[o]);
      if Names(db.orders[o], entry.order) {
        ReadyFinds(db, p.index, p.db.orders, entry.order, o);
      }
    }
  }

  lemma ListingStep(broker: Broker, db: Db, p: Pass, j: nat, now: Time, keys: Keys)
    requires Coherent(broker) && Bracketed(broker) && j < |Flat(broker.open)| && Listing(broker, db, p, Flat(broker.open)[..j])
    requires IndexInRange(p.index, |p.db.orders|)
    ensures Listing(broker, db, AdoptListed(p, Flat(broker.open)[j], now, true, keys), Flat(broker.open)[..j + 1])
  {
    hide Adopt, Coherent, Bracketed, Flat, Listing, WithLeg, FindLocal, FamilyThere;
    var entry, done := Flat(broker.open)[j], Flat(broker.open)[..j];
    var q := WithLeg(p, entry, now);
    assert Flat(broker.open)[..j + 1] == done + [entry];
    LegStep(broker, db, p, done, j, now);
    if FindLocal(q.index, entry.order).Some? {
      FoundStep(broker, db, q, done, j, now, keys);
    } else {
      OrphanStep(broker, db, q, done, entry);
    }
  }

  lemma {:induction false} ListingReaches(broker: Broker, db: Db, now: Time, keys: Keys, n: nat)
    requires DbOk(db) && Coherent(broker) && Bracketed(broker) && Housed(broker, db.orders) && n <= |Flat(broker.open)|
    ensures Listing(broker, db, AdoptAllListed(StartPass(db), Flat(broker.open)[..n], now, true, keys), Flat(broker.open)[..n])
  {
    hide DbOk, AppliedLedger, AdoptListed, Coherent, Bracketed, Housed, Flat, FreshLeg, Caught, IndexOf;
    if n == 0 {
      IndexIsSound(db.orders);
      BrokerIdsAreIndexed(db.orders);
      AdvancesItself(db.orders, []);
    } else {
      var flat := Flat(broker.open);
      assert flat[..n][..n - 1] == flat[..n - 1];
      ListingReaches(broker, db, now, keys, n - 1);
      ListingStep(broker, db, AdoptAllListed(StartPass(db), flat[..n - 1], now, true, keys), n - 1, now, keys);
    }
  }
}
