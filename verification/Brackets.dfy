/** A bracket's round trip: its entry opens a strategy's lot, its exit leg's fill closes it. */
module Brackets {
  import opened Domain
  import opened Sums
  import opened Tables
  import opened Lots
  import opened LotAccounting
  import opened OrderRows
  import opened Positions
  import opened TradeUpdates
  import opened DbRuns
  import opened StrategyBooks

  lemma FillMovesItsStrategy(db: Db, fill: Fill, stamp: Stamp, applyPosition: bool, strategy: StrategyId)
    requires fill.order < |db.orders| && db.orders[fill.order].strategy == Some(strategy) && fill.qty > 0.0
    requires OneSided(db.lots)
    ensures var row, now := db.orders[fill.order], InsertFill(db, fill, stamp, applyPosition);
            && OneSided(now.lots)
            && Sum(now.lots, NetIn(strategy, row.symbol)) == Sum(db.lots, NetIn(strategy, row.symbol)) + Signed(row.side, fill.qty)
  {
    hide LotsAfter, WalkOf, ApplyToPosition, NetIn, OneSided;
    var f := LotFillOf(db.orders[fill.order], fill.order, |db.fills|, fill, stamp);
    StrategyFillMovesNet(db.lots, f, strategy, strategy, f.symbol);
    ApplyKeepsOneSided(db.lots, f);
  }

  /** The tables after a bracket's entry fill, its legs' arrival, and a fill of one of the legs. */
  function RoundTrip(db: Db, entry: Fill, legs: seq<BrokerOrder>, now: Time, exit: Fill, stamps: Stamps, applyPosition: bool): Db
    requires entry.order < |db.orders|
    requires exit.order < |db.orders| + |NewLegs(db.orders, entry.order, legs, now)|
  {
    var entered := InsertFill(db, entry, stamps.gap, applyPosition);
    var housed := entered.(orders := entered.orders + NewLegs(entered.orders, entry.order, legs, now));
    InsertFill(housed, exit, stamps.execution, applyPosition)
  }

  /** The strategy was flat in the symbol; the entry fills, the broker's named exit leg gets its row, and a fill
      of the same quantity on that row closes what the entry opened: the strategy is flat again. */
  lemma ExitLegClosesTheEntry(db: Db, entry: Fill, legs: seq<BrokerOrder>, now: Time, k: nat, stamps: Stamps, applyPosition: bool)
    returns (leg: nat)
    requires entry.order < |db.orders| && entry.qty > 0.0 && db.orders[entry.order].strategy.Some?
    requires OneSided(db.lots)
    requires var row := db.orders[entry.order];
             forall i :: 0 <= i < |db.lots| ==> !InScope(db.lots[i], row.strategy.value, row.symbol)
    requires k < |legs| && legs[k].clientId.Some? && !KnownLeg(db.orders, entry.order, legs[k])
    requires var row := db.orders[entry.order]; legs[k].symbol == row.symbol && legs[k].side == Opposite(row.side)
    ensures |db.orders| <= leg < |db.orders| + |NewLegs(db.orders, entry.order, legs, now)|
    ensures (db.orders + NewLegs(db.orders, entry.order, legs, now))[leg].clientId == legs[k].clientId.value
    ensures forall exit: Fill :: exit.order == leg && exit.qty == entry.qty ==>
              var row, after := db.orders[entry.order], RoundTrip(db, entry, legs, now, exit, stamps, applyPosition);
              forall i :: 0 <= i < |after.lots| ==> !InScope(after.lots[i], row.strategy.value, row.symbol)
  {
    var row := db.orders[entry.order];
    var more := NewLegs(db.orders, entry.order, legs, now);
    var i := NewLegsHaveRows(db.orders, entry.order, legs, now, k);
    leg := |db.orders| + i;
    assert (db.orders + more)[leg] == more[i];
    hide InsertFill, NewLegs, KnownLeg, OneSided, GrossIn, NetIn;
    GateReadsNet(db.lots, row.strategy.value, row.symbol);
    FillMovesItsStrategy(db, entry, stamps.gap, applyPosition, row.strategy.value);
    var entered := InsertFill(db, entry, stamps.gap, applyPosition);
    var housed := entered.(orders := entered.orders + more);
    forall exit: Fill | exit.order == leg && exit.qty == entry.qty
      ensures var after := RoundTrip(db, entry, legs, now, exit, stamps, applyPosition);
              forall i :: 0 <= i < |after.lots| ==> !InScope(after.lots[i], row.strategy.value, row.symbol)
    {
      FillMovesItsStrategy(housed, exit, stamps.execution, applyPosition, row.strategy.value);
      var after := InsertFill(housed, exit, stamps.execution, applyPosition);
      GateReadsNet(after.lots, row.strategy.value, row.symbol);
    }
  }

  // ── Which rows an event or an answer adds ────────────────────────

  ghost predicate IsChildless(orders: seq<Order>, parent: nat) {
    forall i :: 0 <= i < |orders| ==> orders[i].parent != Some(parent)
  }

  /** A bracket that is no leg itself and has no leg yet. */
  ghost predicate AwaitsLegs(orders: seq<Order>, o: nat) {
    o < |orders| && orders[o].bracket && orders[o].parent.None? && IsChildless(orders, o)
  }

  /** The row is one of these legs'. */
  ghost predicate IsOneOf(row: Order, parent: nat, of: Order, legs: seq<BrokerOrder>, now: Time) {
    exists k :: 0 <= k < |legs| && IsLegRow(row, parent, of, legs[k], now)
  }

  /** The row an event was matched with keeps its place in a family through the event. */
  lemma AdoptedKeepsFamily(row: Order, broker: BrokerOrder)
    ensures var now := Adopted(row, broker);
            && now.bracket == row.bracket && now.parent == row.parent && now.strategy == row.strategy
            && now.qty == row.qty && now.brokerId.Some?
  {
  }

  lemma RowsOfAnEvent(db: Db, u: TradeUpdate, nested: Option<BrokerOrder>, stamps: Stamps)
    requires Locate(db.orders, u.order).Some?
    ensures var o := Locate(db.orders, u.order).value;
            var rows := db.orders[o := Adopted(db.orders[o], u.order)];
            Processed(db, u, nested, stamps).orders ==
            rows + if AwaitsLegs(db.orders, o) && nested.Some? then NewLegs(rows, o, nested.value.legs, stamps.gap.createdAt) else []
  {
    hide Recorded, NewLegs, WithSnapshot, Resurrected;
    var o := Locate(db.orders, u.order).value;
    var alive := db.(orders := db.orders[o := Resurrected(db.orders[o])]);
    var recorded := Recorded(alive, o, u, stamps);
    var applied := recorded.(orders := recorded.orders[o := WithSnapshot(recorded.orders[o], u.order)]);
    var rows := db.orders[o := Adopted(db.orders[o], u.order)];
    assert applied.orders == rows;
    AdoptedKeepsFamily(db.orders[o], u.order);
    FamilyStays(db.orders, rows, o);
  }

  lemma FamilyStays(was: seq<Order>, now: seq<Order>, o: nat)
    requires |was| == |now| && forall i :: 0 <= i < |was| ==> now[i].parent == was[i].parent
    ensures IsChildless(now, o) == IsChildless(was, o)
  {
  }

  /** A stream event adds rows for the fetched legs of a bracket parent that had none, all of the named ones, and
      no other row. */
  lemma StreamAddsFirstLegs(db: Db, u: TradeUpdate, nested: Option<BrokerOrder>, stamps: Stamps)
    ensures var after, found := Processed(db, u, nested, stamps), Locate(db.orders, u.order);
            && |db.orders| <= |after.orders|
            && (|db.orders| < |after.orders| ==> found.Some? && AwaitsLegs(db.orders, found.value) && nested.Some?)
            && (found.Some? && AwaitsLegs(db.orders, found.value) && nested.Some? ==>
                  && (forall k :: 0 <= k < |nested.value.legs| && nested.value.legs[k].clientId.Some? ==>
                        KnownLeg(after.orders, found.value, nested.value.legs[k]))
                  && (forall i :: |db.orders| <= i < |after.orders| ==>
                        IsOneOf(after.orders[i], found.value, after.orders[found.value], nested.value.legs, stamps.gap.createdAt)))
  {
    hide Recorded, KnownLeg, IsOneOf, NewLegs, AwaitsLegs, Adopted;
    var found := Locate(db.orders, u.order);
    if found.Some? {
      var o := found.value;
      RowsOfAnEvent(db, u, nested, stamps);
      hide Processed;
      if AwaitsLegs(db.orders, o) && nested.Some? {
        FamilyArrives(db.orders[o := Adopted(db.orders[o], u.order)], o, nested.value.legs, stamps.gap.createdAt);
      }
    }
  }

  lemma FamilyArrives(rows: seq<Order>, o: nat, legs: seq<BrokerOrder>, now: Time)
    requires o < |rows|
    ensures var after := rows + NewLegs(rows, o, legs, now);
            && (forall k :: 0 <= k < |legs| && legs[k].clientId.Some? ==> KnownLeg(after, o, legs[k]))
            && (forall i :: |rows| <= i < |after| ==> IsOneOf(after[i], o, after[o], legs, now))
  {
    hide NewLegs, KnownLeg, IsLegRow;
    var more := NewLegs(rows, o, legs, now);
    forall k | 0 <= k < |legs| && legs[k].clientId.Some? ensures KnownLeg(rows + more, o, legs[k]) {
      EveryNamedLegIsThere(rows, o, legs, now, k);
    }
    forall i | |rows| <= i < |rows + more| ensures IsOneOf((rows + more)[i], o, (rows + more)[o], legs, now) {
      var k := NewRowsAreLegs(rows, o, legs, now, i - |rows|);
      assert (rows + more)[i] == more[i - |rows|] && (rows + more)[o] == rows[o];
    }
  }

  /** A submit's answer brings the legs it names, and no other row. */
  lemma SubmitAddsItsLegs(db: Db, o: nat, answer: BrokerOrder, now: Time)
    requires o < |db.orders|
    ensures var after := Commit(db, Txn.Submitted(o, answer, now));
            && |db.orders| <= |after.orders| && after.orders[o] == WithSnapshot(db.orders[o], answer)
            && (forall i :: 0 <= i < |db.orders| && i != o ==> after.orders[i] == db.orders[i])
            && (forall k :: 0 <= k < |answer.legs| && answer.legs[k].clientId.Some? ==> KnownLeg(after.orders, o, answer.legs[k]))
            && (forall i :: |db.orders| <= i < |after.orders| ==> IsOneOf(after.orders[i], o, after.orders[o], answer.legs, now))
  {
    hide KnownLeg, IsOneOf, NewLegs, WithSnapshot;
    var rows := db.orders[o := WithSnapshot(db.orders[o], answer)];
    assert Commit(db, Txn.Submitted(o, answer, now)).orders == rows + NewLegs(rows, o, answer.legs, now);
    FamilyArrives(rows, o, answer.legs, now);
  }
}
