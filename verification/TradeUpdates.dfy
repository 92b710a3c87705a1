/** The trade-updates stage: one event becomes order, fill, lot and position rows in one transaction. */
module TradeUpdates {
  import opened Domain
  import opened Tables
  import opened Lots
  import opened FillLedger
  import opened OrderRows
  import opened Positions

  // ── Inserting fills ──────────────────────────────────────────────

  function LotFillOf(row: Order, order: nat, fillId: nat, fill: Fill, stamp: Stamp): LotFill {
    LotFill(row.strategy, row.symbol, row.side, fill.qty, fill.price, fill.at, Some(order), Some(fillId), stamp)
  }

  /** One fill row, applied to the lots and, except under a broker position overwrite, to the position. */
  function InsertFill(db: Db, fill: Fill, stamp: Stamp, applyPosition: bool): (r: Db)
    requires fill.order < |db.orders|
    ensures r.orders == db.orders && r.fills == db.fills + [fill]
  {
    var row := db.orders[fill.order];
    var lots := ApplyFill(db.(fills := db.fills + [fill]), LotFillOf(row, fill.order, |db.fills|, fill, stamp), true);
    if applyPosition
    then lots.(positions := ApplyToPosition(db.positions, row.symbol, row.side, fill.qty, fill.price))
    else lots
  }

  ghost predicate ForOrder(fills: seq<Fill>, order: nat) {
    forall i :: 0 <= i < |fills| ==> fills[i].order == order
  }

  function InsertFills(db: Db, fills: seq<Fill>, order: nat, stamp: Stamp, applyPosition: bool): (r: Db)
    requires order < |db.orders| && ForOrder(fills, order)
    ensures r.orders == db.orders && r.fills == db.fills + fills
    decreases |fills|
  {
    if fills == [] then db
    else
      hide InsertFill;
      var r := InsertFills(InsertFill(db, fills[0], stamp, applyPosition), fills[1..], order, stamp, applyPosition);
      assert fills == [fills[0]] + fills[1..];
      r
  }

  lemma InsertNone(db: Db, order: nat, stamp: Stamp, applyPosition: bool)
    requires order < |db.orders|
    ensures InsertFills(db, [], order, stamp, applyPosition) == db
  {
  }

  lemma InsertOne(db: Db, fill: Fill, stamp: Stamp, applyPosition: bool)
    requires fill.order < |db.orders|
    ensures InsertFills(db, [fill], fill.order, stamp, applyPosition) == InsertFill(db, fill, stamp, applyPosition)
  {
    assert [fill][1..] == [];
  }

  method StageFill(session: Session, fill: Fill, stamp: Stamp, applyPosition: bool)
    requires fill.order < |session.orders|
    modifies session
    ensures session.Rows() == InsertFill(old(session.Rows()), fill, stamp, applyPosition)
  {
    var row := session.orders[fill.order];
    var fillId := |session.fills|;
    session.fills := session.fills + [fill];
    var _ := ApplyFillToLots(session, LotFillOf(row, fill.order, fillId, fill, stamp), true);
    if applyPosition {
      ApplyFillToPosition(session, row.symbol, row.side, fill.qty, fill.price);
    }
  }

  /** `synthesize_span`: a fill for a span the ledger never saw, unless its id is already there. */
  method SynthesizeSpan(session: Session, order: nat, span: real, price: real, at: Time, tag: Tag, stamp: Stamp, applyPosition: bool)
    returns (fill: Option<Fill>)
    requires order < |session.orders|
    modifies session
    ensures var fills := Synthesize(Exact, old(session.fills), order, span, price, at, tag);
            && session.Rows() == InsertFills(old(session.Rows()), fills, order, stamp, applyPosition)
            && fill == if fills == [] then None else Some(fills[0])
  {
    var key := Synthetic(tag, order, AppliedLedger(session.fills, order).qty + span);
    InsertNone(session.Rows(), order, stamp, applyPosition);
    if HasKey(session.fills, key) {
      return None;
    }
    var row := Fill(order, key, span, price, at);
    InsertOne(session.Rows(), row, stamp, applyPosition);
    StageFill(session, row, stamp, applyPosition);
    fill := Some(row);
  }

  /** Catch an order's ledger up to a cumulative; used for gaps, adoption and the deficit sweep. */
  method CatchUpLedger(session: Session, order: nat, cumQty: real, cumAvg: Option<real>, at: Time, tag: Tag, stamp: Stamp, applyPosition: bool)
    returns (fill: Option<Fill>)
    requires order < |session.orders|
    modifies session
    ensures var fills := CatchUp(Exact, old(session.fills), order, cumQty, cumAvg, at, tag);
            && session.Rows() == InsertFills(old(session.Rows()), fills, order, stamp, applyPosition)
            && |fills| == (if fill.Some? then 1 else 0)
            && (fill.Some? ==> fills[0] == fill.value)
  {
    hide InsertFill, SpanPrice, HasKey;
    var applied := AppliedLedger(session.fills, order);
    InsertNone(session.Rows(), order, stamp, applyPosition);
    if applied.qty >= cumQty {
      return None;
    }
    var span := cumQty - applied.qty;
    var price := SpanPrice(cumQty, cumAvg, applied, span);
    fill := SynthesizeSpan(session, order, span, price, at, tag, stamp, applyPosition);
  }

  // ── One execution ────────────────────────────────────────────────

  /** The database-assigned keys of the rows one event may create. */
  datatype Stamps = Stamps(gap: Stamp, execution: Stamp)

  function Recorded(db: Db, order: nat, u: TradeUpdate, stamps: Stamps): (r: Db)
    requires order < |db.orders|
    ensures r.orders == db.orders && r.fills == db.fills + EventFills(Exact, db.fills, order, u)
  {
    var gap := GapFills(Exact, db.fills, order, u);
    var middle := InsertFills(db, gap, order, stamps.gap, true);
    if Duplicate(db.fills, order, u) || !IsExecution(u) then middle
    else
      assert db.fills + EventFills(Exact, db.fills, order, u) == middle.fills + ExecutionFills(Exact, middle.fills, order, u);
      InsertFills(middle, ExecutionFills(Exact, middle.fills, order, u), order, stamps.execution, true)
  }

  /** `_record_execution`: dedup, gap back-fill, clamp; returns the fill it announces. */
  method RecordExecution(session: Session, order: nat, u: TradeUpdate, stamps: Stamps) returns (event: Option<Fill>)
    requires order < |session.orders|
    modifies session
    ensures session.Rows() == Recorded(old(session.Rows()), order, u, stamps)
    ensures event.Some? ==> |session.fills| > 0 && session.fills[|session.fills| - 1] == event.value && event.value.key == FillKeyOf(order, u)
    ensures event.None? && !Duplicate(old(session.fills), order, u) && IsExecution(u) ==>
              u.order.filledQty <= AppliedLedger(session.fills, order).qty || u.qty.value <= 0.0
  {
    hide InsertFill, CatchUp, SpanPrice, PriorAvg, HasKey;
    if u.qty.None? || u.price.None? {
      var _ := CatchUpLedger(session, order, u.order.filledQty, u.order.filledAvg, u.at, Gap, stamps.gap, true);
      return None;
    }
    var fillKey := FillKeyOf(order, u);
    if HasKey(session.fills, fillKey) {
      InsertNone(session.Rows(), order, stamps.gap, true);
      return None;
    }
    var cum := u.order.filledQty;
    var _ := CatchUpLedger(session, order, cum - u.qty.value, PriorAvg(u), u.at, Gap, stamps.gap, true);
    var applied := AppliedLedger(session.fills, order);
    var effective := Min(u.qty.value, cum - applied.qty);
    InsertNone(session.Rows(), order, stamps.execution, true);
    if effective <= 0.0 {
      return None;
    }
    var fill := Fill(order, fillKey, effective, u.price.value, u.at);
    InsertOne(session.Rows(), fill, stamps.execution, true);
    StageFill(session, fill, stamps.execution, true);
    event := Some(fill);
  }

  // ── The whole event ──────────────────────────────────────────────

  /** The first row a unique column identifies. */
  function FindBrokerId(orders: seq<Order>, id: BrokerId): (r: Option<nat>)
    ensures r.Some? ==> r.value < |orders| && orders[r.value].brokerId == Some(id)
    ensures r.None? ==> forall i :: 0 <= i < |orders| ==> orders[i].brokerId != Some(id)
  {
    if orders == [] then None
    else
      var r := FindBrokerId(orders[..|orders| - 1], id);
      if r.Some? then r
      else if orders[|orders| - 1].brokerId == Some(id) then Some(|orders| - 1) else None
  }

  function FindClientId(orders: seq<Order>, id: ClientId): (r: Option<nat>)
    ensures r.Some? ==> r.value < |orders| && orders[r.value].clientId == id
    ensures r.None? ==> forall i :: 0 <= i < |orders| ==> orders[i].clientId != id
  {
    if orders == [] then None
    else
      var r := FindClientId(orders[..|orders| - 1], id);
      if r.Some? then r
      else if orders[|orders| - 1].clientId == id then Some(|orders| - 1) else None
  }

  /** `_locate`: broker id first, then client id. */
  function Locate(orders: seq<Order>, broker: BrokerOrder): (r: Option<nat>)
    ensures r.Some? ==> r.value < |orders|
  {
    var found := FindBrokerId(orders, broker.brokerId);
    if found.Some? then found
    else if broker.clientId.Some? then FindClientId(orders, broker.clientId.value) else None
  }

  /** A row with the order's broker id wins over one with its client id; without either there is none. */
  lemma LocateFinds(orders: seq<Order>, broker: BrokerOrder)
    ensures var r := Locate(orders, broker);
            && (r.Some? ==> orders[r.value].brokerId == Some(broker.brokerId) || broker.clientId == Some(orders[r.value].clientId))
            && (forall i :: 0 <= i < |orders| && orders[i].brokerId == Some(broker.brokerId) ==>
                  r.Some? && orders[r.value].brokerId == Some(broker.brokerId))
            && (forall i :: 0 <= i < |orders| && broker.clientId == Some(orders[i].clientId) ==> r.Some?)
  {
  }

  function WithLegs(db: Db, order: nat, nested: Option<BrokerOrder>, now: Time): Db
    requires order < |db.orders|
  {
    var row := db.orders[order];
    if row.bracket && row.brokerId.Some? && row.parent.None?
       && nested.Some? && (forall i :: 0 <= i < |db.orders| ==> db.orders[i].parent != Some(order))
    then db.(orders := db.orders + NewLegs(db.orders, order, nested.value.legs, now))
    else db
  }

  /** `_process` on the tables: an event that matches no row leaves them alone. */
  function Processed(db: Db, u: TradeUpdate, nested: Option<BrokerOrder>, stamps: Stamps): Db {
    var found := Locate(db.orders, u.order);
    if found.None? then db
    else
      var o := found.value;
      var alive := db.(orders := db.orders[o := Resurrected(db.orders[o])]);
      var recorded := Recorded(alive, o, u, stamps);
      var applied := recorded.(orders := recorded.orders[o := WithSnapshot(recorded.orders[o], u.order)]);
      WithLegs(applied, o, nested, stamps.gap.createdAt)
  }

  /** `_process`: locate, resurrect, record, apply the snapshot, and make sure a bracket has its legs. */
  method Process(session: Session, u: TradeUpdate, nested: Option<BrokerOrder>, stamps: Stamps) returns (event: Option<Fill>)
    modifies session
    ensures session.Rows() == Processed(old(session.Rows()), u, nested, stamps)
    ensures event.Some? ==> event.value in session.fills && event.value.key == FillKeyOf(Locate(old(session.orders), u.order).GetOr(0), u)
  {
    var found := Locate(session.orders, u.order);
    if found.None? {
      return None;
    }
    var o := found.value;
    if session.orders[o].status == Failed {
      session.orders := session.orders[o := session.orders[o].(status := PendingSubmit)];
    }
    assert session.orders == old(session.orders)[o := Resurrected(old(session.orders)[o])];
    event := RecordExecution(session, o, u, stamps);
    var plan := ApplySnapshot(session, o, u.order);
    var order := session.orders[o];
    if order.bracket && order.brokerId.Some? && order.parent.None? {
      EnsureLegs(session, o, nested, stamps.gap.createdAt);
    }
  }

  /** `_ensure_legs`: a bracket parent without children adopts the nested legs, if the fetch succeeded. */
  method EnsureLegs(session: Session, order: nat, nested: Option<BrokerOrder>, now: Time)
    requires order < |session.orders|
    requires session.orders[order].bracket && session.orders[order].brokerId.Some? && session.orders[order].parent.None?
    modifies session`orders
    ensures session.Rows() == WithLegs(old(session.Rows()), order, nested, now)
  {
    if exists i :: 0 <= i < |session.orders| && session.orders[i].parent == Some(order) {
      return;
    }
    if nested.Some? {
      var _ := PersistBracketLegs(session, order, nested.value, now);
    }
  }
}
