/** The order row and every writer's way of copying a broker snapshot onto it. */
module OrderRows {
  import opened Domain
  import opened Tables

  /** `map_status`: the broker's names, with an unknown one parked in `held`. Two of them, `replaced` and
      `restated`, are both read as `replaced`. */
  function MapStatus(raw: string): Status {
    if raw == "new" || raw == "pending_new" then Submitted
    else if raw == "accepted" || raw == "accepted_for_bidding" then Accepted
    else if raw == "partially_filled" then PartiallyFilled
    else if raw == "filled" then Filled
    else if raw == "done_for_day" then DoneForDay
    else if raw == "canceled" then Canceled
    else if raw == "expired" then Expired
    else if raw == "replaced" || raw == "restated" then Replaced
    else if raw == "pending_cancel" then PendingCancel
    else if raw == "pending_replace" then PendingReplace
    else if raw == "pending_review" || raw == "held" then Held
    else if raw == "stopped" then Stopped
    else if raw == "rejected" then Rejected
    else if raw == "suspended" then Suspended
    else if raw == "calculated" then Calculated
    else Held
  }

  /** The names a row takes for good. The broker has no name for the engine's own `failed`. */
  const FINAL_NAMES: set<string> := {"filled", "canceled", "expired", "replaced", "restated", "rejected"}

  lemma MappedStatuses(raw: string)
    ensures IsAbsorbing(MapStatus(raw)) <==> raw in FINAL_NAMES
    ensures MapStatus(raw) != Failed && MapStatus(raw) != PendingSubmit
  {
  }

  /** The broker's word for each status it can report. */
  function OwnName(status: Status): string
    requires status !in {PendingSubmit, Failed, Unrecognized}
  {
    match status
    case Submitted => "new"
    case Accepted => "accepted"
    case PartiallyFilled => "partially_filled"
    case Filled => "filled"
    case Canceled => "canceled"
    case Expired => "expired"
    case Rejected => "rejected"
    case Replaced => "replaced"
    case PendingCancel => "pending_cancel"
    case PendingReplace => "pending_replace"
    case Stopped => "stopped"
    case Suspended => "suspended"
    case Calculated => "calculated"
    case DoneForDay => "done_for_day"
    case Held => "held"
  }

  /** Each status has its own word ... */
  lemma OwnNamesAreRead(status: Status)
    requires status !in {PendingSubmit, Failed, Unrecognized}
    ensures MapStatus(OwnName(status)) == status
  {
    match status
    case Submitted =>
    case Accepted =>
    case PartiallyFilled =>
    case Filled =>
    case Canceled =>
    case Expired =>
    case Rejected =>
    case Replaced =>
    case PendingCancel =>
    case PendingReplace =>
    case Stopped =>
    case Suspended =>
    case Calculated =>
    case DoneForDay =>
    case Held =>
  }

  /** ... four more are synonyms, and any other word is held. */
  lemma OtherNamesAreHeld(raw: string)
    ensures var status := MapStatus(raw);
            && status !in {PendingSubmit, Failed, Unrecognized}
            && (status != Held ==>
                  raw == OwnName(status) || (raw, status) in {("pending_new", Submitted), ("accepted_for_bidding", Accepted), ("restated", Replaced)})
  {
  }

  datatype TransitionPlan = Apply | Stale | TerminalConflict

  predicate IsAbsorbing(status: Status) {
    status in {Filled, Canceled, Expired, Rejected, Replaced, Failed}
  }

  function PlanTransition(local: Status, localFilled: real, incoming: Status, incomingFilled: real): TransitionPlan {
    if IsAbsorbing(local) then TerminalConflict
    else if incomingFilled < localFilled then Stale
    else Apply
  }

  /** `apply_identity`: identity fields never regress state. */
  function WithIdentity(local: Order, broker: BrokerOrder): Order {
    local.(brokerId := if local.brokerId.None? then Some(broker.brokerId) else local.brokerId,
           filledAt := if broker.filledAt.Some? then broker.filledAt else local.filledAt)
  }

  function PlanFor(local: Order, broker: BrokerOrder): TransitionPlan {
    PlanTransition(local.status, local.filledQty, broker.status, broker.filledQty)
  }

  /** `apply_snapshot`: identity always, state only when the plan allows. */
  function WithSnapshot(local: Order, broker: BrokerOrder): Order {
    var row := WithIdentity(local, broker);
    if PlanFor(local, broker).Apply? then
      row.(status := broker.status,
           filledQty := broker.filledQty,
           filledAvg := if broker.filledAvg.Some? then broker.filledAvg else row.filledAvg)
    else row
  }

  /** Broker evidence for a row we wrote off as not placed. */
  function Resurrected(local: Order): Order {
    if local.status == Failed then local.(status := PendingSubmit) else local
  }

  /** What a stream event or an adopting reconcile does to the row. */
  function Adopted(local: Order, broker: BrokerOrder): Order {
    WithSnapshot(Resurrected(local), broker)
  }

  /** Any snapshot sets the broker id once and the fill time whenever it carries one. Status, quantity and any average
      are copied unless the row is finished or already ahead; nothing else of the row changes. */
  lemma SnapshotsMoveOnlyForward(was: Order, broker: BrokerOrder)
    ensures var row, plan := WithSnapshot(was, broker), PlanFor(was, broker);
            && (plan.TerminalConflict? <==> was.status in {Filled, Canceled, Expired, Rejected, Replaced, Failed})
            && (!plan.TerminalConflict? ==> (plan.Stale? <==> broker.filledQty < was.filledQty))
            && row.brokerId == (if was.brokerId.Some? then was.brokerId else Some(broker.brokerId))
            && row.filledAt == (if broker.filledAt.Some? then broker.filledAt else was.filledAt)
            && (plan.Apply? ==> row.status == broker.status && row.filledQty == broker.filledQty
                                && row.filledAvg == if broker.filledAvg.Some? then broker.filledAvg else was.filledAvg)
            && (!plan.Apply? ==> row.status == was.status && row.filledQty == was.filledQty && row.filledAvg == was.filledAvg)
            && row == was.(brokerId := row.brokerId, filledAt := row.filledAt, status := row.status,
                           filledQty := row.filledQty, filledAvg := row.filledAvg)
  {
  }

  method ApplyIdentity(session: Session, o: nat, broker: BrokerOrder)
    requires o < |session.orders|
    modifies session`orders
    ensures session.orders == old(session.orders)[o := WithIdentity(old(session.orders)[o], broker)]
  {
    if session.orders[o].brokerId.None? {
      session.orders := session.orders[o := session.orders[o].(brokerId := Some(broker.brokerId))];
    }
    if broker.filledAt.Some? {
      session.orders := session.orders[o := session.orders[o].(filledAt := broker.filledAt)];
    }
  }

  method ApplySnapshot(session: Session, o: nat, broker: BrokerOrder) returns (plan: TransitionPlan)
    requires o < |session.orders|
    modifies session`orders
    ensures plan == PlanFor(old(session.orders)[o], broker)
    ensures session.orders == old(session.orders)[o := WithSnapshot(old(session.orders)[o], broker)]
  {
    ApplyIdentity(session, o, broker);
    var row := session.orders[o];
    plan := PlanTransition(row.status, row.filledQty, broker.status, broker.filledQty);
    if plan.Apply? {
      row := row.(status := broker.status, filledQty := broker.filledQty);
      if broker.filledAvg.Some? {
        row := row.(filledAvg := broker.filledAvg);
      }
      session.orders := session.orders[o := row];
    }
  }

  // ── Bracket legs ─────────────────────────────────────────────────

  predicate KnownLeg(orders: seq<Order>, parent: nat, leg: BrokerOrder) {
    exists i :: 0 <= i < |orders| && orders[i].parent == Some(parent)
      && (orders[i].brokerId == Some(leg.brokerId) || (leg.clientId.Some? && orders[i].clientId == leg.clientId.value))
  }

  function LegRow(parent: nat, row: Order, leg: BrokerOrder, now: Time): Order
    requires leg.clientId.Some?
  {
    Order(leg.clientId.value, Some(leg.brokerId), row.strategy, leg.symbol, leg.side, leg.bracket, Some(parent),
          leg.status, if leg.qty.Some? then leg.qty.value else row.qty, leg.filledQty, leg.filledAvg, None, now)
  }

  /** The rows `persist_bracket_legs` creates: legs the parent does not have yet and the broker has named. */
  function NewLegs(orders: seq<Order>, parent: nat, legs: seq<BrokerOrder>, now: Time): seq<Order>
    requires parent < |orders|
  {
    if legs == [] then []
    else
      var earlier, leg := NewLegs(orders, parent, legs[..|legs| - 1], now), legs[|legs| - 1];
      if leg.clientId.None? || KnownLeg(orders, parent, leg) then earlier
      else earlier + [LegRow(parent, orders[parent], leg, now)]
  }

  method PersistBracketLegs(session: Session, parent: nat, broker: BrokerOrder, now: Time) returns (created: nat)
    requires parent < |session.orders|
    modifies session`orders
    ensures session.orders == old(session.orders) + NewLegs(old(session.orders), parent, broker.legs, now)
    ensures created == |NewLegs(old(session.orders), parent, broker.legs, now)|
  {
    var existing := session.orders;
    created := 0;
    var k := 0;
    while k < |broker.legs|
      invariant k <= |broker.legs|
      invariant session.orders == existing + NewLegs(existing, parent, broker.legs[..k], now)
      invariant created == |NewLegs(existing, parent, broker.legs[..k], now)|
    {
      var leg := broker.legs[k];
      assert broker.legs[..k + 1][..k] == broker.legs[..k];
      if leg.clientId.Some? && !KnownLeg(existing, parent, leg) {
        session.orders := session.orders + [LegRow(parent, existing[parent], leg, now)];
        created := created + 1;
      }
      k := k + 1;
    }
    assert broker.legs[..|broker.legs|] == broker.legs;
  }

  /** What a leg's row says: everything the broker says of the leg, under the parent's strategy. */
  ghost predicate IsLegRow(row: Order, parent: nat, of: Order, leg: BrokerOrder, now: Time) {
    && leg.clientId == Some(row.clientId) && row.brokerId == Some(leg.brokerId)
    && row.symbol == leg.symbol && row.side == leg.side && row.bracket == leg.bracket
    && row.status == leg.status && row.filledQty == leg.filledQty && row.filledAvg == leg.filledAvg
    && (leg.qty.Some? ==> row.qty == leg.qty.value) && (leg.qty.None? ==> row.qty == of.qty)
    && row.strategy == of.strategy && row.parent == Some(parent)
    && row.filledAt.None? && row.createdAt == now
  }

  /** Every row the persisting adds is one leg's, a leg the broker has named and the parent did not have. */
  lemma {:induction false} NewRowsAreLegs(orders: seq<Order>, parent: nat, legs: seq<BrokerOrder>, now: Time, i: nat) returns (k: nat)
    requires parent < |orders| && i < |NewLegs(orders, parent, legs, now)|
    ensures k < |legs| && !KnownLeg(orders, parent, legs[k])
    ensures IsLegRow(NewLegs(orders, parent, legs, now)[i], parent, orders[parent], legs[k], now)
  {
    hide KnownLeg;
    var n := |legs| - 1;
    if i < |NewLegs(orders, parent, legs[..n], now)| {
      k := NewRowsAreLegs(orders, parent, legs[..n], now, i);
    } else {
      k := n;
    }
  }

  /** And every such leg has its row there. */
  lemma {:induction false} NewLegsHaveRows(orders: seq<Order>, parent: nat, legs: seq<BrokerOrder>, now: Time, k: nat) returns (i: nat)
    requires parent < |orders| && k < |legs| && legs[k].clientId.Some? && !KnownLeg(orders, parent, legs[k])
    ensures i < |NewLegs(orders, parent, legs, now)|
    ensures IsLegRow(NewLegs(orders, parent, legs, now)[i], parent, orders[parent], legs[k], now)
  {
    hide KnownLeg;
    var n := |legs| - 1;
    if k < n {
      i := NewLegsHaveRows(orders, parent, legs[..n], now, k);
    } else {
      i := |NewLegs(orders, parent, legs[..n], now)|;
    }
  }

  lemma {:induction false} EveryNamedLegIsThere(orders: seq<Order>, parent: nat, legs: seq<BrokerOrder>, now: Time, k: nat)
    requires parent < |orders| && k < |legs| && legs[k].clientId.Some?
    ensures KnownLeg(orders + NewLegs(orders, parent, legs, now), parent, legs[k])
  {
    var rows, n := NewLegs(orders, parent, legs, now), |legs| - 1;
    var earlier := NewLegs(orders, parent, legs[..n], now);
    if k < n {
      EveryNamedLegIsThere(orders, parent, legs[..n], now, k);
      KnownStaysKnown(orders + earlier, rows[|earlier|..], parent, legs[k]);
      assert orders + rows == (orders + earlier) + rows[|earlier|..];
    } else if KnownLeg(orders, parent, legs[k]) {
      KnownStaysKnown(orders, rows, parent, legs[k]);
    } else {
      assert (orders + rows)[|orders| + |earlier|] == LegRow(parent, orders[parent], legs[k], now);
    }
  }

  lemma KnownStaysKnown(orders: seq<Order>, more: seq<Order>, parent: nat, leg: BrokerOrder)
    requires KnownLeg(orders, parent, leg)
    ensures KnownLeg(orders + more, parent, leg)
  {
    var i :| 0 <= i < |orders| && orders[i].parent == Some(parent)
      && (orders[i].brokerId == Some(leg.brokerId) || (leg.clientId.Some? && orders[i].clientId == leg.clientId.value));
    assert (orders + more)[i] == orders[i];
  }

  lemma {:induction false} KnownLegsAddNothing(orders: seq<Order>, parent: nat, legs: seq<BrokerOrder>, now: Time)
    requires parent < |orders|
    requires forall k :: 0 <= k < |legs| && legs[k].clientId.Some? ==> KnownLeg(orders, parent, legs[k])
    ensures NewLegs(orders, parent, legs, now) == []
  {
    if legs != [] {
      KnownLegsAddNothing(orders, parent, legs[..|legs| - 1], now);
    }
  }

  /** Asking again for the same legs, at any later time, creates nothing. */
  lemma LegsArePersistedOnce(orders: seq<Order>, parent: nat, legs: seq<BrokerOrder>, now: Time, later: Time)
    requires parent < |orders|
    ensures NewLegs(orders + NewLegs(orders, parent, legs, now), parent, legs, later) == []
  {
    forall k | 0 <= k < |legs| && legs[k].clientId.Some?
      ensures KnownLeg(orders + NewLegs(orders, parent, legs, now), parent, legs[k])
    {
      EveryNamedLegIsThere(orders, parent, legs, now, k);
    }
    KnownLegsAddNothing(orders + NewLegs(orders, parent, legs, now), parent, legs, later);
  }
}
