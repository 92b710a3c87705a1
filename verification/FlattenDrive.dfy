/** The flatten drive: one pass of cancel, confirm, liquidate, and the controller's ticks until flat. */
module FlattenDrive {
  import opened Domain

  // ── Broker truth ─────────────────────────────────────────────────

  /** An open broker order; `liquidation` says whether its client id carries the flatten prefix. */
  datatype OpenOrder = OpenOrder(brokerId: BrokerId, symbol: Symbol, liquidation: bool, qty: real)

  datatype Holding = Holding(symbol: Symbol, qty: real)

  datatype Account = Account(holdings: seq<Holding>, orders: seq<OpenOrder>, pendingSubmit: nat)

  function Working(orders: seq<OpenOrder>): nat {
    if orders == [] then 0
    else Working(orders[..|orders| - 1]) + if orders[|orders| - 1].liquidation then 0 else 1
  }

  /** The last open liquidation on a symbol. */
  function Covering(orders: seq<OpenOrder>, symbol: Symbol): (r: Option<OpenOrder>)
    ensures r.Some? ==> r.value in orders && r.value.liquidation && r.value.symbol == symbol
    ensures r.None? ==> forall i :: 0 <= i < |orders| && orders[i].symbol == symbol ==> !orders[i].liquidation
  {
    if orders == [] then None
    else if orders[|orders| - 1].liquidation && orders[|orders| - 1].symbol == symbol then Some(orders[|orders| - 1])
    else Covering(orders[..|orders| - 1], symbol)
  }

  predicate IsCovered(orders: seq<OpenOrder>, symbol: Symbol) {
    Covering(orders, symbol).Some?
  }

  predicate AnyPosition(holdings: seq<Holding>) {
    exists i :: 0 <= i < |holdings| && holdings[i].qty != 0.0
  }

  predicate Exposed(a: Account) {
    AnyPosition(a.holdings) || Working(a.orders) > 0 || a.pendingSubmit > 0
  }

  /** Every open position already has a working liquidation, and nothing else is working. */
  predicate FullyCovered(a: Account) {
    && AnyPosition(a.holdings) && Working(a.orders) == 0 && a.pendingSubmit == 0
    && forall i :: 0 <= i < |a.holdings| && a.holdings[i].qty != 0.0 ==> IsCovered(a.orders, a.holdings[i].symbol)
  }

  /** Whether a controller tick publishes a flatten: every drive decides by this. */
  predicate Fires(a: Account) {
    Exposed(a) && !FullyCovered(a)
  }

  lemma {:induction false} WorkingCounts(orders: seq<OpenOrder>)
    ensures Working(orders) > 0 <==> exists i :: 0 <= i < |orders| && !orders[i].liquidation
  {
    if orders != [] {
      var n := |orders| - 1;
      WorkingCounts(orders[..n]);
      if i :| 0 <= i < |orders| && !orders[i].liquidation {
        assert i < n ==> !orders[..n][i].liquidation;
      }
    }
  }

  lemma CoveredByAnOrder(orders: seq<OpenOrder>, symbol: Symbol)
    ensures IsCovered(orders, symbol) <==> exists i :: 0 <= i < |orders| && orders[i].liquidation && orders[i].symbol == symbol
  {
  }

  /** An account is exposed by a position of either sign, a working order or a pending row; and a drive publishes
      exactly when something is pending or working, or some open position has no liquidation out for it. */
  lemma WhatADriveFiresOn(a: Account)
    ensures Exposed(a) <==>
              || (exists i :: 0 <= i < |a.holdings| && a.holdings[i].qty != 0.0)
              || (exists i :: 0 <= i < |a.orders| && !a.orders[i].liquidation)
              || a.pendingSubmit != 0
    ensures Fires(a) <==>
              || (exists i :: 0 <= i < |a.orders| && !a.orders[i].liquidation)
              || a.pendingSubmit != 0
              || (exists i :: 0 <= i < |a.holdings| && a.holdings[i].qty != 0.0
                    && forall j :: 0 <= j < |a.orders| && a.orders[j].symbol == a.holdings[i].symbol ==> !a.orders[j].liquidation)
    ensures FullyCovered(a) <==> Exposed(a) && !Fires(a)
  {
    WorkingCounts(a.orders);
    forall symbol ensures IsCovered(a.orders, symbol)
                          <==> exists i :: 0 <= i < |a.orders| && a.orders[i].liquidation && a.orders[i].symbol == symbol {
      CoveredByAnOrder(a.orders, symbol);
    }
    hide Working, IsCovered;
  }

  // ── One pass ─────────────────────────────────────────────────────

  datatype Call =
    | Cancel(brokerId: BrokerId)
    | GetOrder(brokerId: BrokerId)
    | Submit(flattenId: nat, symbol: Symbol, side: Side, qty: real)

  /** How the broker takes a submit; `Raised` is any exception on the way. */
  datatype Outcome = Submitted | Refused | Ambiguous | Raised | AlreadyCovered

  datatype SymbolOutcome = SymbolOutcome(symbol: Symbol, outcome: Outcome)

  /** What the broker answers during a pass: which cancels do not raise, which orders a confirmation round
      finds settled, and how each submit ends. */
  datatype World = World(cancelLands: BrokerId -> bool, settled: (nat, BrokerId) -> bool, submit: Symbol -> Outcome)

  function Cancels(orders: seq<OpenOrder>): seq<Call> {
    if orders == [] then []
    else
      var last := orders[|orders| - 1];
      Cancels(orders[..|orders| - 1]) + if last.liquidation then [] else [Cancel(last.brokerId)]
  }

  function LiquidationOf(flattenId: nat, h: Holding): Call {
    Submit(flattenId, h.symbol, if h.qty > 0.0 then Sell else Buy, Abs(h.qty))
  }

  predicate NeedsLiquidation(orders: seq<OpenOrder>, h: Holding) {
    h.qty != 0.0 && !IsCovered(orders, h.symbol)
  }

  /** The submits of a pass: `orders` is the listing it started from, `holdings` the fresh positions. */
  function Submits(flattenId: nat, orders: seq<OpenOrder>, holdings: seq<Holding>): seq<Call> {
    if holdings == [] then []
    else
      var last := holdings[|holdings| - 1];
      Submits(flattenId, orders, holdings[..|holdings| - 1])
      + if NeedsLiquidation(orders, last) then [LiquidationOf(flattenId, last)] else []
  }

  ghost predicate OnlyPolls(calls: seq<Call>) {
    forall i :: 0 <= i < |calls| ==> calls[i].GetOrder?
  }

  class Broker {
    var calls: seq<Call>

    constructor ()
      ensures calls == []
    {
      calls := [];
    }

    method Make(call: Call)
      modifies this
      ensures calls == old(calls) + [call]
    {
      calls := calls + [call];
    }
  }

  /** A working order whose cancel landed, so its settling has to be confirmed. */
  ghost predicate AwaitsCancel(orders: seq<OpenOrder>, b: BrokerId, world: World) {
    exists i :: 0 <= i < |orders| && !orders[i].liquidation && orders[i].brokerId == b && world.cancelLands(b)
  }

  lemma AwaitsLast(orders: seq<OpenOrder>, last: OpenOrder, b: BrokerId, world: World)
    ensures AwaitsCancel(orders + [last], b, world)
            <==> AwaitsCancel(orders, b, world) || (!last.liquidation && last.brokerId == b && world.cancelLands(b))
  {
    var all := orders + [last];
    if AwaitsCancel(orders, b, world) {
      var i :| 0 <= i < |orders| && !orders[i].liquidation && orders[i].brokerId == b && world.cancelLands(b);
      assert all[i] == orders[i];
    }
    assert all[|orders|] == last;
  }

  /** Step 1: every working order but the liquidations, one isolated cancel each. */
  method CancelWorking(broker: Broker, orders: seq<OpenOrder>, world: World) returns (pending: seq<BrokerId>)
    modifies broker
    ensures broker.calls == old(broker.calls) + Cancels(orders)
    ensures forall b :: b in pending <==> AwaitsCancel(orders, b, world)
  {
    pending := [];
    var i := 0;
    while i < |orders|
      invariant i <= |orders|
      invariant broker.calls == old(broker.calls) + Cancels(orders[..i])
      invariant forall b :: b in pending <==> AwaitsCancel(orders[..i], b, world)
    {
      assert orders[..i + 1][..i] == orders[..i];
      assert orders[..i + 1] == orders[..i] + [orders[i]];
      forall b ensures AwaitsCancel(orders[..i + 1], b, world)
                       <==> AwaitsCancel(orders[..i], b, world) || (!orders[i].liquidation && orders[i].brokerId == b && world.cancelLands(b)) {
        AwaitsLast(orders[..i], orders[i], b, world);
      }
      if !orders[i].liquidation {
        broker.Make(Cancel(orders[i].brokerId));
        if world.cancelLands(orders[i].brokerId) {
          pending := pending + [orders[i].brokerId];
        }
      }
      i := i + 1;
    }
    assert orders[..|orders|] == orders;
  }

  ghost predicate NeverSettled(world: World, b: BrokerId, rounds: nat) {
    forall r: nat :: r < rounds ==> !world.settled(r, b)
  }

  /** Step 2: poll until everything has settled or the rounds run out; a poll that raises settles nothing. */
  method ConfirmCancels(broker: Broker, cancelled: seq<BrokerId>, rounds: nat, world: World)
    returns (unsettled: seq<BrokerId>, ghost polls: seq<Call>)
    modifies broker
    ensures broker.calls == old(broker.calls) + polls && OnlyPolls(polls)
    ensures forall b :: b in unsettled <==> b in cancelled && NeverSettled(world, b, rounds)
  {
    unsettled, polls := cancelled, [];
    var round := 0;
    while round < rounds && unsettled != []
      invariant round <= rounds
      invariant broker.calls == old(broker.calls) + polls && OnlyPolls(polls)
      invariant forall b :: b in unsettled <==> b in cancelled && NeverSettled(world, b, round)
    {
      var left, k := [], 0;
      while k < |unsettled|
        invariant k <= |unsettled|
        invariant broker.calls == old(broker.calls) + polls && OnlyPolls(polls)
        invariant forall b :: b in left <==> b in unsettled[..k] && !world.settled(round, b)
      {
        broker.Make(GetOrder(unsettled[k]));
        polls := polls + [GetOrder(unsettled[k])];
        if !world.settled(round, unsettled[k]) {
          left := left + [unsettled[k]];
        }
        k := k + 1;
      }
      assert unsettled[..|unsettled|] == unsettled;
      assert forall b :: NeverSettled(world, b, round + 1) <==> NeverSettled(world, b, round) && !world.settled(round, b);
      unsettled := left;
      round := round + 1;
    }
  }

  /** Step 3: one isolated liquidation for each open, uncovered position. */
  method Liquidate(broker: Broker, flattenId: nat, orders: seq<OpenOrder>, holdings: seq<Holding>, world: World)
    returns (outcomes: seq<SymbolOutcome>)
    modifies broker
    ensures broker.calls == old(broker.calls) + Submits(flattenId, orders, holdings)
    ensures forall i :: 0 <= i < |holdings| && NeedsLiquidation(orders, holdings[i]) ==>
              SymbolOutcome(holdings[i].symbol, world.submit(holdings[i].symbol)) in outcomes
  {
    outcomes := [];
    var i := 0;
    while i < |holdings|
      invariant i <= |holdings|
      invariant broker.calls == old(broker.calls) + Submits(flattenId, orders, holdings[..i])
      invariant forall k :: 0 <= k < i && NeedsLiquidation(orders, holdings[k]) ==>
                  SymbolOutcome(holdings[k].symbol, world.submit(holdings[k].symbol)) in outcomes
    {
      var position := holdings[i];
      assert holdings[..i + 1][..i] == holdings[..i];
      if position.qty != 0.0 {
        if IsCovered(orders, position.symbol) {
          outcomes := outcomes + [SymbolOutcome(position.symbol, AlreadyCovered)];
        } else {
          broker.Make(LiquidationOf(flattenId, position));
          outcomes := outcomes + [SymbolOutcome(position.symbol, world.submit(position.symbol))];
        }
      }
      i := i + 1;
    }
    assert holdings[..|holdings|] == holdings;
  }

  /** `_execute_flatten`: whatever a cancel, a poll or a submit raises, the pass makes all its cancels and all
      its submits. The two listings are not isolated: without the orders it does nothing, and without the
      positions it ends behind the cancels. */
  method ExecuteFlatten(broker: Broker, flattenId: nat, orders: Option<seq<OpenOrder>>, holdings: Option<seq<Holding>>,
                        rounds: nat, world: World)
    returns (outcomes: Option<seq<SymbolOutcome>>, ghost polls: seq<Call>)
    modifies broker
    ensures OnlyPolls(polls) && (outcomes.Some? <==> orders.Some? && holdings.Some?)
    ensures orders.None? ==> broker.calls == old(broker.calls) && polls == []
    ensures orders.Some? ==>
              broker.calls == old(broker.calls) + Cancels(orders.value) + polls
                              + if holdings.Some? then Submits(flattenId, orders.value, holdings.value) else []
    ensures orders.Some? && holdings.Some? ==>
              forall i :: 0 <= i < |holdings.value| && NeedsLiquidation(orders.value, holdings.value[i]) ==>
                SymbolOutcome(holdings.value[i].symbol, world.submit(holdings.value[i].symbol)) in outcomes.value
  {
    outcomes, polls := None, [];
    if orders.None? {
      return;
    }
    var pending := CancelWorking(broker, orders.value, world);
    var _, made := ConfirmCancels(broker, pending, rounds, world);
    polls := made;
    if holdings.None? {
      return;
    }
    var all := Liquidate(broker, flattenId, orders.value, holdings.value, world);
    outcomes := Some(all);
  }

  // ── What a pass does and never does ──────────────────────────────

  ghost predicate WorksAs(orders: seq<OpenOrder>, call: Call) {
    exists i :: 0 <= i < |orders| && !orders[i].liquidation && call == Cancel(orders[i].brokerId)
  }

  lemma WorksAsLast(orders: seq<OpenOrder>, last: OpenOrder, call: Call)
    ensures WorksAs(orders + [last], call) <==> WorksAs(orders, call) || (!last.liquidation && call == Cancel(last.brokerId))
  {
    var all := orders + [last];
    if WorksAs(orders, call) {
      var i :| 0 <= i < |orders| && !orders[i].liquidation && call == Cancel(orders[i].brokerId);
      assert !all[i].liquidation && call == Cancel(all[i].brokerId);
    }
    assert all[|orders|] == last;
  }

  /** No pass cancels a liquidation, and it cancels every other open order. */
  lemma {:induction false} CancelsSpareLiquidations(orders: seq<OpenOrder>, call: Call)
    ensures call in Cancels(orders) <==> WorksAs(orders, call)
    ensures |Cancels(orders)| == Working(orders)
  {
    hide WorksAs;
    if orders != [] {
      var n := |orders| - 1;
      CancelsSpareLiquidations(orders[..n], call);
      WorksAsLast(orders[..n], orders[n], call);
      assert orders == orders[..n] + [orders[n]];
    } else {
      assert !WorksAs([], call) by { NothingWorks(call); }
    }
  }

  lemma NothingWorks(call: Call)
    ensures !WorksAs([], call)
  {
  }

  ghost predicate OneRowEach(holdings: seq<Holding>) {
    forall i, j :: 0 <= i < j < |holdings| ==> holdings[i].symbol != holdings[j].symbol
  }

  /** A pass submits exactly for the open and uncovered positions, the whole quantity, to reduce. */
  lemma {:induction false} SubmitsCloseWhatIsOpen(flattenId: nat, orders: seq<OpenOrder>, holdings: seq<Holding>, call: Call)
    ensures call in Submits(flattenId, orders, holdings) <==>
            exists i :: 0 <= i < |holdings| && NeedsLiquidation(orders, holdings[i]) && call == LiquidationOf(flattenId, holdings[i])
  {
    hide IsCovered;
    if holdings != [] {
      var n := |holdings| - 1;
      SubmitsCloseWhatIsOpen(flattenId, orders, holdings[..n], call);
      if exists i :: 0 <= i < n && NeedsLiquidation(orders, holdings[..n][i]) && call == LiquidationOf(flattenId, holdings[..n][i]) {
        var i :| 0 <= i < n && NeedsLiquidation(orders, holdings[..n][i]) && call == LiquidationOf(flattenId, holdings[..n][i]);
        assert NeedsLiquidation(orders, holdings[i]) && call == LiquidationOf(flattenId, holdings[i]);
      }
      if exists i :: 0 <= i < |holdings| && NeedsLiquidation(orders, holdings[i]) && call == LiquidationOf(flattenId, holdings[i]) {
        var i :| 0 <= i < |holdings| && NeedsLiquidation(orders, holdings[i]) && call == LiquidationOf(flattenId, holdings[i]);
        if i < n {
          assert NeedsLiquidation(orders, holdings[..n][i]) && call == LiquidationOf(flattenId, holdings[..n][i]);
        }
      }
    }
  }

  /** Never twice for a symbol, nor for a flat or covered one, nor to add to a position. */
  lemma {:induction false} SubmitsAreSafe(flattenId: nat, orders: seq<OpenOrder>, holdings: seq<Holding>, j: nat, k: nat)
    requires OneRowEach(holdings) && j < |Submits(flattenId, orders, holdings)| && k < |Submits(flattenId, orders, holdings)|
    ensures var submits := Submits(flattenId, orders, holdings);
            && submits[j].Submit? && submits[k].Submit?
            && (j != k ==> submits[j].symbol != submits[k].symbol)
            && !IsCovered(orders, submits[j].symbol)
            && exists i :: 0 <= i < |holdings| && holdings[i].symbol == submits[j].symbol && holdings[i].qty != 0.0
                           && Signed(submits[j].side, submits[j].qty) == -holdings[i].qty
  {
    hide IsCovered;
    var submits, n := Submits(flattenId, orders, holdings), |holdings| - 1;
    var earlier := Submits(flattenId, orders, holdings[..n]);
    if j < |earlier| {
      SubmitsAreSafe(flattenId, orders, holdings[..n], j, if k < |earlier| then k else j);
      assert submits[j] == earlier[j];
      var i :| 0 <= i < n && holdings[..n][i].symbol == submits[j].symbol && holdings[..n][i].qty != 0.0
               && Signed(submits[j].side, submits[j].qty) == -holdings[..n][i].qty;
      assert holdings[i].symbol == submits[j].symbol;
    } else {
      assert submits[j] == LiquidationOf(flattenId, holdings[n]);
      assert holdings[n].symbol == submits[j].symbol;
      if k < |earlier| {
        SubmitsAreSafe(flattenId, orders, holdings[..n], k, k);
        assert submits[k] == earlier[k];
      }
    }
  }

  // ── From tick to tick ────────────────────────────────────────────

  /** What a liquidation of `qty` leaves of a position: it may only reduce. */
  function Left(position: real, qty: real): real {
    if position > 0.0 then Max(0.0, position - qty)
    else if position < 0.0 then Min(0.0, position + qty)
    else 0.0
  }

  /** A protective leg that filled before its cancel only shrank the position. */
  ghost predicate Shrunk(was: real, now: real) {
    (was >= 0.0 && 0.0 <= now <= was) || (was <= 0.0 && was <= now <= 0.0)
  }

  /** The quantity a pass's calls submit for a symbol. */
  ghost function QtySubmitted(calls: seq<Call>, symbol: Symbol): Option<real> {
    if calls == [] then None
    else
      var last := calls[|calls| - 1];
      if last.Submit? && last.symbol == symbol then Some(last.qty) else QtySubmitted(calls[..|calls| - 1], symbol)
  }

  /** The liquidation working on a holding once the tick's pass, if any, is done: one that was there, or the
      one the pass submitted and the broker accepted. */
  ghost function InFlight(a: Account, h: Holding, accepts: Symbol -> bool): Option<real> {
    if IsCovered(a.orders, h.symbol) then Some(Covering(a.orders, h.symbol).value.qty)
    else if Fires(a) && accepts(h.symbol) then QtySubmitted(Submits(0, a.orders, a.holdings), h.symbol)
    else None
  }

  /** What a pass submits for an open, uncovered position is the whole of it, and it submits for no other. */
  lemma {:induction false} SubmitsWholePositions(flattenId: nat, orders: seq<OpenOrder>, holdings: seq<Holding>, i: nat)
    requires OneRowEach(holdings) && i < |holdings|
    ensures QtySubmitted(Submits(flattenId, orders, holdings), holdings[i].symbol) ==
            if NeedsLiquidation(orders, holdings[i]) then Some(Abs(holdings[i].qty)) else None
  {
    hide IsCovered;
    var n := |holdings| - 1;
    var earlier, all := Submits(flattenId, orders, holdings[..n]), Submits(flattenId, orders, holdings);
    if i < n {
      SubmitsWholePositions(flattenId, orders, holdings[..n], i);
    } else {
      NoneSubmitted(flattenId, orders, holdings[..n], holdings[n].symbol);
    }
    if NeedsLiquidation(orders, holdings[n]) {
      assert all[..|all| - 1] == earlier;
    } else {
      assert all == earlier;
    }
  }

  lemma {:induction false} NoneSubmitted(flattenId: nat, orders: seq<OpenOrder>, holdings: seq<Holding>, symbol: Symbol)
    requires forall k :: 0 <= k < |holdings| ==> holdings[k].symbol != symbol
    ensures QtySubmitted(Submits(flattenId, orders, holdings), symbol) == None
  {
    hide IsCovered;
    if holdings != [] {
      var n := |holdings| - 1;
      var earlier, all := Submits(flattenId, orders, holdings[..n]), Submits(flattenId, orders, holdings);
      NoneSubmitted(flattenId, orders, holdings[..n], symbol);
      if NeedsLiquidation(orders, holdings[n]) {
        assert all[..|all| - 1] == earlier;
      } else {
        assert all == earlier;
      }
    }
  }

  ghost function StillCovers(orders: seq<OpenOrder>, symbol: Symbol): Option<real> {
    if IsCovered(orders, symbol) then Some(Covering(orders, symbol).value.qty) else None
  }

  /** One holding between two ticks: its liquidation fills, whole, or keeps working. */
  ghost predicate LineMoves(a: Account, next: Account, i: nat, accepts: Symbol -> bool)
    requires i < |a.holdings| == |next.holdings|
  {
    var was, now := a.holdings[i], next.holdings[i];
    var flight, still := InFlight(a, was, accepts), StillCovers(next.orders, was.symbol);
    && now.symbol == was.symbol
    && (Working(a.orders) > 0 || flight.None? || flight == still ==> Shrunk(was.qty, now.qty))
    && (Working(a.orders) == 0 ==>
          if still.Some? then still == flight && now.qty == was.qty
          else now.qty == if flight.Some? then Left(was.qty, flight.value) else was.qty)
  }

  /** The market between two ticks, with no new exposure: cancels settle; while orders hold shares a submit
      may be refused; after that it is accepted, and some liquidation of an open position fills. */
  ghost predicate Between(a: Account, next: Account, accepts: Symbol -> bool) {
    && |a.holdings| == |next.holdings| && OneRowEach(a.holdings)
    && next.pendingSubmit == 0
    && Working(next.orders) == 0
    && (forall i :: 0 <= i < |a.holdings| ==> LineMoves(a, next, i, accepts))
    && (Working(a.orders) == 0 ==> forall symbol :: accepts(symbol))
    && (Working(a.orders) == 0 && AnyPosition(a.holdings) ==>
          exists i :: 0 <= i < |a.holdings| && a.holdings[i].qty != 0.0 && !IsCovered(next.orders, a.holdings[i].symbol))
  }

  /** How far a holding is from flat: covered in full, uncovered, or covered short. */
  ghost function Rank(h: Holding, orders: seq<OpenOrder>): nat {
    if h.qty == 0.0 then 0
    else if !IsCovered(orders, h.symbol) then 2
    else if Covering(orders, h.symbol).value.qty >= Abs(h.qty) then 1
    else 3
  }

  ghost function Ranks(holdings: seq<Holding>, orders: seq<OpenOrder>): nat {
    if holdings == [] then 0
    else Ranks(holdings[..|holdings| - 1], orders) + Rank(holdings[|holdings| - 1], orders)
  }

  lemma {:induction false} RanksAreFew(holdings: seq<Holding>, orders: seq<OpenOrder>)
    ensures Ranks(holdings, orders) <= 3 * |holdings|
  {
    if holdings != [] {
      RanksAreFew(holdings[..|holdings| - 1], orders);
    }
  }

  lemma {:induction false} RanksCompare(was: seq<Holding>, before: seq<OpenOrder>, now: seq<Holding>, after: seq<OpenOrder>, k: nat)
    requires |was| == |now|
    requires forall i :: 0 <= i < |was| ==> Rank(now[i], after) <= Rank(was[i], before)
    requires k < |was| ==> Rank(now[k], after) < Rank(was[k], before)
    ensures Ranks(now, after) <= Ranks(was, before)
    ensures k < |was| ==> Ranks(now, after) < Ranks(was, before)
  {
    if was != [] {
      RanksCompare(was[..|was| - 1], before, now[..|now| - 1], after, k);
    }
  }

  /** A liquidation that exactly covers leaves nothing; one that falls short leaves an uncovered rest. */
  lemma LineRankFalls(a: Account, next: Account, i: nat, accepts: Symbol -> bool)
    requires i < |a.holdings| == |next.holdings| && LineMoves(a, next, i, accepts)
    requires Working(a.orders) == 0 && Exposed(a) && a.pendingSubmit == 0 && accepts(a.holdings[i].symbol)
    requires OneRowEach(a.holdings)
    ensures Rank(next.holdings[i], next.orders) <= Rank(a.holdings[i], a.orders)
    ensures a.holdings[i].qty != 0.0 && !IsCovered(next.orders, a.holdings[i].symbol) ==>
              Rank(next.holdings[i], next.orders) < Rank(a.holdings[i], a.orders)
  {
    hide IsCovered, Covering, Submits, QtySubmitted;
    var was := a.holdings[i];
    SubmitsWholePositions(0, a.orders, a.holdings, i);
    if was.qty != 0.0 && !IsCovered(a.orders, was.symbol) {
      assert !FullyCovered(a);
      assert InFlight(a, was, accepts) == Some(Abs(was.qty));
    }
  }

  /** One tick of any drive lowers the measure: first the working orders go, then some position moves
      closer to flat and none moves away. */
  lemma TickLowersTheMeasure(a: Account, next: Account, accepts: Symbol -> bool)
    requires Exposed(a) && a.pendingSubmit == 0 && Between(a, next, accepts)
    ensures Working(next.orders) == 0
    ensures Working(a.orders) == 0 ==> Ranks(next.holdings, next.orders) < Ranks(a.holdings, a.orders)
  {
    hide LineMoves, IsCovered, Rank;
    if Working(a.orders) == 0 {
      forall i | 0 <= i < |a.holdings| ensures Rank(next.holdings[i], next.orders) <= Rank(a.holdings[i], a.orders) {
        LineRankFalls(a, next, i, accepts);
      }
      var k :| 0 <= k < |a.holdings| && a.holdings[k].qty != 0.0 && !IsCovered(next.orders, a.holdings[k].symbol);
      LineRankFalls(a, next, k, accepts);
      RanksCompare(a.holdings, a.orders, next.holdings, next.orders, k);
    }
  }

  /** A run of ticks: `run[k]` is what tick `k` finds. */
  ghost predicate IsDriven(run: seq<Account>, accepts: nat -> Symbol -> bool) {
    && (forall k :: 0 <= k < |run| ==> run[k].pendingSubmit == 0)
    && (forall k :: 0 <= k < |run| - 1 && Exposed(run[k]) ==> Between(run[k], run[k + 1], accepts(k)))
  }

  lemma {:induction false} RanksRunOut(run: seq<Account>, accepts: nat -> Symbol -> bool, k: nat)
    requires IsDriven(run, accepts) && 0 < k < |run|
    requires forall j :: 0 <= j < k ==> Exposed(run[j])
    ensures Working(run[k].orders) == 0 && |run[k].holdings| == |run[0].holdings|
    ensures Ranks(run[k].holdings, run[k].orders) <= 3 * |run[0].holdings| - (k - 1)
  {
    hide LineMoves, Ranks, Exposed;
    var last := run[k - 1];
    assert Exposed(last) && Between(last, run[k], accepts(k - 1));
    TickLowersTheMeasure(last, run[k], accepts(k - 1));
    if k == 1 {
      RanksAreFew(run[1].holdings, run[1].orders);
    } else {
      RanksRunOut(run, accepts, k - 1);
    }
  }

  /** From any exposure, under-sized liquidations included, the drive is not exposed after at most three
      ticks per position and one for the working orders. */
  lemma DriveReachesFlat(run: seq<Account>, accepts: nat -> Symbol -> bool) returns (k: nat)
    requires |run| > 0 && IsDriven(run, accepts) && |run| > 3 * |run[0].holdings| + 2
    ensures k <= 3 * |run[0].holdings| + 2 && !Exposed(run[k])
  {
    var bound := 3 * |run[0].holdings| + 2;
    if forall j :: 0 <= j < bound ==> Exposed(run[j]) {
      RanksRunOut(run, accepts, bound);
      assert false;
    }
    k :| 0 <= k < bound && !Exposed(run[k]);
  }

  // ── When every liquidation fills before the next tick ────────────

  ghost predicate AllFill(a: Account, next: Account, accepts: Symbol -> bool) {
    Between(a, next, accepts) && forall i :: 0 <= i < |a.holdings| ==> !IsCovered(next.orders, a.holdings[i].symbol)
  }

  /** Then two ticks are enough: the first cancels and uses up what was working, the second closes the rest. */
  lemma TwoDrivesAreEnough(first: Account, second: Account, third: Account, one: Symbol -> bool, two: Symbol -> bool)
    requires first.pendingSubmit == 0 && Exposed(first) && AllFill(first, second, one)
    requires Exposed(second) ==> AllFill(second, third, two)
    ensures !Exposed(second) || !Exposed(third)
  {
    hide Covering, Working, IsCovered;
    if Exposed(second) {
      forall i | 0 <= i < |third.holdings| ensures third.holdings[i].qty == 0.0 {
        assert LineMoves(first, second, i, one) && LineMoves(second, third, i, two);
        assert !IsCovered(second.orders, second.holdings[i].symbol) && !IsCovered(third.orders, second.holdings[i].symbol);
        SubmitsWholePositions(0, second.orders, second.holdings, i);
        if second.holdings[i].qty != 0.0 {
          assert !FullyCovered(second);
          assert InFlight(second, second.holdings[i], two) == Some(Abs(second.holdings[i].qty));
        }
      }
    }
  }
}
