/** The net position per symbol, kept live between broker snapshots. */
module Positions {
  import opened Domain
  import opened Tables

  /** Average of two held quantities, weighted by their sizes. */
  function Weighted(avg: real, held: real, price: real, added: real): real
    requires Abs(held) + Abs(added) != 0.0
  {
    (avg * Abs(held) + price * Abs(added)) / (Abs(held) + Abs(added))
  }

  function AverageAfter(was: Position, delta: real, price: real): real {
    var now := was.qty + delta;
    if (was.qty > 0.0 && delta > 0.0) || (was.qty < 0.0 && delta < 0.0) then Weighted(was.avgEntry, was.qty, price, delta)
    else if (was.qty > 0.0 > now) || (was.qty < 0.0 < now) then price
    else was.avgEntry
  }

  function ApplyToPosition(positions: map<Symbol, Position>, symbol: Symbol, side: Side, qty: real, price: real): map<Symbol, Position> {
    var delta := Signed(side, qty);
    if symbol !in positions then positions[symbol := Position(delta, price)]
    else if positions[symbol].qty + delta == 0.0 then positions - {symbol}
    else positions[symbol := Position(positions[symbol].qty + delta, AverageAfter(positions[symbol], delta, price))]
  }

  /** `apply_fill_to_position`: insert, update or delete the symbol's row. */
  method ApplyFillToPosition(session: Session, symbol: Symbol, side: Side, qty: real, price: real)
    modifies session`positions
    ensures session.positions == ApplyToPosition(old(session.positions), symbol, side, qty, price)
  {
    var delta := if side.Buy? then qty else -qty;
    if symbol !in session.positions {
      session.positions := session.positions[symbol := Position(delta, price)];
      return;
    }
    var position := session.positions[symbol];
    var newQty := position.qty + delta;
    if newQty == 0.0 {
      session.positions := session.positions - {symbol};
      return;
    }
    var avgEntry := position.avgEntry;
    if (position.qty > 0.0 && delta > 0.0) || (position.qty < 0.0 && delta < 0.0) {
      avgEntry := Weighted(avgEntry, position.qty, price, delta);
    } else if (position.qty > 0.0 > newQty) || (position.qty < 0.0 < newQty) {
      avgEntry := price;
    }
    session.positions := session.positions[symbol := Position(newQty, avgEntry)];
  }

  /** The net quantity a symbol's row stands for; no row means flat. */
  function Net(positions: map<Symbol, Position>, symbol: Symbol): real {
    if symbol in positions then positions[symbol].qty else 0.0
  }

  /** A row exists exactly when the net is not zero. */
  ghost predicate NoFlatRows(positions: map<Symbol, Position>) {
    forall symbol :: symbol in positions ==> positions[symbol].qty != 0.0
  }

  /** A fill moves its symbol's net by its signed quantity, from flat at the fill's own price; it touches no
      other row and leaves no flat one. */
  lemma PositionFollowsFill(positions: map<Symbol, Position>, symbol: Symbol, side: Side, qty: real, price: real, other: Symbol)
    requires NoFlatRows(positions) && qty > 0.0
    ensures var after := ApplyToPosition(positions, symbol, side, qty, price);
            && NoFlatRows(after)
            && Net(after, other) == Net(positions, other) + (if other == symbol then Signed(side, qty) else 0.0)
            && (other != symbol ==> (other in after <==> other in positions) && (other in after ==> after[other] == positions[other]))
            && (symbol !in positions ==> symbol in after && after[symbol].avgEntry == price)
  {
  }

  /** Growing a position adds the fill's cost to the row's; shrinking it keeps the average; turning it
      over leaves the residual at the fill's own price. */
  lemma AverageKeepsCost(positions: map<Symbol, Position>, symbol: Symbol, side: Side, qty: real, price: real)
    requires NoFlatRows(positions) && qty > 0.0 && symbol in positions
    requires positions[symbol].qty + Signed(side, qty) != 0.0
    ensures var was, now := positions[symbol], ApplyToPosition(positions, symbol, side, qty, price)[symbol];
            var delta := Signed(side, qty);
            && (was.qty * delta > 0.0 ==> now.qty * now.avgEntry == was.qty * was.avgEntry + delta * price)
            && (was.qty * delta < 0.0 && was.qty * now.qty > 0.0 ==> now.avgEntry == was.avgEntry)
            && (was.qty * now.qty < 0.0 ==> now.avgEntry == price)
  {
    var was, delta := positions[symbol], Signed(side, qty);
    var now := ApplyToPosition(positions, symbol, side, qty, price)[symbol];
    if was.qty * delta > 0.0 {
      var total := Abs(was.qty) + Abs(delta);
      var cost := was.avgEntry * Abs(was.qty) + price * Abs(delta);
      assert total * now.avgEntry == cost;
      assert was.qty > 0.0 <==> delta > 0.0;
      if was.qty > 0.0 {
        assert now.qty * now.avgEntry == cost;
      } else {
        assert now.qty * now.avgEntry == -cost;
      }
    }
  }
}
