/** Values shared by every part of the model: sides, instants, exact sums. */
module Domain {

  datatype Option<+T> = None | Some(value: T) {
    function GetOr(default: T): T {
      if Some? then value else default
    }
  }

  /** Names are compared and never looked into, so numbers stand for them. */
  type Symbol = nat
  type StrategyId = nat
  type ClientId = nat
  type BrokerId = nat
  type ExecutionId = nat

  /** An instant on the exchange's time line; only the order of instants matters. */
  type Time = int

  datatype Side = Buy | Sell

  function Opposite(side: Side): Side {
    if side.Buy? then Sell else Buy
  }

  /** Buys count up, sells count down. */
  function Signed(side: Side, amount: real): real {
    if side.Buy? then amount else -amount
  }

  function Value(qty: real, price: real): real {
    qty * price
  }

  function Min(a: real, b: real): real {
    if a <= b then a else b
  }

  function Max(a: real, b: real): real {
    if a <= b then b else a
  }

  function Clamp(x: real, low: real, high: real): real {
    Max(low, Min(x, high))
  }

  function Abs(x: real): real {
    if x < 0.0 then -x else x
  }
}

/** Exact sums of a weight over the rows of a table. */
module Sums {

  function Sum<T>(rows: seq<T>, weight: T -> real): real {
    if rows == [] then 0.0
    else Sum(rows[..|rows| - 1], weight) + weight(rows[|rows| - 1])
  }

  lemma SumAppend<T>(rows: seq<T>, row: T, weight: T -> real)
    ensures Sum(rows + [row], weight) == Sum(rows, weight) + weight(row)
  {
    assert (rows + [row])[..|rows|] == rows;
  }

  lemma {:induction false} SumUpdate<T>(rows: seq<T>, i: nat, row: T, weight: T -> real)
    requires i < |rows|
    ensures Sum(rows[i := row], weight) == Sum(rows, weight) - weight(rows[i]) + weight(row)
  {
    var last := |rows| - 1;
    if i == last {
      assert rows[i := row][..last] == rows[..last];
    } else {
      SumUpdate(rows[..last], i, row, weight);
      assert rows[i := row][..last] == rows[..last][i := row];
    }
  }

  lemma {:induction false} SumConcat<T>(a: seq<T>, b: seq<T>, weight: T -> real)
    ensures Sum(a + b, weight) == Sum(a, weight) + Sum(b, weight)
  {
    if b == [] {
      assert a + b == a;
    } else {
      var last := |b| - 1;
      SumConcat(a, b[..last], weight);
      assert (a + b)[..|a + b| - 1] == a + b[..last];
    }
  }

  lemma SumPrepend<T>(row: T, rows: seq<T>, weight: T -> real)
    ensures Sum([row] + rows, weight) == weight(row) + Sum(rows, weight)
  {
    SumConcat([row], rows, weight);
    SumAppend([], row, weight);
    assert [] + [row] == [row];
  }

  lemma {:induction false} SumIsZero<T>(rows: seq<T>, weight: T -> real)
    requires forall i :: 0 <= i < |rows| ==> weight(rows[i]) == 0.0
    ensures Sum(rows, weight) == 0.0
  {
    if rows != [] {
      SumIsZero(rows[..|rows| - 1], weight);
    }
  }

  lemma {:induction false} SumIsNonNegative<T>(rows: seq<T>, weight: T -> real)
    requires forall i :: 0 <= i < |rows| ==> weight(rows[i]) >= 0.0
    ensures Sum(rows, weight) >= 0.0
    ensures forall i :: 0 <= i < |rows| ==> weight(rows[i]) <= Sum(rows, weight)
  {
    if rows != [] {
      SumIsNonNegative(rows[..|rows| - 1], weight);
    }
  }

  lemma {:induction false} SumAgrees<T>(rows: seq<T>, one: T -> real, two: T -> real)
    requires forall i :: 0 <= i < |rows| ==> one(rows[i]) == two(rows[i])
    ensures Sum(rows, one) == Sum(rows, two)
  {
    if rows != [] {
      SumAgrees(rows[..|rows| - 1], one, two);
    }
  }
}
