/** The trading tables of one portfolio, and the session that holds them during a transaction. */
module Tables {
  import opened Domain

  datatype Status =
    | PendingSubmit | Failed
    | Submitted | Accepted | PartiallyFilled | Filled | Canceled | Expired | Rejected | Replaced
    | PendingCancel | PendingReplace | Stopped | Suspended | Calculated | DoneForDay | Held
    | Unrecognized  // a stored string that names no status

  datatype Order = Order(
    clientId: ClientId,
    brokerId: Option<BrokerId>,
    strategy: Option<StrategyId>,
    symbol: Symbol,
    side: Side,
    bracket: bool,
    parent: Option<nat>,
    status: Status,
    qty: real,
    filledQty: real,
    filledAvg: Option<real>,
    filledAt: Option<Time>,
    createdAt: Time)

  datatype Tag = Gap | Recon

  /** The unique `broker_fill_id`. Cumulatives are normalized before formatting, so equal numbers
      give equal ids; the broker's execution ids are taken never to imitate the local formats. */
  datatype FillKey =
    | Execution(id: ExecutionId)
    | NoExecution(order: nat, cumulative: real)
    | Synthetic(tag: Tag, order: nat, cumulative: real)

  /** What the database assigns to a new row: its transaction time and its random primary key. */
  datatype Stamp = Stamp(createdAt: Time, uuid: int)

  datatype Fill = Fill(order: nat, key: FillKey, qty: real, price: real, at: Time)

  datatype Lot = Lot(
    strategy: Option<StrategyId>,
    symbol: Symbol,
    side: Side,
    qtyOrig: real,
    qtyOpen: real,
    entryPrice: real,
    entryFill: Option<nat>,
    openedAt: Time,
    stamp: Stamp,
    closedAt: Option<Time>,
    realizedPnl: real)

  datatype LotClose = LotClose(
    lot: nat,
    order: Option<nat>,
    fill: Option<nat>,
    strategy: Option<StrategyId>,
    symbol: Symbol,
    qty: real,
    realizedPnl: real,
    closedAt: Time)

  datatype Position = Position(qty: real, avgEntry: real)

  /** Liquidation quantity that matched no open lot. */
  datatype Remainder = Remainder(
    symbol: Symbol,
    side: Side,
    qty: real,
    price: real,
    at: Time,
    order: Option<nat>,
    fill: Option<nat>)

  /** The event-log rows that are read back. */
  datatype Event =
    | Parked(what: Remainder, supersedes: Option<nat>)
    | Resolved(anomaly: nat, applied: real, realized: real, residual: real)
    | RetryFailed(anomaly: nat, qty: real, cycle: nat)
    | Alert(anomaly: nat, qty: real, cycles: nat)

  /** The broker's view of one order. */
  datatype BrokerOrder = BrokerOrder(
    brokerId: BrokerId,
    clientId: Option<ClientId>,
    symbol: Symbol,
    side: Side,
    bracket: bool,
    status: Status,
    qty: Option<real>,
    filledQty: real,
    filledAvg: Option<real>,
    filledAt: Option<Time>,
    legs: seq<BrokerOrder>)

  /** A trade-updates event: the order at that moment and, for a fill, the execution. */
  datatype TradeUpdate = TradeUpdate(
    order: BrokerOrder,
    executionId: Option<ExecutionId>,
    price: Option<real>,
    qty: Option<real>,
    at: Time)

  /** The tables as one value. A row's primary key is its index. */
  datatype Db = Db(
    orders: seq<Order>,
    fills: seq<Fill>,
    lots: seq<Lot>,
    closes: seq<LotClose>,
    positions: map<Symbol, Position>,
    events: seq<Event>)

  /** The rows one transaction sees and writes; row locks make each transaction atomic. */
  class Session {
    var orders: seq<Order>
    var fills: seq<Fill>
    var lots: seq<Lot>
    var closes: seq<LotClose>
    var positions: map<Symbol, Position>
    var events: seq<Event>

    ghost function Rows(): Db
      reads this
    {
      Db(orders, fills, lots, closes, positions, events)
    }

    constructor ()
      ensures Rows() == Db([], [], [], [], map[], [])
    {
      orders, fills, lots, closes, positions, events := [], [], [], [], map[], [];
    }
  }
}
