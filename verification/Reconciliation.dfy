/** Reconciliation: diff the broker's orders and positions against the tables, and repair. */
module Reconciliation {
  import opened Domain
  import opened Tables
  import opened FillLedger
  import opened OrderRows
  import opened Positions
  import opened Remainders
  import opened TradeUpdates

  /** Everything one reconcile asks the broker. */
  datatype Broker = Broker(
    open: seq<BrokerOrder>,
    byId: map<BrokerId, BrokerOrder>,
    byClient: map<ClientId, BrokerOrder>,
    positions: seq<BrokerPosition>,
    marketValue: real)

  datatype BrokerPosition = BrokerPosition(symbol: Symbol, position: Position)

  /** The random key each future fill row's lot will get. */
  type Keys = nat -> Stamp

  // ── Adopting one snapshot ────────────────────────────────────────

  function WithRow(db: Db, o: nat, row: Order): Db
    requires o < |db.orders|
  {
    db.(orders := db.orders[o := row])
  }

  function Adopt(db: Db, o: nat, broker: BrokerOrder, now: Time, synthesize: bool, keys: Keys): (r: Db)
    requires o < |db.orders|
    ensures |r.orders| == |db.orders| && |r.fills| >= |db.fills|
  {
    var alive := WithRow(db, o, Resurrected(db.orders[o]));
    var fills :=
      if synthesize then CatchUp(Exact, db.fills, o, broker.filledQty, broker.filledAvg, broker.filledAt.GetOr(now), Recon)
      else [];
    var caught := InsertFills(alive, fills, o, keys(|db.fills|), false);
    WithRow(caught, o, WithSnapshot(caught.orders[o], broker))
  }

  function Visible(row: Order): (Status, real, Option<BrokerId>) {
    (row.status, row.filledQty, row.brokerId)
  }

  /** `_adopt`: broker truth onto a locked row, with the fills the ledger never saw. */
  method AdoptOrder(session: Session, o: nat, broker: BrokerOrder, now: Time, synthesize: bool, keys: Keys)
    returns (changed: bool, synthesized: nat)
    requires o < |session.orders|
    modifies session
    ensures session.Rows() == Adopt(old(session.Rows()), o, broker, now, synthesize, keys)
    ensures changed == (Visible(old(session.orders)[o]) != Visible(session.orders[o]))
    ensures var was, row := old(session.orders)[o], session.orders[o];
            !changed <==> row.status == was.status && row.filledQty == was.filledQty && row.brokerId == was.brokerId
    ensures synthesized == |session.fills| - |old(session.fills)|
  {
    hide InsertFill, CatchUp, SpanPrice;
    var before := Visible(session.orders[o]);
    if session.orders[o].status == Failed {
      session.orders := session.orders[o := session.orders[o].(status := PendingSubmit)];
    }
    assert session.orders == old(session.orders)[o := Resurrected(old(session.orders)[o])];
    synthesized := 0;
    InsertNone(session.Rows(), o, keys(|session.fills|), false);
    if synthesize {
      var fill := CatchUpLedger(session, o, broker.filledQty, broker.filledAvg, broker.filledAt.GetOr(now), Recon, keys(|session.fills|), false);
      if fill.Some? {
        synthesized := 1;
      }
    }
    var _ := ApplySnapshot(session, o, broker);
    changed := before != Visible(session.orders[o]);
  }

  // ── Step 1: the broker's open orders and their legs ──────────────

  datatype Listed = Listed(order: BrokerOrder, parent: Option<BrokerOrder>)

  function LegsOf(parent: BrokerOrder, legs: seq<BrokerOrder>): seq<Listed> {
    if legs == [] then [] else [Listed(legs[0], Some(parent))] + LegsOf(parent, legs[1..])
  }

  function Flat(open: seq<BrokerOrder>): seq<Listed> {
    if open == [] then [] else [Listed(open[0], None)] + LegsOf(open[0], open[0].legs) + Flat(open[1..])
  }

  /** The two dictionaries a reconcile looks rows up in. */
  datatype Index = Index(byBroker: map<BrokerId, nat>, byClient: map<ClientId, nat>)

  function Indexed(index: Index, o: nat, row: Order): Index {
    Index(if row.brokerId.Some? then index.byBroker[row.brokerId.value := o] else index.byBroker,
          index.byClient[row.clientId := o])
  }

  ghost predicate IndexInRange(index: Index, n: nat) {
    && (forall b :: b in index.byBroker ==> index.byBroker[b] < n)
    && (forall c :: c in index.byClient ==> index.byClient[c] < n)
  }

  function IndexOf(orders: seq<Order>): (r: Index)
    ensures IndexInRange(r, |orders|)
  {
    if orders == [] then Index(map[], map[])
    else Indexed(IndexOf(orders[..|orders| - 1]), |orders| - 1, orders[|orders| - 1])
  }

  function FindLocal(index: Index, bo: BrokerOrder): Option<nat> {
    if bo.brokerId in index.byBroker then Some(index.byBroker[bo.brokerId])
    else if bo.clientId.Some? && bo.clientId.value in index.byClient then Some(index.byClient[bo.clientId.value])
    else None
  }

  /** The snapshot carries one of the row's identifiers. */
  predicate Names(row: Order, bo: BrokerOrder) {
    row.brokerId == Some(bo.brokerId) || bo.clientId == Some(row.clientId)
  }

  /** The dictionaries point at rows that carry the keys. */
  ghost predicate IndexSound(index: Index, orders: seq<Order>) {
    && (forall c :: c in index.byClient ==> index.byClient[c] < |orders| && orders[index.byClient[c]].clientId == c)
    && (forall b :: b in index.byBroker ==> index.byBroker[b] < |orders| && orders[index.byBroker[b]].brokerId == Some(b))
  }

  lemma {:induction false} IndexIsSound(orders: seq<Order>)
    ensures IndexSound(IndexOf(orders), orders)
    ensures forall o :: 0 <= o < |orders| ==> orders[o].clientId in IndexOf(orders).byClient
    ensures forall o :: 0 <= o < |orders| && orders[o].brokerId.Some? ==> orders[o].brokerId.value in IndexOf(orders).byBroker
  {
    if orders != [] {
      IndexIsSound(orders[..|orders| - 1]);
    }
  }

  lemma FoundIsNamed(index: Index, orders: seq<Order>, bo: BrokerOrder)
    requires IndexSound(index, orders)
    ensures FindLocal(index, bo).Some? ==> FindLocal(index, bo).value < |orders| && Names(orders[FindLocal(index, bo).value], bo)
  {
  }

  /** A listed order finds the row with its broker id, failing that the row with its client id, and is an orphan only
      without either. */
  lemma ListingFinds(orders: seq<Order>, bo: BrokerOrder)
    ensures var r := FindLocal(IndexOf(orders), bo);
            && (r.Some? ==> r.value < |orders| && Names(orders[r.value], bo))
            && (forall o :: 0 <= o < |orders| && orders[o].brokerId == Some(bo.brokerId) ==>
                  r.Some? && orders[r.value].brokerId == Some(bo.brokerId))
            && (forall o :: 0 <= o < |orders| && bo.clientId == Some(orders[o].clientId) ==> r.Some?)
  {
    IndexIsSound(orders);
    hide IndexOf;
  }

  datatype Pass = Pass(db: Db, index: Index, matched: set<nat>, updated: nat, orphans: nat, synthesized: nat)

  /** A leg without a row but with a local parent gets its row; only this leg enters the index. */
  function WithLeg(p: Pass, entry: Listed, now: Time): (r: Pass)
    requires IndexInRange(p.index, |p.db.orders|)
    ensures |p.db.orders| <= |r.db.orders| && IndexInRange(r.index, |r.db.orders|)
  {
    if FindLocal(p.index, entry.order).Some? || entry.parent.None? then p
    else
      var parent := FindLocal(p.index, entry.parent.value);
      if parent.None? then p
      else
        var legs := NewLegs(p.db.orders, parent.value, entry.parent.value.legs, now);
        var db := p.db.(orders := p.db.orders + legs);
        if legs == [] then p.(db := db)
        else
          var local := FindBrokerId(db.orders, entry.order.brokerId);
          if local.None? then p.(db := db)
          else p.(db := db, index := Indexed(p.index, local.value, db.orders[local.value]))
  }

  function AdoptInto(p: Pass, o: nat, broker: BrokerOrder, now: Time, synthesize: bool, keys: Keys): (r: Pass)
    requires o < |p.db.orders|
    ensures |r.db.orders| == |p.db.orders| && r.index == p.index
  {
    var db := Adopt(p.db, o, broker, now, synthesize, keys);
    p.(db := db,
       updated := p.updated + if Visible(p.db.orders[o]) != Visible(db.orders[o]) then 1 else 0,
       synthesized := p.synthesized + (|db.fills| - |p.db.fills|))
  }

  function AdoptListed(p: Pass, entry: Listed, now: Time, synthesize: bool, keys: Keys): (r: Pass)
    requires IndexInRange(p.index, |p.db.orders|)
    ensures |p.db.orders| <= |r.db.orders| && IndexInRange(r.index, |r.db.orders|)
  {
    var q := WithLeg(p, entry, now);
    var local := FindLocal(q.index, entry.order);
    if local.None? then q.(orphans := q.orphans + 1)
    else AdoptInto(q.(matched := q.matched + {local.value}), local.value, entry.order, now, synthesize, keys)
  }

  function AdoptAllListed(p: Pass, flat: seq<Listed>, now: Time, synthesize: bool, keys: Keys): (r: Pass)
    requires IndexInRange(p.index, |p.db.orders|)
    ensures |p.db.orders| <= |r.db.orders| && IndexInRange(r.index, |r.db.orders|)
  {
    if flat == [] then p
    else AdoptListed(AdoptAllListed(p, flat[..|flat| - 1], now, synthesize, keys), flat[|flat| - 1], now, synthesize, keys)
  }

  // ── Step 2: local stragglers the broker does not list ────────────

  /** `_lookup`: broker id first, client id as the fallback. */
  function Lookup(broker: Broker, row: Order): Option<BrokerOrder> {
    if row.brokerId.Some? && row.brokerId.value in broker.byId then Some(broker.byId[row.brokerId.value])
    else if row.clientId in broker.byClient then Some(broker.byClient[row.clientId])
    else None
  }

  /** Seconds after which an unseen `pending_submit` row is declared never submitted. */
  const NEVER_SUBMITTED_GRACE: int := 120

  predicate NeverSubmitted(row: Order, now: Time) {
    row.status == PendingSubmit && row.brokerId.None? && now - row.createdAt > NEVER_SUBMITTED_GRACE
  }

  /** The totals a reconcile reports, besides the tables. */
  datatype Recovery = Recovery(pass: Pass, missing: nat)

  predicate Skipped(p: Pass, i: nat, flat: seq<Listed>)
    requires i < |p.db.orders|
  {
    var row := p.db.orders[i];
    || i in p.matched
    || IsAbsorbing(row.status)
    || (row.brokerId.Some? && exists k :: 0 <= k < |flat| && flat[k].order.brokerId == row.brokerId.value)
  }

  function RecoverOne(r: Recovery, i: nat, flat: seq<Listed>, broker: Broker, now: Time, synthesize: bool, keys: Keys): (q: Recovery)
    requires i < |r.pass.db.orders|
    ensures |r.pass.db.orders| <= |q.pass.db.orders|
  {
    var p := r.pass;
    var row := p.db.orders[i];
    if Skipped(p, i, flat) then r
    else
      var found := Lookup(broker, row);
      if found.None? then
        if NeverSubmitted(row, now) then r.(pass := p.(db := WithRow(p.db, i, row.(status := Failed))))
        else r.(missing := r.missing + 1)
      else
        var adopted := AdoptInto(p, i, found.value, now, synthesize, keys);
        if found.value.bracket && adopted.db.orders[i].parent.None? && found.value.legs != []
        then r.(pass := adopted.(db := adopted.db.(orders := adopted.db.orders + NewLegs(adopted.db.orders, i, found.value.legs, now))))
        else r.(pass := adopted)
  }

  /** A row the listing matched, one that is finished, and one whose broker id the listing names are left to it:
      recovery changes no row, looks nothing up and counts nothing for them. */
  lemma ListedAndFinishedAreLeftAlone(r: Recovery, i: nat, flat: seq<Listed>, broker: Broker, now: Time, synthesize: bool, keys: Keys)
    requires i < |r.pass.db.orders|
    requires var row := r.pass.db.orders[i];
             || i in r.pass.matched
             || row.status in {Filled, Canceled, Expired, Rejected, Replaced, Failed}
             || exists k :: 0 <= k < |flat| && row.brokerId == Some(flat[k].order.brokerId)
    ensures RecoverOne(r, i, flat, broker, now, synthesize, keys) == r
  {
  }

  /** Of the others, one the broker does not know is written off exactly when it was persisted over two minutes ago and
      nothing was ever heard of it; any other is counted missing, and no row changes. */
  lemma UnknownRowsAge(r: Recovery, i: nat, flat: seq<Listed>, broker: Broker, now: Time, synthesize: bool, keys: Keys)
    requires i < |r.pass.db.orders| && !Skipped(r.pass, i, flat) && Lookup(broker, r.pass.db.orders[i]).None?
    ensures var row, q := r.pass.db.orders[i], RecoverOne(r, i, flat, broker, now, synthesize, keys);
            if row.status == PendingSubmit && row.brokerId.None? && now - row.createdAt > 120
            then q.missing == r.missing && q.pass.db == WithRow(r.pass.db, i, row.(status := Failed))
            else q.missing == r.missing + 1 && q.pass == r.pass
  {
  }

  function Recover(r: Recovery, n: nat, flat: seq<Listed>, broker: Broker, now: Time, synthesize: bool, keys: Keys): (q: Recovery)
    requires n <= |r.pass.db.orders|
    ensures |r.pass.db.orders| <= |q.pass.db.orders|
  {
    if n == 0 then r
    else RecoverOne(Recover(r, n - 1, flat, broker, now, synthesize, keys), n - 1, flat, broker, now, synthesize, keys)
  }

  // ── Step 3: orders whose ledger trails their own filled quantity ─

  predicate Deficient(db: Db, o: nat)
    requires o < |db.orders|
  {
    db.orders[o].filledQty > AppliedLedger(db.fills, o).qty
  }

  function SweepOne(db: Db, o: nat, broker: Broker, now: Time, keys: Keys): (r: Db)
    requires o < |db.orders|
    ensures |r.orders| == |db.orders|
  {
    var row := db.orders[o];
    var found := Lookup(broker, row);
    if found.Some? then Adopt(db, o, found.value, now, true, keys)
    else if row.filledAvg.None? then db
    else InsertFills(db, CatchUp(Exact, db.fills, o, row.filledQty, row.filledAvg, row.filledAt.GetOr(now), Recon), o, keys(|db.fills|), false)
  }

  /** `start` is the state the deficit query saw. */
  function Sweep(db: Db, start: Db, n: nat, broker: Broker, now: Time, keys: Keys): (r: Db)
    requires n <= |db.orders| && n <= |start.orders|
    ensures |r.orders| == |db.orders|
  {
    if n == 0 then db
    else
      var before := Sweep(db, start, n - 1, broker, now, keys);
      if Deficient(start, n - 1) then SweepOne(before, n - 1, broker, now, keys) else before
  }

  // ── Positions ────────────────────────────────────────────────────

  function Upserted(local: map<Symbol, Position>, broker: seq<BrokerPosition>): map<Symbol, Position> {
    if broker == [] then local
    else Upserted(local, broker[..|broker| - 1])[broker[|broker| - 1].symbol := broker[|broker| - 1].position]
  }

  predicate Lists(broker: seq<BrokerPosition>, symbol: Symbol) {
    exists k :: 0 <= k < |broker| && broker[k].symbol == symbol
  }

  function ReconciledPositions(local: map<Symbol, Position>, broker: seq<BrokerPosition>, marketValue: real): map<Symbol, Position> {
    if broker == [] && marketValue != 0.0 && local != map[] then local
    else
      var all := Upserted(local, broker);
      map symbol | symbol in all && Lists(broker, symbol) :: all[symbol]
  }

  lemma {:induction false} UpsertedKeys(local: map<Symbol, Position>, broker: seq<BrokerPosition>)
    ensures forall symbol :: symbol in Upserted(local, broker) <==> symbol in local || Lists(broker, symbol)
    ensures forall symbol, other :: Lists(broker, symbol) ==> symbol in Upserted(other, broker) && Upserted(other, broker)[symbol] == Upserted(local, broker)[symbol]
  {
    if broker != [] {
      var n := |broker| - 1;
      UpsertedKeys(local, broker[..n]);
      forall symbol ensures Lists(broker, symbol) <==> Lists(broker[..n], symbol) || broker[n].symbol == symbol {
        if Lists(broker[..n], symbol) {
          var k :| 0 <= k < n && broker[..n][k].symbol == symbol;
          assert broker[k].symbol == symbol;
        }
      }
      forall symbol, other | Lists(broker, symbol)
        ensures symbol in Upserted(other, broker) && Upserted(other, broker)[symbol] == Upserted(local, broker)[symbol]
      {
        if broker[n].symbol != symbol {
          assert Lists(broker[..n], symbol);
        }
      }
    }
  }

  /** Unless the answer was suspect, the rows afterwards are the broker's list, whatever was there. */
  lemma PositionsAreTheBrokers(local: map<Symbol, Position>, other: map<Symbol, Position>, broker: seq<BrokerPosition>, marketValue: real)
    requires broker != [] || marketValue == 0.0
    ensures ReconciledPositions(local, broker, marketValue) == ReconciledPositions(other, broker, marketValue)
    ensures forall symbol :: symbol in ReconciledPositions(local, broker, marketValue) <==> Lists(broker, symbol)
  {
    UpsertedKeys(local, broker);
    UpsertedKeys(other, broker);
    forall symbol | Lists(broker, symbol)
      ensures Upserted(other, broker)[symbol] == Upserted(local, broker)[symbol] && symbol in Upserted(local, broker)
    {
      assert symbol in Upserted(other, broker);
    }
  }

  /** An empty answer about an account that still carries market value is not believed. */
  ghost predicate IsSuspect(broker: seq<BrokerPosition>, marketValue: real) {
    broker == [] && marketValue != 0.0
  }

  /** The listing's last word on a symbol. */
  ghost predicate IsLastFor(broker: seq<BrokerPosition>, k: nat) {
    k < |broker| && forall j :: k < j < |broker| ==> broker[j].symbol != broker[k].symbol
  }

  /** Each listed symbol holds what the broker last listed for it, and no other symbol is held. */
  ghost predicate HoldsTheBrokers(rows: map<Symbol, Position>, broker: seq<BrokerPosition>) {
    && (forall k :: 0 <= k < |broker| && IsLastFor(broker, k) ==>
          broker[k].symbol in rows && rows[broker[k].symbol] == broker[k].position)
    && (forall symbol :: symbol in rows ==> exists k :: 0 <= k < |broker| && broker[k].symbol == symbol)
  }

  /** A suspect answer leaves every row as it was ... */
  lemma SuspectAnswerIsIgnored(local: map<Symbol, Position>, broker: seq<BrokerPosition>, marketValue: real)
    ensures IsSuspect(broker, marketValue) ==> ReconciledPositions(local, broker, marketValue) == local
  {
  }

  /** ... and any other makes the rows the broker's. */
  lemma OtherwiseTheBrokersRowsHold(local: map<Symbol, Position>, broker: seq<BrokerPosition>, marketValue: real)
    ensures !IsSuspect(broker, marketValue) ==> HoldsTheBrokers(ReconciledPositions(local, broker, marketValue), broker)
  {
    if !IsSuspect(broker, marketValue) {
      UpsertedKeys(local, broker);
      forall k | 0 <= k < |broker| && IsLastFor(broker, k)
        ensures broker[k].symbol in ReconciledPositions(local, broker, marketValue)
                && ReconciledPositions(local, broker, marketValue)[broker[k].symbol] == broker[k].position
      {
        assert Lists(broker, broker[k].symbol);
        LastUpsertStays(local, broker, k);
      }
    }
  }

  lemma NothingUpserted(local: map<Symbol, Position>)
    ensures Upserted(local, []) == local
  {
  }

  lemma OneMoreUpserted(local: map<Symbol, Position>, broker: seq<BrokerPosition>, n: nat)
    requires n < |broker|
    ensures Upserted(local, broker[..n + 1]) == Upserted(local, broker[..n])[broker[n].symbol := broker[n].position]
  {
    assert broker[..n + 1][..n] == broker[..n];
  }

  lemma EmptyAnswerKeeps(local: map<Symbol, Position>, marketValue: real)
    requires marketValue != 0.0 && local != map[]
    ensures ReconciledPositions(local, [], marketValue) == local && Upserted(local, []) == local
    ensures IsSuspect([], marketValue) && local.Keys - local.Keys == {}
  {
  }

  lemma VanishedAreRemoved(local: map<Symbol, Position>, broker: seq<BrokerPosition>, marketValue: real, vanished: set<Symbol>)
    requires !(broker == [] && marketValue != 0.0 && local != map[])
    requires vanished == set symbol | symbol in local && !Lists(broker, symbol)
    ensures Upserted(local, broker) - vanished == ReconciledPositions(local, broker, marketValue)
    ensures vanished == local.Keys - ReconciledPositions(local, broker, marketValue).Keys
    ensures IsSuspect(broker, marketValue) ==> vanished == {}
  {
    hide Upserted, Lists;
    UpsertedKeys(local, broker);
    var all, rows := Upserted(local, broker), ReconciledPositions(local, broker, marketValue);
    assert all.Keys - vanished == rows.Keys;
  }

  lemma {:induction false} LastUpsertStays(local: map<Symbol, Position>, broker: seq<BrokerPosition>, k: nat)
    requires IsLastFor(broker, k)
    ensures broker[k].symbol in Upserted(local, broker) && Upserted(local, broker)[broker[k].symbol] == broker[k].position
  {
    if k < |broker| - 1 {
      LastUpsertStays(local, broker[..|broker| - 1], k);
    }
  }

  /** `_reconcile_positions`: upsert, and delete what the broker no longer reports, unless an empty
      answer contradicts the account's own market value. */
  method ReconcilePositions(session: Session, broker: seq<BrokerPosition>, marketValue: real) returns (synced: nat, removed: nat)
    modifies session`positions
    ensures session.positions == ReconciledPositions(old(session.positions), broker, marketValue)
    ensures synced == |broker| && removed == |old(session.positions).Keys - session.positions.Keys|
    ensures IsSuspect(broker, marketValue) ==> session.positions == old(session.positions) && removed == 0
    ensures !IsSuspect(broker, marketValue) ==> HoldsTheBrokers(session.positions, broker)
  {
    hide IsSuspect, HoldsTheBrokers, Lists, ReconciledPositions, Upserted;
    var local := session.positions;
    synced := 0;
    NothingUpserted(local);
    while synced < |broker|
      invariant synced <= |broker|
      invariant session.positions == Upserted(local, broker[..synced])
    {
      var bp := broker[synced];
      OneMoreUpserted(local, broker, synced);
      session.positions := session.positions[bp.symbol := bp.position];
      synced := synced + 1;
    }
    assert broker[..|broker|] == broker;
    SuspectAnswerIsIgnored(local, broker, marketValue);
    OtherwiseTheBrokersRowsHold(local, broker, marketValue);
    if broker == [] && marketValue != 0.0 && local != map[] {
      EmptyAnswerKeeps(local, marketValue);
      return synced, 0;
    }
    var vanished := set symbol | symbol in local && !Lists(broker, symbol);
    VanishedAreRemoved(local, broker, marketValue, vanished);
    session.positions := session.positions - vanished;
    removed := |vanished|;
  }

  // ── The whole reconcile ──────────────────────────────────────────

  function StartPass(db: Db): (p: Pass)
    ensures IndexInRange(p.index, |db.orders|)
  {
    Pass(db, IndexOf(db.orders), {}, 0, 0, 0)
  }

  function Recovered(db: Db, broker: Broker, now: Time, synthesize: bool, keys: Keys): (r: Recovery)
    ensures |db.orders| <= |r.pass.db.orders|
  {
    var flat := Flat(broker.open);
    var listed := AdoptAllListed(StartPass(db), flat, now, synthesize, keys);
    Recover(Recovery(listed, 0), |db.orders|, flat, broker, now, synthesize, keys)
  }

  function Reconciled(db: Db, broker: Broker, now: Time, synthesize: bool, keys: Keys): Db {
    var recovered := Recovered(db, broker, now, synthesize, keys).pass.db;
    var repaired :=
      if synthesize then
        var swept := Sweep(recovered, recovered, |recovered.orders|, broker, now, keys);
        RetryPass(swept, swept.events, |swept.events|)
      else recovered;
    repaired.(positions := ReconciledPositions(repaired.positions, broker.positions, broker.marketValue))
  }

  // ── The service's methods ────────────────────────────────────────

  datatype Counts = Counts(updated: nat, orphans: nat, missing: nat, synthesized: nat)

  /** A listed leg with no row but a local parent: the parent's legs are persisted and this one indexed. */
  method AdoptLeg(session: Session, index: Index, entry: Listed, now: Time, ghost p: Pass) returns (newIndex: Index)
    requires IndexInRange(index, |session.orders|)
    requires p.db == session.Rows() && p.index == index
    modifies session`orders
    ensures session.Rows() == WithLeg(p, entry, now).db && newIndex == WithLeg(p, entry, now).index
  {
    hide NewLegs, FindBrokerId;
    newIndex := index;
    if FindLocal(index, entry.order).None? && entry.parent.Some? {
      var parent := FindLocal(index, entry.parent.value);
      if parent.Some? {
        var created := PersistBracketLegs(session, parent.value, entry.parent.value, now);
        if created > 0 {
          var adopted := FindBrokerId(session.orders, entry.order.brokerId);
          if adopted.Some? {
            newIndex := Indexed(newIndex, adopted.value, session.orders[adopted.value]);
          }
        }
      }
    }
  }

  /** Step 1 for one listed order: find or adopt its row, then take the broker's state. */
  method MatchListed(session: Session, index: Index, entry: Listed, now: Time, synthesize: bool, keys: Keys, ghost p: Pass)
    returns (newIndex: Index, local: Option<nat>, changed: bool, synthesized: nat)
    requires IndexInRange(index, |session.orders|)
    requires p.db == session.Rows() && p.index == index
    modifies session
    ensures var q := AdoptListed(p, entry, now, synthesize, keys);
            && session.Rows() == q.db && newIndex == q.index
            && q.matched == (if local.Some? then p.matched + {local.value} else p.matched)
            && q.orphans == p.orphans + (if local.None? then 1 else 0)
            && q.updated == p.updated + (if changed then 1 else 0)
            && q.synthesized == p.synthesized + synthesized
    ensures |session.fills| == |old(session.fills)| + synthesized
  {
    hide Adopt, Visible, NewLegs, FindBrokerId;
    changed, synthesized := false, 0;
    newIndex := AdoptLeg(session, index, entry, now, p);
    local := FindLocal(newIndex, entry.order);
    if local.Some? {
      changed, synthesized := AdoptOrder(session, local.value, entry.order, now, synthesize, keys);
    }
  }

  method MatchAllListed(session: Session, flat: seq<Listed>, now: Time, synthesize: bool, keys: Keys)
    returns (matched: set<nat>, counts: Counts)
    modifies session
    ensures var p := AdoptAllListed(StartPass(old(session.Rows())), flat, now, synthesize, keys);
            && session.Rows() == p.db && matched == p.matched
            && counts == Counts(p.updated, p.orphans, 0, p.synthesized)
    ensures |session.fills| == |old(session.fills)| + counts.synthesized
  {
    hide AdoptListed, IndexOf;
    var index := IndexOf(session.orders);
    matched, counts := {}, Counts(0, 0, 0, 0);
    ghost var start := StartPass(session.Rows());
    ghost var p := start;
    var k := 0;
    while k < |flat|
      invariant k <= |flat|
      invariant IndexInRange(index, |session.orders|)
      invariant p == AdoptAllListed(start, flat[..k], now, synthesize, keys)
      invariant p.db == session.Rows() && p.index == index && p.matched == matched
      invariant counts == Counts(p.updated, p.orphans, 0, p.synthesized)
      invariant |session.fills| == |old(session.fills)| + counts.synthesized
    {
      var local, changed, synthesized;
      assert flat[..k + 1][..k] == flat[..k];
      index, local, changed, synthesized := MatchListed(session, index, flat[k], now, synthesize, keys, p);
      p := AdoptListed(p, flat[k], now, synthesize, keys);
      if local.Some? {
        matched := matched + {local.value};
      }
      counts := Counts(counts.updated + (if changed then 1 else 0), counts.orphans + (if local.None? then 1 else 0),
                       0, counts.synthesized + synthesized);
      k := k + 1;
    }
    assert flat[..|flat|] == flat;
  }

  /** Step 2 for one straggler, including `_handle_unknown`. */
  method RecoverLocal(session: Session, i: nat, broker: Broker, now: Time, synthesize: bool, keys: Keys)
    returns (changed: bool, synthesized: nat, missing: nat)
    requires i < |session.orders|
    modifies session
    ensures forall r: Recovery, flat ::
              r.pass.db == old(session.Rows()) && !Skipped(r.pass, i, flat) ==>
                var q := RecoverOne(r, i, flat, broker, now, synthesize, keys);
                && session.Rows() == q.pass.db && q.pass.matched == r.pass.matched && q.pass.orphans == r.pass.orphans
                && q.pass.updated == r.pass.updated + (if changed then 1 else 0)
                && q.pass.synthesized == r.pass.synthesized + synthesized
                && q.missing == r.missing + missing
    ensures |session.fills| == |old(session.fills)| + synthesized
  {
    hide InsertFills, CatchUp, NewLegs, Skipped;
    var row := session.orders[i];
    var trueState := Lookup(broker, row);
    changed, synthesized, missing := false, 0, 0;
    if trueState.None? {
      if NeverSubmitted(row, now) {
        session.orders := session.orders[i := row.(status := Failed)];
      } else {
        missing := 1;
      }
      return;
    }
    changed, synthesized := AdoptOrder(session, i, trueState.value, now, synthesize, keys);
    if trueState.value.bracket && session.orders[i].parent.None? && trueState.value.legs != [] {
      var _ := PersistBracketLegs(session, i, trueState.value, now);
    }
  }

  /** `_sweep_ledger_deficits`: the query's orders, each repaired from broker truth or its own columns. */
  method SweepLedgerDeficits(session: Session, broker: Broker, now: Time, keys: Keys) returns (synthesized: nat)
    modifies session
    ensures session.Rows() == Sweep(old(session.Rows()), old(session.Rows()), |old(session.orders)|, broker, now, keys)
    ensures synthesized == |session.fills| - |old(session.fills)|
  {
    hide InsertFill, CatchUp, SpanPrice;
    ghost var start := session.Rows();
    var deficits := set o | 0 <= o < |session.orders| && session.orders[o].filledQty > AppliedLedger(session.fills, o).qty;
    synthesized := 0;
    var i, n := 0, |session.orders|;
    while i < n
      invariant i <= n == |start.orders| == |session.orders|
      invariant session.Rows() == Sweep(start, start, i, broker, now, keys)
      invariant |session.fills| == |start.fills| + synthesized
    {
      if i in deficits {
        var row := session.orders[i];
        var trueState := Lookup(broker, row);
        if trueState.Some? {
          var changed, synth := AdoptOrder(session, i, trueState.value, now, true, keys);
          synthesized := synthesized + synth;
        } else if row.filledAvg.Some? {
          var fill := CatchUpLedger(session, i, row.filledQty, row.filledAvg, row.filledAt.GetOr(now), Recon, keys(|session.fills|), false);
          synthesized := synthesized + if fill.Some? then 1 else 0;
        }
      }
      i := i + 1;
    }
  }

  /** Step 2 over the rows that were there when the reconcile read them. */
  method RecoverStragglers(session: Session, flat: seq<Listed>, matched: set<nat>, broker: Broker, now: Time, synthesize: bool, keys: Keys,
                           n: nat, ghost start: Recovery)
    returns (counts: Counts)
    requires n <= |session.orders| && start.pass.db == session.Rows() && start.pass.matched == matched
    modifies session
    ensures var r := Recover(start, n, flat, broker, now, synthesize, keys);
            && session.Rows() == r.pass.db
            && counts.updated + start.pass.updated == r.pass.updated
            && counts.missing + start.missing == r.missing && counts.orphans == 0
            && counts.synthesized + start.pass.synthesized == r.pass.synthesized
            && r.pass.orphans == start.pass.orphans
    ensures |session.fills| == |old(session.fills)| + counts.synthesized
  {
    hide InsertFills, CatchUp, NewLegs, Lookup, Adopt;
    counts := Counts(0, 0, 0, 0);
    ghost var r := start;
    var i := 0;
    while i < n
      invariant i <= n <= |session.orders|
      invariant r == Recover(start, i, flat, broker, now, synthesize, keys)
      invariant r.pass.db == session.Rows() && r.pass.matched == matched && r.pass.orphans == start.pass.orphans
      invariant r.pass.updated == start.pass.updated + counts.updated
      invariant r.missing == start.missing + counts.missing && counts.orphans == 0
      invariant r.pass.synthesized == start.pass.synthesized + counts.synthesized
      invariant |session.fills| == |old(session.fills)| + counts.synthesized
    {
      var row := session.orders[i];
      var openAtBroker := row.brokerId.Some? && exists k :: 0 <= k < |flat| && flat[k].order.brokerId == row.brokerId.value;
      if i !in matched && !IsAbsorbing(row.status) && !openAtBroker {
        assert !Skipped(r.pass, i, flat);
        var changed, synthesized, missing := RecoverLocal(session, i, broker, now, synthesize, keys);
        counts := Counts(counts.updated + (if changed then 1 else 0), 0, counts.missing + missing, counts.synthesized + synthesized);
      }
      r := RecoverOne(r, i, flat, broker, now, synthesize, keys);
      i := i + 1;
    }
  }

  /** `reconcile_portfolio`: orders, then the ledger sweep and the parked remainders, then positions. */
  method ReconcilePortfolio(session: Session, broker: Broker, now: Time, synthesize: bool, keys: Keys) returns (counts: Counts)
    modifies session
    ensures session.Rows() == Reconciled(old(session.Rows()), broker, now, synthesize, keys)
    ensures var r := Recovered(old(session.Rows()), broker, now, synthesize, keys);
            counts.updated == r.pass.updated && counts.orphans == r.pass.orphans && counts.missing == r.missing
    ensures |session.fills| == |old(session.fills)| + counts.synthesized
  {
    hide AdoptListed, RecoverOne, SweepOne, RetryOne;
    var flat := Flat(broker.open);
    var n := |session.orders|;
    ghost var start := Recovery(AdoptAllListed(StartPass(session.Rows()), flat, now, synthesize, keys), 0);
    var matched, listed := MatchAllListed(session, flat, now, synthesize, keys);
    var recovered := RecoverStragglers(session, flat, matched, broker, now, synthesize, keys, n, start);
    counts := Counts(listed.updated + recovered.updated, listed.orphans, recovered.missing, listed.synthesized + recovered.synthesized);
    if synthesize {
      var swept := SweepLedgerDeficits(session, broker, now, keys);
      counts := counts.(synthesized := counts.synthesized + swept);
      var _ := RetryUnappliedRemainders(session);
    }
    var _, _ := ReconcilePositions(session, broker.positions, broker.marketValue);
  }
}
