/** An order's end learned from a reconcile settles its row and completes its ledger, whoever else writes. */
module ReconciledEnds {
  import opened Domain
  import opened Sums
  import opened Tables
  import opened FillLedger
  import opened LedgerRuns
  import opened OrderRows
  import opened Remainders
  import opened TradeUpdates
  import opened Reconciliation
  import opened DbRuns
  import opened DbLedger
  import opened OrderConfluence
  import opened TraceRefinement
  import opened ReconcileQuiet
  import opened ReconcileListing
  import opened Evidence
  import ReconcileGaps
  import opened MixedRuns

  // ── What the reconcile has to have answered ──────────────────────

  /** Everything the reconcile asks about the row is answered with its end: each listed order that names it
      if some does, what the lookups return otherwise. A row written off is only revived by the list. */
  ghost predicate AnswersEnd(broker: Broker, row: Order, final: BrokerOrder) {
    if ListsRow(Flat(broker.open), row)
    then forall j :: 0 <= j < |Flat(broker.open)| && Names(row, Flat(broker.open)[j].order) ==> Flat(broker.open)[j].order == final
    else row.status != Failed && Lookup(broker, row) == Some(final)
  }

  ghost predicate IsEnd(final: BrokerOrder) {
    IsAbsorbing(final.status) && final.status != Failed
  }

  // ── The listing pass ─────────────────────────────────────────────

  /** A row none of the first entries names is untouched by them. */
  ghost predicate Untouched(was: Order, p: Pass, o: nat) {
    o < |p.db.orders| && p.db.orders[o] == was && o !in p.matched
  }

  lemma EntryElsewhere(p: Pass, entry: Listed, now: Time, keys: Keys, o: nat, was: Order)
    requires IndexSound(p.index, p.db.orders) && IndexInRange(p.index, |p.db.orders|)
    requires Untouched(was, p, o) && !Names(was, entry.order)
    ensures Untouched(was, AdoptListed(p, entry, now, true, keys), o)
  {
    hide Adopt, NewLegs, IndexSound, FindLocal, FindBrokerId, Indexed, Names;
    var q := WithLeg(p, entry, now);
    assert Untouched(was, q, o) && q.matched == p.matched;
    LegKeepsSound(p, entry, now);
    hide WithLeg;
    FoundIsNamed(q.index, q.db.orders, entry.order);
    var local := FindLocal(q.index, entry.order);
    if local.Some? {
      AdoptAdvances(q.db, local.value, entry.order, now, true, keys);
    }
  }

  lemma {:induction false} ListingElsewhere(broker: Broker, db: Db, n: nat, now: Time, keys: Keys, o: nat)
    requires n <= |Flat(broker.open)| && o < |db.orders|
    requires forall j :: 0 <= j < n ==> !Names(db.orders[o], Flat(broker.open)[j].order)
    ensures Untouched(db.orders[o], AdoptAllListed(StartPass(db), Flat(broker.open)[..n], now, true, keys), o)
  {
    hide AdoptListed, Flat, IndexOf, Names, IndexSound;
    if n > 0 {
      var flat := Flat(broker.open);
      ListingElsewhere(broker, db, n - 1, now, keys, o);
      assert flat[..n][..n - 1] == flat[..n - 1];
      ListedFromAnswers(broker, db, now, keys, n - 1);
      EntryElsewhere(AdoptAllListed(StartPass(db), flat[..n - 1], now, true, keys), flat[n - 1], now, keys, o, db.orders[o]);
    }
  }

  // ── The straggler pass ───────────────────────────────────────────

  /** The straggler pass changes a row only when it comes to it. */
  lemma {:induction false} RecoveryElsewhere(r: Recovery, n: nat, flat: seq<Listed>, broker: Broker, now: Time, keys: Keys, o: nat)
    requires n <= o < |r.pass.db.orders|
    ensures var after := Recover(r, n, flat, broker, now, true, keys).pass;
            o < |after.db.orders| && after.db.orders[o] == r.pass.db.orders[o] && after.matched == r.pass.matched
  {
    hide Adopt, NewLegs, Lookup, Skipped;
    if n > 0 {
      RecoveryElsewhere(r, n - 1, flat, broker, now, keys, o);
      var before := Recover(r, n - 1, flat, broker, now, true, keys).pass;
      var found := Lookup(broker, before.db.orders[n - 1]);
      if found.Some? {
        AdoptAdvances(before.db, n - 1, found.value, now, true, keys);
      }
    }
  }

  lemma {:induction false} RecoverStepsGrow(r: Recovery, n: nat, m: nat, flat: seq<Listed>, broker: Broker, now: Time, keys: Keys)
    requires n <= m <= |r.pass.db.orders|
    ensures RecoverSteps(r, n, flat, broker, now, keys) <= RecoverSteps(r, m, flat, broker, now, keys)
  {
    hide Recover, Skipped, Lookup;
    if n < m {
      RecoverStepsGrow(r, n, m - 1, flat, broker, now, keys);
    }
  }

  /** A live straggler takes its end, and the ledger a snapshot of it. */
  lemma StragglerEnds(r: Recovery, flat: seq<Listed>, broker: Broker, now: Time, keys: Keys, o: nat, final: BrokerOrder)
    requires o < |r.pass.db.orders| && o !in r.pass.matched && !ListsRow(flat, r.pass.db.orders[o])
    requires !IsAbsorbing(r.pass.db.orders[o].status) && Lookup(broker, r.pass.db.orders[o]) == Some(final)
    requires OnTheWay(r.pass.db.orders[o], final)
    ensures var after := Recover(r, o + 1, flat, broker, now, true, keys).pass.db;
            o < |after.orders| && Settles(after.orders[o], final)
    ensures SnapshotOf(o, final, now) in RecoverSteps(r, o + 1, flat, broker, now, keys)
  {
    RecoveryElsewhere(r, o, flat, broker, now, keys, o);
    var before := Recover(r, o, flat, broker, now, true, keys).pass;
    var row := r.pass.db.orders[o];
    assert before.db.orders[o] == row;
    hide Adopt, NewLegs, Lookup;
    AdoptAdvances(before.db, o, final, now, true, keys);
    forall k | 0 <= k < |flat| ensures row.brokerId != Some(flat[k].order.brokerId) {
      assert !Names(row, flat[k].order);
    }
    assert !Skipped(before, o, flat);
    var steps := RecoverSteps(r, o + 1, flat, broker, now, keys);
    assert steps[|steps| - 1] == SnapshotOf(o, final, now);
  }

  // ── An end that is listed ────────────────────────────────────────

  lemma FewerAreUnique(was: seq<Order>, now: seq<Order>)
    requires RowsAdvance(was, now) && UniqueClients(now)
    ensures UniqueClients(was)
  {
    hide Advances;
    AdvancingKeepsClients(was, now);
  }

  lemma {:induction false} ListingIsReady(db: Db, flat: seq<Listed>, n: nat, now: Time, keys: Keys)
    requires n <= |flat|
    ensures var p := AdoptAllListed(StartPass(db), flat[..n], now, true, keys);
            IndexReady(db, p.index, p.db.orders) && |db.orders| <= |p.db.orders|
  {
    hide AdoptListed, IndexOf, IndexReady;
    if n == 0 {
      StartIsReady(db);
    } else {
      ListingIsReady(db, flat, n - 1, now, keys);
      assert flat[..n][..n - 1] == flat[..n - 1];
      EntryIsReady(db, AdoptAllListed(StartPass(db), flat[..n - 1], now, true, keys), flat[n - 1], now, keys);
    }
  }

  lemma StartIsReady(db: Db)
    ensures IndexReady(db, IndexOf(db.orders), db.orders)
  {
    IndexIsSound(db.orders);
    BrokerIdsAreIndexed(db.orders);
    hide IndexOf;
  }

  lemma EntryIsReady(db: Db, p: Pass, entry: Listed, now: Time, keys: Keys)
    requires IndexInRange(p.index, |p.db.orders|) && IndexReady(db, p.index, p.db.orders)
    ensures var q := AdoptListed(p, entry, now, true, keys);
            IndexReady(db, q.index, q.db.orders)
  {
    hide Adopt, WithLeg, RowsAdvance, FindLocal, IndexSound;
    WithLegKeepsIndex(db, p, entry, now);
    var q := WithLeg(p, entry, now);
    var local := FindLocal(q.index, entry.order);
    if local.Some? {
      assert local.value < |q.db.orders| by { ReadyIsNamed(db, q.index, q.db.orders, entry.order); }
      AdoptAdvances(q.db, local.value, entry.order, now, true, keys);
      AdvanceKeepsSound(q.index, q.db.orders, Adopt(q.db, local.value, entry.order, now, true, keys).orders);
    }
  }

  /** Of true rows with distinct client ids, a truthful order names one. */
  lemma TruthNamesOne(m: Market, orders: seq<Order>, bo: BrokerOrder, o: nat, i: nat)
    requires AllTrue(m, orders) && UniqueClients(orders) && TruthfulOrder(m, bo)
    requires o < |orders| && i < |orders| && Names(orders[o], bo) && Names(orders[i], bo)
    ensures o == i
  {
    hide IsReported, LeadsTo, OnTheWay;
    assert RowTrue(m, orders[o]) && RowTrue(m, orders[i]);
    assert orders[o].clientId == m.owner(bo.brokerId) == orders[i].clientId;
  }

  /** The row has been found by an entry that is its end. */
  ghost predicate Ended(p: Pass, steps: seq<Step>, o: nat, final: BrokerOrder, now: Time) {
    && o < |p.db.orders| && o in p.matched && Settles(p.db.orders[o], final)
    && SnapshotOf(o, final, now) in steps
  }

  lemma EndedStays(p: Pass, steps: seq<Step>, entry: Listed, now: Time, keys: Keys, o: nat, final: BrokerOrder)
    requires IndexInRange(p.index, |p.db.orders|) && Ended(p, steps, o, final, now) && IsEnd(final)
    ensures var local := FindLocal(WithLeg(p, entry, now).index, entry.order);
            Ended(AdoptListed(p, entry, now, true, keys),
                  steps + if local.Some? then [SnapshotOf(local.value, entry.order, now)] else [], o, final, now)
  {
    hide Adopt, NewLegs, FindLocal, FindBrokerId, Indexed;
    AdoptListedAdvances(p, entry, now, true, keys);
    assert Advances(p.db.orders[o], AdoptListed(p, entry, now, true, keys).db.orders[o]);
  }

  lemma EntryEnds(m: Market, broker: Broker, db: Db, p: Pass, steps: seq<Step>, j: nat, now: Time, keys: Keys, o: nat, final: BrokerOrder)
    requires TruthfulBroker(m, broker) && j < |Flat(broker.open)| && Flat(broker.open)[j].order == final
    requires IndexInRange(p.index, |p.db.orders|) && IndexReady(db, p.index, p.db.orders) && AllTrue(m, p.db.orders)
    requires UniqueClients(AdoptListed(p, Flat(broker.open)[j], now, true, keys).db.orders)
    requires o < |db.orders| && Names(db.orders[o], final) && Untouched(db.orders[o], p, o) && IsEnd(final)
    requires m.final(db.orders[o].clientId) == Some(final)
    ensures var entry := Flat(broker.open)[j];
            var local := FindLocal(WithLeg(p, entry, now).index, entry.order);
            local == Some(o) && Ended(AdoptListed(p, entry, now, true, keys), steps + [SnapshotOf(o, final, now)], o, final, now)
  {
    hide Adopt, NewLegs, FindBrokerId, Indexed, Flat, TruthfulBroker, TruthfulOrder, Names, IndexReady, IsReported, UniqueClients;
    var entry := Flat(broker.open)[j];
    var q, after := WithLeg(p, entry, now), AdoptListed(p, entry, now, true, keys);
    assert Untouched(db.orders[o], q, o);
    WithLegKeepsIndex(db, p, entry, now);
    LegStaysTrue(m, broker, p, j, now);
    ListedIsTruthful(m, broker, j);
    ReadyFinds(db, q.index, q.db.orders, final, o);
    ReadyIsNamed(db, q.index, q.db.orders, final);
    hide WithLeg, FindLocal;
    var local := FindLocal(q.index, final);
    AdoptAdvances(q.db, local.value, final, now, true, keys);
    FewerAreUnique(q.db.orders, after.db.orders);
    TruthNamesOne(m, q.db.orders, final, o, local.value);
    assert RowTrue(m, q.db.orders[o]);
    FinalSettles(q.db.orders[o], final);
  }

  lemma FinalSettles(row: Order, final: BrokerOrder)
    requires OnTheWay(row, final) && IsEnd(final)
    ensures Settles(Adopted(row, final), final)
  {
  }

  ghost predicate NamedWithin(flat: seq<Listed>, n: nat, row: Order) {
    exists k :: 0 <= k < n && k < |flat| && Names(row, flat[k].order)
  }

  lemma {:induction false} ListingEnds(m: Market, broker: Broker, db: Db, n: nat, now: Time, keys: Keys, o: nat, final: BrokerOrder)
    requires TruthfulBroker(m, broker) && AllTrue(m, db.orders) && n <= |Flat(broker.open)| && o < |db.orders|
    requires IsEnd(final) && m.final(db.orders[o].clientId) == Some(final)
    requires forall j :: 0 <= j < n && Names(db.orders[o], Flat(broker.open)[j].order) ==> Flat(broker.open)[j].order == final
    requires UniqueClients(AdoptAllListed(StartPass(db), Flat(broker.open)[..n], now, true, keys).db.orders)
    ensures var p := AdoptAllListed(StartPass(db), Flat(broker.open)[..n], now, true, keys);
            if NamedWithin(Flat(broker.open), n, db.orders[o])
            then Ended(p, ListedSteps(StartPass(db), Flat(broker.open)[..n], now, keys), o, final, now)
            else Untouched(db.orders[o], p, o)
  {
    hide AdoptListed, Flat, IndexOf, Names, IndexReady, IndexSound, AllTrue, TruthfulBroker, UniqueClients, Ended, FindLocal, WithLeg;
    if n > 0 {
      var flat := Flat(broker.open);
      assert flat[..n][..n - 1] == flat[..n - 1];
      var p := AdoptAllListed(StartPass(db), flat[..n - 1], now, true, keys);
      var steps := ListedSteps(StartPass(db), flat[..n - 1], now, keys);
      AdoptListedAdvances(p, flat[n - 1], now, true, keys);
      FewerAreUnique(p.db.orders, AdoptListed(p, flat[n - 1], now, true, keys).db.orders);
      ListingEnds(m, broker, db, n - 1, now, keys, o, final);
      ListedStaysTrue(m, broker, db, now, true, keys, n - 1);
      ListingIsReady(db, flat, n - 1, now, keys);
      if NamedWithin(flat, n - 1, db.orders[o]) {
        EndedStays(p, steps, flat[n - 1], now, keys, o, final);
      } else if Names(db.orders[o], flat[n - 1].order) {
        EntryEnds(m, broker, db, p, steps, n - 1, now, keys, o, final);
      } else {
        EntryElsewhere(p, flat[n - 1], now, keys, o, db.orders[o]);
      }
    }
  }

  // ── The deficit sweep ────────────────────────────────────────────

  lemma {:induction false} SweepStepsGrow(db: Db, start: Db, n: nat, k: nat, broker: Broker, now: Time, keys: Keys)
    requires n <= k <= |db.orders| && k <= |start.orders|
    ensures SweepSteps(db, start, n, broker, now, keys) <= SweepSteps(db, start, k, broker, now, keys)
  {
    hide Sweep, Deficient, Lookup;
    if n < k {
      SweepStepsGrow(db, start, n, k - 1, broker, now, keys);
    }
  }

  /** A deficit of a row whose lookup answers with its end is swept with that end. */
  lemma DeficitEnds(recovered: Db, broker: Broker, now: Time, keys: Keys, o: nat, final: BrokerOrder)
    requires o < |recovered.orders| && Deficient(recovered, o) && Lookup(broker, recovered.orders[o]) == Some(final)
    ensures SnapshotOf(o, final, now) in SweepSteps(recovered, recovered, |recovered.orders|, broker, now, keys)
  {
    hide Lookup, Deficient;
    ReconcileGaps.SweepElsewhere(recovered, recovered, o, broker, now, keys, o);
    SweepStepsGrow(recovered, recovered, o + 1, |recovered.orders|, broker, now, keys);
    var steps, all := SweepSteps(recovered, recovered, o + 1, broker, now, keys), SweepSteps(recovered, recovered, |recovered.orders|, broker, now, keys);
    assert steps[|steps| - 1] == SnapshotOf(o, final, now);
    assert all[|steps| - 1] == steps[|steps| - 1];
  }

  // ── The whole reconcile ──────────────────────────────────────────

  /** A snapshot of the end is among the steps, or the ledger had reached it before the sweep. */
  ghost predicate LedgerReaches(db: Db, broker: Broker, now: Time, keys: Keys, o: nat, final: BrokerOrder) {
    || SnapshotOf(o, final, now) in ReconcileSteps(db, broker, now, keys)
    || AppliedLedger(Recovered(db, broker, now, true, keys).pass.db.fills, o).qty >= final.filledQty
  }

  /** Listed: the listing pass settles the row, and every later pass leaves it so. */
  lemma ListedEnds(m: Market, db: Db, broker: Broker, now: Time, keys: Keys, o: nat, final: BrokerOrder)
    requires TruthfulBroker(m, broker) && AllTrue(m, db.orders) && o < |db.orders|
    requires IsEnd(final) && m.final(db.orders[o].clientId) == Some(final)
    requires ListsRow(Flat(broker.open), db.orders[o]) && AnswersEnd(broker, db.orders[o], final)
    requires UniqueClients(Recovered(db, broker, now, true, keys).pass.db.orders)
    ensures var recovered := Recovered(db, broker, now, true, keys).pass.db;
            o < |recovered.orders| && Settles(recovered.orders[o], final)
    ensures LedgerReaches(db, broker, now, keys, o, final)
  {
    hide Flat, AdoptAllListed, Recover, Names, AllTrue, TruthfulBroker, UniqueClients, Sweep, SweepSteps, RecoverSteps, ListedSteps, AppliedLedger, IndexSound;
    var flat := Flat(broker.open);
    assert flat[..|flat|] == flat;
    var listed := AdoptAllListed(StartPass(db), flat, now, true, keys);
    var recovered := Recovered(db, broker, now, true, keys).pass.db;
    RecoverAdvances(Recovery(listed, 0), |db.orders|, flat, broker, now, true, keys);
    FewerAreUnique(listed.db.orders, recovered.orders);
    ListingEnds(m, broker, db, |flat|, now, keys, o, final);
    assert NamedWithin(flat, |flat|, db.orders[o]);
    assert Advances(listed.db.orders[o], recovered.orders[o]);
  }

  /** Not listed and alive: the straggler pass does. */
  lemma StragglerIsEnded(m: Market, db: Db, broker: Broker, now: Time, keys: Keys, o: nat, final: BrokerOrder)
    requires AllTrue(m, db.orders) && o < |db.orders| && IsEnd(final) && m.final(db.orders[o].clientId) == Some(final)
    requires !ListsRow(Flat(broker.open), db.orders[o]) && AnswersEnd(broker, db.orders[o], final)
    requires !IsAbsorbing(db.orders[o].status)
    ensures var recovered := Recovered(db, broker, now, true, keys).pass.db;
            o < |recovered.orders| && Settles(recovered.orders[o], final)
    ensures LedgerReaches(db, broker, now, keys, o, final)
  {
    hide Flat, AdoptAllListed, Recover, Names, Sweep, SweepSteps, RecoverSteps, ListedSteps, AppliedLedger, IndexSound, IsReported, Lookup;
    var flat := Flat(broker.open);
    assert flat[..|flat|] == flat;
    forall j | 0 <= j < |flat| ensures !Names(db.orders[o], flat[j].order) {
    }
    ListingElsewhere(broker, db, |flat|, now, keys, o);
    var r := Recovery(AdoptAllListed(StartPass(db), flat, now, true, keys), 0);
    assert RowTrue(m, db.orders[o]);
    StragglerEnds(r, flat, broker, now, keys, o, final);
    RecoverStepsGrow(r, o + 1, |db.orders|, flat, broker, now, keys);
    LaterStragglers(r, o + 1, |db.orders|, flat, broker, now, keys);
    var mid, recovered := Recover(r, o + 1, flat, broker, now, true, keys).pass.db, Recovered(db, broker, now, true, keys).pass.db;
    assert Advances(mid.orders[o], recovered.orders[o]);
  }

  /** Not listed and finished: it shows its end already, and a deficit is swept. */
  lemma FinishedIsEnded(m: Market, db: Db, broker: Broker, now: Time, keys: Keys, o: nat, final: BrokerOrder)
    requires AllTrue(m, db.orders) && o < |db.orders| && IsEnd(final) && m.final(db.orders[o].clientId) == Some(final)
    requires !ListsRow(Flat(broker.open), db.orders[o]) && AnswersEnd(broker, db.orders[o], final)
    requires IsAbsorbing(db.orders[o].status)
    ensures var recovered := Recovered(db, broker, now, true, keys).pass.db;
            o < |recovered.orders| && Settles(recovered.orders[o], final)
    ensures LedgerReaches(db, broker, now, keys, o, final)
  {
    hide Flat, AdoptAllListed, Recover, Names, Sweep, SweepSteps, RecoverSteps, ListedSteps, AppliedLedger, IndexSound, IsReported, Lookup;
    var flat := Flat(broker.open);
    assert flat[..|flat|] == flat;
    forall j | 0 <= j < |flat| ensures !Names(db.orders[o], flat[j].order) {
    }
    ListingElsewhere(broker, db, |flat|, now, keys, o);
    var r := Recovery(AdoptAllListed(StartPass(db), flat, now, true, keys), 0);
    assert RowTrue(m, db.orders[o]);
    ReconcileGaps.RecoverySkips(r, |db.orders|, flat, broker, now, true, keys, o);
    var recovered := Recovered(db, broker, now, true, keys).pass.db;
    if Deficient(recovered, o) {
      DeficitEnds(recovered, broker, now, keys, o, final);
    }
  }

  lemma RecoveredEnds(m: Market, db: Db, broker: Broker, now: Time, keys: Keys, o: nat, final: BrokerOrder)
    requires TruthfulBroker(m, broker) && AllTrue(m, db.orders) && o < |db.orders|
    requires IsEnd(final) && m.final(db.orders[o].clientId) == Some(final) && AnswersEnd(broker, db.orders[o], final)
    requires UniqueClients(Recovered(db, broker, now, true, keys).pass.db.orders)
    ensures var recovered := Recovered(db, broker, now, true, keys).pass.db;
            o < |recovered.orders| && Settles(recovered.orders[o], final)
    ensures LedgerReaches(db, broker, now, keys, o, final)
  {
    hide Flat, Recovered, AllTrue, TruthfulBroker, UniqueClients, LedgerReaches, Settles, AnswersEnd, ListsRow;
    if ListsRow(Flat(broker.open), db.orders[o]) {
      ListedEnds(m, db, broker, now, keys, o, final);
    } else if IsAbsorbing(db.orders[o].status) {
      FinishedIsEnded(m, db, broker, now, keys, o, final);
    } else {
      StragglerIsEnded(m, db, broker, now, keys, o, final);
    }
  }

  // ── In a run ─────────────────────────────────────────────────────

  lemma ReconcileEnds(m: Market, db: Db, txn: Txn, o: nat, final: BrokerOrder)
    requires txn.Reconcile? && txn.synthesize && TruthfulBroker(m, txn.broker) && AllTrue(m, db.orders) && o < |db.orders|
    requires IsEnd(final) && m.final(db.orders[o].clientId) == Some(final) && AnswersEnd(txn.broker, db.orders[o], final)
    requires UniqueClients(Commit(db, txn).orders)
    ensures o < |Commit(db, txn).orders| && Settles(Commit(db, txn).orders[o], final)
    ensures LedgerReaches(db, txn.broker, txn.now, txn.keys, o, final)
  {
    hide Flat, Recovered, Sweep, RetryPass, AllTrue, TruthfulBroker, UniqueClients, LedgerReaches, AnswersEnd, RowsAdvance;
    var recovered := Recovered(db, txn.broker, txn.now, true, txn.keys).pass.db;
    var swept := Sweep(recovered, recovered, |recovered.orders|, txn.broker, txn.now, txn.keys);
    RetryKeepsOrders(swept, swept.events, |swept.events|);
    SweepAdvances(recovered, recovered, |recovered.orders|, txn.broker, txn.now, txn.keys);
    FewerAreUnique(recovered.orders, swept.orders);
    RecoveredEnds(m, db, txn.broker, txn.now, txn.keys, o, final);
    SettledThrough(recovered.orders, swept.orders, o, final);
  }

  lemma SettledThrough(was: seq<Order>, now: seq<Order>, o: nat, final: BrokerOrder)
    requires RowsAdvance(was, now) && o < |was| && Settles(was[o], final) && IsEnd(final)
    ensures o < |now| && Settles(now[o], final)
  {
    assert Advances(was[o], now[o]);
  }

  lemma {:induction false} RunExtendsFills(start: seq<Fill>, steps: seq<Step>)
    ensures start <= RunFrom(Exact, start, steps)
  {
    hide StepFills;
    if steps != [] {
      RunExtendsFills(start, steps[..|steps| - 1]);
    }
  }

  /** What the ledger had recorded before the sweep it has recorded still. */
  lemma RecoveredIsRecorded(db: Db, txn: Txn)
    requires txn.Reconcile? && txn.synthesize
    ensures Recovered(db, txn.broker, txn.now, true, txn.keys).pass.db.fills <= Commit(db, txn).fills
  {
    hide AdoptAllListed, Recover, Sweep, RetryPass, SweepSteps, RunFrom;
    var recovered := Recovered(db, txn.broker, txn.now, true, txn.keys).pass.db;
    var swept := Sweep(recovered, recovered, |recovered.orders|, txn.broker, txn.now, txn.keys);
    SweepActs(recovered, recovered, |recovered.orders|, txn.broker, txn.now, txn.keys);
    RunExtendsFills(recovered.fills, SweepSteps(recovered, recovered, |recovered.orders|, txn.broker, txn.now, txn.keys));
    RetryKeepsOrders(swept, swept.events, |swept.events|);
  }

  lemma {:induction false} CommitsExtendFills(db: Db, run: seq<Txn>, n: nat)
    requires n <= |run|
    ensures CommitAll(db, run[..n]).fills <= CommitAll(db, run).fills
  {
    hide Commit, StepsOf, RunFrom;
    if n < |run| {
      var last := |run| - 1;
      var before := CommitAll(db, run[..last]);
      CommitsExtendFills(db, run[..last], n);
      assert run[..last][..n] == run[..n];
      TxnActs(before, run[last]);
      RunExtendsFills(before.fills, StepsOf(before, run[last]));
    } else {
      assert run[..n] == run;
    }
  }

  lemma MoreFillsMore(was: seq<Fill>, now: seq<Fill>, order: nat)
    requires was <= now && LedgerOk(now)
    ensures AppliedLedger(was, order).qty <= AppliedLedger(now, order).qty
  {
    var more := now[|was|..];
    assert now == was + more;
    SumConcat(was, more, QtyOf(order));
    forall i | 0 <= i < |more| ensures QtyOf(order)(more[i]) >= 0.0 {
      assert more[i] == now[|was| + i];
    }
    SumIsNonNegative(more, QtyOf(order));
  }

  /** A truthful event's execution is one of the trace's, so it fills something. */
  lemma TruthfulIsPositive(m: Market, db: Db, run: seq<Txn>)
    requires MarketOk(m) && TruthfulRun(m, db, run)
    ensures PositiveFills(run)
  {
    hide CommitAll, Reports;
    forall i | 0 <= i < |run| && run[i].Stream? && IsExecution(run[i].u) ensures run[i].u.qty.value > 0.0 {
      var u := run[i].u;
      assert TruthfulTxn(m, CommitAll(db, run[..i]), run[i]);
      var trace := m.trace(m.owner(u.order.brokerId));
      var k :| EventAt(trace, k, u);
      EventIsInside(trace, k, u);
      assert PlainTrace(Exact, trace);
    }
  }

  lemma EventIsInside(trace: Trace, k: nat, u: TradeUpdate)
    requires EventAt(trace, k, u)
    ensures k <= |trace|
  {
  }

  lemma SnapshotIsStep(db: Db, run: seq<Txn>, i: nat, o: nat, final: BrokerOrder) returns (k: nat)
    requires i < |run| && run[i].Reconcile? && run[i].synthesize
    requires SnapshotOf(o, final, run[i].now) in ReconcileSteps(CommitAll(db, run[..i]), run[i].broker, run[i].now, run[i].keys)
    ensures k < |RunSteps(db, run)| && RunSteps(db, run)[k] == SnapshotOf(o, final, run[i].now)
  {
    hide CommitAll, ReconcileSteps;
    assert run[..i + 1][..i] == run[..i];
    var own := ReconcileSteps(CommitAll(db, run[..i]), run[i].broker, run[i].now, run[i].keys);
    var j :| 0 <= j < |own| && own[j] == SnapshotOf(o, final, run[i].now);
    assert StepsOf(CommitAll(db, run[..i]), run[i]) == own;
    k := |RunSteps(db, run[..i])| + j;
    assert RunSteps(db, run[..i + 1])[k] == own[j];
    StepsGrow(db, run, i + 1);
  }

  /** The ledger has reached what the reconcile learned. */
  lemma LearnedIsRecorded(m: Market, db: Db, run: seq<Txn>, i: nat, o: nat, final: BrokerOrder)
    requires MarketOk(m) && AllTrue(m, db.orders) && db.fills == [] && TruthfulRun(m, db, run)
    requires UniqueClients(CommitAll(db, run).orders) && o < |CommitAll(db, run).orders|
    requires i < |run| && run[i].Reconcile? && run[i].synthesize
    requires LedgerReaches(CommitAll(db, run[..i]), run[i].broker, run[i].now, run[i].keys, o, final)
    ensures AppliedLedger(CommitAll(db, run).fills, o).qty >= final.filledQty
  {
    hide CommitAll, MarketOk, AllTrue, TruthfulRun, UniqueClients, AppliedLedger, LedgerOk, ReconcileSteps, Recovered, RunSteps, IsReported, Cum, LargestReported;
    var before := CommitAll(db, run[..i]);
    if SnapshotOf(o, final, run[i].now) in ReconcileSteps(before, run[i].broker, run[i].now, run[i].keys) {
      var n := SnapshotIsStep(db, run, i, o, final);
      var k := MixedRunIsPrefix(m, db, run, o);
      assert Reported(RunSteps(db, run)[n]) <= AppliedLedger(CommitAll(db, run).fills, o).qty;
    } else {
      TruthfulIsPositive(m, db, run);
      RunReachesLargestReported(db, run, o);
      RecoveredIsRecorded(before, run[i]);
      CommitIsNext(db, run, i);
      CommitsExtendFills(db, run, i + 1);
      MoreFillsMore(Recovered(before, run[i].broker, run[i].now, true, run[i].keys).pass.db.fills, CommitAll(db, run).fills, o);
    }
  }

  lemma CommitIsNext(db: Db, run: seq<Txn>, i: nat)
    requires i < |run|
    ensures CommitAll(db, run[..i + 1]) == Commit(CommitAll(db, run[..i]), run[i])
  {
    hide Commit;
    assert run[..i + 1][..i] == run[..i];
  }

  /** End to end for an end nobody streamed: once a synthesizing reconcile has been told an order's end, by the
      list or by a lookup, wherever in the run and whoever writes before and after it, the order's row shows
      that end, its ledger is its whole trace, and the two agree. */
  lemma LearnedEndSettlesRowAndLedger(m: Market, db: Db, run: seq<Txn>, i: nat, o: nat, final: BrokerOrder)
    requires MarketOk(m) && AllTrue(m, db.orders) && db.fills == [] && TruthfulRun(m, db, run)
    requires UniqueClients(CommitAll(db, run).orders)
    requires i < |run| && run[i].Reconcile? && run[i].synthesize && o < |CommitAll(db, run[..i]).orders|
    requires var row := CommitAll(db, run[..i]).orders[o];
             m.final(row.clientId) == Some(final) && AnswersEnd(run[i].broker, row, final)
    ensures var after := CommitAll(db, run);
            && o < |after.orders| && Settles(after.orders[o], final)
            && AppliedLedger(after.fills, o) == Cum(m.trace(after.orders[o].clientId), |m.trace(after.orders[o].clientId)|)
            && AppliedLedger(after.fills, o).qty == after.orders[o].filledQty
  {
    hide CommitAll, TruthfulRun, RunSteps, AppliedLedger, Cum, AllTrue, PlainTrace, Commit, AnswersEnd, TruthfulBroker, UniqueClients, LedgerReaches, IsReported, Reports;
    var before, c := CommitAll(db, run[..i]), CommitAll(db, run[..i]).orders[o].clientId;
    EndIsWhole(m, c);
    TruthfulBefore(m, db, run, i);
    RunStaysTrue(m, db, run[..i]);
    TruthfulAt(m, db, run, i);
    CommitIsNext(db, run, i);
    RunKeepsClients(db, run, i);
    RunKeepsClients(db, run, i + 1);
    EarlierAreUnique(CommitAll(db, run[..i + 1]).orders, CommitAll(db, run).orders);
    ReconcileEnds(m, before, run[i], o, final);
    TxnKeepsClients(before, run[i]);
    SettledForGood(m, db, run, i + 1, o, final);
    LearnedIsRecorded(m, db, run, i, o, final);
    var k := MixedRunIsPrefix(m, db, run, o);
    WholeIsLargest(m.trace(c), k);
    SettledQty(CommitAll(db, run).orders[o], final);
  }

  lemma EarlierAreUnique(was: seq<Order>, now: seq<Order>)
    requires ClientsStay(was, now) && UniqueClients(now)
    ensures UniqueClients(was)
  {
  }

  lemma EndIsWhole(m: Market, c: ClientId)
    requires MarketOk(m) && m.final(c).Some?
    ensures IsEnd(m.final(c).value) && PlainTrace(Exact, m.trace(c))
    ensures m.final(c).value.filledQty == Cum(m.trace(c), |m.trace(c)|).qty
  {
    hide PlainTrace, Cum;
  }

  lemma TruthfulAt(m: Market, db: Db, run: seq<Txn>, i: nat)
    requires TruthfulRun(m, db, run) && i < |run| && run[i].Reconcile?
    ensures TruthfulBroker(m, run[i].broker)
  {
    hide TruthfulBroker, CommitAll;
    assert TruthfulTxn(m, CommitAll(db, run[..i]), run[i]);
  }
}
