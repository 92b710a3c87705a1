/** The one kind of row for which a reconcile takes two: so when it takes one is known exactly. */
module ReconcileLate {
  import opened Domain
  import opened Tables
  import opened FillLedger
  import opened OrderRows
  import opened Remainders
  import opened TradeUpdates
  import opened Reconciliation
  import opened Books
  import opened DbRuns
  import opened DbLedger
  import opened OrderConfluence
  import opened ReconcileQuiet
  import opened ReconcileListing
  import opened ReconcileTwice
  import opened Evidence
  import ReconcileGaps

  // ── No pass gives a late row a child ─────────────────────────────

  /** None of the new rows is a child of this one. */
  ghost predicate Childless(was: seq<Order>, now: seq<Order>, o: nat) {
    |was| <= |now| && forall r :: |was| <= r < |now| ==> now[r].parent != Some(o)
  }

  lemma ChildlessThrough(a: seq<Order>, b: seq<Order>, c: seq<Order>, o: nat)
    requires Childless(a, b, o) && Childless(b, c, o) && RowsAdvance(b, c)
    ensures Childless(a, c, o)
  {
    forall r | |a| <= r < |b| ensures c[r].parent != Some(o) {
      assert Advances(b[r], c[r]);
    }
  }

  lemma LegsOfAnother(orders: seq<Order>, i: nat, legs: seq<BrokerOrder>, now: Time, o: nat)
    requires i < |orders| && i != o
    ensures Childless(orders, orders + NewLegs(orders, i, legs, now), o)
  {
    hide NewLegs, KnownLeg;
    var all := orders + NewLegs(orders, i, legs, now);
    forall r | |orders| <= r < |all| ensures all[r].parent != Some(o) {
      var k := NewLegIs(orders, i, legs, now, r - |orders|);
    }
  }

  /** A listed parent is no unlisted row's. */
  lemma ParentIsAnother(broker: Broker, db: Db, p: Pass, done: seq<Listed>, j: nat, o: nat)
    requires Coherent(broker) && Housed(broker, db.orders) && Listing(broker, db, p, done) && j < |Flat(broker.open)|
    requires o < |db.orders| && !ListsRow(Flat(broker.open), db.orders[o]) && Flat(broker.open)[j].parent.Some?
    ensures var found := FindLocal(p.index, Flat(broker.open)[j].parent.value);
            found.Some? ==> found.value < |p.db.orders| && found.value != o
  {
    hide Coherent, Known, Flat, DbOk, FreshLeg, Caught, FamilyThere, SameRow, RowsAdvance, UniqueRows, LegsHoused, Identified, Names, Lookup, IndexReady, FindLocal;
    var flat := Flat(broker.open);
    var parent := flat[j].parent.value;
    ReadyIsNamed(db, p.index, p.db.orders, parent);
    ListedIsKnown(broker, j);
    FlatIsOpen(broker.open, j);
    var i :| 0 <= i < |broker.open| && broker.open[i] == parent;
    var k := ReconcileGaps.OpenIsListed(broker.open, i);
    assert !Names(db.orders[o], flat[k].order);
    if FindLocal(p.index, parent) == Some(o) {
      assert Identified(broker, db.orders[o]) && Identified(broker, p.db.orders[o]);
      NamedBefore(broker, db.orders[o], p.db.orders[o], parent);
    }
  }

  lemma FamilyIsChildless(p: Pass, entry: Listed, now: Time, o: nat)
    requires IndexInRange(p.index, |p.db.orders|)
    requires entry.parent.Some? && FindLocal(p.index, entry.parent.value).Some? ==> FindLocal(p.index, entry.parent.value).value != o
    ensures Childless(p.db.orders, WithLeg(p, entry, now).db.orders, o)
  {
    hide NewLegs, FindBrokerId, Indexed;
    if entry.parent.Some? {
      var found := FindLocal(p.index, entry.parent.value);
      if found.Some? {
        LegsOfAnother(p.db.orders, found.value, entry.parent.value.legs, now, o);
      }
    }
  }

  lemma EntryIsChildless(broker: Broker, db: Db, p: Pass, done: seq<Listed>, j: nat, now: Time, keys: Keys, o: nat)
    requires Coherent(broker) && Housed(broker, db.orders) && Listing(broker, db, p, done) && j < |Flat(broker.open)|
    requires IndexInRange(p.index, |p.db.orders|) && o < |db.orders| && !ListsRow(Flat(broker.open), db.orders[o])
    ensures Childless(p.db.orders, AdoptListed(p, Flat(broker.open)[j], now, true, keys).db.orders, o)
  {
    hide Coherent, Flat, Listing, Housed, ListsRow, Adopt, NewLegs, FindLocal, WithLeg, Childless;
    var entry := Flat(broker.open)[j];
    if entry.parent.Some? {
      ParentIsAnother(broker, db, p, done, j, o);
    }
    FamilyIsChildless(p, entry, now, o);
    AdoptedIsChildless(WithLeg(p, entry, now), entry, now, keys, p.db.orders, o);
  }

  lemma AdoptedIsChildless(q: Pass, entry: Listed, now: Time, keys: Keys, was: seq<Order>, o: nat)
    requires IndexInRange(q.index, |q.db.orders|) && Childless(was, q.db.orders, o)
    ensures var local := FindLocal(q.index, entry.order);
            local.Some? ==> local.value < |q.db.orders| && Childless(was, Adopt(q.db, local.value, entry.order, now, true, keys).orders, o)
  {
    hide Adopt;
    var local := FindLocal(q.index, entry.order);
    if local.Some? {
      AdoptAdvances(q.db, local.value, entry.order, now, true, keys);
      var after := Adopt(q.db, local.value, entry.order, now, true, keys).orders;
      assert Advances(q.db.orders[local.value], after[local.value]);
    }
  }

  lemma {:induction false} ListingIsChildless(broker: Broker, db: Db, n: nat, now: Time, keys: Keys, o: nat)
    requires Plausible(broker, db) && n <= |Flat(broker.open)| && o < |db.orders| && !ListsRow(Flat(broker.open), db.orders[o])
    ensures Childless(db.orders, AdoptAllListed(StartPass(db), Flat(broker.open)[..n], now, true, keys).db.orders, o)
  {
    hide DbOk, Coherent, Bracketed, Housed, Flat, AdoptListed, IndexOf, ListsRow, Listing;
    if n > 0 {
      var flat := Flat(broker.open);
      ListingIsChildless(broker, db, n - 1, now, keys, o);
      assert flat[..n][..n - 1] == flat[..n - 1];
      ListingReaches(broker, db, now, keys, n - 1);
      var p := AdoptAllListed(StartPass(db), flat[..n - 1], now, true, keys);
      EntryIsChildless(broker, db, p, flat[..n - 1], n - 1, now, keys, o);
      AdoptListedAdvances(p, flat[n - 1], now, true, keys);
      ChildlessThrough(db.orders, p.db.orders, AdoptListed(p, flat[n - 1], now, true, keys).db.orders, o);
    }
  }

  lemma StragglerIsChildless(r: Recovery, i: nat, flat: seq<Listed>, broker: Broker, now: Time, keys: Keys, o: nat)
    requires i < |r.pass.db.orders| && o < |r.pass.db.orders| && (i != o || Skipped(r.pass, i, flat))
    ensures Childless(r.pass.db.orders, RecoverOne(r, i, flat, broker, now, true, keys).pass.db.orders, o)
  {
    hide Adopt, NewLegs, Lookup, Skipped;
    var found := Lookup(broker, r.pass.db.orders[i]);
    if i != o && found.Some? {
      AdoptAdvances(r.pass.db, i, found.value, now, true, keys);
      LegsOfAnother(Adopt(r.pass.db, i, found.value, now, true, keys).orders, i, found.value.legs, now, o);
    }
  }

  lemma {:induction false} RecoveryIsChildless(r: Recovery, n: nat, flat: seq<Listed>, broker: Broker, now: Time, keys: Keys, o: nat)
    requires n <= |r.pass.db.orders| && o < |r.pass.db.orders| && (n <= o || IsAbsorbing(r.pass.db.orders[o].status))
    ensures Childless(r.pass.db.orders, Recover(r, n, flat, broker, now, true, keys).pass.db.orders, o)
  {
    hide RecoverOne, RowsAdvance;
    if n > 0 {
      RecoveryIsChildless(r, n - 1, flat, broker, now, keys, o);
      var before := Recover(r, n - 1, flat, broker, now, true, keys);
      if n > o {
        ReconcileGaps.RecoverySkips(r, n - 1, flat, broker, now, true, keys, o);
      }
      StragglerIsChildless(before, n - 1, flat, broker, now, keys, o);
      RecoverOneAdvances(before, n - 1, flat, broker, now, true, keys);
      ChildlessThrough(r.pass.db.orders, before.pass.db.orders, Recover(r, n, flat, broker, now, true, keys).pass.db.orders, o);
    }
  }

  // ── What the first reconcile leaves of it ────────────────────────

  /** Without a new child, a row knows no leg it did not know. */
  lemma KnownBefore(broker: Broker, was: seq<Order>, now: seq<Order>, o: nat, leg: BrokerOrder)
    requires Coherent(broker) && Known(broker, leg) && Housed(broker, was) && Housed(broker, now)
    requires RowsAdvance(was, now) && SameLookups(broker, was, now) && Childless(was, now, o) && KnownLeg(now, o, leg)
    ensures KnownLeg(was, o, leg)
  {
    hide Coherent, Known, UniqueRows, LegsHoused, Identified, Lookup;
    var r :| 0 <= r < |now| && now[r].parent == Some(o)
      && (now[r].brokerId == Some(leg.brokerId) || (leg.clientId.Some? && now[r].clientId == leg.clientId.value));
    assert Names(now[r], leg);
    assert Advances(was[r], now[r]);
    assert Identified(broker, was[r]) && Identified(broker, now[r]);
    NamedBefore(broker, was[r], now[r], leg);
    NamedChildIsKnown(was, o, leg, r);
  }

  lemma LegsKnownBefore(broker: Broker, was: seq<Order>, now: seq<Order>, o: nat, bo: BrokerOrder)
    requires Coherent(broker) && KnownWithLegs(broker, bo) && Housed(broker, was) && Housed(broker, now)
    requires RowsAdvance(was, now) && SameLookups(broker, was, now) && Childless(was, now, o) && LegsKnown(now, o, bo.legs)
    ensures LegsKnown(was, o, bo.legs)
  {
    hide Coherent, Known, Housed, RowsAdvance, SameLookups, Childless, KnownLeg;
    forall k | 0 <= k < |bo.legs| && bo.legs[k].clientId.Some? ensures KnownLeg(was, o, bo.legs[k]) {
      KnownBefore(broker, was, now, o, bo.legs[k]);
    }
  }

  /** What both reconciles can rely on about the row. */
  ghost predicate Carries(broker: Broker, was: seq<Order>, now: seq<Order>, o: nat) {
    Housed(broker, now) && RowsAdvance(was, now) && SameLookups(broker, was, now) && Childless(was, now, o)
  }

  lemma {:induction false} SweptLate(db: Db, start: Db, n: nat, broker: Broker, now: Time, keys: Keys, o: nat)
    requires n <= |db.orders| && n <= |start.orders| && o < n && Deficient(start, o) && Lookup(broker, db.orders[o]).Some?
    ensures Sweep(db, start, n, broker, now, keys).orders[o] == Adopted(db.orders[o], Lookup(broker, db.orders[o]).value)
  {
    hide Adopt, CatchUp, InsertFill, Lookup, Deficient, Adopted;
    var before := Sweep(db, start, n - 1, broker, now, keys);
    if o < n - 1 {
      SweptLate(db, start, n - 1, broker, now, keys, o);
      SweepOneOrders(before, n - 1, broker, now, keys);
    } else {
      ReconcileGaps.SweepElsewhere(db, start, o, broker, now, keys, o);
      AdoptAdvances(before, o, Lookup(broker, before.orders[o]).value, now, true, keys);
    }
  }

  lemma SameRowIsDeficient(db: Db, now: Db, o: nat)
    requires SameRow(db, now, o) && o < |db.orders| && Deficient(db, o)
    ensures o < |now.orders| && Deficient(now, o)
  {
    hide AppliedLedger;
  }

  /** After the first reconcile the row is alive again, and still without its legs. */
  lemma OnceOfLate(broker: Broker, db: Db, now: Time, keys: Keys, o: nat)
    requires Plausible(broker, db) && IsLate(broker, db, o)
    ensures var once := Reconciled(db, broker, now, true, keys);
            && Carries(broker, db.orders, once.orders, o)
            && o < |once.orders| && once.orders[o] == Adopted(db.orders[o], Lookup(broker, db.orders[o]).value)
            && DbOk(once)
  {
    hide DbOk, Coherent, Bracketed, Housed, Flat, AdoptAllListed, Recover, Sweep, RetryPass, Adopted, Lookup, LegsKnown, QuietRow, Ready, Handled, FreshLeg, Caught, FamilyThere, ListsRow, Deficient, RowsAdvance, Childless, SameLookups;
    var flat := Flat(broker.open);
    assert flat[..|flat|] == flat;
    var listed := AdoptAllListed(StartPass(db), flat, now, true, keys);
    var recovered := Recovered(db, broker, now, true, keys).pass.db;
    var swept := Sweep(recovered, recovered, |recovered.orders|, broker, now, keys);
    ReconciledKeepsOk(db, broker, now, true, keys);
    FirstPassRecovers(broker, db, now, keys);
    SweepReaches(broker, recovered, |recovered.orders|, now, keys);
    assert SameRow(db, recovered, o);
    SameRowIsDeficient(db, recovered, o);
    SweptLate(recovered, recovered, |recovered.orders|, broker, now, keys, o);
    RetryKeepsOrders(swept, swept.events, |swept.events|);
    ListingIsChildless(broker, db, |flat|, now, keys, o);
    ListedLateIsAbsorbing(broker, db, now, keys, o);
    RecoveryIsChildless(Recovery(listed, 0), |db.orders|, flat, broker, now, keys, o);
    RecoverAdvances(Recovery(listed, 0), |db.orders|, flat, broker, now, true, keys);
    ChildlessThrough(db.orders, listed.db.orders, recovered.orders, o);
    SameCountIsChildless(db.orders, recovered.orders, swept.orders, o);
    AdvancesChain(db.orders, recovered.orders, swept.orders);
    LookupsThrough(broker, db.orders, recovered.orders, swept.orders);
  }

  lemma ListedLateIsAbsorbing(broker: Broker, db: Db, now: Time, keys: Keys, o: nat)
    requires Plausible(broker, db) && IsLate(broker, db, o)
    ensures var listed := AdoptAllListed(StartPass(db), Flat(broker.open), now, true, keys);
            o < |listed.db.orders| && IsAbsorbing(listed.db.orders[o].status)
  {
    hide DbOk, Coherent, Bracketed, Housed, Flat, AdoptAllListed, Adopted, Lookup, LegsKnown, Handled, FreshLeg, Caught, FamilyThere, ListsRow, Deficient, RowsAdvance, SameLookups;
    PassRecovers(broker, db, 0, now, keys);
    assert SameRow(db, AdoptAllListed(StartPass(db), Flat(broker.open), now, true, keys).db, o);
  }

  lemma SameCountIsChildless(a: seq<Order>, b: seq<Order>, c: seq<Order>, o: nat)
    requires Childless(a, b, o) && RowsAdvance(b, c) && |c| == |b|
    ensures Childless(a, c, o)
  {
    forall r | |a| <= r < |c| ensures c[r].parent != Some(o) {
      assert Advances(b[r], c[r]);
    }
  }

  lemma LookupsThrough(broker: Broker, a: seq<Order>, b: seq<Order>, c: seq<Order>)
    requires SameLookups(broker, a, b) && SameLookups(broker, b, c)
    ensures SameLookups(broker, a, c)
  {
    hide Lookup;
  }

  // ── What the second reconcile adds ───────────────────────────────

  /** Whatever is alive, unlisted and known has its named legs persisted when the straggler pass gets to it. */
  lemma StragglerUnfolds(broker: Broker, db: Db, p: Recovery, now: Time, keys: Keys, o: nat, bo: BrokerOrder)
    requires o < |p.pass.db.orders| && !Skipped(p.pass, o, Flat(broker.open)) && Lookup(broker, p.pass.db.orders[o]) == Some(bo)
    requires bo.bracket && p.pass.db.orders[o].parent.None?
    requires !LegsKnown(Adopt(p.pass.db, o, bo, now, true, keys).orders, o, bo.legs)
    ensures |RecoverOne(p, o, Flat(broker.open), broker, now, true, keys).pass.db.orders| > |p.pass.db.orders|
  {
    hide Adopt, NewLegs, Lookup, Skipped, KnownLeg, Flat;
    AdoptAdvances(p.pass.db, o, bo, now, true, keys);
    var adopted := Adopt(p.pass.db, o, bo, now, true, keys).orders;
    assert Advances(p.pass.db.orders[o], adopted[o]);
    UnknownLegsAreNew(adopted, o, bo.legs, now);
  }

  lemma UnknownLegsAreNew(orders: seq<Order>, o: nat, legs: seq<BrokerOrder>, now: Time)
    requires o < |orders| && !LegsKnown(orders, o, legs)
    ensures NewLegs(orders, o, legs, now) != [] && legs != []
  {
    hide NewLegs, KnownLeg;
    var k :| 0 <= k < |legs| && legs[k].clientId.Some? && !KnownLeg(orders, o, legs[k]);
    EveryNamedLegIsThere(orders, o, legs, now, k);
    assert orders + [] == orders;
  }

  /** The second reconcile comes to the row with nothing changed about it, and does not pass over it. */
  lemma SecondComesToIt(broker: Broker, db: Db, once: Db, now: Time, keys: Keys, o: nat)
    requires Plausible(broker, db) && IsLate(broker, db, o) && DbOk(once) && Carries(broker, db.orders, once.orders, o)
    requires o < |once.orders| && once.orders[o] == Adopted(db.orders[o], Lookup(broker, db.orders[o]).value)
    ensures var r := Recover(Recovery(AdoptAllListed(StartPass(once), Flat(broker.open), now, true, keys), 0), o, Flat(broker.open), broker, now, true, keys);
            && o < |r.pass.db.orders| && SameRow(once, r.pass.db, o) && DbOk(r.pass.db)
            && Carries(broker, once.orders, r.pass.db.orders, o) && !Skipped(r.pass, o, Flat(broker.open))
  {
    hide DbOk, Coherent, Bracketed, UniqueRows, LegsHoused, Identified, Flat, AdoptAllListed, Recover, Adopted, LegsKnown, Handled, FreshLeg, Caught, FamilyThere, Deficient, RowsAdvance, Childless, Names, Lookup, Skipped, Known;
    var flat := Flat(broker.open);
    assert flat[..|flat|] == flat;
    var listed := AdoptAllListed(StartPass(once), flat, now, true, keys);
    var r := Recover(Recovery(listed, 0), o, flat, broker, now, true, keys);
    assert Plausible(broker, once);
    ListedBefore(broker, db.orders[o], once.orders[o]);
    ListingIsChildless(broker, once, |flat|, now, keys, o);
    ListedAdvances(StartPass(once), flat, now, true, keys);
    RecoveryIsChildless(Recovery(listed, 0), o, flat, broker, now, keys, o);
    RecoverAdvances(Recovery(listed, 0), o, flat, broker, now, true, keys);
    ChildlessThrough(once.orders, listed.db.orders, r.pass.db.orders, o);
    PassRecovers(broker, once, o, now, keys);
    StaysUnlisted(broker, once, r.pass, o, now);
    AliveIsNotSkipped(broker, once, r.pass, o, now);
  }

  lemma StaysUnlisted(broker: Broker, once: Db, p: Pass, o: nat, now: Time)
    requires Coherent(broker) && Recovering(broker, once, p.db, p.matched, o, now) && Housed(broker, once.orders)
    requires o < |once.orders| && !ListsRow(Flat(broker.open), once.orders[o])
    ensures o !in p.matched && SameRow(once, p.db, o)
  {
    hide DbOk, Coherent, UniqueRows, LegsHoused, Identified, Flat, Handled, FreshLeg, Caught, FamilyThere, RowsAdvance, Lookup, AppliedLedger, IsLate, Names;
    if o in p.matched {
      ListedBefore(broker, once.orders[o], p.db.orders[o]);
    }
  }

  lemma AliveIsNotSkipped(broker: Broker, once: Db, p: Pass, o: nat, now: Time)
    requires o < |once.orders| && SameRow(once, p.db, o) && o !in p.matched && !IsAbsorbing(once.orders[o].status)
    requires !ListsRow(Flat(broker.open), once.orders[o])
    ensures !Skipped(p, o, Flat(broker.open))
  {
    hide Flat, AppliedLedger;
    var flat, row := Flat(broker.open), once.orders[o];
    forall k | 0 <= k < |flat| ensures row.brokerId != Some(flat[k].order.brokerId) {
      assert !Names(row, flat[k].order);
    }
  }

  /** A late row takes two reconciles: the second makes the rows of its legs. */
  lemma LateTakesTwo(broker: Broker, db: Db, now: Time, keys: Keys, again: Keys, o: nat)
    requires Plausible(broker, db) && IsLate(broker, db, o)
    ensures var once := Reconciled(db, broker, now, true, keys);
            |Reconciled(once, broker, now, true, again).orders| > |once.orders|
  {
    OnceOfLate(broker, db, now, keys, o);
    hide DbOk, Coherent, Bracketed, Housed, Flat, AdoptAllListed, Recover, RecoverOne, Reconciled, Adopted, LegsKnown, Lookup, Carries, SameRow, Adopt, Deficient, ListsRow, Skipped, AppliedLedger;
    var once := Reconciled(db, broker, now, true, keys);
    var bo := Lookup(broker, db.orders[o]).value;
    SecondComesToIt(broker, db, once, now, again, o);
    var start := Recovery(AdoptAllListed(StartPass(once), Flat(broker.open), now, true, again), 0);
    var r := Recover(start, o, Flat(broker.open), broker, now, true, again);
    RowsOfLate(broker, db, once, r.pass.db, now, again, o);
    StragglerUnfolds(broker, once, r, now, again, o, bo);
    SecondGrows(broker, once, now, again, o);
  }

  lemma SecondGrows(broker: Broker, once: Db, now: Time, keys: Keys, o: nat)
    requires o < |once.orders|
    ensures var start := Recovery(AdoptAllListed(StartPass(once), Flat(broker.open), now, true, keys), 0);
            var r := Recover(start, o, Flat(broker.open), broker, now, true, keys);
            && |once.orders| <= |r.pass.db.orders|
            && |RecoverOne(r, o, Flat(broker.open), broker, now, true, keys).pass.db.orders| <= |Reconciled(once, broker, now, true, keys).orders|
  {
    hide AdoptAllListed, Recover, RecoverOne, Sweep, RetryPass, Flat;
    var start := Recovery(AdoptAllListed(StartPass(once), Flat(broker.open), now, true, keys), 0);
    RecoverNext(start, o, Flat(broker.open), broker, now, keys);
    LaterStragglers(start, o + 1, |once.orders|, Flat(broker.open), broker, now, keys);
    var recovered := Recovered(once, broker, now, true, keys).pass.db;
    var swept := Sweep(recovered, recovered, |recovered.orders|, broker, now, keys);
    RetryKeepsOrders(swept, swept.events, |swept.events|);
  }

  lemma RecoverNext(r: Recovery, n: nat, flat: seq<Listed>, broker: Broker, now: Time, keys: Keys)
    requires n < |r.pass.db.orders|
    ensures Recover(r, n + 1, flat, broker, now, true, keys) == RecoverOne(Recover(r, n, flat, broker, now, true, keys), n, flat, broker, now, true, keys)
  {
  }

  /** It comes to it with the order, and without the legs, it had at the start. */
  lemma RowsOfLate(broker: Broker, db: Db, once: Db, mid: Db, now: Time, keys: Keys, o: nat)
    requires Plausible(broker, db) && IsLate(broker, db, o) && DbOk(mid)
    requires o < |once.orders| && once.orders[o] == Adopted(db.orders[o], Lookup(broker, db.orders[o]).value)
    requires Carries(broker, db.orders, once.orders, o) && Carries(broker, once.orders, mid.orders, o) && SameRow(once, mid, o)
    ensures var bo := Lookup(broker, db.orders[o]).value;
            && Lookup(broker, mid.orders[o]) == Some(bo) && bo.bracket && mid.orders[o].parent.None?
            && !LegsKnown(Adopt(mid, o, bo, now, true, keys).orders, o, bo.legs)
  {
    hide DbOk, Coherent, Bracketed, UniqueRows, LegsHoused, Flat, Adopt, LegsKnown, Lookup, Names, Known, AppliedLedger, Childless, RowsAdvance, Deficient, ListsRow;
    var bo := Lookup(broker, db.orders[o]).value;
    LookupIn(broker, db.orders, once.orders, o);
    LookupIn(broker, once.orders, mid.orders, o);
    HousedIsIdentified(broker, mid.orders, o);
    LookupIsKnown(broker, mid.orders[o]);
    TakesKnown(broker, mid, o, bo, now, keys);
    var after := Adopt(mid, o, bo, now, true, keys).orders;
    AdoptAdvances(mid, o, bo, now, true, keys);
    SameCountIsChildless(once.orders, mid.orders, after, o);
    AdvancesChain(once.orders, mid.orders, after);
    LookupsThrough(broker, once.orders, mid.orders, after);
    ChildlessThrough(db.orders, once.orders, after, o);
    AdvancesChain(db.orders, once.orders, after);
    LookupsThrough(broker, db.orders, once.orders, after);
    if LegsKnown(after, o, bo.legs) {
      LegsKnownBefore(broker, db.orders, after, o, bo);
    }
  }

  /** So against answers that agree, a second reconcile changes nothing exactly when the tables the first one
      started from had no such row. */
  lemma SecondReconcileExactly(broker: Broker, db: Db, now: Time, keys: Keys, again: Keys)
    requires Plausible(broker, db)
    ensures var once := Reconciled(db, broker, now, true, keys);
            SameRows(once, Reconciled(once, broker, now, true, again)) <==> NoneIsLate(broker, db)
  {
    hide DbOk, Plausible, Reconciled, IsLate;
    if NoneIsLate(broker, db) {
      SecondReconcileChangesNothing(broker, db, now, keys, again);
    } else {
      var o :| 0 <= o < |db.orders| && IsLate(broker, db, o);
      LateTakesTwo(broker, db, now, keys, again, o);
    }
  }

  // ── Such a row ───────────────────────────────────────────────────

  const LEG := BrokerOrder(2, Some(2), 1, Sell, false, Accepted, Some(5.0), 0.0, None, None, [])
  const PARENT := BrokerOrder(1, Some(1), 1, Buy, true, PartiallyFilled, Some(5.0), 2.0, Some(10.0), None, [LEG])

  /** A bracket that had filled two shares when a refusal wrote it off, with those fills lost. */
  const LATE_ROW := Order(1, Some(1), None, 1, Buy, true, None, Failed, 5.0, 2.0, Some(10.0), None, 0)

  const LATE_BROKER := Broker([], map[1 := PARENT, 2 := LEG], map[1 := PARENT, 2 := LEG], [], 0.0)

  lemma LateParents(p: BrokerOrder)
    ensures IsParent(LATE_BROKER, p) <==> p == PARENT || p == LEG
  {
  }

  lemma LateBrokerAgrees()
    ensures Coherent(LATE_BROKER)
  {
    assert PARENT.legs[0] == LEG;
    assert Known(LATE_BROKER, PARENT) && Known(LATE_BROKER, LEG);
    hide Known;
    assert KnownWithLegs(LATE_BROKER, PARENT) && KnownWithLegs(LATE_BROKER, LEG);
    hide KnownWithLegs;
  }

  lemma LateBrokerNests()
    ensures Bracketed(LATE_BROKER)
  {
    forall p ensures IsParent(LATE_BROKER, p) <==> p == PARENT || p == LEG {
      LateParents(p);
    }
    hide IsParent;
  }

  lemma LateRowIsPlausible()
    ensures Plausible(LATE_BROKER, Db([LATE_ROW], [], [], [], map[], [])) && IsLate(LATE_BROKER, Db([LATE_ROW], [], [], [], map[], []), 0)
  {
    var db := Db([LATE_ROW], [], [], [], map[], []);
    LateBrokerAgrees();
    LateBrokerNests();
    LateRowIsHoused();
    LateRowRevives(db);
    hide Coherent, Bracketed, Housed, RevivesLate, DbOk;
    EmptyDbIsOk(db);
    assert !ListsRow(Flat(LATE_BROKER.open), LATE_ROW);
  }

  lemma LateRowIsHoused()
    ensures Housed(LATE_BROKER, [LATE_ROW])
  {
    forall p ensures IsParent(LATE_BROKER, p) <==> p == PARENT || p == LEG {
      LateParents(p);
    }
    hide IsParent;
    assert !Names(LATE_ROW, LEG);
  }

  lemma LateRowRevives(db: Db)
    requires db == Db([LATE_ROW], [], [], [], map[], [])
    ensures RevivesLate(LATE_BROKER, db, 0)
  {
    assert Lookup(LATE_BROKER, LATE_ROW) == Some(PARENT);
    assert AppliedLedger([], 0).qty == 0.0;
    hide AppliedLedger, Lookup;
    assert Adopted(LATE_ROW, PARENT).status == PartiallyFilled;
    assert !KnownLeg(db.orders, 0, PARENT.legs[0]);
  }

  /** And it takes two: only the second reconcile makes the row of its protective leg. */
  lemma WrittenOffBracketTakesTwo(now: Time, keys: Keys, again: Keys)
    ensures var once := Reconciled(Db([LATE_ROW], [], [], [], map[], []), LATE_BROKER, now, true, keys);
            |Reconciled(once, LATE_BROKER, now, true, again).orders| > |once.orders|
  {
    hide Plausible, IsLate, Reconciled;
    LateRowIsPlausible();
    LateTakesTwo(LATE_BROKER, Db([LATE_ROW], [], [], [], map[], []), now, keys, again, 0);
  }
}
