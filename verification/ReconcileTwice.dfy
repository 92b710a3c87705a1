/** Reconcile is idempotent: against the same answers and clock, a second pass changes no row. */
module ReconcileTwice {
  import opened Domain
  import opened Sums
  import opened Tables
  import opened FillLedger
  import opened OrderRows
  import opened Remainders
  import opened TradeUpdates
  import opened Reconciliation
  import opened Books
  import opened DbRuns
  import opened DbLedger
  import opened OrderConfluence
  import opened ReconcileQuiet
  import opened ReconcileListing
  import opened UnseenRows

  // ── Step 2 of the first pass ─────────────────────────────────────

  /** Nothing to take from the broker, now or at the next pass; a ledger repair may still be due. */
  ghost predicate AtRest(broker: Broker, db: Db, o: nat, now: Time)
    requires o < |db.orders|
  {
    var row := db.orders[o];
    && (Lookup(broker, row).None? || (IsAbsorbing(row.status) && !ListsRow(Flat(broker.open), row)))
    && (!NeverSubmitted(row, now) || Lookup(broker, row).Some?)
    && !RevivesLate(broker, db, o)
  }

  /** A bracket that was written off with more filled than recorded, and that the broker still works: the
      sweep brings its row back, after the pass that persists legs has gone by. */
  ghost predicate RevivesLate(broker: Broker, db: Db, o: nat)
    requires o < |db.orders|
  {
    var row := db.orders[o];
    && row.status == Failed && row.parent.None? && Deficient(db, o) && Lookup(broker, row).Some?
    && Lookup(broker, row).value.bracket && !IsAbsorbing(Adopted(row, Lookup(broker, row).value).status)
    && !LegsKnown(db.orders, o, Lookup(broker, row).value.legs)
  }

  /** And no listed order brings it back sooner. */
  ghost predicate IsLate(broker: Broker, db: Db, o: nat) {
    o < |db.orders| && RevivesLate(broker, db, o) && !ListsRow(Flat(broker.open), db.orders[o])
  }

  ghost predicate Handled(broker: Broker, db: Db, o: nat, now: Time)
    requires o < |db.orders|
  {
    (Caught(broker, db, o) || AtRest(broker, db, o, now)) && LegsSettled(broker, db, o)
  }

  lemma HandledStays(broker: Broker, db: Db, after: Db, o: nat, now: Time)
    requires o < |db.orders| && Handled(broker, db, o, now) && RowsAdvance(db.orders, after.orders)
    requires after.orders[o] == db.orders[o] && AppliedLedger(after.fills, o).qty == AppliedLedger(db.fills, o).qty
    ensures Handled(broker, after, o, now)
  {
    hide AppliedLedger, Adopted, Advances, NeverSubmitted, Flat, ListsRow, LegsKnown;
    var truth := Lookup(broker, db.orders[o]);
    if truth.Some? && LegsKnown(db.orders, o, truth.value.legs) {
      KnownLegStays(db.orders, after.orders, o, truth.value.legs);
    }
  }

  /** Rows, matched rows and families after `n` rows have been looked at. */
  ghost predicate Recovering(broker: Broker, db: Db, now: Db, matched: set<nat>, n: nat, clock: Time) {
    var flat := Flat(broker.open);
    && DbOk(now) && Housed(broker, now.orders) && RowsAdvance(db.orders, now.orders) && SameLookups(broker, db.orders, now.orders)
    && (forall o :: o in matched ==> o < |now.orders| && Caught(broker, now, o) && ListsRow(flat, now.orders[o]))
    && (forall o :: 0 <= o < |db.orders| && ListsRow(flat, db.orders[o]) ==> o in matched)
    && (forall o :: n <= o < |db.orders| && o !in matched ==> SameRow(db, now, o))
    && (forall o :: 0 <= o < n && o < |db.orders| ==> Handled(broker, now, o, clock) || IsLate(broker, db, o))
    && (forall o :: 0 <= o < |db.orders| && IsLate(broker, db, o) ==> o !in matched && SameRow(db, now, o))
    && (forall o :: |db.orders| <= o < |now.orders| ==> FreshLeg(broker, now, o))
    && (forall j :: 0 <= j < |flat| ==> FamilyThere(db.orders, now.orders, flat[j]))
  }

  /** What one change of row `i`, possibly with new leg rows, has to bring. */
  lemma RecoveringStep(broker: Broker, db: Db, was: Db, now: Db, matched: set<nat>, i: nat, clock: Time)
    requires Recovering(broker, db, was, matched, i, clock) && i < |db.orders|
    requires DbOk(now) && Housed(broker, now.orders) && RowsAdvance(was.orders, now.orders)
    requires Handled(broker, now, i, clock) && !IsLate(broker, db, i) && SameLookups(broker, was.orders, now.orders)
    requires i in matched ==> now.orders[i] == was.orders[i] && AppliedLedger(now.fills, i).qty == AppliedLedger(was.fills, i).qty
    requires forall o :: 0 <= o < |was.orders| && o != i ==>
               now.orders[o] == was.orders[o] && AppliedLedger(now.fills, o).qty == AppliedLedger(was.fills, o).qty
    requires forall o :: |was.orders| <= o < |now.orders| ==> FreshLeg(broker, now, o)
    ensures Recovering(broker, db, now, matched, i + 1, clock)
  {
    hide DbOk, AppliedLedger, Adopted, Advances, Handled, Flat, FreshLeg, Housed, FamilyThere, Lookup, Names, IsLate;
    var flat := Flat(broker.open);
    AdvancesChain(db.orders, was.orders, now.orders);
    forall o | 0 <= o < i && !IsLate(broker, db, o) ensures Handled(broker, now, o, clock) {
      HandledStays(broker, was, now, o, clock);
    }
    forall o | |db.orders| <= o < |was.orders| ensures FreshLeg(broker, now, o) {
      assert o != i;
      FreshStays(broker, was, now, o);
    }
    forall o | o in matched ensures Caught(broker, now, o) && ListsRow(flat, now.orders[o]) {
      CaughtStays(broker, was, now, o);
    }
    forall j | 0 <= j < |flat| ensures FamilyThere(db.orders, now.orders, flat[j]) {
      FamilyStays(db.orders, was.orders, now.orders, flat[j]);
    }
  }

  lemma CaughtStays(broker: Broker, was: Db, now: Db, o: nat)
    requires o < |was.orders| && o < |now.orders| && Caught(broker, was, o)
    requires now.orders[o] == was.orders[o] && AppliedLedger(now.fills, o).qty == AppliedLedger(was.fills, o).qty
    ensures Caught(broker, now, o)
  {
    hide AppliedLedger, Adopted, Lookup;
  }

  /** What revives late now did so at the start, as legs are only added. */
  lemma LateFromTheStart(broker: Broker, db: Db, now: Db, o: nat)
    requires RowsAdvance(db.orders, now.orders) && SameRow(db, now, o) && RevivesLate(broker, now, o)
    ensures RevivesLate(broker, db, o)
  {
    hide AppliedLedger, Adopted, RowsAdvance, LegsKnown, Lookup;
    if LegsKnown(db.orders, o, Lookup(broker, db.orders[o]).value.legs) {
      KnownLegStays(db.orders, now.orders, o, Lookup(broker, db.orders[o]).value.legs);
    }
  }

  /** A row the loop passes over is at rest, or was matched, or revives late. */
  lemma SkippedIsHandled(broker: Broker, db: Db, p: Pass, i: nat, now: Time)
    requires Recovering(broker, db, p.db, p.matched, i, now) && i < |db.orders| <= |p.db.orders|
    requires Skipped(p, i, Flat(broker.open))
    ensures Handled(broker, p.db, i, now) || IsLate(broker, db, i)
  {
    hide DbOk, AppliedLedger, Adopted, RowsAdvance, FreshLeg, Flat, LegsKnown, FamilyThere, Housed, Lookup, SameLookups, Deficient;
    if i !in p.matched && RevivesLate(broker, p.db, i) {
      LateFromTheStart(broker, db, p.db, i);
    }
    hide RevivesLate;
    var flat, row := Flat(broker.open), p.db.orders[i];
    forall k | 0 <= k < |flat| && row.brokerId == Some(flat[k].order.brokerId) ensures ListsRow(flat, row) {
      assert Names(row, flat[k].order);
    }
  }

  lemma NotSkippedIsNotLate(broker: Broker, db: Db, p: Pass, i: nat, now: Time)
    requires Recovering(broker, db, p.db, p.matched, i, now) && i < |db.orders| && i < |p.db.orders|
    requires !Skipped(p, i, Flat(broker.open))
    ensures !IsLate(broker, db, i)
  {
    hide DbOk, Flat, FreshLeg, Caught, FamilyThere, Housed, SameLookups, ListsRow, Handled, LegsKnown, Lookup, Adopted;
  }

  lemma LookupIsParent(broker: Broker, row: Order)
    requires Coherent(broker) && Lookup(broker, row).Some?
    ensures IsParent(broker, Lookup(broker, row).value)
  {
  }

  /** What the broker does not know is at rest, given up or not. */
  lemma UnknownIsHandled(broker: Broker, db: Db, o: nat, now: Time)
    requires o < |db.orders| && Lookup(broker, db.orders[o]).None? && !NeverSubmitted(db.orders[o], now)
    ensures Handled(broker, db, o, now)
  {
    hide AppliedLedger, Flat, Lookup, ListsRow, NeverSubmitted;
  }

  /** A straggler nobody knows is given up or stays missing ... */
  lemma UnknownStep(broker: Broker, db: Db, r: Recovery, i: nat, now: Time, keys: Keys)
    requires Recovering(broker, db, r.pass.db, r.pass.matched, i, now) && i < |db.orders|
    requires !Skipped(r.pass, i, Flat(broker.open)) && Lookup(broker, r.pass.db.orders[i]).None? && !IsLate(broker, db, i)
    ensures Recovering(broker, db, RecoverOne(r, i, Flat(broker.open), broker, now, true, keys).pass.db, r.pass.matched, i + 1, now)
  {
    hide DbOk, Flat, Recovering, Housed, Names, Lookup, IsLate, Handled, SameRow, AppliedLedger, Skipped;
    var was := r.pass.db;
    RecoveringHas(broker, db, was, r.pass.matched, i, now);
    var after := RecoverOne(r, i, Flat(broker.open), broker, now, true, keys).pass.db;
    RecoverOneAdvances(r, i, Flat(broker.open), broker, now, true, keys);
    RowKeepsOk(was, i, after.orders[i]);
    assert after == WithRow(was, i, after.orders[i]);
    StatusKeepsHoused(broker, was.orders, i, after.orders[i]);
    UnknownIsHandled(broker, after, i, now);
    RecoveringUnmatched(broker, db, r.pass, i, now);
    RecoveringStep(broker, db, was, after, r.pass.matched, i, now);
  }

  lemma RecoveringUnmatched(broker: Broker, db: Db, p: Pass, i: nat, now: Time)
    requires i < |p.db.orders| && !Skipped(p, i, Flat(broker.open))
    ensures i !in p.matched
  {
    hide Flat;
  }

  /** ... and one the broker knows takes its state and its legs. */
  lemma KnownStep(broker: Broker, db: Db, r: Recovery, i: nat, now: Time, keys: Keys)
    requires Coherent(broker) && Bracketed(broker) && Recovering(broker, db, r.pass.db, r.pass.matched, i, now) && i < |db.orders|
    requires !Skipped(r.pass, i, Flat(broker.open)) && Lookup(broker, r.pass.db.orders[i]).Some? && !IsLate(broker, db, i)
    ensures Recovering(broker, db, RecoverOne(r, i, Flat(broker.open), broker, now, true, keys).pass.db, r.pass.matched, i + 1, now)
  {
    hide DbOk, AppliedLedger, Adopt, Adopted, FreshLeg, Flat, LegsKnown, NewLegs, Recovering, Coherent, Bracketed, Known, Housed, Names, Lookup, IsParent, IsLate, Handled, SameRow, Skipped, SameLookups, RowsAdvance;
    var was := r.pass.db;
    RecoveringHas(broker, db, was, r.pass.matched, i, now);
    var row := was.orders[i];
    var after := RecoverOne(r, i, Flat(broker.open), broker, now, true, keys).pass.db;
    RecoverOneAdvances(r, i, Flat(broker.open), broker, now, true, keys);
    var truth := Lookup(broker, row).value;
    HousedIsIdentified(broker, was.orders, i);
    LookupIsKnown(broker, row);
    LookupIsParent(broker, row);
    TakesKnown(broker, was, i, truth, now, keys);
    var mid := Adopt(was, i, truth, now, true, keys);
    LegsArrive(broker, mid, i, truth, now);
    LookupIn(broker, was.orders, mid.orders, i);
    CaughtIsHandled(broker, mid, after, i, truth, now);
    RecoveringUnmatched(broker, db, r.pass, i, now);
    MoreLookups(broker, was.orders, mid.orders, after.orders);
    RecoveringStep(broker, db, was, after, r.pass.matched, i, now);
  }

  lemma LookupIn(broker: Broker, was: seq<Order>, now: seq<Order>, o: nat)
    requires SameLookups(broker, was, now) && o < |was|
    ensures o < |now| && Lookup(broker, now[o]) == Lookup(broker, was[o])
  {
  }

  lemma MoreLookups(broker: Broker, was: seq<Order>, mid: seq<Order>, now: seq<Order>)
    requires SameLookups(broker, was, mid) && mid <= now
    ensures SameLookups(broker, was, now)
  {
    hide Lookup;
  }

  lemma RecoveryMatchesNone(r: Recovery, i: nat, flat: seq<Listed>, broker: Broker, now: Time, keys: Keys)
    requires i < |r.pass.db.orders|
    ensures RecoverOne(r, i, flat, broker, now, true, keys).pass.matched == r.pass.matched
  {
    hide Adopt, NewLegs, Lookup, Skipped;
  }

  lemma StragglerIsHandled(broker: Broker, db: Db, r: Recovery, i: nat, now: Time, keys: Keys)
    requires Coherent(broker) && Bracketed(broker) && Recovering(broker, db, r.pass.db, r.pass.matched, i, now) && i < |db.orders|
    requires i < |r.pass.db.orders| && !Skipped(r.pass, i, Flat(broker.open))
    ensures Recovering(broker, db, RecoverOne(r, i, Flat(broker.open), broker, now, true, keys).pass.db, r.pass.matched, i + 1, now)
    ensures RecoverOne(r, i, Flat(broker.open), broker, now, true, keys).pass.matched == r.pass.matched
  {
    NotSkippedIsNotLate(broker, db, r.pass, i, now);
    RecoveryMatchesNone(r, i, Flat(broker.open), broker, now, keys);
    hide Recovering, Coherent, Bracketed, RecoverOne, Lookup, IsLate, Flat, Skipped;
    if Lookup(broker, r.pass.db.orders[i]).None? {
      UnknownStep(broker, db, r, i, now, keys);
    } else {
      KnownStep(broker, db, r, i, now, keys);
    }
  }

  /** Adopting its own order's snapshot catches a row up and leaves the rest in order. */
  lemma TakesKnown(broker: Broker, db: Db, o: nat, bo: BrokerOrder, now: Time, keys: Keys)
    requires DbOk(db) && Coherent(broker) && KnownWithLegs(broker, bo) && Housed(broker, db.orders)
    requires o < |db.orders| && Names(db.orders[o], bo)
    ensures var after := Adopt(db, o, bo, now, true, keys);
            && DbOk(after) && Housed(broker, after.orders) && OnlyRow(db, after, o)
            && Caught(broker, after, o) && Names(after.orders[o], bo)
            && RowsAdvance(db.orders, after.orders) && SameLookups(broker, db.orders, after.orders)
  {
    hide DbOk, AppliedLedger, Adopt, Adopted, Coherent, Known, UniqueRows, LegsHoused, Names, Lookup, Caught;
    AdoptCatches(broker, db, o, bo, now, keys);
    AdoptAdvances(db, o, bo, now, true, keys);
    AdoptKeepsHoused(broker, db.orders, o, bo);
    NamedStays(db.orders, Adopt(db, o, bo, now, true, keys).orders, o, bo);
  }

  lemma HousedIsIdentified(broker: Broker, orders: seq<Order>, o: nat)
    requires Housed(broker, orders) && o < |orders|
    ensures Identified(broker, orders[o])
  {
  }

  lemma StatusKeepsHoused(broker: Broker, orders: seq<Order>, o: nat, row: Order)
    requires Housed(broker, orders) && o < |orders| && row == orders[o].(status := row.status)
    ensures Housed(broker, orders[o := row]) && Lookup(broker, row) == Lookup(broker, orders[o])
  {
    hide IsParent;
    var after := orders[o := row];
    forall p, k, r, i | IsParent(broker, p) && 0 <= k < |p.legs| && 0 <= r < |after| && 0 <= i < |after|
      && Names(after[r], p.legs[k]) && Names(after[i], p)
      ensures after[r].parent == Some(i)
    {
      assert Names(orders[r], p.legs[k]) && Names(orders[i], p);
    }
  }

  lemma RecoveringHas(broker: Broker, db: Db, now: Db, matched: set<nat>, n: nat, clock: Time)
    requires Recovering(broker, db, now, matched, n, clock)
    ensures DbOk(now) && Housed(broker, now.orders) && |db.orders| <= |now.orders|
  {
    hide DbOk, Housed;
  }

  lemma CaughtIsHandled(broker: Broker, mid: Db, after: Db, i: nat, truth: BrokerOrder, now: Time)
    requires i < |mid.orders| && i < |after.orders| && Caught(broker, mid, i) && Lookup(broker, mid.orders[i]) == Some(truth)
    requires after.orders[i] == mid.orders[i] && AppliedLedger(after.fills, i).qty == AppliedLedger(mid.fills, i).qty
    requires truth.bracket && mid.orders[i].parent.None? && truth.legs != [] ==> LegsKnown(after.orders, i, truth.legs)
    ensures Handled(broker, after, i, now)
  {
    hide AppliedLedger, Adopted, AtRest;
  }

  lemma {:induction false} RecoveryReaches(broker: Broker, db: Db, r: Recovery, n: nat, now: Time, keys: Keys)
    requires Coherent(broker) && Bracketed(broker) && n <= |db.orders| <= |r.pass.db.orders|
    requires Recovering(broker, db, r.pass.db, r.pass.matched, 0, now)
    ensures var q := Recover(r, n, Flat(broker.open), broker, now, true, keys);
            Recovering(broker, db, q.pass.db, q.pass.matched, n, now)
  {
    hide Recovering, RecoverOne, Coherent, Bracketed, Skipped;
    if n > 0 {
      RecoveryReaches(broker, db, r, n - 1, now, keys);
      var before := Recover(r, n - 1, Flat(broker.open), broker, now, true, keys);
      if Skipped(before.pass, n - 1, Flat(broker.open)) {
        SkippedIsHandled(broker, db, before.pass, n - 1, now);
        SkippedStep(broker, db, before, n - 1, now, keys);
      } else {
        StragglerIsHandled(broker, db, before, n - 1, now, keys);
      }
    }
  }

  lemma SkippedStep(broker: Broker, db: Db, r: Recovery, i: nat, now: Time, keys: Keys)
    requires Recovering(broker, db, r.pass.db, r.pass.matched, i, now) && i < |db.orders| <= |r.pass.db.orders|
    requires Skipped(r.pass, i, Flat(broker.open)) && (Handled(broker, r.pass.db, i, now) || IsLate(broker, db, i))
    ensures var q := RecoverOne(r, i, Flat(broker.open), broker, now, true, keys);
            Recovering(broker, db, q.pass.db, q.pass.matched, i + 1, now)
  {
    hide Handled, DbOk, FreshLeg, FamilyThere, RowsAdvance, Flat, Caught, Housed, SameLookups, ListsRow, SameRow, IsLate;
  }

  // ── Step 3 of the first pass ─────────────────────────────────────

  ghost predicate Ready(broker: Broker, db: Db, o: nat, now: Time)
    requires o < |db.orders|
  {
    Handled(broker, db, o, now) || FreshLeg(broker, db, o)
  }

  ghost predicate Sweeping(broker: Broker, start: Db, db: Db, n: nat, now: Time) {
    && DbOk(db) && Housed(broker, db.orders) && SameLookups(broker, start.orders, db.orders)
    && RowsAdvance(start.orders, db.orders) && |db.orders| == |start.orders|
    && (forall o :: 0 <= o < n && o < |db.orders| ==> QuietRow(broker, db, o, now) || !Ready(broker, start, o, now))
    && (forall o :: n <= o < |db.orders| ==> SameRow(start, db, o))
  }

  lemma QuietStays(broker: Broker, db: Db, after: Db, o: nat, now: Time)
    requires o < |db.orders| && QuietRow(broker, db, o, now) && RowsAdvance(db.orders, after.orders)
    requires after.orders[o] == db.orders[o] && AppliedLedger(after.fills, o).qty == AppliedLedger(db.fills, o).qty
    ensures QuietRow(broker, after, o, now)
  {
    hide AppliedLedger, Adopted, Advances, NeverSubmitted, Flat, ListsRow, LegsKnown;
    var truth := Lookup(broker, db.orders[o]);
    if truth.Some? && LegsKnown(db.orders, o, truth.value.legs) {
      KnownLegStays(db.orders, after.orders, o, truth.value.legs);
    }
  }

  /** A row with no deficit is quiet already; a fresh leg without one has nothing filled at all. */
  lemma NoDeficitIsQuiet(broker: Broker, db: Db, o: nat, now: Time)
    requires Coherent(broker) && Housed(broker, db.orders) && o < |db.orders| && Ready(broker, db, o, now) && !Deficient(db, o)
    ensures QuietRow(broker, db, o, now)
  {
    hide AppliedLedger, Flat, ListsRow, LegsKnown, NeverSubmitted, Lookup, Coherent, UniqueRows, LegsHoused, IsLegOf;
    var row := db.orders[o];
    if FreshLeg(broker, db, o) && Mirrors(row, Lookup(broker, row).value) && AppliedLedger(db.fills, o).qty == 0.0 {
      HousedIsIdentified(broker, db.orders, o);
      LookupIsKnown(broker, row);
      assert Known(broker, Lookup(broker, row).value);
      assert Adopted(row, Lookup(broker, row).value) == row;
    }
  }

  /** A deficit of a known order ends with the row caught up. */
  lemma RepairedIsQuiet(broker: Broker, db: Db, o: nat, now: Time, keys: Keys)
    requires DbOk(db) && Coherent(broker) && Housed(broker, db.orders) && o < |db.orders|
    requires Ready(broker, db, o, now) && Deficient(db, o) && Lookup(broker, db.orders[o]).Some?
    ensures var after := Adopt(db, o, Lookup(broker, db.orders[o]).value, now, true, keys);
            && DbOk(after) && Housed(broker, after.orders) && OnlyRow(db, after, o) && SameLookups(broker, db.orders, after.orders)
            && RowsAdvance(db.orders, after.orders) && QuietRow(broker, after, o, now)
  {
    hide DbOk, AppliedLedger, Adopt, Flat, ListsRow, NeverSubmitted, Identified, KnownLeg, Coherent, Known, UniqueRows, LegsHoused, Lookup, Names, IsLegOf, RowsAdvance;
    var row, truth := db.orders[o], Lookup(broker, db.orders[o]).value;
    HousedIsIdentified(broker, db.orders, o);
    LookupIsKnown(broker, row);
    TakesKnown(broker, db, o, truth, now, keys);
    var after := Adopt(db, o, truth, now, true, keys);
    assert OkIsNonNegative(db, o) by { LedgerFloor(db, o); }
    if LegsKnown(db.orders, o, truth.legs) {
      KnownLegStays(db.orders, after.orders, o, truth.legs);
    }
    ListedStays(Flat(broker.open), db.orders, after.orders, o);
    AdoptAdvances(db, o, truth, now, true, keys);
    KnownIsAlive(broker, truth);
    RepairedLegsSettled(broker, db, after, o, now);
  }

  lemma ListedStays(flat: seq<Listed>, was: seq<Order>, now: seq<Order>, o: nat)
    requires RowsAdvance(was, now) && o < |was|
    ensures |was| <= |now| && (ListsRow(flat, was[o]) ==> ListsRow(flat, now[o]))
  {
    hide Names;
    if ListsRow(flat, was[o]) {
      var j :| 0 <= j < |flat| && Names(was[o], flat[j].order);
      NamedStays(was, now, o, flat[j].order);
    }
  }

  /** A row with a deficit was caught up or unfinished, and what its bracket needed it still has. */
  lemma RepairedLegsSettled(broker: Broker, db: Db, after: Db, o: nat, now: Time)
    requires o < |db.orders| && o < |after.orders| && RowsAdvance(db.orders, after.orders) && Ready(broker, db, o, now)
    requires Lookup(broker, after.orders[o]) == Lookup(broker, db.orders[o]) && Lookup(broker, db.orders[o]).Some?
    requires LegsKnown(db.orders, o, Lookup(broker, db.orders[o]).value.legs) ==> LegsKnown(after.orders, o, Lookup(broker, db.orders[o]).value.legs)
    requires ListsRow(Flat(broker.open), db.orders[o]) ==> ListsRow(Flat(broker.open), after.orders[o])
    requires Deficient(db, o) && after.orders[o] == Adopted(db.orders[o], Lookup(broker, db.orders[o]).value)
    ensures LegsSettled(broker, after, o)
  {
    hide AppliedLedger, Flat, ListsRow, NeverSubmitted, KnownLeg, Lookup, IsLegOf, LegsKnown;
    assert Advances(db.orders[o], after.orders[o]);
  }

  ghost predicate OkIsNonNegative(db: Db, o: nat) {
    AppliedLedger(db.fills, o).qty >= 0.0
  }

  lemma LedgerFloor(db: Db, o: nat)
    requires DbOk(db)
    ensures OkIsNonNegative(db, o)
  {
    hide QuantityOk, MoneyOk, AttributionOk;
    LedgerIsNonNegative(db.fills, o);
  }

  /** A deficit of an order the broker no longer knows is filled from the row's own columns, if they can. */
  lemma OwnColumnsQuiet(broker: Broker, db: Db, o: nat, now: Time, keys: Keys)
    requires DbOk(db) && Housed(broker, db.orders) && o < |db.orders| && Lookup(broker, db.orders[o]).None?
    ensures var after := SweepOne(db, o, broker, now, keys);
            && DbOk(after) && after.orders == db.orders && OnlyRow(db, after, o)
            && (Ready(broker, db, o, now) ==> QuietRow(broker, after, o, now))
  {
    hide DbOk, AppliedLedger, Flat, ListsRow, NeverSubmitted, Housed, Lookup, IsLegOf, LegsKnown, InsertFill, CatchUp, LedgerOk, Adopted;
    var row, after := db.orders[o], SweepOne(db, o, broker, now, keys);
    if row.filledAvg.Some? {
      CatchUpKeepsOk(db, o, row.filledQty, row.filledAvg, row.filledAt.GetOr(now), Recon, keys(|db.fills|), false);
      OkHasFills(db);
      forall other
        ensures AppliedLedger(after.fills, other).qty ==
                if other == o then Max(AppliedLedger(db.fills, o).qty, row.filledQty) else AppliedLedger(db.fills, other).qty
      {
        CatchUpReaches(Exact, db.fills, o, row.filledQty, row.filledAvg, row.filledAt.GetOr(now), Recon, other);
      }
    }
  }

  lemma {:induction false} SweepReaches(broker: Broker, start: Db, n: nat, now: Time, keys: Keys)
    requires DbOk(start) && Coherent(broker) && Housed(broker, start.orders) && n <= |start.orders|
    ensures Sweeping(broker, start, Sweep(start, start, n, broker, now, keys), n, now)
  {
    hide DbOk, AppliedLedger, SweepOne, Coherent, Housed, QuietRow, Ready, Flat;
    AdvancesItself(start.orders, []);
    if n > 0 {
      SweepReaches(broker, start, n - 1, now, keys);
      SweepStep(broker, start, Sweep(start, start, n - 1, broker, now, keys), n - 1, now, keys);
    }
  }

  lemma SweepStep(broker: Broker, start: Db, db: Db, i: nat, now: Time, keys: Keys)
    requires Coherent(broker) && Sweeping(broker, start, db, i, now) && i < |start.orders|
    ensures Sweeping(broker, start, if Deficient(start, i) then SweepOne(db, i, broker, now, keys) else db, i + 1, now)
  {
    hide DbOk, AppliedLedger, Coherent, Housed, QuietRow, Ready, Flat, Advances, Adopt, InsertFill, CatchUp, Lookup;
    var ready := Ready(broker, start, i, now);
    assert SameRow(start, db, i);
    if ready {
      ReadyStays(broker, start, db, i, now);
    }
    if !Deficient(start, i) {
      if ready {
        NoDeficitIsQuiet(broker, db, i, now);
      }
    } else {
      var after := SweepOne(db, i, broker, now, keys);
      if Lookup(broker, db.orders[i]).Some? {
        SweptIsTaken(broker, db, i, now, keys);
        if ready {
          RepairedIsQuiet(broker, db, i, now, keys);
        }
      } else {
        OwnColumnsQuiet(broker, db, i, now, keys);
        AdvancesItself(db.orders, []);
      }
      AdvancesChain(start.orders, db.orders, after.orders);
      forall o | 0 <= o < i && Ready(broker, start, o, now) ensures QuietRow(broker, after, o, now) {
        QuietStays(broker, db, after, o, now);
      }
      forall o | i < o < |db.orders| ensures SameRow(start, after, o) {
        assert SameRow(start, db, o);
      }
    }
  }

  lemma SweptIsTaken(broker: Broker, db: Db, o: nat, now: Time, keys: Keys)
    requires DbOk(db) && Coherent(broker) && Housed(broker, db.orders) && o < |db.orders| && Lookup(broker, db.orders[o]).Some?
    ensures var after := Adopt(db, o, Lookup(broker, db.orders[o]).value, now, true, keys);
            && DbOk(after) && Housed(broker, after.orders) && OnlyRow(db, after, o)
            && RowsAdvance(db.orders, after.orders) && SameLookups(broker, db.orders, after.orders)
  {
    hide DbOk, AppliedLedger, Adopt, Coherent, Known, Housed, Lookup, Names, RowsAdvance;
    HousedIsIdentified(broker, db.orders, o);
    LookupIsKnown(broker, db.orders[o]);
    TakesKnown(broker, db, o, Lookup(broker, db.orders[o]).value, now, keys);
  }

  lemma ReadyStays(broker: Broker, start: Db, db: Db, i: nat, now: Time)
    requires i < |start.orders| && Ready(broker, start, i, now) && RowsAdvance(start.orders, db.orders)
    requires db.orders[i] == start.orders[i] && AppliedLedger(db.fills, i).qty == AppliedLedger(start.fills, i).qty
    ensures Ready(broker, db, i, now)
  {
    hide AppliedLedger, Handled, FreshLeg;
    if Handled(broker, start, i, now) {
      HandledStays(broker, start, db, i, now);
    } else {
      FreshStays(broker, start, db, i);
    }
  }

  // ── Both passes ──────────────────────────────────────────────────

  /** A row the pass created answers to no listed bracket. */
  lemma CreatedIsNoParent(broker: Broker, db: Db, o: nat, j: nat)
    requires Coherent(broker) && Bracketed(broker) && o < |db.orders| && FreshLeg(broker, db, o)
    requires j < |Flat(broker.open)| && Flat(broker.open)[j].parent.Some?
    ensures !Names(db.orders[o], Flat(broker.open)[j].parent.value)
  {
    hide AppliedLedger, Flat, Coherent, Bracketed, Known, Lookup, Caught, IsParent;
    var q := Flat(broker.open)[j].parent.value;
    FlatIsOpen(broker.open, j);
    OpenIsParent(broker, q);
    var p, k :| IsParent(broker, p) && 0 <= k < |p.legs| && CarriesNames(db.orders[o], p.legs[k]);
    ParentIsKnown(broker, p);
    LegsAreKnown(broker, p, k);
    NewRowIsNoParent(broker, p.legs[k], p, q, k, db.orders[o]);
  }

  /** A row that answers to an order answered to it before it took the broker's names. */
  lemma NamedBefore(broker: Broker, was: Order, now: Order, bo: BrokerOrder)
    requires Coherent(broker) && Known(broker, bo) && Identified(broker, was) && Identified(broker, now)
    requires Lookup(broker, now) == Lookup(broker, was) && Names(now, bo)
    ensures Names(was, bo)
  {
    hide Coherent, Known, Identified, Lookup;
    NamedIsKnown(broker, now, bo);
    LookupIsKnown(broker, was);
    LookupIsKnown(broker, now);
    var truth := Lookup(broker, was).value;
    assert truth == truth.(legs := []).(legs := truth.legs) && bo == bo.(legs := []).(legs := bo.legs);
  }

  /** Listed families are complete: nothing a pass creates is a listed bracket. */
  lemma FamiliesComplete(broker: Broker, db: Db, recovered: Db, swept: Db, matched: set<nat>, clock: Time)
    requires Coherent(broker) && Bracketed(broker) && Housed(broker, db.orders)
    requires Recovering(broker, db, recovered, matched, |db.orders|, clock) && Sweeping(broker, recovered, swept, |recovered.orders|, clock)
    ensures FamiliesKnown(swept.orders, Flat(broker.open))
  {
    hide DbOk, AppliedLedger, Coherent, Bracketed, Known, Adopted, Handled, Flat, Housed, Caught, QuietRow, FamilyThere, Names, Lookup, LegsKnown, RowsAdvance;
    var flat := Flat(broker.open);
    forall j | 0 <= j < |flat| ensures FamilyThere(swept.orders, swept.orders, flat[j]) {
      FamilyStays(db.orders, recovered.orders, swept.orders, flat[j]);
      if flat[j].parent.Some? {
        forall o | 0 <= o < |swept.orders| && Names(swept.orders[o], flat[j].parent.value)
          ensures o < |db.orders| && Names(db.orders[o], flat[j].parent.value)
        {
          SweptNamed(broker, db, recovered, swept, matched, clock, j, o);
        }
        FamilyOfEarlier(db.orders, swept.orders, flat[j]);
      } else {
        NoFamily(swept.orders, flat[j]);
      }
    }
  }

  lemma NoFamily(orders: seq<Order>, entry: Listed)
    requires entry.parent.None?
    ensures FamilyThere(orders, orders, entry)
  {
  }

  lemma FamilyOfEarlier(was: seq<Order>, now: seq<Order>, entry: Listed)
    requires FamilyThere(was, now, entry) && entry.parent.Some?
    requires forall o :: 0 <= o < |now| && Names(now[o], entry.parent.value) ==> o < |was| && Names(was[o], entry.parent.value)
    ensures FamilyThere(now, now, entry)
  {
    hide Names, LegsKnown, HasRow;
  }

  /** A swept row that is a listed bracket's was so before the reconcile. */
  lemma SweptNamed(broker: Broker, db: Db, recovered: Db, swept: Db, matched: set<nat>, clock: Time, j: nat, o: nat)
    requires Coherent(broker) && Bracketed(broker) && Housed(broker, db.orders) && j < |Flat(broker.open)| && Flat(broker.open)[j].parent.Some?
    requires Recovering(broker, db, recovered, matched, |db.orders|, clock) && Sweeping(broker, recovered, swept, |recovered.orders|, clock)
    requires o < |swept.orders| && Names(swept.orders[o], Flat(broker.open)[j].parent.value)
    ensures o < |db.orders| && Names(db.orders[o], Flat(broker.open)[j].parent.value)
  {
    hide DbOk, AppliedLedger, Coherent, Bracketed, Known, Adopted, Handled, Flat, Identified, UniqueRows, LegsHoused, Caught, QuietRow, FamilyThere, Names, Lookup, RowsAdvance, FreshLeg;
    ListedIsKnown(broker, j);
    var q := Flat(broker.open)[j].parent.value;
    HousedIsIdentified(broker, recovered.orders, o);
    HousedIsIdentified(broker, swept.orders, o);
    NamedBefore(broker, recovered.orders[o], swept.orders[o], q);
    if o < |db.orders| {
      HousedIsIdentified(broker, db.orders, o);
      NamedBefore(broker, db.orders[o], recovered.orders[o], q);
    } else {
      CreatedIsNoParent(broker, recovered, o, j);
    }
  }

  /** What a reconcile assumes of the tables it starts from and of the answers: balanced books, answers that
      agree and nest one level deep, and rows whose identifiers agree with the broker's, one for each order and
      each leg's under its parent. */
  ghost predicate Plausible(broker: Broker, db: Db) {
    DbOk(db) && Coherent(broker) && Bracketed(broker) && Housed(broker, db.orders)
  }

  ghost predicate NoneIsLate(broker: Broker, db: Db) {
    forall o :: 0 <= o < |db.orders| ==> !IsLate(broker, db, o)
  }

  /** A row with nothing filled is not: so none is in tables a run without refusals over fills has left. */
  lemma UnfilledIsNotLate(broker: Broker, db: Db)
    requires DbOk(db) && AllUnfilled(db.orders)
    ensures NoneIsLate(broker, db)
  {
    hide DbOk, AppliedLedger, Lookup, Adopted, LegsKnown;
    forall o | 0 <= o < |db.orders| ensures !RevivesLate(broker, db, o) {
      RowIsUnfilled(db.orders, o);
      LedgerFloor(db, o);
    }
  }

  /** The listing pass leaves a late row alone. */
  lemma LateIsUnlisted(broker: Broker, db: Db, now: Db, matched: set<nat>, done: seq<Listed>, o: nat)
    requires Coherent(broker) && Housed(broker, db.orders) && ListedRows(broker, db, now, matched, done) && IsLate(broker, db, o)
    ensures o !in matched
  {
    hide DbOk, FreshLeg, FamilyThere, Flat, AppliedLedger, RevivesLate, Names, UniqueRows, LegsHoused, Identified, Coherent, Caught, RowsAdvance, Lookup;
    if o in matched {
      ListedBefore(broker, db.orders[o], now.orders[o]);
    }
  }

  /** Nor does a row come to be listed by what it takes from its own order. */
  lemma ListedBefore(broker: Broker, was: Order, now: Order)
    requires Coherent(broker) && Identified(broker, was) && Identified(broker, now) && Lookup(broker, now) == Lookup(broker, was)
    ensures ListsRow(Flat(broker.open), now) ==> ListsRow(Flat(broker.open), was)
  {
    hide Flat, Names, Identified, Coherent, Known, Lookup;
    if ListsRow(Flat(broker.open), now) {
      var j :| 0 <= j < |Flat(broker.open)| && Names(now, Flat(broker.open)[j].order);
      ListedIsKnown(broker, j);
      NamedBefore(broker, was, now, Flat(broker.open)[j].order);
    }
  }

  lemma PassRecovers(broker: Broker, db: Db, n: nat, now: Time, keys: Keys)
    requires Plausible(broker, db) && n <= |db.orders|
    ensures var listed := AdoptAllListed(StartPass(db), Flat(broker.open), now, true, keys);
            var r := Recover(Recovery(listed, 0), n, Flat(broker.open), broker, now, true, keys).pass;
            Recovering(broker, db, r.db, r.matched, n, now)
  {
    hide DbOk, AdoptAllListed, Recover, Coherent, Bracketed, Housed, Flat, FreshLeg, Caught, FamilyThere, RowsAdvance, SameLookups, SameRow, IsLate;
    var flat := Flat(broker.open);
    var listed := AdoptAllListed(StartPass(db), flat, now, true, keys);
    assert flat[..|flat|] == flat;
    ListingReaches(broker, db, now, keys, |flat|);
    forall o | 0 <= o < |db.orders| && IsLate(broker, db, o) ensures o !in listed.matched {
      LateIsUnlisted(broker, db, listed.db, listed.matched, flat, o);
    }
    assert Recovering(broker, db, listed.db, listed.matched, 0, now);
    RecoveryReaches(broker, db, Recovery(listed, 0), n, now, keys);
  }

  lemma FirstPassRecovers(broker: Broker, db: Db, now: Time, keys: Keys)
    requires Plausible(broker, db)
    ensures var r := Recovered(db, broker, now, true, keys).pass;
            Recovering(broker, db, r.db, r.matched, |db.orders|, now)
  {
    hide Recovering, Plausible, AdoptAllListed, Recover, Flat;
    PassRecovers(broker, db, |db.orders|, now, keys);
  }

  /** One synthesizing reconcile leaves nothing for the next: and no two rows for one order. */
  lemma FirstPassIsQuiet(broker: Broker, db: Db, now: Time, keys: Keys)
    requires Plausible(broker, db) && NoneIsLate(broker, db)
    ensures var recovered := Recovered(db, broker, now, true, keys).pass.db;
            var swept := Sweep(recovered, recovered, |recovered.orders|, broker, now, keys);
            Quiet(broker, swept, now) && DbOk(swept) && UniqueRows(swept.orders)
  {
    hide DbOk, Sweep, Coherent, Bracketed, UniqueRows, LegsHoused, AllIdentified, Flat, FreshLeg, Handled, Caught, QuietRow, FamilyThere, FamiliesKnown, RowsAdvance, Lookup, IsLate, SameRow;
    var r := Recovered(db, broker, now, true, keys).pass;
    FirstPassRecovers(broker, db, now, keys);
    SweepReaches(broker, r.db, |r.db.orders|, now, keys);
    FamiliesComplete(broker, db, r.db, Sweep(r.db, r.db, |r.db.orders|, broker, now, keys), r.matched, now);
  }

  ghost predicate SameRows(one: Db, two: Db) {
    && one.orders == two.orders && one.fills == two.fills && one.lots == two.lots
    && one.closes == two.closes && one.positions == two.positions
  }

  /** Reconciling tables that are quiet, with nothing left to retry, changes no row and counts nothing. */
  lemma QuietReconcile(broker: Broker, db: Db, now: Time, keys: Keys)
    requires Coherent(broker) && Quiet(broker, db, now)
    requires forall i :: 0 <= i < |db.events| && IsOpen(db.events, i) ==> NothingToClose(db.lots, db.events[i].what)
    ensures var after, r := Reconciled(db, broker, now, true, keys), Recovered(db, broker, now, true, keys).pass;
            && r.updated == 0 && r.synthesized == 0
            && after.orders == db.orders && after.fills == db.fills && after.lots == db.lots && after.closes == db.closes
            && after.positions == ReconciledPositions(db.positions, broker.positions, broker.marketValue)
            && db.events <= after.events
            && forall k :: |db.events| <= k < |after.events| ==> after.events[k].RetryFailed? || after.events[k].Alert?
  {
    hide Sweep, Coherent, Flat, QuietRow, UniqueRows, AdoptAllListed, Recover, RetryPass, IsOpen, NothingToClose, FamiliesKnown, Identified, ReconciledPositions;
    var flat := Flat(broker.open);
    assert flat[..|flat|] == flat;
    ListingIsQuiet(broker, db, now, true, keys, |flat|);
    var p := AdoptAllListed(StartPass(db), flat, now, true, keys);
    RecoveryIsQuiet(broker, db, now, true, keys, |db.orders|, Recovery(p, 0));
    SweepIsQuiet(broker, db, now, keys, |db.orders|);
    RetryIsQuiet(db, |db.events|);
    RetryKeepsOrders(db, db.events, |db.events|);
    RetryKeepsPositions(db, db.events, |db.events|);
  }

  lemma {:induction false} RetryKeepsPositions(db: Db, past: seq<Event>, n: nat)
    requires n <= |past|
    ensures RetryPass(db, past, n).positions == db.positions
  {
    if n > 0 {
      RetryKeepsPositions(db, past, n - 1);
    }
  }

  lemma QuietIgnores(broker: Broker, db: Db, after: Db, now: Time)
    requires Quiet(broker, db, now) && after.orders == db.orders && after.fills == db.fills
    ensures Quiet(broker, after, now)
  {
    hide AppliedLedger, Adopted, Flat, ListsRow, NeverSubmitted, HasRow, Identified, LegsKnown, Lookup;
    forall o | 0 <= o < |after.orders| ensures QuietRow(broker, after, o, now) {
      assert QuietRow(broker, db, o, now);
    }
  }

  /** With the same answers and clock, the second synthesizing reconcile changes no order, fill, lot,
      lot close or position, updates and synthesizes nothing, and only counts failed retries; after the
      first, every parked remainder still open has no eligible lot. */
  lemma SecondReconcileChangesNothing(broker: Broker, db: Db, now: Time, keys: Keys, again: Keys)
    requires Plausible(broker, db) && NoneIsLate(broker, db)
    ensures var once, twice := Reconciled(db, broker, now, true, keys), Reconciled(Reconciled(db, broker, now, true, keys), broker, now, true, again);
            && SameRows(once, twice)
            && Recovered(once, broker, now, true, again).pass.updated == 0
            && once.events <= twice.events
            && (forall k :: |once.events| <= k < |twice.events| ==> twice.events[k].RetryFailed? || twice.events[k].Alert?)
            && (forall i :: 0 <= i < |once.events| && IsOpen(once.events, i) ==> NothingToClose(once.lots, once.events[i].what))
  {
    hide Sweep, Coherent, Quiet, RetryPass, IsOpen, NothingToClose, Recovered, QuantityOk, MoneyOk, AttributionOk, ReconciledPositions, LogOk;
    var recovered := Recovered(db, broker, now, true, keys).pass.db;
    var swept := Sweep(recovered, recovered, |recovered.orders|, broker, now, keys);
    FirstPassIsQuiet(broker, db, now, keys);
    var once := Reconciled(db, broker, now, true, keys);
    RetryKeepsOrders(swept, swept.events, |swept.events|);
    QuietIgnores(broker, swept, once, now);
    PassDrains(swept, |swept.events|);
    QuietReconcile(broker, once, now, again);
    PositionsOverwriteOnce(RetryPass(swept, swept.events, |swept.events|).positions, broker.positions, broker.marketValue);
  }

  // ── Answers that disagree ────────────────────────────────────────

  /** One reconcile of a lone straggler that has nothing filled, whichever lookup answers for it. */
  lemma LoneStraggler(row: Order, broker: Broker, bo: BrokerOrder, now: Time, keys: Keys)
    requires broker.open == [] && broker.positions == [] && Lookup(broker, row) == Some(bo) && !bo.bracket
    requires !IsAbsorbing(row.status) && row.filledQty == 0.0 && bo.filledQty == 0.0
    ensures Reconciled(Db([row], [], [], [], map[], []), broker, now, true, keys) == Db([Adopted(row, bo)], [], [], [], map[], [])
  {
    hide Adopted, Lookup, InsertFill;
    var db := Db([row], [], [], [], map[], []);
    assert AppliedLedger([], 0).qty == 0.0;
    hide AppliedLedger;
    LoneAdoption(row, bo, now, keys);
    assert Flat([]) == [];
    assert AdoptAllListed(StartPass(db), [], now, true, keys) == StartPass(db);
    var r := Recovery(StartPass(db), 0);
    hide Adopt;
    assert Recover(r, 0, [], broker, now, true, keys) == r;
    var recovered := Recovered(db, broker, now, true, keys).pass.db;
    assert recovered == Db([Adopted(row, bo)], [], [], [], map[], []);
    AdoptedQuantity(row, bo);
    assert Sweep(recovered, recovered, 0, broker, now, keys) == recovered;
    assert Sweep(recovered, recovered, 1, broker, now, keys) == recovered;
    assert RetryPass(recovered, [], 0) == recovered;
  }

  lemma LoneAdoption(row: Order, bo: BrokerOrder, now: Time, keys: Keys)
    requires AppliedLedger([], 0).qty == 0.0 && bo.filledQty == 0.0
    ensures Adopt(Db([row], [], [], [], map[], []), 0, bo, now, true, keys) == Db([Adopted(row, bo)], [], [], [], map[], [])
  {
    hide AppliedLedger, InsertFill;
    var db := Db([row], [], [], [], map[], []);
    InsertNone(WithRow(db, 0, Resurrected(row)), 0, keys(0), false);
  }

  lemma AdoptedQuantity(row: Order, bo: BrokerOrder)
    requires row.filledQty == 0.0 && bo.filledQty == 0.0
    ensures Adopted(row, bo).filledQty == 0.0
  {
  }

  /** The answers have to agree: with an order that is live by client id and canceled by broker id, the first
      reconcile learns the broker id and the second, asking by it, changes the row again. */
  lemma DisagreeingLookupsTakeTwo(now: Time, keys: Keys)
    ensures var live, ended := Named("accepted", 0.0), Named("canceled", 0.0);
            var broker := Broker([], map[1 := ended], map[1 := live], [], 0.0);
            var once := Reconciled(Db([FRESH_ROW], [], [], [], map[], []), broker, now, true, keys);
            var twice := Reconciled(once, broker, now, true, keys);
            once.orders == [Adopted(FRESH_ROW, live)] && twice.orders == [Adopted(Adopted(FRESH_ROW, live), ended)]
            && once.orders[0].status == Accepted && twice.orders[0].status == Canceled && !SameRows(once, twice)
  {
    var live, ended := Named("accepted", 0.0), Named("canceled", 0.0);
    var broker := Broker([], map[1 := ended], map[1 := live], [], 0.0);
    assert live.status == Accepted && ended.status == Canceled;
    var row := Adopted(FRESH_ROW, live);
    assert row.status == Accepted && row.brokerId == Some(1) && Adopted(row, ended).status == Canceled;
    hide Reconciled, MapStatus;
    LoneStraggler(FRESH_ROW, broker, live, now, keys);
    LoneStraggler(row, broker, ended, now, keys);
  }
}
