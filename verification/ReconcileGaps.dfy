/** Two places where a reconcile reports or does less than its description says, and exactly when. */
module ReconcileGaps {
  import opened Domain
  import opened Sums
  import opened Tables
  import opened FillLedger
  import opened OrderRows
  import opened Remainders
  import opened TradeUpdates
  import opened Reconciliation
  import opened Books
  import opened DbRuns
  import opened DbLedger
  import opened OrderConfluence
  import opened ReconcileQuiet
  import opened ReconcileListing
  import opened Evidence
  import opened UnseenRows

  // ── The list, and the rows it starts from ────────────────────────

  /** No order is listed twice. */
  ghost predicate ListedOnce(flat: seq<Listed>) {
    forall i, j :: 0 <= i < j < |flat| ==>
      && flat[i].order.brokerId != flat[j].order.brokerId
      && (flat[i].order.clientId.Some? ==> flat[i].order.clientId != flat[j].order.clientId)
  }

  /** The row the dictionaries, as built from these rows, find for an order. */
  function RowFor(orders: seq<Order>, bo: BrokerOrder): (r: Option<nat>)
    ensures r.Some? ==> r.value < |orders|
  {
    FindLocal(IndexOf(orders), bo)
  }

  lemma RowForIsComplete(orders: seq<Order>, bo: BrokerOrder)
    ensures RowFor(orders, bo).Some? <==> HasRow(orders, bo)
  {
    IndexIsComplete(orders, bo);
  }

  lemma {:induction false} OpenIsListed(open: seq<BrokerOrder>, i: nat) returns (k: nat)
    requires i < |open|
    ensures k < |Flat(open)| && Flat(open)[k] == Listed(open[i], None)
  {
    if i == 0 {
      k := 0;
    } else {
      var rest := OpenIsListed(open[1..], i - 1);
      k := 1 + |LegsOf(open[0], open[0].legs)| + rest;
    }
  }

  lemma {:induction false} LegIsLegOf(parent: BrokerOrder, legs: seq<BrokerOrder>, m: nat)
    requires m < |legs|
    ensures m < |LegsOf(parent, legs)| && LegsOf(parent, legs)[m] == Listed(legs[m], Some(parent))
  {
    if m > 0 {
      LegIsLegOf(parent, legs[1..], m - 1);
    }
  }

  lemma {:induction false} LegIsListed(open: seq<BrokerOrder>, i: nat, m: nat) returns (k: nat)
    requires i < |open| && m < |open[i].legs|
    ensures k < |Flat(open)| && Flat(open)[k] == Listed(open[i].legs[m], Some(open[i]))
  {
    if i == 0 {
      LegIsLegOf(open[0], open[0].legs, m);
      k := 1 + m;
    } else {
      var rest := LegIsListed(open[1..], i - 1, m);
      k := 1 + |LegsOf(open[0], open[0].legs)| + rest;
    }
  }

  /** A leg's parent is listed before its family, and the rest of its family is listed too. */
  ghost predicate Nested(flat: seq<Listed>) {
    forall j :: 0 <= j < |flat| && flat[j].parent.Some? ==>
      && (exists k :: 0 <= k < |flat| && flat[k] == Listed(flat[j].parent.value, None))
      && (forall m :: 0 <= m < |flat[j].parent.value.legs| ==> IsListedLeg(flat, flat[j].parent.value, flat[j].parent.value.legs[m]))
      && (exists m :: 0 <= m < |flat[j].parent.value.legs| && flat[j].parent.value.legs[m] == flat[j].order)
  }

  ghost predicate IsListedLeg(flat: seq<Listed>, parent: BrokerOrder, leg: BrokerOrder) {
    exists k :: 0 <= k < |flat| && flat[k] == Listed(leg, Some(parent))
  }

  lemma FlatIsNested(open: seq<BrokerOrder>)
    ensures Nested(Flat(open))
  {
    hide Flat;
    var flat := Flat(open);
    forall j | 0 <= j < |flat| && flat[j].parent.Some?
      ensures exists k :: 0 <= k < |flat| && flat[k] == Listed(flat[j].parent.value, None)
      ensures forall m :: 0 <= m < |flat[j].parent.value.legs| ==> IsListedLeg(flat, flat[j].parent.value, flat[j].parent.value.legs[m])
      ensures exists m :: 0 <= m < |flat[j].parent.value.legs| && flat[j].parent.value.legs[m] == flat[j].order
    {
      FlatIsOpen(open, j);
      var i :| 0 <= i < |open| && open[i] == flat[j].parent.value;
      var k := OpenIsListed(open, i);
      forall m | 0 <= m < |open[i].legs| ensures IsListedLeg(flat, open[i], open[i].legs[m]) {
        var l := LegIsListed(open, i, m);
      }
    }
  }

  // ── What the first entries of the list leave behind ──────────────

  ghost predicate IsNamedLeg(entry: Listed) {
    entry.parent.Some? && entry.order.clientId.Some?
  }

  /** One of the first entries is a leg of this order that no starting row names. */
  ghost predicate Unfolded(orders: seq<Order>, flat: seq<Listed>, n: nat, parent: BrokerOrder) {
    exists i :: 0 <= i < n && i < |flat| && flat[i].parent == Some(parent) && RowFor(orders, flat[i].order).None?
  }

  /** The starting keys are as they were, and the others are those of legs already listed. */
  ghost predicate KeysOf(start: Index, index: Index, flat: seq<Listed>, n: nat) {
    && (forall b :: b in start.byBroker ==> b in index.byBroker && index.byBroker[b] == start.byBroker[b])
    && (forall c :: c in start.byClient ==> c in index.byClient && index.byClient[c] == start.byClient[c])
    && (forall b :: b in index.byBroker && b !in start.byBroker ==>
          exists i :: 0 <= i < n && i < |flat| && flat[i].parent.Some? && flat[i].order.brokerId == b)
    && (forall c :: c in index.byClient && c !in start.byClient ==>
          exists i :: 0 <= i < n && i < |flat| && flat[i].parent.Some? && flat[i].order.clientId == Some(c))
  }

  /** A starting row keeps its names, but for a broker id that an entry found by client id brought. */
  ghost predicate OldRow(orders: seq<Order>, flat: seq<Listed>, n: nat, was: Order, row: Order) {
    && row.clientId == was.clientId
    && (row.brokerId == was.brokerId
        || exists i :: 0 <= i < n && i < |flat| && row.brokerId == Some(flat[i].order.brokerId) && RowFor(orders, flat[i].order).Some?)
  }

  /** A row the pass created is a named leg's, of a family it unfolded. */
  ghost predicate LegRowOf(orders: seq<Order>, flat: seq<Listed>, n: nat, row: Order) {
    exists i :: 0 <= i < |flat| && IsNamedLeg(flat[i]) && Some(row.clientId) == flat[i].order.clientId
      && row.brokerId == Some(flat[i].order.brokerId)
      && RowFor(orders, flat[i].parent.value).Some? && Unfolded(orders, flat, n, flat[i].parent.value)
  }

  ghost predicate Families(orders: seq<Order>, flat: seq<Listed>, n: nat, rows: seq<Order>) {
    forall i :: 0 <= i < |flat| && IsNamedLeg(flat[i]) && RowFor(orders, flat[i].parent.value).Some? && Unfolded(orders, flat, n, flat[i].parent.value) ==>
      KnownLeg(rows, RowFor(orders, flat[i].parent.value).value, flat[i].order)
  }

  ghost predicate RowsOf(orders: seq<Order>, flat: seq<Listed>, n: nat, rows: seq<Order>) {
    && |orders| <= |rows|
    && (forall o :: 0 <= o < |orders| ==> OldRow(orders, flat, n, orders[o], rows[o]))
    && (forall o :: |orders| <= o < |rows| ==> LegRowOf(orders, flat, n, rows[o]))
    && Families(orders, flat, n, rows)
  }

  ghost predicate Through(orders: seq<Order>, flat: seq<Listed>, n: nat, index: Index, rows: seq<Order>) {
    KeysOf(IndexOf(orders), index, flat, n) && RowsOf(orders, flat, n, rows)
  }

  lemma StartIsThrough(db: Db, flat: seq<Listed>)
    ensures Through(db.orders, flat, 0, StartPass(db).index, db.orders)
  {
    hide IndexOf;
  }

  /** Entries not yet listed, and open orders, are found exactly where they were at the start. */
  lemma FoundAsAtStart(orders: seq<Order>, flat: seq<Listed>, n: nat, index: Index, k: nat)
    requires ListedOnce(flat) && KeysOf(IndexOf(orders), index, flat, n)
    requires k < |flat| && (n <= k || flat[k].parent.None?)
    ensures FindLocal(index, flat[k].order) == RowFor(orders, flat[k].order)
  {
    hide IndexOf;
  }

  lemma UnseenHasNoRow(orders: seq<Order>, flat: seq<Listed>, n: nat, rows: seq<Order>, j: nat)
    requires ListedOnce(flat) && RowsOf(orders, flat, n, rows) && j < |flat| && RowFor(orders, flat[j].order).None?
    ensures forall o :: 0 <= o < |orders| ==> !Names(rows[o], flat[j].order)
    ensures HasRow(rows, flat[j].order) ==>
              IsNamedLeg(flat[j]) && RowFor(orders, flat[j].parent.value).Some? && Unfolded(orders, flat, n, flat[j].parent.value)
    ensures forall o :: 0 <= o < |rows| && Names(rows[o], flat[j].order) ==>
              o >= |orders| && rows[o].brokerId == Some(flat[j].order.brokerId) && Some(rows[o].clientId) == flat[j].order.clientId
  {
    hide RowFor, Families, Unfolded;
    RowForIsComplete(orders, flat[j].order);
    forall o | 0 <= o < |orders| ensures !Names(rows[o], flat[j].order) {
      assert !Names(orders[o], flat[j].order);
      assert OldRow(orders, flat, n, orders[o], rows[o]);
    }
    forall o | |orders| <= o < |rows| && Names(rows[o], flat[j].order)
      ensures rows[o].brokerId == Some(flat[j].order.brokerId) && Some(rows[o].clientId) == flat[j].order.clientId
      ensures IsNamedLeg(flat[j]) && RowFor(orders, flat[j].parent.value).Some? && Unfolded(orders, flat, n, flat[j].parent.value)
    {
      assert LegRowOf(orders, flat, n, rows[o]);
    }
  }

  // ── One more entry: its family ───────────────────────────────────

  lemma KeysOfMore(start: Index, index: Index, flat: seq<Listed>, n: nat)
    requires KeysOf(start, index, flat, n)
    ensures KeysOf(start, index, flat, n + 1)
  {
  }

  lemma NamesOfMore(orders: seq<Order>, flat: seq<Listed>, n: nat, rows: seq<Order>)
    requires RowsOf(orders, flat, n, rows)
    ensures forall o :: 0 <= o < |orders| ==> OldRow(orders, flat, n + 1, orders[o], rows[o])
    ensures forall o :: |orders| <= o < |rows| ==> LegRowOf(orders, flat, n + 1, rows[o])
  {
    hide RowFor, Families;
    forall o | 0 <= o < |orders| ensures OldRow(orders, flat, n + 1, orders[o], rows[o]) {
      assert OldRow(orders, flat, n, orders[o], rows[o]);
    }
    forall o | |orders| <= o < |rows| ensures LegRowOf(orders, flat, n + 1, rows[o]) {
      assert LegRowOf(orders, flat, n, rows[o]);
    }
  }

  /** Is the entry the one that makes its family's rows? */
  ghost predicate Unfolds(orders: seq<Order>, flat: seq<Listed>, n: nat)
    requires n < |flat|
  {
    RowFor(orders, flat[n].order).None? && flat[n].parent.Some? && RowFor(orders, flat[n].parent.value).Some?
  }

  lemma SameFamilies(orders: seq<Order>, flat: seq<Listed>, n: nat, rows: seq<Order>)
    requires n < |flat| && RowsOf(orders, flat, n, rows) && !Unfolds(orders, flat, n)
    ensures RowsOf(orders, flat, n + 1, rows)
  {
    hide RowFor, OldRow, LegRowOf, KnownLeg;
    NamesOfMore(orders, flat, n, rows);
    forall i | 0 <= i < |flat| && IsNamedLeg(flat[i]) && RowFor(orders, flat[i].parent.value).Some? && Unfolded(orders, flat, n + 1, flat[i].parent.value)
      ensures KnownLeg(rows, RowFor(orders, flat[i].parent.value).value, flat[i].order)
    {
      assert Unfolded(orders, flat, n, flat[i].parent.value);
    }
  }

  lemma FamilyRows(orders: seq<Order>, flat: seq<Listed>, n: nat, rows: seq<Order>, now: Time)
    requires Nested(flat) && n < |flat| && RowsOf(orders, flat, n, rows) && Unfolds(orders, flat, n)
    ensures var parent := flat[n].parent.value;
            RowsOf(orders, flat, n + 1, rows + NewLegs(rows, RowFor(orders, parent).value, parent.legs, now))
  {
    hide RowFor, OldRow, KnownLeg, NewLegs, Nested;
    var parent := flat[n].parent.value;
    var o := RowFor(orders, parent).value;
    var legs := NewLegs(rows, o, parent.legs, now);
    NamesOfMore(orders, flat, n, rows);
    assert Unfolded(orders, flat, n + 1, parent);
    forall x | 0 <= x < |legs| ensures LegRowOf(orders, flat, n + 1, legs[x]) {
      var k := NewLegIs(rows, o, parent.legs, now, x);
      FamilyIsListed(flat, n, k);
    }
    forall i | 0 <= i < |flat| && IsNamedLeg(flat[i]) && RowFor(orders, flat[i].parent.value).Some? && Unfolded(orders, flat, n + 1, flat[i].parent.value)
      ensures KnownLeg(rows + legs, RowFor(orders, flat[i].parent.value).value, flat[i].order)
    {
      if flat[i].parent.value == parent {
        var m := LegOfParent(flat, i);
        EveryNamedLegIsThere(rows, o, parent.legs, now, m);
      } else {
        assert Unfolded(orders, flat, n, flat[i].parent.value);
        KnownStaysKnown(rows, legs, RowFor(orders, flat[i].parent.value).value, flat[i].order);
      }
    }
  }

  lemma FamilyIsListed(flat: seq<Listed>, n: nat, k: nat)
    requires Nested(flat) && n < |flat| && flat[n].parent.Some? && k < |flat[n].parent.value.legs|
    ensures IsListedLeg(flat, flat[n].parent.value, flat[n].parent.value.legs[k])
  {
  }

  lemma LegOfParent(flat: seq<Listed>, i: nat) returns (m: nat)
    requires Nested(flat) && i < |flat| && flat[i].parent.Some?
    ensures m < |flat[i].parent.value.legs| && flat[i].parent.value.legs[m] == flat[i].order
  {
    m :| 0 <= m < |flat[i].parent.value.legs| && flat[i].parent.value.legs[m] == flat[i].order;
  }

  lemma ParentFoundAsAtStart(orders: seq<Order>, flat: seq<Listed>, n: nat, index: Index)
    requires ListedOnce(flat) && Nested(flat) && KeysOf(IndexOf(orders), index, flat, n)
    requires n < |flat| && flat[n].parent.Some?
    ensures FindLocal(index, flat[n].parent.value) == RowFor(orders, flat[n].parent.value)
  {
    hide KeysOf, RowFor, ListedOnce;
    var k :| 0 <= k < |flat| && flat[k] == Listed(flat[n].parent.value, None);
    FoundAsAtStart(orders, flat, n, index, k);
  }

  /** A family is unfolded once: its first unseen leg makes all its rows, the next finds none to make. */
  lemma UnfoldedOnce(orders: seq<Order>, flat: seq<Listed>, n: nat, rows: seq<Order>, now: Time)
    requires ListedOnce(flat) && Nested(flat) && n < |flat| && RowsOf(orders, flat, n, rows) && Unfolds(orders, flat, n)
    ensures var parent := flat[n].parent.value;
            var o := RowFor(orders, parent).value;
            && (Unfolded(orders, flat, n, parent) ==> NewLegs(rows, o, parent.legs, now) == [])
            && (!Unfolded(orders, flat, n, parent) && flat[n].order.clientId.Some? ==> NewLegs(rows, o, parent.legs, now) != [])
  {
    hide RowFor, OldRow, NewLegs, Nested, ListedOnce, LegRowOf;
    var parent := flat[n].parent.value;
    var o := RowFor(orders, parent).value;
    if Unfolded(orders, flat, n, parent) {
      forall k | 0 <= k < |parent.legs| && parent.legs[k].clientId.Some? ensures KnownLeg(rows, o, parent.legs[k]) {
        FamilyIsListed(flat, n, k);
        var i :| 0 <= i < |flat| && flat[i] == Listed(parent.legs[k], Some(parent));
        assert IsNamedLeg(flat[i]);
      }
      KnownLegsAddNothing(rows, o, parent.legs, now);
    } else if flat[n].order.clientId.Some? {
      var m := LegOfParent(flat, n);
      EveryNamedLegIsThere(rows, o, parent.legs, now, m);
      UnseenHasNoRow(orders, flat, n, rows, n);
      if KnownLeg(rows, o, flat[n].order) {
        KnownHasRow(rows, o, flat[n].order);
      }
      assert rows + [] == rows;
    }
  }

  /** Where the listing pass finds an entry: where the start did, or in the family it has just unfolded. */
  ghost predicate FindsEntry(orders: seq<Order>, flat: seq<Listed>, n: nat, found: Option<nat>)
    requires n < |flat|
  {
    if RowFor(orders, flat[n].order).Some? then found == RowFor(orders, flat[n].order)
    else
      && (found.Some? <==> Unfolds(orders, flat, n) && flat[n].order.clientId.Some? && !Unfolded(orders, flat, n, flat[n].parent.value))
      && (found.Some? ==> found.value >= |orders|)
  }

  lemma WithLegIs(p: Pass, entry: Listed, o: nat, now: Time)
    requires IndexInRange(p.index, |p.db.orders|)
    requires FindLocal(p.index, entry.order).None? && entry.parent.Some? && FindLocal(p.index, entry.parent.value) == Some(o)
    ensures o < |p.db.orders|
    ensures var q := WithLeg(p, entry, now);
            var legs := NewLegs(p.db.orders, o, entry.parent.value.legs, now);
            var rows := p.db.orders + legs;
            var x := FindBrokerId(rows, entry.order.brokerId);
            && q.db.orders == rows
            && q.index == if legs != [] && x.Some? then Indexed(p.index, x.value, rows[x.value]) else p.index
  {
    hide NewLegs, FindBrokerId, Indexed;
  }

  lemma FamilyUnfolds(orders: seq<Order>, flat: seq<Listed>, n: nat, p: Pass, now: Time)
    requires ListedOnce(flat) && Nested(flat) && n < |flat| && IndexInRange(p.index, |p.db.orders|)
    requires Through(orders, flat, n, p.index, p.db.orders) && Unfolds(orders, flat, n)
    ensures var q := WithLeg(p, flat[n], now);
            Through(orders, flat, n + 1, q.index, q.db.orders) && FindsEntry(orders, flat, n, FindLocal(q.index, flat[n].order))
  {
    assert |orders| <= |p.db.orders|;
    hide RowFor, RowsOf, KeysOf, NewLegs, Nested, ListedOnce, IndexOf, FindLocal, Unfolded, FindBrokerId, Indexed, WithLeg;
    var entry, rows := flat[n], p.db.orders;
    var o := RowFor(orders, entry.parent.value).value;
    var legs := NewLegs(rows, o, entry.parent.value.legs, now);
    FoundAsAtStart(orders, flat, n, p.index, n);
    ParentFoundAsAtStart(orders, flat, n, p.index);
    WithLegIs(p, entry, o, now);
    FamilyRows(orders, flat, n, rows, now);
    UnfoldedOnce(orders, flat, n, rows, now);
    UnfoldedEntry(orders, flat, n, rows, now);
    var x := FindBrokerId(rows + legs, entry.order.brokerId);
    if legs != [] && x.Some? {
      UnseenHasNoRow(orders, flat, n + 1, rows + legs, n);
      assert Names((rows + legs)[x.value], entry.order);
      AddedKeys(orders, p.index, flat, n, x.value, (rows + legs)[x.value]);
    } else {
      KeysOfMore(IndexOf(orders), p.index, flat, n);
    }
  }

  lemma LegUnfolds(orders: seq<Order>, flat: seq<Listed>, n: nat, p: Pass, now: Time)
    requires ListedOnce(flat) && Nested(flat) && n < |flat| && IndexInRange(p.index, |p.db.orders|)
    requires Through(orders, flat, n, p.index, p.db.orders)
    ensures var q := WithLeg(p, flat[n], now);
            Through(orders, flat, n + 1, q.index, q.db.orders) && FindsEntry(orders, flat, n, FindLocal(q.index, flat[n].order))
  {
    hide RowFor, RowsOf, KeysOf, NewLegs, Nested, ListedOnce, IndexOf, FindLocal, Unfolded, FindBrokerId, Indexed;
    if Unfolds(orders, flat, n) {
      FamilyUnfolds(orders, flat, n, p, now);
    } else {
      FoundAsAtStart(orders, flat, n, p.index, n);
      KeysOfMore(IndexOf(orders), p.index, flat, n);
      SameFamilies(orders, flat, n, p.db.orders);
      if flat[n].parent.Some? {
        ParentFoundAsAtStart(orders, flat, n, p.index);
      }
    }
  }

  /** After unfolding, the entry's row is found by its broker id exactly when the broker named it. */
  lemma UnfoldedEntry(orders: seq<Order>, flat: seq<Listed>, n: nat, rows: seq<Order>, now: Time)
    requires ListedOnce(flat) && Nested(flat) && n < |flat| && RowsOf(orders, flat, n, rows) && Unfolds(orders, flat, n)
    ensures var parent := flat[n].parent.value;
            var after := rows + NewLegs(rows, RowFor(orders, parent).value, parent.legs, now);
            FindBrokerId(after, flat[n].order.brokerId).Some? <==> flat[n].order.clientId.Some?
  {
    assert |orders| <= |rows|;
    hide RowFor, NewLegs, ListedOnce, FindBrokerId, Unfolded, RowsOf;
    var parent := flat[n].parent.value;
    var o := RowFor(orders, parent).value;
    var after := rows + NewLegs(rows, o, parent.legs, now);
    FamilyRows(orders, flat, n, rows, now);
    UnseenHasNoRow(orders, flat, n + 1, after, n);
    var x := FindBrokerId(after, flat[n].order.brokerId);
    if x.Some? {
      assert Names(after[x.value], flat[n].order);
    }
    if flat[n].order.clientId.Some? {
      var m := LegOfParent(flat, n);
      EveryNamedLegIsThere(rows, o, parent.legs, now, m);
      KnownHasRow(after, o, flat[n].order);
    }
  }

  lemma AddedKeys(orders: seq<Order>, index: Index, flat: seq<Listed>, n: nat, x: nat, row: Order)
    requires n < |flat| && KeysOf(IndexOf(orders), index, flat, n) && RowFor(orders, flat[n].order).None? && flat[n].parent.Some?
    requires row.brokerId == Some(flat[n].order.brokerId) && Some(row.clientId) == flat[n].order.clientId
    ensures KeysOf(IndexOf(orders), Indexed(index, x, row), flat, n + 1)
    ensures FindLocal(Indexed(index, x, row), flat[n].order) == Some(x)
  {
    hide IndexOf;
  }

  // ── One more entry: its snapshot ─────────────────────────────────

  lemma AdoptionIsThrough(orders: seq<Order>, flat: seq<Listed>, n: nat, rows: seq<Order>, o: nat)
    requires n < |flat| && RowsOf(orders, flat, n + 1, rows) && o < |rows|
    requires o < |orders| ==> RowFor(orders, flat[n].order).Some?
    ensures RowsOf(orders, flat, n + 1, rows[o := Adopted(rows[o], flat[n].order)])
  {
    hide RowFor, LegRowOf, Unfolded;
    var after := rows[o := Adopted(rows[o], flat[n].order)];
    WriteAdvances(rows[o], Adopting(flat[n].order));
    hide Adopted;
    if o < |orders| {
      assert OldRow(orders, flat, n + 1, orders[o], rows[o]);
      AdoptedOldRow(orders, flat, n, orders[o], rows[o]);
    } else {
      assert LegRowOf(orders, flat, n + 1, rows[o]);
      SameNamesSameLeg(orders, flat, n + 1, rows[o], after[o]);
    }
    RowChangeAdvances(rows, after, o);
    forall i | 0 <= i < |flat| && IsNamedLeg(flat[i]) && RowFor(orders, flat[i].parent.value).Some? && Unfolded(orders, flat, n + 1, flat[i].parent.value)
      ensures KnownLeg(after, RowFor(orders, flat[i].parent.value).value, flat[i].order)
    {
      assert KnownLeg(rows, RowFor(orders, flat[i].parent.value).value, flat[i].order);
      KnownLegStays(rows, after, RowFor(orders, flat[i].parent.value).value, [flat[i].order]);
      assert KnownLeg(after, RowFor(orders, flat[i].parent.value).value, [flat[i].order][0]);
    }
  }

  lemma AdoptedOldRow(orders: seq<Order>, flat: seq<Listed>, n: nat, was: Order, row: Order)
    requires n < |flat| && OldRow(orders, flat, n + 1, was, row) && RowFor(orders, flat[n].order).Some?
    ensures OldRow(orders, flat, n + 1, was, Adopted(row, flat[n].order))
  {
    hide RowFor;
  }

  lemma SameNamesSameLeg(orders: seq<Order>, flat: seq<Listed>, n: nat, row: Order, after: Order)
    requires LegRowOf(orders, flat, n, row) && after.clientId == row.clientId
    requires row.brokerId.Some? ==> after.brokerId == row.brokerId
    ensures LegRowOf(orders, flat, n, after)
  {
    hide RowFor, Unfolded;
  }

  lemma EntryThrough(orders: seq<Order>, flat: seq<Listed>, n: nat, p: Pass, now: Time, synthesize: bool, keys: Keys)
    requires ListedOnce(flat) && Nested(flat) && n < |flat| && IndexInRange(p.index, |p.db.orders|)
    requires Through(orders, flat, n, p.index, p.db.orders)
    ensures var q := AdoptListed(p, flat[n], now, synthesize, keys);
            Through(orders, flat, n + 1, q.index, q.db.orders)
  {
    hide RowFor, RowsOf, KeysOf, WithLeg, Adopt, ListedOnce, Nested, Unfolded;
    LegUnfolds(orders, flat, n, p, now);
    var q := WithLeg(p, flat[n], now);
    var local := FindLocal(q.index, flat[n].order);
    if local.Some? {
      AdoptAdvances(q.db, local.value, flat[n].order, now, synthesize, keys);
      AdoptionIsThrough(orders, flat, n, q.db.orders, local.value);
    }
  }

  lemma {:induction false} ListingThrough(db: Db, flat: seq<Listed>, n: nat, now: Time, synthesize: bool, keys: Keys)
    requires ListedOnce(flat) && Nested(flat) && n <= |flat|
    ensures var p := AdoptAllListed(StartPass(db), flat[..n], now, synthesize, keys);
            Through(db.orders, flat, n, p.index, p.db.orders)
  {
    hide Through, AdoptListed, ListedOnce, Nested, IndexOf;
    if n == 0 {
      StartIsThrough(db, flat);
    } else {
      ListingThrough(db, flat, n - 1, now, synthesize, keys);
      assert flat[..n][..n - 1] == flat[..n - 1];
      EntryThrough(db.orders, flat, n - 1, AdoptAllListed(StartPass(db), flat[..n - 1], now, synthesize, keys), now, synthesize, keys);
    }
  }

  // ── Orphans that have a row ──────────────────────────────────────

  /** The listing pass counts entry `j` as an orphan. */
  ghost predicate CountsAsOrphan(db: Db, flat: seq<Listed>, j: nat, now: Time, synthesize: bool, keys: Keys)
    requires j < |flat|
  {
    AdoptAllListed(StartPass(db), flat[..j + 1], now, synthesize, keys).orphans
    == AdoptAllListed(StartPass(db), flat[..j], now, synthesize, keys).orphans + 1
  }

  /** A named leg no starting row names, of a parent one does; and an earlier entry was such a leg of the
      same parent, named or not. */
  ghost predicate IsLaterUnseenLeg(orders: seq<Order>, flat: seq<Listed>, j: nat)
    requires j < |flat|
  {
    && !HasRow(orders, flat[j].order) && flat[j].order.clientId.Some?
    && flat[j].parent.Some? && HasRow(orders, flat[j].parent.value)
    && exists i :: 0 <= i < j && flat[i].parent == flat[j].parent && !HasRow(orders, flat[i].order)
  }

  lemma UnfoldedIsUnseen(orders: seq<Order>, flat: seq<Listed>, n: nat, parent: BrokerOrder)
    requires n <= |flat|
    ensures Unfolded(orders, flat, n, parent) <==> exists i :: 0 <= i < n && flat[i].parent == Some(parent) && !HasRow(orders, flat[i].order)
  {
    hide RowFor, HasRow;
    forall i | 0 <= i < n ensures RowFor(orders, flat[i].order).Some? <==> HasRow(orders, flat[i].order) {
      RowForIsComplete(orders, flat[i].order);
    }
  }

  lemma OrphanIsNotFound(db: Db, flat: seq<Listed>, j: nat, now: Time, synthesize: bool, keys: Keys)
    requires ListedOnce(flat) && Nested(flat) && j < |flat|
    ensures CountsAsOrphan(db, flat, j, now, synthesize, keys) <==>
            RowFor(db.orders, flat[j].order).None? &&
            !(Unfolds(db.orders, flat, j) && flat[j].order.clientId.Some? && !Unfolded(db.orders, flat, j, flat[j].parent.value))
  {
    hide RowFor, Through, WithLeg, AdoptInto, ListedOnce, Nested, IndexOf, Unfolded, FindLocal;
    var p := AdoptAllListed(StartPass(db), flat[..j], now, synthesize, keys);
    ListingThrough(db, flat, j, now, synthesize, keys);
    LegUnfolds(db.orders, flat, j, p, now);
    assert flat[..j + 1][..j] == flat[..j];
    EntryCounts(p, flat[j], now, synthesize, keys);
  }

  lemma EntryCounts(p: Pass, entry: Listed, now: Time, synthesize: bool, keys: Keys)
    requires IndexInRange(p.index, |p.db.orders|)
    ensures AdoptListed(p, entry, now, synthesize, keys).orphans ==
            p.orphans + if FindLocal(WithLeg(p, entry, now).index, entry.order).None? then 1 else 0
  {
    hide Adopt, NewLegs, FindBrokerId;
  }

  /** `orphans` should count orders placed outside the system. Of the orders that have a row when the listing
      pass is over, it counts exactly those legs whose family another leg of the pass had unfolded first. */
  lemma OrphanWithARow(db: Db, broker: Broker, j: nat, now: Time, synthesize: bool, keys: Keys)
    requires ListedOnce(Flat(broker.open)) && j < |Flat(broker.open)|
    ensures var flat := Flat(broker.open);
            var after := AdoptAllListed(StartPass(db), flat, now, synthesize, keys).db.orders;
            CountsAsOrphan(db, flat, j, now, synthesize, keys) && HasRow(after, flat[j].order) <==> IsLaterUnseenLeg(db.orders, flat, j)
  {
    hide RowFor, RowsOf, KeysOf, AdoptAllListed, Flat, Nested, ListedOnce, HasRow, Unfolded, CountsAsOrphan, IndexOf;
    var flat := Flat(broker.open);
    FlatIsNested(broker.open);
    OrphanIsNotFound(db, flat, j, now, synthesize, keys);
    RowForIsComplete(db.orders, flat[j].order);
    ListingThrough(db, flat, |flat|, now, synthesize, keys);
    assert flat[..|flat|] == flat;
    var after := AdoptAllListed(StartPass(db), flat, now, synthesize, keys).db.orders;
    if flat[j].parent.Some? {
      RowForIsComplete(db.orders, flat[j].parent.value);
      UnfoldedIsUnseen(db.orders, flat, j, flat[j].parent.value);
      NamedLegHasRow(db.orders, flat, j, after);
    }
    if RowFor(db.orders, flat[j].order).None? {
      UnseenHasNoRow(db.orders, flat, |flat|, after, j);
    }
  }

  lemma NamedLegHasRow(orders: seq<Order>, flat: seq<Listed>, j: nat, rows: seq<Order>)
    requires RowsOf(orders, flat, |flat|, rows) && j < |flat|
    ensures Unfolds(orders, flat, j) && flat[j].order.clientId.Some? ==> HasRow(rows, flat[j].order)
  {
    hide RowFor, HasRow, OldRow, LegRowOf;
    if Unfolds(orders, flat, j) && flat[j].order.clientId.Some? {
      assert Unfolded(orders, flat, |flat|, flat[j].parent.value);
      KnownHasRow(rows, RowFor(orders, flat[j].parent.value).value, flat[j].order);
    }
  }

  /** A bracket whose row is there and whose two legs are not: both legs get rows, and the second is counted
      as an orphan. */
  const BRACKET_ROW := Order(1, Some(1), None, 1, Buy, true, None, Accepted, 5.0, 0.0, None, None, 0)

  function Leg(id: nat): BrokerOrder {
    BrokerOrder(id, Some(id), 1, Sell, false, Accepted, Some(5.0), 0.0, None, None, [])
  }

  const BRACKET := BrokerOrder(1, Some(1), 1, Buy, true, Accepted, Some(5.0), 0.0, None, None, [Leg(2), Leg(3)])

  lemma SecondLegCountsAsOrphan(now: Time, synthesize: bool, keys: Keys)
    ensures var db, flat := Db([BRACKET_ROW], [], [], [], map[], []), Flat([BRACKET]);
            && flat == [Listed(BRACKET, None), Listed(Leg(2), Some(BRACKET)), Listed(Leg(3), Some(BRACKET))]
            && !CountsAsOrphan(db, flat, 1, now, synthesize, keys) && CountsAsOrphan(db, flat, 2, now, synthesize, keys)
            && HasRow(AdoptAllListed(StartPass(db), flat, now, synthesize, keys).db.orders, Leg(3))
  {
    var db, broker := Db([BRACKET_ROW], [], [], [], map[], []), Broker([BRACKET], map[], map[], [], 0.0);
    var flat := Flat([BRACKET]);
    BracketIsListed();
    BracketHasRow();
    hide Flat, AdoptAllListed, HasRow, RowFor;
    assert flat[1].parent == flat[2].parent;
    OrphanWithARow(db, broker, 2, now, synthesize, keys);
    FlatIsNested([BRACKET]);
    OrphanIsNotFound(db, flat, 1, now, synthesize, keys);
    RowForIsComplete(db.orders, Leg(2));
    RowForIsComplete(db.orders, BRACKET);
    assert !Unfolded(db.orders, flat, 1, BRACKET);
  }

  lemma BracketHasRow()
    ensures HasRow([BRACKET_ROW], BRACKET) && !HasRow([BRACKET_ROW], Leg(2)) && !HasRow([BRACKET_ROW], Leg(3))
  {
    assert Names([BRACKET_ROW][0], BRACKET);
  }

  lemma BracketIsListed()
    ensures Flat([BRACKET]) == [Listed(BRACKET, None), Listed(Leg(2), Some(BRACKET)), Listed(Leg(3), Some(BRACKET))]
  {
    assert BRACKET.legs[1..] == [Leg(3)] && [Leg(3)][1..] == [];
    assert LegsOf(BRACKET, BRACKET.legs) == [Listed(Leg(2), Some(BRACKET))] + LegsOf(BRACKET, [Leg(3)]);
    assert [BRACKET][1..] == [];
  }

  // ── Rows written off that stay written off ───────────────────────

  /** Some listed order or leg is this row's, by the dictionaries built from the starting rows. */
  ghost predicate IsListed(orders: seq<Order>, flat: seq<Listed>, n: nat, o: nat) {
    exists i :: 0 <= i < n && i < |flat| && RowFor(orders, flat[i].order) == Some(o)
  }

  /** No broker answer carries the engine's own `failed`, as `MappedStatuses` says. */
  ghost predicate NoneFailed(flat: seq<Listed>) {
    forall j :: 0 <= j < |flat| ==> flat[j].order.status != Failed
  }

  ghost predicate NeverSaysFailed(broker: Broker) {
    && NoneFailed(Flat(broker.open))
    && (forall b :: b in broker.byId ==> broker.byId[b].status != Failed)
    && (forall c :: c in broker.byClient ==> broker.byClient[c].status != Failed)
  }

  ghost predicate SameLedger(was: seq<Fill>, now: seq<Fill>, o: nat) {
    AppliedLedger(now, o).qty == AppliedLedger(was, o).qty
  }

  /** A row written off is untouched, ledger and all, until an entry finds it; then it is alive and matched. */
  ghost predicate WrittenOff(db: Db, flat: seq<Listed>, n: nat, p: Pass, o: nat)
    requires o < |db.orders|
  {
    && o < |p.db.orders|
    && if IsListed(db.orders, flat, n, o) then o in p.matched && p.db.orders[o].status != Failed
       else p.db.orders[o] == db.orders[o] && SameLedger(db.fills, p.db.fills, o)
  }

  lemma OtherFillsSameLedger(fills: seq<Fill>, more: seq<Fill>, other: nat, o: nat)
    requires ForOrder(more, other) && other != o
    ensures SameLedger(fills, fills + more, o)
  {
    SumConcat(fills, more, QtyOf(o));
    SumIsZero(more, QtyOf(o));
  }

  lemma AdoptElsewhere(db: Db, other: nat, bo: BrokerOrder, now: Time, synthesize: bool, keys: Keys, o: nat)
    requires other < |db.orders| && o < |db.orders| && other != o
    ensures var after := Adopt(db, other, bo, now, synthesize, keys);
            after.orders[o] == db.orders[o] && SameLedger(db.fills, after.fills, o)
  {
    hide InsertFill, CatchUp, SameLedger, ForOrder;
    AdoptAdvances(db, other, bo, now, synthesize, keys);
    var fills := if synthesize then CatchUp(Exact, db.fills, other, bo.filledQty, bo.filledAvg, bo.filledAt.GetOr(now), Recon) else [];
    assert ForOrder(fills, other) by { CatchUpIsForOrder(db.fills, other, bo.filledQty, bo.filledAvg, bo.filledAt.GetOr(now)); }
    OtherFillsSameLedger(db.fills, fills, other, o);
  }

  lemma CatchUpIsForOrder(fills: seq<Fill>, o: nat, cumQty: real, cumAvg: Option<real>, at: Time)
    ensures ForOrder(CatchUp(Exact, fills, o, cumQty, cumAvg, at, Recon), o) && ForOrder([], o)
  {
    hide SpanPrice, AppliedLedger, HasKey;
  }

  lemma AdoptRevives(db: Db, o: nat, bo: BrokerOrder, now: Time, synthesize: bool, keys: Keys)
    requires o < |db.orders| && bo.status != Failed
    ensures Adopt(db, o, bo, now, synthesize, keys).orders[o].status != Failed
  {
    AdoptAdvances(db, o, bo, now, synthesize, keys);
  }

  lemma EntryKeepsWrittenOff(db: Db, flat: seq<Listed>, n: nat, p: Pass, now: Time, synthesize: bool, keys: Keys, o: nat)
    requires ListedOnce(flat) && Nested(flat) && NoneFailed(flat) && n < |flat| && o < |db.orders|
    requires IndexInRange(p.index, |p.db.orders|) && Through(db.orders, flat, n, p.index, p.db.orders) && WrittenOff(db, flat, n, p, o)
    ensures WrittenOff(db, flat, n + 1, AdoptListed(p, flat[n], now, synthesize, keys), o)
  {
    hide RowFor, Through, Adopt, ListedOnce, Nested, Unfolded, SameLedger, NewLegs, FindBrokerId;
    LegUnfolds(db.orders, flat, n, p, now);
    var q := WithLeg(p, flat[n], now);
    assert q.db.orders[o] == p.db.orders[o] && q.db.fills == p.db.fills && q.matched == p.matched;
    var local := FindLocal(q.index, flat[n].order);
    hide WithLeg, FindLocal;
    assert IsListed(db.orders, flat, n + 1, o) <==> IsListed(db.orders, flat, n, o) || local == Some(o);
    if local == Some(o) {
      AdoptRevives(q.db, o, flat[n].order, now, synthesize, keys);
    } else if local.Some? {
      AdoptElsewhere(q.db, local.value, flat[n].order, now, synthesize, keys, o);
      SameLedgerChain(db.fills, q.db.fills, Adopt(q.db, local.value, flat[n].order, now, synthesize, keys).fills, o);
    }
  }

  lemma SameLedgerChain(a: seq<Fill>, b: seq<Fill>, c: seq<Fill>, o: nat)
    requires SameLedger(b, c, o)
    ensures SameLedger(a, b, o) ==> SameLedger(a, c, o)
  {
    hide AppliedLedger;
  }

  lemma {:induction false} ListingKeepsWrittenOff(db: Db, flat: seq<Listed>, n: nat, now: Time, synthesize: bool, keys: Keys, o: nat)
    requires ListedOnce(flat) && Nested(flat) && NoneFailed(flat) && n <= |flat| && o < |db.orders|
    ensures WrittenOff(db, flat, n, AdoptAllListed(StartPass(db), flat[..n], now, synthesize, keys), o)
  {
    hide RowFor, Through, AdoptListed, ListedOnce, Nested, NoneFailed, IndexOf, AppliedLedger;
    if n > 0 {
      ListingKeepsWrittenOff(db, flat, n - 1, now, synthesize, keys, o);
      assert flat[..n][..n - 1] == flat[..n - 1];
      ListingThrough(db, flat, n - 1, now, synthesize, keys);
      EntryKeepsWrittenOff(db, flat, n - 1, AdoptAllListed(StartPass(db), flat[..n - 1], now, synthesize, keys), now, synthesize, keys, o);
    }
  }

  /** The straggler pass leaves a matched row, and an absorbed one, alone. */
  lemma {:induction false} RecoverySkips(r: Recovery, n: nat, flat: seq<Listed>, broker: Broker, now: Time, synthesize: bool, keys: Keys, o: nat)
    requires n <= |r.pass.db.orders| && o < |r.pass.db.orders|
    requires o in r.pass.matched || IsAbsorbing(r.pass.db.orders[o].status)
    ensures var after := Recover(r, n, flat, broker, now, synthesize, keys).pass;
            && after.db.orders[o] == r.pass.db.orders[o] && after.matched == r.pass.matched
            && SameLedger(r.pass.db.fills, after.db.fills, o)
  {
    hide Adopt, NewLegs, Lookup, AppliedLedger;
    if n > 0 {
      RecoverySkips(r, n - 1, flat, broker, now, synthesize, keys, o);
      var before := Recover(r, n - 1, flat, broker, now, synthesize, keys).pass;
      var found := Lookup(broker, before.db.orders[n - 1]);
      if n - 1 != o && found.Some? {
        AdoptElsewhere(before.db, n - 1, found.value, now, synthesize, keys, o);
      }
    }
  }

  /** After the order half of a reconcile a row written off stays so exactly when no listed order or leg is
      its own: what the lookups know of it is not asked. */
  lemma WrittenOffStays(db: Db, broker: Broker, now: Time, synthesize: bool, keys: Keys, o: nat)
    requires ListedOnce(Flat(broker.open)) && NoneFailed(Flat(broker.open))
    requires o < |db.orders| && db.orders[o].status == Failed
    ensures var after := Recovered(db, broker, now, synthesize, keys).pass.db;
            && (after.orders[o].status == Failed <==> !IsListed(db.orders, Flat(broker.open), |Flat(broker.open)|, o))
            && (after.orders[o].status == Failed ==> after.orders[o] == db.orders[o] && SameLedger(db.fills, after.fills, o))
  {
    hide RowFor, Flat, ListedOnce, Nested, NoneFailed, AdoptAllListed, Recover, AppliedLedger, IsListed;
    var flat := Flat(broker.open);
    FlatIsNested(broker.open);
    assert flat[..|flat|] == flat;
    ListingKeepsWrittenOff(db, flat, |flat|, now, synthesize, keys, o);
    RecoverySkips(Recovery(AdoptAllListed(StartPass(db), flat, now, synthesize, keys), 0), |db.orders|, flat, broker, now, synthesize, keys, o);
  }

  lemma {:induction false} SweepElsewhere(db: Db, start: Db, n: nat, broker: Broker, now: Time, keys: Keys, o: nat)
    requires n <= |db.orders| && n <= |start.orders| && n <= o < |db.orders|
    ensures Sweep(db, start, n, broker, now, keys).orders[o] == db.orders[o]
  {
    hide SweepOne, Deficient;
    if n > 0 {
      SweepElsewhere(db, start, n - 1, broker, now, keys, o);
      SweepOneOrders(Sweep(db, start, n - 1, broker, now, keys), n - 1, broker, now, keys);
    }
  }

  /** Only a deficit the broker can answer for brings a written-off row back in the sweep. */
  lemma {:induction false} SweepRevives(db: Db, start: Db, n: nat, broker: Broker, now: Time, keys: Keys, o: nat)
    requires NeverSaysFailed(broker) && n <= |db.orders| && n <= |start.orders| && o < n
    ensures Sweep(db, start, n, broker, now, keys).orders[o].status == Failed <==>
            db.orders[o].status == Failed && !(Deficient(start, o) && Lookup(broker, db.orders[o]).Some?)
  {
    hide Adopt, CatchUp, InsertFill, Deficient, NeverSaysFailed, Lookup;
    var before := Sweep(db, start, n - 1, broker, now, keys);
    if o < n - 1 {
      SweepRevives(db, start, n - 1, broker, now, keys, o);
      SweepOneOrders(before, n - 1, broker, now, keys);
    } else {
      SweepElsewhere(db, start, o, broker, now, keys, o);
      if Lookup(broker, before.orders[o]).Some? {
        LookupNeverSaysFailed(broker, before.orders[o]);
        AdoptRevives(before, o, Lookup(broker, before.orders[o]).value, now, true, keys);
      }
    }
  }

  lemma LookupNeverSaysFailed(broker: Broker, row: Order)
    requires NeverSaysFailed(broker) && Lookup(broker, row).Some?
    ensures Lookup(broker, row).value.status != Failed
  {
  }

  /** And after the whole of it: not listed, and no deficit that a lookup can explain. */
  lemma WrittenOffForGood(db: Db, broker: Broker, now: Time, keys: Keys, o: nat)
    requires ListedOnce(Flat(broker.open)) && NeverSaysFailed(broker)
    requires o < |db.orders| && db.orders[o].status == Failed
    ensures o < |Reconciled(db, broker, now, true, keys).orders|
    ensures Reconciled(db, broker, now, true, keys).orders[o].status == Failed <==>
            && !IsListed(db.orders, Flat(broker.open), |Flat(broker.open)|, o)
            && !(Deficient(db, o) && Lookup(broker, db.orders[o]).Some?)
  {
    hide RowFor, Flat, ListedOnce, NoneFailed, Recovered, Sweep, RetryPass, AppliedLedger, IsListed, Lookup;
    WrittenOffStays(db, broker, now, true, keys, o);
    var recovered := Recovered(db, broker, now, true, keys).pass.db;
    var swept := Sweep(recovered, recovered, |recovered.orders|, broker, now, keys);
    RetryKeepsOrders(swept, swept.events, |swept.events|);
    SweepRevives(recovered, recovered, |recovered.orders|, broker, now, keys, o);
  }

  /** Where nothing was filled on the row, the sweep adds nothing ... */
  lemma UnfilledWrittenOffForGood(db: Db, broker: Broker, now: Time, keys: Keys, o: nat)
    requires ListedOnce(Flat(broker.open)) && NeverSaysFailed(broker)
    requires DbOk(db) && o < |db.orders| && UnseenIsUnfilled(db.orders[o]) && db.orders[o].status == Failed
    ensures o < |Reconciled(db, broker, now, true, keys).orders|
    ensures Reconciled(db, broker, now, true, keys).orders[o].status == Failed <==>
            !IsListed(db.orders, Flat(broker.open), |Flat(broker.open)|, o)
  {
    hide QuantityOk, MoneyOk, AttributionOk, AppliedLedger, Reconciled, Flat, IsListed, ListedOnce, NeverSaysFailed, Lookup;
    WrittenOffForGood(db, broker, now, keys, o);
    LedgerIsNonNegative(db.fills, o);
  }

  /** ... and so in every run of all writers from empty tables in which no refusal was written over a fill. */
  lemma WrittenOffInRuns(run: seq<Txn>, broker: Broker, now: Time, keys: Keys, o: nat)
    requires PositiveFills(run) && ListedOnce(Flat(broker.open)) && NeverSaysFailed(broker)
    requires forall i :: 0 <= i < |run| ==> Mapped(run[i]) && LeavesUnfilled(CommitAll(NO_ROWS, run[..i]), run[i])
    requires o < |CommitAll(NO_ROWS, run).orders| && CommitAll(NO_ROWS, run).orders[o].status == Failed
    ensures var db := CommitAll(NO_ROWS, run);
            && o < |Reconciled(db, broker, now, true, keys).orders|
            && (Reconciled(db, broker, now, true, keys).orders[o].status == Failed <==>
                  !IsListed(db.orders, Flat(broker.open), |Flat(broker.open)|, o))
  {
    hide DbOk, Reconciled, Flat, IsListed, ListedOnce, NeverSaysFailed, CommitAll, Mapped, LeavesUnfilled, PositiveFills, UnseenIsUnfilled;
    EveryReachableStateIsOk(run);
    RunKeepsUnfilled(NO_ROWS, run);
    RowIsUnfilled(CommitAll(NO_ROWS, run).orders, o);
    UnfilledWrittenOffForGood(CommitAll(NO_ROWS, run), broker, now, keys, o);
  }

  /** The order was written off before the broker acknowledged it, then filled and left the open list: the
      reconcile, which could look it up by its client id, leaves the row `failed`. */
  lemma FilledOrderStaysWrittenOff(now: Time, keys: Keys)
    ensures var row := FRESH_ROW.(status := Failed);
            var answer := Broker([], map[], map[1 := Named("filled", 5.0)], [], 0.0);
            var after := Reconciled(Db([row], [], [], [], map[], []), answer, now, true, keys);
            Lookup(answer, row).Some? && Lookup(answer, row).value.status == Filled && after.orders != [] && after.orders[0].status == Failed
  {
    var db := Db([FRESH_ROW.(status := Failed)], [], [], [], map[], []);
    var answer := Broker([], map[], map[1 := Named("filled", 5.0)], [], 0.0);
    assert AppliedLedger(db.fills, 0).qty == 0.0;
    assert Named("filled", 5.0).status == Filled;
    hide Reconciled, AppliedLedger, RowFor;
    WrittenOffForGood(db, answer, now, keys, 0);
  }
}
