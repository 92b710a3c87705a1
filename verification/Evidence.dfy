/** Where every ledger step of a run comes from: a stream event, a broker's answer, or a row's own columns. */
module Evidence {
  import opened Domain
  import opened Tables
  import opened FillLedger
  import opened LedgerRuns
  import opened OrderRows
  import opened Remainders
  import opened TradeUpdates
  import opened Reconciliation
  import opened DbRuns
  import opened DbLedger
  import opened OrderConfluence

  /** Something this broker answered about the row: a listed order or leg that names it, or what either
      lookup returns for it. */
  ghost predicate AnswersFor(broker: Broker, row: Order, bo: BrokerOrder) {
    || (exists j :: 0 <= j < |Flat(broker.open)| && Flat(broker.open)[j].order == bo && Names(row, bo))
    || (row.brokerId.Some? && row.brokerId.value in broker.byId && broker.byId[row.brokerId.value] == bo)
    || (row.clientId in broker.byClient && broker.byClient[row.clientId] == bo)
  }

  /** A reconcile's step is one of its answers about the row, or the row's own columns as it leaves them. */
  ghost predicate Evident(broker: Broker, orders: seq<Order>, now: Time, step: Step) {
    && step.Snapshot? && step.order < |orders|
    && ((exists bo :: AnswersFor(broker, orders[step.order], bo) && step == SnapshotOf(step.order, bo, now))
        || step == OwnColumns(step.order, orders[step.order], now))
  }

  ghost predicate FromAnswer(broker: Broker, orders: seq<Order>, now: Time, step: Step) {
    && step.Snapshot? && step.order < |orders|
    && exists bo :: AnswersFor(broker, orders[step.order], bo) && step == SnapshotOf(step.order, bo, now)
  }

  lemma AnswersStay(broker: Broker, was: seq<Order>, after: seq<Order>, now: Time, step: Step)
    requires RowsAdvance(was, after) && FromAnswer(broker, was, now, step)
    ensures FromAnswer(broker, after, now, step)
  {
    hide Flat;
    assert Advances(was[step.order], after[step.order]);
    var bo :| AnswersFor(broker, was[step.order], bo) && step == SnapshotOf(step.order, bo, now);
    assert AnswersFor(broker, after[step.order], bo);
  }

  ghost predicate AllFromAnswers(broker: Broker, orders: seq<Order>, now: Time, steps: seq<Step>) {
    forall k :: 0 <= k < |steps| ==> FromAnswer(broker, orders, now, steps[k])
  }

  lemma AllAnswersStay(broker: Broker, was: seq<Order>, after: seq<Order>, now: Time, steps: seq<Step>)
    requires RowsAdvance(was, after) && AllFromAnswers(broker, was, now, steps)
    ensures AllFromAnswers(broker, after, now, steps)
  {
    forall k | 0 <= k < |steps| ensures FromAnswer(broker, after, now, steps[k]) {
      AnswersStay(broker, was, after, now, steps[k]);
    }
  }

  lemma OneMoreAnswer(broker: Broker, orders: seq<Order>, now: Time, steps: seq<Step>, step: Step)
    requires AllFromAnswers(broker, orders, now, steps)
    ensures AllFromAnswers(broker, orders, now, steps + [])
    ensures FromAnswer(broker, orders, now, step) ==> AllFromAnswers(broker, orders, now, steps + [step])
  {
    hide FromAnswer;
    assert steps + [] == steps;
  }

  // ── The listing pass ─────────────────────────────────────────────

  lemma LegKeepsSound(p: Pass, entry: Listed, now: Time)
    requires IndexSound(p.index, p.db.orders) && IndexInRange(p.index, |p.db.orders|)
    ensures IndexSound(WithLeg(p, entry, now).index, WithLeg(p, entry, now).db.orders)
    ensures RowsAdvance(p.db.orders, WithLeg(p, entry, now).db.orders)
  {
    var q := WithLeg(p, entry, now);
    assert q.db.orders == p.db.orders + q.db.orders[|p.db.orders|..] by {
      hide NewLegs, FindBrokerId, Indexed, FindLocal;
    }
    hide NewLegs, RowsAdvance;
    AdvancesItself(p.db.orders, q.db.orders[|p.db.orders|..]);
  }

  lemma AdvanceKeepsSound(index: Index, was: seq<Order>, now: seq<Order>)
    requires IndexSound(index, was) && RowsAdvance(was, now)
    ensures IndexSound(index, now)
  {
    forall c | c in index.byClient ensures index.byClient[c] < |now| && now[index.byClient[c]].clientId == c {
      assert Advances(was[index.byClient[c]], now[index.byClient[c]]);
    }
    forall b | b in index.byBroker ensures index.byBroker[b] < |now| && now[index.byBroker[b]].brokerId == Some(b) {
      assert Advances(was[index.byBroker[b]], now[index.byBroker[b]]);
    }
  }

  lemma {:induction false} ListedFromAnswers(broker: Broker, db: Db, now: Time, keys: Keys, m: nat)
    requires m <= |Flat(broker.open)|
    ensures var p := AdoptAllListed(StartPass(db), Flat(broker.open)[..m], now, true, keys);
            && IndexSound(p.index, p.db.orders)
            && AllFromAnswers(broker, p.db.orders, now, ListedSteps(StartPass(db), Flat(broker.open)[..m], now, keys))
  {
    hide AdoptListed, IndexOf, Flat, IndexSound, RowsAdvance, FromAnswer, WithLeg, FindLocal;
    IndexIsSound(db.orders);
    if m > 0 {
      var flat := Flat(broker.open);
      ListedFromAnswers(broker, db, now, keys, m - 1);
      assert flat[..m][..m - 1] == flat[..m - 1];
      hide AllFromAnswers;
      ListedStep(broker, AdoptAllListed(StartPass(db), flat[..m - 1], now, true, keys), m - 1, now, keys,
                 ListedSteps(StartPass(db), flat[..m - 1], now, keys));
    }
  }

  lemma ListedStep(broker: Broker, p: Pass, j: nat, now: Time, keys: Keys, steps: seq<Step>)
    requires j < |Flat(broker.open)| && IndexSound(p.index, p.db.orders) && IndexInRange(p.index, |p.db.orders|)
    requires AllFromAnswers(broker, p.db.orders, now, steps)
    ensures var entry := Flat(broker.open)[j];
            var after := AdoptListed(p, entry, now, true, keys);
            var local := FindLocal(WithLeg(p, entry, now).index, entry.order);
            && IndexSound(after.index, after.db.orders)
            && AllFromAnswers(broker, after.db.orders, now, steps + if local.Some? then [SnapshotOf(local.value, entry.order, now)] else [])
  {
    hide Adopt, Flat, IndexSound, RowsAdvance, FromAnswer, WithLeg, AllFromAnswers;
    var entry := Flat(broker.open)[j];
    var q, after := WithLeg(p, entry, now), AdoptListed(p, entry, now, true, keys);
    LegKeepsSound(p, entry, now);
    AdoptListedAdvances(p, entry, now, true, keys);
    AllAnswersStay(broker, p.db.orders, after.db.orders, now, steps);
    var local := FindLocal(q.index, entry.order);
    if local.Some? {
      FoundIsNamed(q.index, q.db.orders, entry.order);
      AdoptAdvances(q.db, local.value, entry.order, now, true, keys);
      AdvanceKeepsSound(q.index, q.db.orders, after.db.orders);
      ListedIsAnswer(broker, q.db.orders, j, local.value, now);
      AnswersStay(broker, q.db.orders, after.db.orders, now, SnapshotOf(local.value, entry.order, now));
      OneMoreAnswer(broker, after.db.orders, now, steps, SnapshotOf(local.value, entry.order, now));
    } else {
      OneMoreAnswer(broker, after.db.orders, now, steps, SnapshotOf(0, entry.order, now));
    }
  }

  lemma ListedIsAnswer(broker: Broker, orders: seq<Order>, j: nat, o: nat, now: Time)
    requires j < |Flat(broker.open)| && o < |orders| && Names(orders[o], Flat(broker.open)[j].order)
    ensures FromAnswer(broker, orders, now, SnapshotOf(o, Flat(broker.open)[j].order, now))
  {
    hide Flat;
    assert AnswersFor(broker, orders[o], Flat(broker.open)[j].order);
  }

  // ── Stragglers and deficits ──────────────────────────────────────

  lemma LookupIsAnswer(broker: Broker, orders: seq<Order>, o: nat, now: Time)
    requires o < |orders| && Lookup(broker, orders[o]).Some?
    ensures FromAnswer(broker, orders, now, SnapshotOf(o, Lookup(broker, orders[o]).value, now))
  {
    hide Flat;
    assert AnswersFor(broker, orders[o], Lookup(broker, orders[o]).value);
  }

  lemma {:induction false} RecoveredFromAnswers(r: Recovery, n: nat, broker: Broker, now: Time, keys: Keys)
    requires n <= |r.pass.db.orders|
    ensures AllFromAnswers(broker, Recover(r, n, Flat(broker.open), broker, now, true, keys).pass.db.orders, now,
                           RecoverSteps(r, n, Flat(broker.open), broker, now, keys))
  {
    hide RecoverOne, Flat, Skipped, FromAnswer, RowsAdvance, Lookup;
    if n > 0 {
      var flat := Flat(broker.open);
      RecoveredFromAnswers(r, n - 1, broker, now, keys);
      hide AllFromAnswers;
      var before, after := Recover(r, n - 1, flat, broker, now, true, keys), Recover(r, n, flat, broker, now, true, keys);
      var row, steps := before.pass.db.orders[n - 1], RecoverSteps(r, n - 1, flat, broker, now, keys);
      RecoverOneAdvances(before, n - 1, flat, broker, now, true, keys);
      AllAnswersStay(broker, before.pass.db.orders, after.pass.db.orders, now, steps);
      if Lookup(broker, row).Some? {
        var step := SnapshotOf(n - 1, Lookup(broker, row).value, now);
        LookupIsAnswer(broker, before.pass.db.orders, n - 1, now);
        AnswersStay(broker, before.pass.db.orders, after.pass.db.orders, now, step);
        OneMoreAnswer(broker, after.pass.db.orders, now, steps, step);
      } else {
        OneMoreAnswer(broker, after.pass.db.orders, now, steps, OwnColumns(n - 1, row, now));
      }
    }
  }

  lemma SweepOneOrders(db: Db, o: nat, broker: Broker, now: Time, keys: Keys)
    requires o < |db.orders|
    ensures var after := SweepOne(db, o, broker, now, keys);
            && RowsAdvance(db.orders, after.orders)
            && (forall i :: 0 <= i < |db.orders| && i != o ==> after.orders[i] == db.orders[i])
            && (Lookup(broker, db.orders[o]).None? ==> after.orders == db.orders)
  {
    hide Adopt, CatchUp, InsertFill, Lookup;
    AdvancesItself(db.orders, []);
    var found := Lookup(broker, db.orders[o]);
    if found.Some? {
      AdoptAdvances(db, o, found.value, now, true, keys);
    }
  }

  ghost predicate AllEvident(broker: Broker, orders: seq<Order>, now: Time, steps: seq<Step>) {
    forall k :: 0 <= k < |steps| ==> Evident(broker, orders, now, steps[k])
  }

  ghost predicate AllBelow(steps: seq<Step>, n: nat) {
    forall k :: 0 <= k < |steps| ==> steps[k].order < n
  }

  lemma {:induction false} SweptAreEvident(db: Db, start: Db, n: nat, broker: Broker, now: Time, keys: Keys)
    requires n <= |db.orders| && n <= |start.orders|
    ensures AllBelow(SweepSteps(db, start, n, broker, now, keys), n)
    ensures AllEvident(broker, Sweep(db, start, n, broker, now, keys).orders, now, SweepSteps(db, start, n, broker, now, keys))
  {
    hide SweepOne, Deficient, Lookup, Evident, Advances;
    if n > 0 {
      SweptAreEvident(db, start, n - 1, broker, now, keys);
      var before, after := Sweep(db, start, n - 1, broker, now, keys), Sweep(db, start, n, broker, now, keys);
      SweepOneOrders(before, n - 1, broker, now, keys);
      var steps, all := SweepSteps(db, start, n - 1, broker, now, keys), SweepSteps(db, start, n, broker, now, keys);
      assert steps <= all && |all| <= |steps| + 1;
      if |all| == |steps| + 1 {
        SweepStepIsEvident(broker, before.orders, after.orders, n - 1, now, all[|steps|]);
      }
      forall k | 0 <= k < |all| ensures all[k].order < n && Evident(broker, after.orders, now, all[k]) {
        if k < |steps| {
          assert all[k] == steps[k];
          assert Evident(broker, before.orders, now, steps[k]);
          SameRowSameEvidence(broker, before.orders, after.orders, now, steps[k]);
        }
      }
    }
  }

  lemma SameRowSameEvidence(broker: Broker, was: seq<Order>, after: seq<Order>, now: Time, step: Step)
    requires Evident(broker, was, now, step) && step.order < |after| && after[step.order] == was[step.order]
    ensures Evident(broker, after, now, step)
  {
    hide AnswersFor;
  }

  lemma SweepStepIsEvident(broker: Broker, was: seq<Order>, after: seq<Order>, o: nat, now: Time, step: Step)
    requires o < |was| && RowsAdvance(was, after)
    requires Lookup(broker, was[o]).None? ==> after == was
    requires step == if Lookup(broker, was[o]).Some? then SnapshotOf(o, Lookup(broker, was[o]).value, now) else OwnColumns(o, was[o], now)
    ensures Evident(broker, after, now, step)
  {
    hide Lookup, AnswersFor;
    if Lookup(broker, was[o]).Some? {
      LookupIsAnswer(broker, was, o, now);
      AnswersStay(broker, was, after, now, step);
    }
  }

  lemma AnswersAreEvident(broker: Broker, was: seq<Order>, after: seq<Order>, now: Time, steps: seq<Step>)
    requires RowsAdvance(was, after) && AllFromAnswers(broker, was, now, steps)
    ensures AllEvident(broker, after, now, steps)
  {
    hide AnswersFor;
    AllAnswersStay(broker, was, after, now, steps);
    forall k | 0 <= k < |steps| ensures Evident(broker, after, now, steps[k]) {
      assert FromAnswer(broker, after, now, steps[k]);
    }
  }

  lemma EvidentConcat(broker: Broker, orders: seq<Order>, now: Time, a: seq<Step>, b: seq<Step>)
    requires AllEvident(broker, orders, now, a) && AllEvident(broker, orders, now, b)
    ensures AllEvident(broker, orders, now, a + b)
  {
    hide Evident;
  }

  /** Every step of a synthesizing reconcile is an answer this broker gave about the row it is taken for, or
      that row's own columns. */
  lemma ReconcileStepsAreEvident(db: Db, broker: Broker, now: Time, keys: Keys)
    ensures AllEvident(broker, Reconciled(db, broker, now, true, keys).orders, now, ReconcileSteps(db, broker, now, keys))
  {
    hide Flat, AdoptAllListed, Recover, Sweep, RetryPass, ListedSteps, RecoverSteps, SweepSteps, AllFromAnswers, AllEvident, RowsAdvance;
    var flat := Flat(broker.open);
    var listed := AdoptAllListed(StartPass(db), flat, now, true, keys);
    var recovered := Recovered(db, broker, now, true, keys).pass.db;
    var swept := Sweep(recovered, recovered, |recovered.orders|, broker, now, keys);
    RetryKeepsOrders(swept, swept.events, |swept.events|);
    assert flat[..|flat|] == flat;
    ListedFromAnswers(broker, db, now, keys, |flat|);
    RecoveredFromAnswers(Recovery(listed, 0), |db.orders|, broker, now, keys);
    SweptAreEvident(recovered, recovered, |recovered.orders|, broker, now, keys);
    RecoverAdvances(Recovery(listed, 0), |db.orders|, flat, broker, now, true, keys);
    SweepAdvances(recovered, recovered, |recovered.orders|, broker, now, keys);
    AdvancesChain(listed.db.orders, recovered.orders, swept.orders);
    var a, b := ListedSteps(StartPass(db), flat, now, keys), RecoverSteps(Recovery(listed, 0), |db.orders|, flat, broker, now, keys);
    AnswersAreEvident(broker, listed.db.orders, swept.orders, now, a);
    AnswersAreEvident(broker, recovered.orders, swept.orders, now, b);
    EvidentConcat(broker, swept.orders, now, a, b);
    EvidentConcat(broker, swept.orders, now, a + b, SweepSteps(recovered, recovered, |recovered.orders|, broker, now, keys));
  }

  // ── Whole runs ───────────────────────────────────────────────────

  /** The `i`-th transaction of the run reported the step. */
  ghost predicate ReportedAt(db: Db, run: seq<Txn>, i: nat, step: Step)
    requires i < |run|
  {
    var before := CommitAll(db, run[..i]);
    match run[i]
    case Stream(u, _, _) => Locate(before.orders, u.order).Some? && step == Event(Locate(before.orders, u.order).value, u)
    case Reconcile(broker, now, synthesize, _) => synthesize && Evident(broker, Commit(before, run[i]).orders, now, step)
    case _ => false
  }

  lemma StepsAreReported(db: Db, run: seq<Txn>, i: nat, k: nat)
    requires i < |run| && k < |StepsOf(CommitAll(db, run[..i]), run[i])|
    ensures ReportedAt(db, run, i, StepsOf(CommitAll(db, run[..i]), run[i])[k])
  {
    hide CommitAll, Reconciled, ReconcileSteps, Evident;
    if run[i].Reconcile? {
      ReconcileStepsAreEvident(CommitAll(db, run[..i]), run[i].broker, run[i].now, run[i].keys);
    }
  }

  /** Every step of a run was reported by one of its transactions. */
  lemma {:induction false} EveryStepIsReported(db: Db, run: seq<Txn>, k: nat) returns (i: nat)
    requires k < |RunSteps(db, run)|
    ensures i < |run| && ReportedAt(db, run, i, RunSteps(db, run)[k])
  {
    hide ReportedAt, StepsOf, Commit;
    var last := |run| - 1;
    var earlier := RunSteps(db, run[..last]);
    if k < |earlier| {
      i := EveryStepIsReported(db, run[..last], k);
      ReportedInLonger(db, run, i, earlier[k]);
    } else {
      i := last;
      StepsAreReported(db, run, last, k - |earlier|);
    }
  }

  lemma ReportedInLonger(db: Db, run: seq<Txn>, i: nat, step: Step)
    requires i < |run| - 1 && ReportedAt(db, run[..|run| - 1], i, step)
    ensures ReportedAt(db, run, i, step)
  {
    hide CommitAll, Evident;
    assert run[..|run| - 1][..i] == run[..i];
  }

  lemma {:induction false} LargestIsSomeStep(column: Column, steps: seq<Step>, order: nat) returns (k: nat)
    requires LargestReported(column, steps, order) > 0.0
    ensures k < |steps| && steps[k].order == order && Reported(steps[k]) == LargestReported(column, steps, order)
  {
    var last := |steps| - 1;
    if LargestReported(column, steps[..last], order) == LargestReported(column, steps, order) {
      k := LargestIsSomeStep(column, steps[..last], order);
    } else {
      k := last;
    }
  }

  /** So whatever an order's ledger holds, some transaction of the run reported exactly that: an event the
      stream delivered for it, an answer about it, or its own columns. Nothing else ever gets into a lot. */
  lemma LedgerWasReported(db: Db, run: seq<Txn>, order: nat) returns (i: nat, step: Step)
    requires db.fills == [] && PositiveFills(run)
    requires AppliedLedger(CommitAll(db, run).fills, order).qty > 0.0
    ensures i < |run| && ReportedAt(db, run, i, step)
    ensures step.order == order && Reported(step) == AppliedLedger(CommitAll(db, run).fills, order).qty
  {
    hide AppliedLedger, CommitAll, ReportedAt, LargestReported, RunSteps;
    RunReachesLargestReported(db, run, order);
    var k := LargestIsSomeStep(Exact, RunSteps(db, run), order);
    step := RunSteps(db, run)[k];
    i := EveryStepIsReported(db, run, k);
  }

  /** And no fresh event is lost: right after its transaction the ledger has reached its cumulative, and it
      never falls again. */
  lemma FreshEventIsApplied(db: Db, run: seq<Txn>, i: nat)
    requires db.fills == [] && PositiveFills(run) && i < |run| && run[i].Stream?
    requires var before := CommitAll(db, run[..i]);
             Locate(before.orders, run[i].u.order).Some?
             && !Duplicate(before.fills, Locate(before.orders, run[i].u.order).value, run[i].u)
    ensures var o := Locate(CommitAll(db, run[..i]).orders, run[i].u.order).value;
            AppliedLedger(CommitAll(db, run).fills, o).qty >= run[i].u.order.filledQty
  {
    hide AppliedLedger, LedgerOk, Commit, CommitAll, Duplicate, Locate, LargestReported, RunSteps, PositiveFills;
    var before := CommitAll(db, run[..i]);
    var o := Locate(before.orders, run[i].u.order).value;
    PrefixIsPositive(run, i);
    RunReachesLargestReported(db, run[..i], o);
    FreshEventReaches(before, run[i], o);
    CommitNext(db, run, i);
    LedgerNeverFalls(db, run, i + 1, o);
  }

  lemma PrefixIsPositive(run: seq<Txn>, i: nat)
    requires PositiveFills(run) && i < |run|
    ensures PositiveFills(run[..i])
    ensures run[i].Stream? && IsExecution(run[i].u) ==> run[i].u.qty.value > 0.0
  {
  }

  lemma CommitNext(db: Db, run: seq<Txn>, i: nat)
    requires i < |run|
    ensures CommitAll(db, run[..i + 1]) == Commit(CommitAll(db, run[..i]), run[i])
  {
    hide Commit;
    assert run[..i + 1][..i] == run[..i];
  }

  lemma FreshEventReaches(before: Db, txn: Txn, o: nat)
    requires LedgerOk(before.fills) && txn.Stream? && (IsExecution(txn.u) ==> txn.u.qty.value > 0.0)
    requires Locate(before.orders, txn.u.order) == Some(o) && !Duplicate(before.fills, o, txn.u)
    ensures AppliedLedger(Commit(before, txn).fills, o).qty >= txn.u.order.filledQty
  {
    hide AppliedLedger, LedgerOk, Commit, Duplicate, EventFills, RunFrom;
    TxnActs(before, txn);
    EventReachesCumulative(Exact, before.fills, o, txn.u, o);
    assert StepsOf(before, txn) == [Event(o, txn.u)];
    assert [Event(o, txn.u)] == [] + [Event(o, txn.u)];
    OneStep(before.fills, [], Event(o, txn.u));
    NoStep(before.fills);
  }

  lemma {:induction false} LedgerNeverFalls(db: Db, run: seq<Txn>, n: nat, order: nat)
    requires db.fills == [] && PositiveFills(run) && n <= |run|
    ensures AppliedLedger(CommitAll(db, run[..n]).fills, order).qty <= AppliedLedger(CommitAll(db, run).fills, order).qty
  {
    hide AppliedLedger, LedgerOk, CommitAll, RunFrom, StepsOf;
    if n < |run| {
      var last := |run| - 1;
      assert PositiveFills(run[..last]) && run[..last][..n] == run[..n];
      LedgerNeverFalls(db, run[..last], n, order);
      RunReachesLargestReported(db, run[..last], order);
      RunReachesLargestReported(db, run, order);
      LargestGrows(Exact, RunSteps(db, run[..last]), StepsOf(CommitAll(db, run[..last]), run[last]), order);
    } else {
      assert run[..n] == run;
    }
  }

  lemma {:induction false} LargestGrows(column: Column, a: seq<Step>, b: seq<Step>, order: nat)
    ensures LargestReported(column, a, order) <= LargestReported(column, a + b, order)
  {
    if b == [] {
      assert a + b == a;
    } else {
      assert (a + b)[..|a + b| - 1] == a + b[..|b| - 1];
      LargestGrows(column, a, b[..|b| - 1], order);
    }
  }
}
