/** Parked liquidation remainders: an append-only log that every reconcile reads back and retries. */
module Remainders {
  import opened Domain
  import opened Sums
  import opened Tables
  import opened Lots
  import opened Fifo
  import opened FifoSplit
  import opened LotAccounting
  import opened FillScope

  // ── Reading the log ──────────────────────────────────────────────

  predicate IsResolved(log: seq<Event>, i: nat) {
    exists j :: 0 <= j < |log| && log[j].Resolved? && log[j].anomaly == i
  }

  predicate IsAlerted(log: seq<Event>, i: nat) {
    exists j :: 0 <= j < |log| && log[j].Alert? && log[j].anomaly == i
  }

  function FailedCycles(log: seq<Event>, i: nat): nat {
    if log == [] then 0
    else
      var last := log[|log| - 1];
      FailedCycles(log[..|log| - 1], i) + if last.RetryFailed? && last.anomaly == i then 1 else 0
  }

  /** Failed retries after which an anomaly is alerted, once. */
  const ALERT_CYCLES: nat := 3

  /** An anomaly whose remainder is still waiting. */
  predicate IsOpen(log: seq<Event>, i: nat) {
    i < |log| && log[i].Parked? && !IsResolved(log, i)
  }

  // ── Retrying ─────────────────────────────────────────────────────

  /** A retry never opens a lot, so its stamp is never stored. */
  const NO_STAMP := Stamp(0, 0)

  function RetryFill(what: Remainder): LotFill {
    LotFill(None, what.symbol, what.side, what.qty, what.price, what.at, what.order, what.fill, NO_STAMP)
  }

  function ClosedBy(lots: seq<Lot>, what: Remainder): real {
    Sum(WalkOf(lots, RetryFill(what)).closes, CloseQty())
  }

  /** The companion rows one retry appends; `past` is the log as read at the start of the pass. */
  function Companions(lots: seq<Lot>, past: seq<Event>, i: nat): seq<Event>
    requires i < |past| && past[i].Parked?
  {
    var what := past[i].what;
    var f := RetryFill(what);
    var closed, residual := ClosedBy(lots, what), Unapplied(lots, f);
    if closed > 0.0 then
      [Resolved(i, closed, Sum(WalkOf(lots, f).closes, ClosePnl()), residual)]
      + if residual > 0.0 then [Parked(what.(qty := residual), Some(i))] else []
    else
      var cycle := FailedCycles(past, i) + 1;
      [RetryFailed(i, what.qty, cycle)]
      + if cycle >= ALERT_CYCLES && !IsAlerted(past, i) then [Alert(i, what.qty, cycle)] else []
  }

  function RetryOne(db: Db, past: seq<Event>, i: nat): Db
    requires i < |past|
  {
    if !IsOpen(past, i) then db
    else
      var applied := ApplyFill(db, RetryFill(past[i].what), false);
      applied.(events := db.events + Companions(db.lots, past, i))
  }

  /** The pass over the first `n` rows of the log. */
  function RetryPass(db: Db, past: seq<Event>, n: nat): Db
    requires n <= |past|
  {
    if n == 0 then db else RetryOne(RetryPass(db, past, n - 1), past, n - 1)
  }

  /** The pass reads the companion rows once, into the sets and counts it decides by. */
  method ReadCompanions(past: seq<Event>) returns (resolved: set<nat>, failedCycles: map<nat, nat>, alerted: set<nat>)
    ensures forall i: nat :: i in resolved <==> IsResolved(past, i)
    ensures forall i: nat :: i in alerted <==> IsAlerted(past, i)
    ensures forall i: nat :: (if i in failedCycles then failedCycles[i] else 0) == FailedCycles(past, i)
  {
    resolved, failedCycles, alerted := {}, map[], {};
    var k := 0;
    while k < |past|
      invariant k <= |past|
      invariant forall i: nat :: i in resolved <==> IsResolved(past[..k], i)
      invariant forall i: nat :: i in alerted <==> IsAlerted(past[..k], i)
      invariant forall i: nat :: (if i in failedCycles then failedCycles[i] else 0) == FailedCycles(past[..k], i)
    {
      var companion := past[k];
      ReadOneMore(past[..k], companion);
      assert past[..k + 1] == past[..k] + [companion];
      match companion {
        case Parked(_, _) =>
        case Resolved(anomaly, _, _, _) => resolved := resolved + {anomaly};
        case RetryFailed(anomaly, _, _) =>
          failedCycles := failedCycles[anomaly := (if anomaly in failedCycles then failedCycles[anomaly] else 0) + 1];
        case Alert(anomaly, _, _) => alerted := alerted + {anomaly};
      }
      k := k + 1;
    }
    assert past[..|past|] == past;
  }

  /** `_retry_unapplied_remainders`: read anomalies and companions once, then retry the open ones. */
  method RetryUnappliedRemainders(session: Session) returns (appliedCount: nat)
    modifies session`lots, session`closes, session`events
    ensures session.Rows() == RetryPass(old(session.Rows()), old(session.events), |old(session.events)|)
  {
    hide WalkOf, LotsAfter, FailedCycles, IsResolved, IsAlerted, Sum;
    var past := session.events;
    ghost var start := session.Rows();
    var resolved, failedCycles, alerted := ReadCompanions(past);
    appliedCount := 0;
    var i := 0;
    while i < |past|
      invariant i <= |past|
      invariant session.Rows() == RetryPass(start, past, i)
    {
      if past[i].Parked? && i !in resolved {
        var parked := past[i].what;
        ghost var before := session.Rows();
        var application := ApplyFillToLots(session, RetryFill(parked), false);
        if application.qtyClosed > 0.0 {
          appliedCount := appliedCount + 1;
          session.events := session.events + [Resolved(i, application.qtyClosed, application.realizedPnl, application.unapplied)];
          if application.unapplied > 0.0 {
            session.events := session.events + [Parked(parked.(qty := application.unapplied), Some(i))];
          }
        } else {
          var cycle := (if i in failedCycles then failedCycles[i] else 0) + 1;
          session.events := session.events + [RetryFailed(i, parked.qty, cycle)];
          if cycle >= ALERT_CYCLES && i !in alerted {
            session.events := session.events + [Alert(i, parked.qty, cycle)];
          }
        }
        assert session.events == before.events + Companions(before.lots, past, i);
      }
      i := i + 1;
    }
  }

  lemma ReadOneMore(log: seq<Event>, e: Event)
    ensures forall i: nat :: IsResolved(log + [e], i) <==> IsResolved(log, i) || (e.Resolved? && e.anomaly == i)
    ensures forall i: nat :: IsAlerted(log + [e], i) <==> IsAlerted(log, i) || (e.Alert? && e.anomaly == i)
    ensures forall i: nat :: FailedCycles(log + [e], i) == FailedCycles(log, i) + if e.RetryFailed? && e.anomaly == i then 1 else 0
  {
    var longer := log + [e];
    assert longer[..|log|] == log;
    forall i: nat
      ensures IsResolved(longer, i) <==> IsResolved(log, i) || (e.Resolved? && e.anomaly == i)
      ensures IsAlerted(longer, i) <==> IsAlerted(log, i) || (e.Alert? && e.anomaly == i)
    {
      assert longer[|log|] == e;
      if IsResolved(log, i) {
        var j :| 0 <= j < |log| && log[j].Resolved? && log[j].anomaly == i;
        assert longer[j] == log[j];
      }
      if IsAlerted(log, i) {
        var j :| 0 <= j < |log| && log[j].Alert? && log[j].anomaly == i;
        assert longer[j] == log[j];
      }
    }
  }

  // ── What the log guarantees ──────────────────────────────────────

  /** A resolution that left a residual still has to be followed by the smaller anomaly. */
  function Dangling(log: seq<Event>): real {
    if log == [] || !log[|log| - 1].Resolved? then 0.0 else log[|log| - 1].residual
  }

  /** Every entry is justified by the entries before it. */
  ghost predicate EntryOk(past: seq<Event>, e: Event) {
    && (Dangling(past) > 0.0 ==> e.Parked? && e.supersedes.Some?)
    && match e
       case Parked(what, None) => what.qty > 0.0
       case Parked(what, Some(i)) =>
         && Dangling(past) > 0.0
         && past[|past| - 1].anomaly == i && i < |past| && past[i].Parked?
         && what == past[i].what.(qty := Dangling(past))
       case Resolved(i, applied, _, residual) =>
         && IsOpen(past, i) && applied > 0.0 && residual >= 0.0
         && applied + residual == past[i].what.qty
       case RetryFailed(i, qty, cycle) =>
         && IsOpen(past, i) && qty == past[i].what.qty
         && cycle == FailedCycles(past, i) + 1
       case Alert(i, qty, cycles) =>
         && IsOpen(past, i) && qty == past[i].what.qty
         && !IsAlerted(past, i) && cycles == FailedCycles(past, i) && cycles >= ALERT_CYCLES
  }

  ghost predicate LogOk(log: seq<Event>) {
    forall n :: 0 <= n < |log| ==> EntryOk(log[..n], log[n])
  }

  lemma LogAppend(log: seq<Event>, e: Event)
    requires LogOk(log) && EntryOk(log, e)
    ensures LogOk(log + [e])
  {
    forall n | 0 <= n <= |log| ensures EntryOk((log + [e])[..n], (log + [e])[n]) {
      assert (log + [e])[..n] == log[..n];
      assert log[..|log|] == log;
    }
  }

  /** Each anomaly is resolved at most once and alerted at most once, and an alert comes no earlier
      than the third failed cycle. */
  lemma OncePerAnomaly(log: seq<Event>, j: nat, k: nat)
    requires LogOk(log) && j < k < |log|
    ensures log[j].Resolved? && log[k].Resolved? ==> log[j].anomaly != log[k].anomaly
    ensures log[j].Alert? && log[k].Alert? ==> log[j].anomaly != log[k].anomaly
    ensures log[j].Resolved? && !log[k].Parked? ==> log[j].anomaly != log[k].anomaly
    ensures log[k].Alert? ==> FailedCycles(log[..k], log[k].anomaly) >= 3
  {
    assert EntryOk(log[..k], log[k]);
    assert log[..k][j] == log[j];
  }

  /** A retry is alerted exactly when it closes nothing for at least the third time and was not alerted yet. */
  lemma ThirdFailureAlerts(db: Db, past: seq<Event>, i: nat)
    requires i < |past| && IsOpen(past, i)
    ensures var more := RetryOne(db, past, i).events[|db.events|..];
            (exists n :: 0 <= n < |more| && more[n].Alert?)
            <==> ClosedBy(db.lots, past[i].what) <= 0.0 && FailedCycles(past, i) >= 2 && !IsAlerted(past, i)
  {
    hide WalkOf, LotsAfter, ClosedBy, IsAlerted, FailedCycles, IsResolved;
    var more := Companions(db.lots, past, i);
    assert RetryOne(db, past, i).events[|db.events|..] == more;
    if ClosedBy(db.lots, past[i].what) <= 0.0 && FailedCycles(past, i) >= 2 && !IsAlerted(past, i) {
      assert more[1].Alert?;
    }
  }

  // ── Quantity through the log ─────────────────────────────────────

  function OpenSum(log: seq<Event>, n: nat, weight: Remainder -> real): real
    requires n <= |log|
  {
    if n == 0 then 0.0
    else OpenSum(log, n - 1, weight) + if IsOpen(log, n - 1) then weight(log[n - 1].what) else 0.0
  }

  lemma {:induction false} OpenSumAppend(log: seq<Event>, e: Event, n: nat, weight: Remainder -> real)
    requires n <= |log| && (e.Resolved? ==> IsOpen(log, e.anomaly))
    ensures OpenSum(log + [e], n, weight) ==
            OpenSum(log, n, weight) - if e.Resolved? && e.anomaly < n then weight(log[e.anomaly].what) else 0.0
  {
    if n > 0 {
      ReadOneMore(log, e);
      OpenSumAppend(log, e, n - 1, weight);
      assert (log + [e])[n - 1] == log[n - 1];
    }
  }

  /** The still-open total of a weight over all parked remainders. */
  function OpenTotal(log: seq<Event>, weight: Remainder -> real): real {
    OpenSum(log, |log|, weight)
  }

  lemma OpenTotalUnfolds(log: seq<Event>, e: Event, weight: Remainder -> real)
    ensures OpenTotal(log + [e], weight) ==
            OpenSum(log + [e], |log|, weight) + if IsOpen(log + [e], |log|) then weight((log + [e])[|log|].what) else 0.0
  {
    hide IsOpen;
  }

  lemma OpenTotalAppend(log: seq<Event>, e: Event, weight: Remainder -> real)
    requires LogOk(log) && EntryOk(log, e)
    ensures OpenTotal(log + [e], weight) ==
            OpenTotal(log, weight)
            + (if e.Parked? then weight(e.what) else 0.0)
            - (if e.Resolved? then weight(log[e.anomaly].what) else 0.0)
  {
    assert (log + [e])[|log|] == e;
    hide LogOk, OpenSum;
    OpenTotalUnfolds(log, e, weight);
    OpenSumAppend(log, e, |log|, weight);
    ReadOneMore(log, e);
    if e.Parked? {
      NothingResolvesAhead(log, |log|);
    }
  }

  lemma NothingResolvesAhead(log: seq<Event>, i: nat)
    requires LogOk(log) && i >= |log|
    ensures !IsResolved(log, i)
  {
    forall j | 0 <= j < |log| && log[j].Resolved? ensures log[j].anomaly < |log| {
      assert EntryOk(log[..j], log[j]);
    }
  }

  function QtyOfRemainder(): Remainder -> real {
    (what: Remainder) => what.qty
  }

  /** Quantity parked by fills, as opposed to residuals of earlier anomalies. */
  function OriginallyParked(): Event -> real {
    (e: Event) => if e.Parked? && e.supersedes.None? then e.what.qty else 0.0
  }

  function AppliedByRetries(): Event -> real {
    (e: Event) => if e.Resolved? then e.applied else 0.0
  }

  lemma LogOkBefore(log: seq<Event>)
    requires LogOk(log) && log != []
    ensures LogOk(log[..|log| - 1]) && EntryOk(log[..|log| - 1], log[|log| - 1])
  {
    hide EntryOk;
    var past := log[..|log| - 1];
    forall n | 0 <= n < |past| ensures EntryOk(past[..n], past[n]) {
      assert past[..n] == log[..n];
    }
  }

  /** An entry moves quantity from one of the three places to another, or parks more. */
  lemma EntryBalances(past: seq<Event>, e: Event)
    requires LogOk(past) && EntryOk(past, e)
    ensures AppliedByRetries()(e) + OpenTotal(past + [e], QtyOfRemainder()) + Dangling(past + [e])
            == OriginallyParked()(e) + OpenTotal(past, QtyOfRemainder()) + Dangling(past)
  {
    OpenTotalAppend(past, e, QtyOfRemainder());
    hide LogOk, OpenTotal, IsOpen;
  }

  /** Whatever was parked is either applied by some retry, or still open, or about to be re-parked. */
  lemma {:induction false} ParkedQuantityIsConserved(log: seq<Event>)
    requires LogOk(log)
    ensures Sum(log, AppliedByRetries()) + OpenTotal(log, QtyOfRemainder()) + Dangling(log) == Sum(log, OriginallyParked())
  {
    if log != [] {
      var past, e := log[..|log| - 1], log[|log| - 1];
      assert log == past + [e];
      LogOkBefore(log);
      hide LogOk, EntryOk, OpenTotal, Dangling, AppliedByRetries, OriginallyParked;
      ParkedQuantityIsConserved(past);
      EntryBalances(past, e);
    }
  }

  // ── A pass keeps the log ─────────────────────────────────────────

  /** Nothing has been written about anomalies `i` and later since `past` was read. */
  ghost predicate AsRead(log: seq<Event>, past: seq<Event>, i: nat) {
    && |past| <= |log| && log[..|past|] == past
    && forall j :: i <= j < |past| ==>
         && (IsResolved(log, j) <==> IsResolved(past, j))
         && (IsAlerted(log, j) <==> IsAlerted(past, j))
         && FailedCycles(log, j) == FailedCycles(past, j)
  }

  /** A retry closes exactly what it does not leave over. */
  lemma {:induction false} ConsumedQty(lots: seq<Lot>, queue: seq<nat>, f: LotFill, remaining: real)
    requires InRange(queue, |lots|)
    ensures var w := Consume(lots, queue, f, remaining);
            Sum(w.closes, CloseQty()) == remaining - w.remaining
    decreases |queue|
  {
    if queue != [] && remaining > 0.0 {
      var i := queue[0];
      var qty := Min(lots[i].qtyOpen, remaining);
      ConsumeStep(lots, queue, f, remaining);
      ConsumedQty(lots[i := Reduced(lots[i], f, qty)], queue[1..], f, remaining - qty);
    }
  }

  lemma RetryAccounts(lots: seq<Lot>, what: Remainder)
    requires what.qty > 0.0
    ensures var f := RetryFill(what);
            && ClosedBy(lots, what) + Unapplied(lots, f) == what.qty
            && ClosedBy(lots, what) >= 0.0 && Unapplied(lots, f) >= 0.0
            && WalkOf(lots, f).remaining == Unapplied(lots, f)
  {
    var f := RetryFill(what);
    ConsumedQty(lots, OpenLots(lots, f, |lots|), f, f.qty);
    RemainingIsShortfall(lots, f);
    QueueIsEligible(lots, f);
    SumIsNonNegative(lots, EligibleQty(f));
  }

  /** A retry that closes something reports it: quantity and P&L of the closes it added and what is left, which it
      parks again on the same terms; one that closes nothing counts a failure of the whole. */
  lemma RetryReportsItsCloses(db: Db, past: seq<Event>, i: nat)
    requires i < |past| && IsOpen(past, i) && past[i].what.qty > 0.0
    ensures var what, after := past[i].what, RetryOne(db, past, i);
            var more, closes := after.events[|db.events|..], after.closes[|db.closes|..];
            var left := what.qty - Sum(closes, CloseQty());
            && more != [] && left >= 0.0
            && (left < what.qty ==>
                  && more[0] == Resolved(i, Sum(closes, CloseQty()), Sum(closes, ClosePnl()), left)
                  && more[1..] == if left > 0.0 then [Parked(what.(qty := left), Some(i))] else [])
            && (left == what.qty ==> more[0] == RetryFailed(i, what.qty, FailedCycles(past, i) + 1))
  {
    hide WalkOf, LotsAfter, Unapplied, IsAlerted, FailedCycles, IsResolved, Sum;
    RetryAccounts(db.lots, past[i].what);
    assert RetryOne(db, past, i).events[|db.events|..] == Companions(db.lots, past, i);
    assert RetryOne(db, past, i).closes[|db.closes|..] == WalkOf(db.lots, RetryFill(past[i].what)).closes;
  }

  ghost predicate Settled(log: seq<Event>) {
    LogOk(log) && Dangling(log) == 0.0
  }

  lemma CompanionsFollow(log: seq<Event>, past: seq<Event>, lots: seq<Lot>, i: nat)
    requires i < |past| && Settled(log) && AsRead(log, past, i)
    requires IsOpen(past, i) && past[i].what.qty > 0.0
    ensures var rows := Companions(lots, past, i);
            && 1 <= |rows| <= 2
            && EntryOk(log, rows[0])
            && (|rows| == 1 ==> Dangling(log + [rows[0]]) == 0.0)
            && (|rows| == 2 ==> EntryOk(log + [rows[0]], rows[1]) && Dangling(log + [rows[0]] + [rows[1]]) == 0.0)
            && (!rows[0].Parked? && rows[0].anomaly == i)
            && (|rows| == 2 && !rows[1].Parked? ==> rows[1].anomaly == i)
  {
    hide WalkOf, Unapplied, ClosedBy, LogOk;
    RetryAccounts(lots, past[i].what);
    assert log[i] == past[i];
    var rows := Companions(lots, past, i);
    ReadOneMore(log, rows[0]);
    assert (log + [rows[0]])[i] == log[i];
  }

  lemma AsReadAppend(log: seq<Event>, past: seq<Event>, n: nat, i: nat, e: Event)
    requires AsRead(log, past, n) && n <= i + 1 && (e.Parked? || e.anomaly == i)
    ensures AsRead(log + [e], past, i + 1)
  {
    hide IsResolved, IsAlerted, FailedCycles;
    ReadOneMore(log, e);
  }

  lemma RetryKeepsLog(db: Db, past: seq<Event>, i: nat)
    requires i < |past| && Settled(db.events) && AsRead(db.events, past, i)
    requires IsOpen(past, i) && past[i].what.qty > 0.0
    ensures var after := RetryOne(db, past, i).events;
            Settled(after) && AsRead(after, past, i + 1)
  {
    hide Lots.ApplyFill, LogOk, EntryOk, Companions, AsRead;
    var log := db.events;
    CompanionsFollow(log, past, db.lots, i);
    var rows := Companions(db.lots, past, i);
    LogAppend(log, rows[0]);
    AsReadAppend(log, past, i, i, rows[0]);
    if |rows| == 2 {
      LogAppend(log + [rows[0]], rows[1]);
      AsReadAppend(log + [rows[0]], past, i + 1, i, rows[1]);
      assert log + rows == (log + [rows[0]]) + [rows[1]];
    } else {
      assert log + rows == log + [rows[0]];
    }
  }

  lemma ParkedIsPositive(log: seq<Event>, i: nat)
    requires LogOk(log) && i < |log| && log[i].Parked?
    ensures log[i].what.qty > 0.0
  {
    assert EntryOk(log[..i], log[i]);
  }

  /** A whole pass leaves the log settled: counted cycles, at most one resolution and one alert each. */
  lemma {:induction false} PassKeepsLog(db: Db, n: nat)
    requires Settled(db.events) && n <= |db.events|
    ensures var after := RetryPass(db, db.events, n).events;
            Settled(after) && AsRead(after, db.events, n)
  {
    hide Lots.ApplyFill, Companions, IsResolved, IsAlerted, FailedCycles, EntryOk;
    if n > 0 {
      PassKeepsLog(db, n - 1);
      var before := RetryPass(db, db.events, n - 1);
      if IsOpen(db.events, n - 1) {
        ParkedIsPositive(db.events, n - 1);
        RetryKeepsLog(before, db.events, n - 1);
      }
    }
  }

  // ── A pass never opens a lot nor reaches into the future ─────────

  ghost predicate Opposes(what: Remainder, lot: Lot) {
    what.symbol == lot.symbol && what.side == Opposite(lot.side) && lot.openedAt <= what.at
  }

  /** The close carries the remainder's order, fill and time, and its lot was open when that printed. */
  ghost predicate ClosedFor(what: Remainder, lots: seq<Lot>, c: LotClose) {
    && c.order == what.order && c.fill == what.fill && c.closedAt == what.at && c.symbol == what.symbol
    && c.lot < |lots| && Opposes(what, lots[c.lot]) && lots[c.lot].openedAt <= c.closedAt
  }

  /** Some open anomaly among the first `n` produced the close. */
  ghost predicate ClosedByRetry(past: seq<Event>, n: nat, lots: seq<Lot>, c: LotClose)
    requires n <= |past|
  {
    exists a :: 0 <= a < n && IsOpen(past, a) && ClosedFor(past[a].what, lots, c)
  }

  lemma RetryClosesArePast(lots: seq<Lot>, what: Remainder, k: nat)
    requires k < |WalkOf(lots, RetryFill(what)).closes|
    ensures ClosedFor(what, lots, WalkOf(lots, RetryFill(what)).closes[k])
  {
    var f := RetryFill(what);
    CloseRowsAre(lots, OpenLots(lots, f, |lots|), f, f.qty, k);
    QueueIsEligible(lots, f);
  }

  /** Lots keep their instrument and opening through a pass. */
  lemma {:induction false} PassKeepsOpenings(db: Db, past: seq<Event>, n: nat)
    requires n <= |past|
    ensures var after := RetryPass(db, past, n);
            |after.lots| == |db.lots| && Later(db.lots, after.lots)
  {
    hide Later;
    LaterItself(db.lots);
    if n > 0 {
      var before := RetryPass(db, past, n - 1);
      PassKeepsOpenings(db, past, n - 1);
      if IsOpen(past, n - 1) {
        var f := RetryFill(past[n - 1].what);
        ClosesMatchLots(before.lots, OpenLots(before.lots, f, |before.lots|), f, f.qty);
        LaterThrough(db.lots, before.lots, RetryPass(db, past, n).lots);
      }
    }
  }

  /** No retry pass opens a lot, and every close it adds was made for one parked liquidation, carries its
      time, and takes a lot that was already open when that liquidation printed. */
  lemma {:induction false} PassOnlyClosesThePast(db: Db, past: seq<Event>, n: nat, k: nat)
    requires n <= |past| && |db.closes| <= k < |RetryPass(db, past, n).closes|
    ensures |RetryPass(db, past, n).lots| == |db.lots|
    ensures ClosedByRetry(past, n, db.lots, RetryPass(db, past, n).closes[k])
  {
    hide Consume, IsResolved;
    PassKeepsOpenings(db, past, n);
    if n > 0 {
      var before, after := RetryPass(db, past, n - 1), RetryPass(db, past, n);
      PassKeepsOpenings(db, past, n - 1);
      if k < |before.closes| {
        PassOnlyClosesThePast(db, past, n - 1, k);
        assert after.closes[k] == before.closes[k];
        var a :| 0 <= a < n - 1 && IsOpen(past, a) && ClosedFor(past[a].what, db.lots, before.closes[k]);
        assert IsOpen(past, a) && ClosedFor(past[a].what, db.lots, after.closes[k]);
      } else {
        RetryClosesArePast(before.lots, past[n - 1].what, k - |before.closes|);
        assert IsOpen(past, n - 1) && ClosedFor(past[n - 1].what, db.lots, after.closes[k]);
      }
    }
  }

  // ── What a pass leaves open has nothing to close ─────────────────

  ghost predicate NothingToClose(lots: seq<Lot>, what: Remainder) {
    forall i :: 0 <= i < |lots| ==> !Eligible(lots[i], RetryFill(what))
  }

  /** Every anomaly the pass has visited, and every residual it parked, is out of eligible lots. */
  ghost predicate Drained(db: Db, past: seq<Event>, n: nat) {
    forall j :: 0 <= j < |db.events| && (j < n || j >= |past|) && IsOpen(db.events, j) ==> NothingToClose(db.lots, db.events[j].what)
  }

  lemma ClosingKeepsNothing(lots: seq<Lot>, f: LotFill, what: Remainder)
    requires f.strategy.None? && NothingToClose(lots, what)
    ensures NothingToClose(LotsAfter(lots, f), what)
  {
    ClosesMatchLots(lots, OpenLots(lots, f, |lots|), f, f.qty);
    forall i | 0 <= i < |lots| ensures !Eligible(LotsAfter(lots, f)[i], RetryFill(what)) {
      if !Eligible(lots[i], f) {
        IneligibleIsUntouched(lots, f, i);
      }
    }
  }

  lemma RetryDrains(lots: seq<Lot>, what: Remainder, rest: Remainder)
    requires what.qty > 0.0 && rest == what.(qty := rest.qty)
    requires Unapplied(lots, RetryFill(what)) > 0.0
    ensures NothingToClose(LotsAfter(lots, RetryFill(what)), rest)
  {
    var f := RetryFill(what);
    RetryAccounts(lots, what);
    forall i | 0 <= i < |lots|
      ensures !Eligible(LotsAfter(lots, f)[i], RetryFill(rest))
    {
      NothingEligibleIsLeft(lots, f, i);
    }
  }

  /** After one pass, every still-open parked remainder has no eligible lot. */
  lemma {:induction false} PassDrains(db: Db, n: nat)
    requires Settled(db.events) && n <= |db.events|
    ensures Drained(RetryPass(db, db.events, n), db.events, n)
  {
    hide LogOk, IsResolved, IsAlerted, FailedCycles, Companions, ApplyFill, NothingToClose;
    if n > 0 {
      var past, before := db.events, RetryPass(db, db.events, n - 1);
      PassDrains(db, n - 1);
      PassKeepsLog(db, n - 1);
      if IsOpen(past, n - 1) {
        ParkedIsPositive(past, n - 1);
        OneRetryDrains(before, past, n - 1);
      }
    }
  }

  lemma OneRetryDrains(db: Db, past: seq<Event>, i: nat)
    requires i < |past| && Settled(db.events) && AsRead(db.events, past, i)
    requires IsOpen(past, i) && past[i].what.qty > 0.0 && Drained(db, past, i)
    ensures Drained(RetryOne(db, past, i), past, i + 1)
  {
    var what, after := past[i].what, RetryOne(db, past, i);
    var f := RetryFill(what);
    var rows := Companions(db.lots, past, i);
    RetryAccounts(db.lots, what);
    CompanionsFollow(db.events, past, db.lots, i);
    if ClosedBy(db.lots, what) > 0.0 {
      assert after.events[|db.events|] == rows[0];
      assert IsResolved(after.events, i);
    }
    forall j | 0 <= j < |after.events| && (j < i + 1 || j >= |past|) && IsOpen(after.events, j)
      ensures NothingToClose(after.lots, after.events[j].what)
    {
      if j >= |db.events| {
        assert after.events[j] == rows[j - |db.events|];
        RetryDrains(db.lots, what, after.events[j].what);
      } else {
        assert after.events[j] == db.events[j];
        OpenStaysOpen(db.events, rows, j);
        if j == i {
          RetryDrains(db.lots, what, what);
        } else {
          ClosingKeepsNothing(db.lots, f, db.events[j].what);
        }
      }
    }
  }

  lemma OpenStaysOpen(log: seq<Event>, more: seq<Event>, j: nat)
    requires j < |log|
    ensures IsOpen(log + more, j) ==> IsOpen(log, j)
  {
    assert (log + more)[j] == log[j];
    if IsResolved(log, j) {
      var k :| 0 <= k < |log| && log[k].Resolved? && log[k].anomaly == j;
      assert (log + more)[k] == log[k];
    }
  }
}
