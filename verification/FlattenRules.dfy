/** The controller's standing rules: when a flatten is published, verified, or marked done for the day. */
module FlattenRules {
  import opened Domain
  import opened Tables
  import opened Commands
  import opened FlattenDrive

  type Day = nat

  /** The pre-open observation, kept with the day it was made for. */
  datatype Snapshot = Snapshot(day: Day, exposed: bool)

  // ── Does open exposure predate the session? ──────────────────────

  predicate IsOpenLot(lot: Lot, symbol: Symbol) {
    lot.symbol == symbol && lot.qtyOpen > 0.0
  }

  /** No lot explains the position, or some open lot is older than the session. */
  ghost predicate IsStale(lots: seq<Lot>, symbol: Symbol, rthOpen: Time) {
    || (forall i :: 0 <= i < |lots| ==> !IsOpenLot(lots[i], symbol))
    || (exists i :: 0 <= i < |lots| && IsOpenLot(lots[i], symbol) && lots[i].openedAt < rthOpen)
  }

  /** The earliest opening per symbol among the open lots. */
  method EarliestOpenings(lots: seq<Lot>) returns (earliest: map<Symbol, Time>)
    ensures forall i :: 0 <= i < |lots| && lots[i].qtyOpen > 0.0 ==>
              lots[i].symbol in earliest && earliest[lots[i].symbol] <= lots[i].openedAt
    ensures forall s :: s in earliest ==> exists i :: 0 <= i < |lots| && IsOpenLot(lots[i], s) && lots[i].openedAt == earliest[s]
  {
    earliest := map[];
    var k := 0;
    while k < |lots|
      invariant k <= |lots|
      invariant forall i :: 0 <= i < k && lots[i].qtyOpen > 0.0 ==>
                  lots[i].symbol in earliest && earliest[lots[i].symbol] <= lots[i].openedAt
      invariant forall s :: s in earliest ==> exists i :: 0 <= i < k && IsOpenLot(lots[i], s) && lots[i].openedAt == earliest[s]
    {
      var lot := lots[k];
      if lot.qtyOpen > 0.0 && (lot.symbol !in earliest || lot.openedAt < earliest[lot.symbol]) {
        assert IsOpenLot(lots[k], lot.symbol);
        earliest := earliest[lot.symbol := lot.openedAt];
      }
      k := k + 1;
    }
  }

  /** `_exposure_predates`: fail toward flat. */
  method ExposurePredates(lots: seq<Lot>, symbols: seq<Symbol>, rthOpen: Time) returns (predates: bool)
    ensures predates <==> exists k :: 0 <= k < |symbols| && IsStale(lots, symbols[k], rthOpen)
  {
    var earliest := EarliestOpenings(lots);
    var k := 0;
    while k < |symbols|
      invariant k <= |symbols|
      invariant forall j :: 0 <= j < k ==> !IsStale(lots, symbols[j], rthOpen)
    {
      var symbol := symbols[k];
      if symbol !in earliest || earliest[symbol] < rthOpen {
        assert IsStale(lots, symbols[k], rthOpen);
        return true;
      }
      assert !IsStale(lots, symbols[k], rthOpen);
      k := k + 1;
    }
    predates := false;
  }

  /** Seconds the opening auction is given to print. */
  const OPEN_GRACE: int := 15

  predicate IsDue(isOpen: bool, now: Time, rthOpen: Time) {
    isOpen && now >= rthOpen + OPEN_GRACE
  }

  // ── The rules ────────────────────────────────────────────────────

  datatype Decision = Idle | AwaitFills | Publish

  function DecideDrive(a: Account): Decision {
    if !Exposed(a) then Idle else if FullyCovered(a) then AwaitFills else Publish
  }

  /** The command log and the cached state, as one tick of the kill rule finds and leaves them. */
  datatype Kill = Kill(log: Log, memory: Memory)

  /** Only a clean broker-truth read writes an outcome, and only then is the drive over. */
  function KillTick(s: Kill, a: Account): Kill {
    if Exposed(a) || !s.memory.state.flattening || s.memory.latestSeq.None? then s
    else
      var log := Marked(s.log, s.memory.latestSeq.value);
      if log == s.log then s else Kill(log, s.memory.(state := s.memory.state.(flattening := false)))
  }

  /** A tick writes at most one outcome, on the row being driven, which had none, and only when nothing is exposed;
      a memory that is not flattening is left alone. */
  lemma OnlyADriveVerifies(s: Kill, a: Account)
    ensures !s.memory.state.flattening || Exposed(a) ==> KillTick(s, a) == s
    ensures KillTick(s, a) != s ==>
              && s.memory.latestSeq.Some? && 1 <= s.memory.latestSeq.value <= |s.log|
              && var row := s.memory.latestSeq.value - 1;
                 && s.log[row].result.None? && KillTick(s, a).log == s.log[row := s.log[row].(result := Some(FlatVerified))]
                 && KillTick(s, a).memory == s.memory.(state := KillState(s.memory.state.halted, false))
  {
    hide Exposed;
  }

  /** The next-open rule at one tick: whether the day is now done, and what is driven. */
  function NextOpenRule(fired: bool, due: bool, stale: bool, a: Account): (bool, Decision) {
    if fired then (true, Idle)
    else if !due then (false, Idle)
    else if !Exposed(a) || !stale then (true, Idle)
    else (false, DecideDrive(a))
  }

  /** What one tick of a session sees. */
  datatype Tick = Tick(now: Time, isOpen: bool, account: Account)

  /** What the controller keeps about one day: whether it is done, and the pre-open observation. */
  datatype Watch = Watch(fired: bool, seen: Option<bool>)

  /** One tick before the flatten window: ahead of the open it observes, behind it the rule decides. */
  function OpenRule(w: Watch, t: Tick, predates: bool, rthOpen: Time): (Watch, Decision) {
    if t.now < rthOpen then (w.(seen := Some(Exposed(t.account))), Idle)
    else
      var (done, decision) := NextOpenRule(w.fired, IsDue(t.isOpen, t.now, rthOpen), w.seen.GetOr(predates), t.account);
      (w.(fired := done), decision)
  }

  /** Some position is unexplained by the lots, or explained by one from before the session. */
  ghost predicate Predates(a: Account, lots: seq<Lot>, rthOpen: Time) {
    exists i :: 0 <= i < |a.holdings| && a.holdings[i].qty != 0.0 && IsStale(lots, a.holdings[i].symbol, rthOpen)
  }

  class FlattenController {
    const killSwitch: KillSwitch
    var nextOpenFired: set<Day>
    var nextOpenSnapshot: Option<Snapshot>

    constructor (killSwitch: KillSwitch)
      ensures this.killSwitch == killSwitch && nextOpenFired == {} && nextOpenSnapshot == None
    {
      this.killSwitch := killSwitch;
      nextOpenFired, nextOpenSnapshot := {}, None;
    }

    /** `_drive_kill_flatten`: the row is verified only on a clean broker-truth read, and an open market with
        exposure is always being driven. */
    method DriveKillFlatten(a: Account, isOpen: bool) returns (drove: bool, decision: Decision)
      modifies killSwitch, killSwitch.table
      ensures drove <==> Exposed(a) && isOpen
      ensures decision == if isOpen then DecideDrive(a) else Idle
      ensures (decision == Publish <==> isOpen && Fires(a)) && (decision == Idle <==> !drove)
      ensures Kill(killSwitch.table.rows, killSwitch.View()) == KillTick(old(Kill(killSwitch.table.rows, killSwitch.View())), a)
    {
      var commandSeq := if killSwitch.flattening then killSwitch.latestSeq else None;
      if !Exposed(a) {
        var _ := killSwitch.MarkFlattenVerified(commandSeq);
        return false, Idle;
      }
      if !isOpen {
        return false, Idle;
      }
      if FullyCovered(a) {
        return true, AwaitFills;
      }
      return true, Publish;
    }

    /** The pre-open observation replaces any earlier one. */
    method ObservePreOpen(day: Day, a: Account)
      modifies this`nextOpenSnapshot
      ensures nextOpenSnapshot == Some(Snapshot(day, Exposed(a)))
    {
      nextOpenSnapshot := Some(Snapshot(day, Exposed(a)));
    }

    /** `_maybe_next_open_flatten`: same-day observation first, lot evidence otherwise. */
    method MaybeNextOpenFlatten(day: Day, now: Time, isOpen: bool, a: Account, lots: seq<Lot>, rthOpen: Time)
      returns (driving: bool, decision: Decision, ghost stale: bool)
      modifies this`nextOpenFired
      ensures nextOpenSnapshot.Some? && nextOpenSnapshot.value.day == day ==> stale == nextOpenSnapshot.value.exposed
      ensures !(nextOpenSnapshot.Some? && nextOpenSnapshot.value.day == day) ==>
                (stale <==> Predates(a, lots, rthOpen))
      ensures var (done, rule) := NextOpenRule(day in old(nextOpenFired), IsDue(isOpen, now, rthOpen), stale, a);
              && decision == rule
              && nextOpenFired == if done then old(nextOpenFired) + {day} else old(nextOpenFired)
      ensures driving <==> decision != Idle
      ensures decision == Publish <==> driving && Fires(a)
      ensures driving <==> day !in old(nextOpenFired) && isOpen && now - rthOpen >= 15 && stale && Exposed(a)
    {
      hide IsStale, Exposed, FullyCovered;
      var symbols := PositionSymbols(a.holdings);
      var predates := ExposurePredates(lots, symbols, rthOpen);
      PositionSymbolsAre(a.holdings, lots, rthOpen);
      var stale_ := if nextOpenSnapshot.Some? && nextOpenSnapshot.value.day == day then nextOpenSnapshot.value.exposed else predates;
      stale := stale_;
      if day in nextOpenFired {
        return false, Idle, stale;
      }
      if !isOpen || now < rthOpen + OPEN_GRACE {
        return false, Idle, stale;
      }
      if !Exposed(a) || !stale_ {
        nextOpenFired := nextOpenFired + {day};
        return false, Idle, stale;
      }
      if FullyCovered(a) {
        return true, AwaitFills, stale;
      }
      return true, Publish, stale;
    }

    ghost function Watched(day: Day): Watch
      reads this
    {
      Watch(day in nextOpenFired,
            if nextOpenSnapshot.Some? && nextOpenSnapshot.value.day == day then Some(nextOpenSnapshot.value.exposed) else None)
    }

    /** The part of `_tick` that runs before the flatten window. */
    method OpenTick(day: Day, t: Tick, lots: seq<Lot>, rthOpen: Time) returns (decision: Decision)
      modifies this`nextOpenFired, this`nextOpenSnapshot
      ensures (Watched(day), decision) == OpenRule(old(Watched(day)), t, Predates(t.account, lots, rthOpen), rthOpen)
      ensures forall other :: other != day ==> (other in nextOpenFired <==> other in old(nextOpenFired))
    {
      hide Exposed, Predates;
      decision := Idle;
      if t.now < rthOpen {
        ObservePreOpen(day, t.account);
      } else {
        var _, rule, _ := MaybeNextOpenFlatten(day, t.now, t.isOpen, t.account, lots, rthOpen);
        decision := rule;
      }
    }
  }

  function PositionSymbols(holdings: seq<Holding>): seq<Symbol> {
    if holdings == [] then []
    else
      var last := holdings[|holdings| - 1];
      PositionSymbols(holdings[..|holdings| - 1]) + if last.qty != 0.0 then [last.symbol] else []
  }

  lemma {:induction false} PositionSymbolsAre(holdings: seq<Holding>, lots: seq<Lot>, rthOpen: Time)
    ensures (exists k :: 0 <= k < |PositionSymbols(holdings)| && IsStale(lots, PositionSymbols(holdings)[k], rthOpen))
            <==> (exists i :: 0 <= i < |holdings| && holdings[i].qty != 0.0 && IsStale(lots, holdings[i].symbol, rthOpen))
  {
    hide IsStale;
    if holdings != [] {
      var n := |holdings| - 1;
      var earlier, all := PositionSymbols(holdings[..n]), PositionSymbols(holdings);
      PositionSymbolsAre(holdings[..n], lots, rthOpen);
      if k :| 0 <= k < |all| && IsStale(lots, all[k], rthOpen) {
        if k < |earlier| {
          assert IsStale(lots, earlier[k], rthOpen);
          var i :| 0 <= i < n && holdings[..n][i].qty != 0.0 && IsStale(lots, holdings[..n][i].symbol, rthOpen);
          assert holdings[i].qty != 0.0 && IsStale(lots, holdings[i].symbol, rthOpen);
        } else {
          assert holdings[n].qty != 0.0 && IsStale(lots, holdings[n].symbol, rthOpen);
        }
      }
      if i :| 0 <= i < |holdings| && holdings[i].qty != 0.0 && IsStale(lots, holdings[i].symbol, rthOpen) {
        if i < n {
          assert holdings[..n][i].qty != 0.0 && IsStale(lots, holdings[..n][i].symbol, rthOpen);
          var k :| 0 <= k < |earlier| && IsStale(lots, earlier[k], rthOpen);
          assert IsStale(lots, all[k], rthOpen);
        } else {
          assert IsStale(lots, all[|earlier|], rthOpen);
        }
      }
    }
  }

  // ── A day of ticks ───────────────────────────────────────────────

  predicate DueAt(ticks: seq<Tick>, rthOpen: Time, k: nat)
    requires k < |ticks|
  {
    IsDue(ticks[k].isOpen, ticks[k].now, rthOpen)
  }

  /** Whether the day is marked after the first `n` ticks of a session whose exposure is stale. */
  function FiredAfter(ticks: seq<Tick>, rthOpen: Time, n: nat): bool
    requires n <= |ticks|
  {
    n > 0 && NextOpenRule(FiredAfter(ticks, rthOpen, n - 1), DueAt(ticks, rthOpen, n - 1), true, ticks[n - 1].account).0
  }

  /** The rule is level-triggered: with stale exposure the day is marked exactly by a tick of the open market
      past the grace that found nothing exposed, and until then every such tick publishes unless every
      position is covered. */
  lemma {:induction false} DayIsMarkedOnceFlat(ticks: seq<Tick>, rthOpen: Time, n: nat)
    requires n <= |ticks|
    ensures FiredAfter(ticks, rthOpen, n) <==> exists k :: 0 <= k < n && DueAt(ticks, rthOpen, k) && !Exposed(ticks[k].account)
    ensures forall k :: 0 <= k < n && DueAt(ticks, rthOpen, k) && !FiredAfter(ticks, rthOpen, k) && Fires(ticks[k].account) ==>
              NextOpenRule(FiredAfter(ticks, rthOpen, k), DueAt(ticks, rthOpen, k), true, ticks[k].account).1 == Publish
  {
    hide Exposed, FullyCovered, IsDue;
    if n > 0 {
      DayIsMarkedOnceFlat(ticks, rthOpen, n - 1);
    }
  }

  function WatchAfter(ticks: seq<Tick>, predates: seq<bool>, rthOpen: Time, n: nat): Watch
    requires n <= |ticks| == |predates|
  {
    if n == 0 then Watch(false, None)
    else OpenRule(WatchAfter(ticks, predates, rthOpen, n - 1), ticks[n - 1], predates[n - 1], rthOpen).0
  }

  /** The last look before the open decides the day: what was flat then is never driven by the next-open
      rule, whatever is opened since and whatever the lots say; what was exposed then is stale. */
  lemma {:induction false} TheObservationDecides(ticks: seq<Tick>, predates: seq<bool>, rthOpen: Time, k: nat, n: nat)
    requires k < n <= |ticks| == |predates| && ticks[k].now < rthOpen
    requires forall j :: k < j < n ==> ticks[j].now >= rthOpen
    ensures WatchAfter(ticks, predates, rthOpen, n).seen == Some(Exposed(ticks[k].account))
    ensures n < |ticks| && ticks[n].now >= rthOpen ==>
              var w := WatchAfter(ticks, predates, rthOpen, n);
              OpenRule(w, ticks[n], predates[n], rthOpen).1 ==
              if Exposed(ticks[k].account) && !w.fired && DueAt(ticks, rthOpen, n) && Exposed(ticks[n].account)
              then DecideDrive(ticks[n].account) else Idle
  {
    hide Exposed, DecideDrive, IsDue;
    if n > k + 1 {
      TheObservationDecides(ticks, predates, rthOpen, k, n - 1);
    }
  }

  // ── A kill flatten from publication to resume ────────────────────

  /** The log and the cached state after the first `n` ticks. */
  function KillRun(s: Kill, ticks: seq<Account>, n: nat): Kill
    requires n <= |ticks|
  {
    if n == 0 then s else KillTick(KillRun(s, ticks, n - 1), ticks[n - 1])
  }

  /** The first tick that finds nothing exposed. */
  lemma {:induction false} FirstClear(ticks: seq<Account>, bound: nat) returns (k: nat)
    requires bound < |ticks| && !Exposed(ticks[bound])
    ensures k <= bound && !Exposed(ticks[k]) && forall j :: 0 <= j < k ==> Exposed(ticks[j])
  {
    hide Exposed;
    if j :| 0 <= j < bound && !Exposed(ticks[j]) {
      k := FirstClear(ticks, j);
    } else {
      k := bound;
    }
  }

  lemma {:induction false} ExposedChangesNothing(s: Kill, ticks: seq<Account>, n: nat)
    requires n <= |ticks| && forall j :: 0 <= j < n ==> Exposed(ticks[j])
    ensures KillRun(s, ticks, n) == s
  {
    hide Exposed;
    if n > 0 {
      ExposedChangesNothing(s, ticks, n - 1);
    }
  }

  lemma {:induction false} VerifiedIsOver(s: Kill, ticks: seq<Account>, k: nat, n: nat)
    requires k < n <= |ticks| && !Exposed(ticks[k]) && forall j :: 0 <= j < k ==> Exposed(ticks[j])
    requires s.memory.state.flattening && s.memory.latestSeq.Some?
    requires var seqNo := s.memory.latestSeq.value; 1 <= seqNo <= |s.log| && s.log[seqNo - 1].result.None?
    ensures KillRun(s, ticks, n) ==
            Kill(Marked(s.log, s.memory.latestSeq.value), s.memory.(state := s.memory.state.(flattening := false)))
  {
    hide Exposed;
    if n == k + 1 {
      ExposedChangesNothing(s, ticks, k);
      var seqNo := s.memory.latestSeq.value;
      assert Marked(s.log, seqNo)[seqNo - 1].result != s.log[seqNo - 1].result;
    } else {
      VerifiedIsOver(s, ticks, k, n - 1);
    }
  }

  /** While every tick finds something exposed, the row has no outcome and a resume is refused. */
  lemma RefusedUntilClear(s: Kill, ticks: seq<Account>, k: nat, seqNo: nat, reason: string)
    requires k <= |ticks| && forall j :: 0 <= j < k ==> Exposed(ticks[j])
    requires LogSafe(s.log) && IsUnresolved(s.log, seqNo) && s.log[seqNo - 1].result.None?
    requires forall t: nat :: IsUnresolved(s.log, t) ==> t == seqNo
    ensures forall n :: 0 <= n <= k ==>
              KillRun(s, ticks, n) == s && AfterIssue(KillRun(s, ticks, n).log, Resume, reason).1.ResumeRefused?
  {
    hide KillRun, AfterIssue, Marked, LogSafe, Exposed, KillTick;
    AnOutcomeUnblocksResume(s.log, seqNo, reason, 0);
    hide IsUnresolved;
    forall n | 0 <= n <= k ensures KillRun(s, ticks, n) == s {
      ExposedChangesNothing(s, ticks, n);
    }
  }

  lemma MarkedIsVerified(log: Log, seqNo: nat)
    requires 1 <= seqNo <= |log| && log[seqNo - 1].result.None?
    ensures |Marked(log, seqNo)| == |log| && Marked(log, seqNo)[seqNo - 1].result == Some(FlatVerified)
  {
  }

  /** From the first clear tick on, the row is verified, the drive is over, and a resume is issued. */
  lemma IssuedFromClear(s: Kill, ticks: seq<Account>, k: nat, seqNo: nat, reason: string)
    requires k < |ticks| && !Exposed(ticks[k]) && forall j :: 0 <= j < k ==> Exposed(ticks[j])
    requires s.memory.state.flattening && s.memory.latestSeq == Some(seqNo)
    requires LogSafe(s.log) && IsUnresolved(s.log, seqNo) && s.log[seqNo - 1].result.None?
    requires forall t: nat :: IsUnresolved(s.log, t) ==> t == seqNo
    ensures forall n :: k < n <= |ticks| ==>
              var after := KillRun(s, ticks, n);
              && |after.log| == |s.log| && after.log[seqNo - 1].result == Some(FlatVerified)
              && after.memory.state == KillState(s.memory.state.halted, false) && AfterIssue(after.log, Resume, reason).1.Issued?
  {
    hide KillRun, AfterIssue, Marked, LogSafe, Exposed, KillTick;
    AnOutcomeUnblocksResume(s.log, seqNo, reason, 0);
    assert 1 <= seqNo <= |s.log|;
    hide IsUnresolved;
    MarkedIsVerified(s.log, seqNo);
    forall n | k < n <= |ticks|
      ensures KillRun(s, ticks, n) == Kill(Marked(s.log, seqNo), s.memory.(state := s.memory.state.(flattening := false)))
    {
      VerifiedIsOver(s, ticks, k, n);
    }
  }

  /** From the tick that starts driving it to the resume: within three ticks per position and two more some
      tick finds nothing exposed; up to the first such tick the row has no outcome and a resume is refused,
      and from that tick on the row is verified, the drive is over, and a resume is issued. */
  lemma DrivenFlattenUnblocksResume(ticks: seq<Account>, accepts: nat -> Symbol -> bool, s: Kill, seqNo: nat, reason: string)
    returns (k: nat)
    requires |ticks| > 0 && IsDriven(ticks, accepts) && |ticks| > 3 * |ticks[0].holdings| + 2
    requires s.memory.state.flattening && s.memory.latestSeq == Some(seqNo)
    requires LogSafe(s.log) && IsUnresolved(s.log, seqNo) && s.log[seqNo - 1].result.None?
    requires forall t: nat :: IsUnresolved(s.log, t) ==> t == seqNo
    ensures k <= 3 * |ticks[0].holdings| + 2 && !Exposed(ticks[k]) && forall j :: 0 <= j < k ==> Exposed(ticks[j])
    ensures forall n :: 0 <= n <= k ==>
              KillRun(s, ticks, n) == s && AfterIssue(KillRun(s, ticks, n).log, Resume, reason).1.ResumeRefused?
    ensures forall n :: k < n <= |ticks| ==>
              var after := KillRun(s, ticks, n);
              && |after.log| == |s.log| && after.log[seqNo - 1].result == Some(FlatVerified)
              && after.memory.state == KillState(s.memory.state.halted, false) && AfterIssue(after.log, Resume, reason).1.Issued?
  {
    hide KillRun, AfterIssue, Marked, LogSafe, Exposed, KillTick, IsUnresolved, IsDriven;
    var clear := DriveReachesFlat(ticks, accepts);
    k := FirstClear(ticks, clear);
    RefusedUntilClear(s, ticks, k, seqNo, reason);
    IssuedFromClear(s, ticks, k, seqNo, reason);
  }

  /** The whole life of a kill flatten, from any reachable state: issued and swept once, it is driven; a resume
      is refused until the first tick that finds nothing exposed, which comes within the drive's bound, and
      issued from then on. */
  lemma IssuedFlattenUnblocksResume(past: seq<Step>, why: string, now: Time, ticks: seq<Account>, accepts: nat -> Symbol -> bool, reason: string)
    returns (s: Kill, k: nat)
    requires why != ""
    requires |ticks| > 0 && IsDriven(ticks, accepts) && |ticks| > 3 * |ticks[0].holdings| + 2
    ensures var swept := Run(EMPTY, past + [Issuing(Flatten, why), SweepReads, SweepCommits(now), SweepApplies]);
            s == Kill(swept.log, swept.memory)
    ensures s.log != [] && s.memory.state == KillState(true, true)
    ensures k <= 3 * |ticks[0].holdings| + 2 && !Exposed(ticks[k]) && forall j :: 0 <= j < k ==> Exposed(ticks[j])
    ensures forall n :: 0 <= n <= k ==>
              KillRun(s, ticks, n) == s && AfterIssue(KillRun(s, ticks, n).log, Resume, reason).1.ResumeRefused?
    ensures forall n :: k < n <= |ticks| ==>
              var after := KillRun(s, ticks, n);
              && |after.log| == |s.log| && after.log[|s.log| - 1].result == Some(FlatVerified)
              && after.memory.state == KillState(true, false) && AfterIssue(after.log, Resume, reason).1.Issued?
  {
    hide Run, KillRun, AfterIssue, Marked, LogSafe, Exposed, KillTick, IsUnresolved, IsDriven;
    var swept := Run(EMPTY, past + [Issuing(Flatten, why), SweepReads, SweepCommits(now), SweepApplies]);
    IssuedFlattenIsPickedUp(past, why, now);
    s := Kill(swept.log, swept.memory);
    k := DrivenFlattenUnblocksResume(ticks, accepts, s, |s.log|, reason);
  }
}
