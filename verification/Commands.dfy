/** The kill-switch command log: its latest row is the state; the engine caches what it read. */
module Commands {
  import opened Domain

  datatype Action = Halt | Flatten | Resume | UnknownAction

  datatype Outcome = FlatVerified | Superseded | OtherOutcome(detail: string)

  /** A row of `engine_commands`; its `seq` is its position, counted from one. */
  datatype Command = Command(action: Action, reason: string, appliedAt: Option<Time>, result: Option<Outcome>)

  type Log = seq<Command>

  // ── Deriving the state ───────────────────────────────────────────

  datatype KillState = KillState(halted: bool, flattening: bool)

  /** `derive_kill_state`: an unknown action fails closed to halted, but never flattens. */
  function DeriveKillState(action: Option<Action>, result: Option<Outcome>): KillState {
    if action.None? || action.value.Resume? then KillState(false, false)
    else if action.value.Halt? then KillState(true, false)
    else if action.value.Flatten? then KillState(true, result != Some(FlatVerified))
    else KillState(true, false)
  }

  /** A row as some reader saw it, with its `seq`. */
  datatype Reading = Reading(seqNo: nat, row: Command)

  function Latest(log: Log): (r: Option<Reading>)
    ensures r.Some? <==> log != []
    ensures r.Some? ==> r.value.seqNo == |log| && r.value.row == log[|log| - 1]
  {
    if log == [] then None else Some(Reading(|log|, log[|log| - 1]))
  }

  /** What the engine holds in memory. */
  datatype Memory = Memory(state: KillState, reason: Option<string>, latestSeq: Option<nat>)

  function Derived(latest: Option<Reading>): Memory {
    if latest.None? then Memory(KillState(false, false), None, None)
    else Memory(DeriveKillState(Some(latest.value.row.action), latest.value.row.result),
                Some(latest.value.row.reason), Some(latest.value.seqNo))
  }

  /** The memory is what the log's last row says: halted by anything but a resume, and flattening exactly for a
      flatten that is not verified yet. */
  ghost predicate SaysTheLog(m: Memory, log: Log) {
    if log == [] then m == Memory(KillState(false, false), None, None)
    else
      var last := log[|log| - 1];
      && (m.state.halted <==> last.action != Resume)
      && (m.state.flattening <==> last.action == Flatten && last.result != Some(FlatVerified))
      && m.reason == Some(last.reason) && m.latestSeq == Some(|log|)
  }

  lemma DerivedSaysTheLog(log: Log)
    ensures SaysTheLog(Derived(Latest(log)), log)
  {
  }

  // ── Issuing ──────────────────────────────────────────────────────

  predicate IsVerifiedOrVoid(row: Command) {
    row.result == Some(FlatVerified) || row.result == Some(Superseded)
  }

  /** Position after the last `resume`, or 0. */
  function SinceResume(log: Log): (n: nat)
    ensures n <= |log|
    ensures n > 0 ==> log[n - 1].action.Resume?
    ensures forall i :: n <= i < |log| ==> !log[i].action.Resume?
  {
    if log == [] then 0
    else if log[|log| - 1].action.Resume? then |log|
    else SinceResume(log[..|log| - 1])
  }

  predicate IsUnresolved(log: Log, seqNo: nat) {
    1 <= seqNo <= |log| && log[seqNo - 1].action.Flatten? && !IsVerifiedOrVoid(log[seqNo - 1])
  }

  lemma UnresolvedEarlier(log: Log, earlier: Log)
    requires log != [] && earlier == log[..|log| - 1]
    ensures forall s: nat :: IsUnresolved(log, s) ==> s <= |log|
    ensures forall s: nat :: IsUnresolved(earlier, s) <==> IsUnresolved(log, s) && s < |log|
  {
  }

  /** The guard's query: unverified flattens after a position, in order. */
  function UnresolvedAfter(log: Log, from: nat): (seqs: seq<nat>)
    ensures forall s: nat :: s > from && IsUnresolved(log, s) ==> s in seqs
    ensures forall k :: 0 <= k < |seqs| ==> seqs[k] > from && IsUnresolved(log, seqs[k])
    ensures forall j, k :: 0 <= j < k < |seqs| ==> seqs[j] < seqs[k]
  {
    if |log| <= from then []
    else
      hide IsUnresolved;
      var earlier := UnresolvedAfter(log[..|log| - 1], from);
      UnresolvedEarlier(log, log[..|log| - 1]);
      if IsUnresolved(log, |log|) then earlier + [|log|] else earlier
  }

  datatype Issue = Issued(seqNo: nat) | BlankReason | ResumeRefused(seqs: seq<nat>)

  const DEFAULT_RESUME_REASON := "resume"

  /** `issue_command` under its advisory lock: the log afterwards, and the answer. */
  function AfterIssue(log: Log, action: Action, reason: string): (Log, Issue) {
    var clean := if reason == "" && action.Resume? then DEFAULT_RESUME_REASON else reason;
    if clean == "" then (log, BlankReason)
    else if action.Resume? && UnresolvedAfter(log, SinceResume(log)) != [] then
      (log, ResumeRefused(UnresolvedAfter(log, SinceResume(log))))
    else (log + [Command(action, clean, None, None)], Issued(|log| + 1))
  }

  // ── Sweeping and verifying ───────────────────────────────────────

  /** One row under a sweep that read `latestSeq`: pickup stamped, an older unfinished flatten void. */
  function SweptRow(row: Command, seqNo: nat, latestSeq: nat, now: Time): Command {
    row.(appliedAt := if row.appliedAt.None? && seqNo <= latestSeq then Some(now) else row.appliedAt,
         result := if row.action.Flatten? && row.result.None? && seqNo < latestSeq then Some(Superseded) else row.result)
  }

  /** What a sweep that read `latestSeq` commits. */
  function Swept(log: Log, latestSeq: nat, now: Time): (r: Log)
    ensures |r| == |log| && forall i :: 0 <= i < |log| ==> r[i] == SweptRow(log[i], i + 1, latestSeq, now)
  {
    seq(|log|, i requires 0 <= i < |log| => SweptRow(log[i], i + 1, latestSeq, now))
  }

  /** `mark_flatten_verified`'s transaction: the row's first outcome, or nothing. */
  function Marked(log: Log, seqNo: nat): Log {
    if 1 <= seqNo <= |log| && log[seqNo - 1].result.None?
    then log[seqNo - 1 := log[seqNo - 1].(result := Some(FlatVerified))]
    else log
  }

  /** A sweep writes nothing about the latest row but its pickup. */
  lemma SweepKeepsTheLastWord(log: Log, now: Time)
    ensures Derived(Latest(Swept(log, |log|, now))) == Derived(Latest(log))
    ensures forall m: Memory :: SaysTheLog(m, Swept(log, |log|, now)) <==> SaysTheLog(m, log)
  {
    var swept := Swept(log, |log|, now);
    if log != [] {
      assert swept[|log| - 1] == SweptRow(log[|log| - 1], |log|, |log|, now);
    }
  }

  // ── The methods ──────────────────────────────────────────────────

  class CommandTable {
    var rows: Log

    constructor ()
      ensures rows == []
    {
      rows := [];
    }

    method IssueCommand(action: Action, reason: string) returns (answer: Issue)
      modifies this
      ensures rows == AfterIssue(old(rows), action, reason).0
      ensures answer == AfterIssue(old(rows), action, reason).1
    {
      var cleanReason := reason;
      if cleanReason == "" {
        if !action.Resume? {
          return BlankReason;
        }
        cleanReason := DEFAULT_RESUME_REASON;
      }
      if action.Resume? {
        var unresolved := UnresolvedAfter(rows, SinceResume(rows));
        if unresolved != [] {
          return ResumeRefused(unresolved);
        }
      }
      rows := rows + [Command(action, cleanReason, None, None)];
      answer := Issued(|rows|);
    }

    /** `_stamp_applied`: pickup on every unseen row up to the one the sweep read. */
    method StampApplied(latestSeq: nat, now: Time) returns (latestWasNew: bool)
      modifies this
      ensures |rows| == |old(rows)|
      ensures forall i :: 0 <= i < |rows| ==>
                rows[i] == old(rows)[i].(appliedAt := SweptRow(old(rows)[i], i + 1, latestSeq, now).appliedAt)
      ensures latestWasNew <==> 1 <= latestSeq <= |rows| && old(rows)[latestSeq - 1].appliedAt.None?
    {
      latestWasNew := false;
      var i := 0;
      while i < |rows|
        invariant i <= |rows| == |old(rows)|
        invariant forall k :: i <= k < |rows| ==> rows[k] == old(rows)[k]
        invariant forall k :: 0 <= k < i ==>
                    rows[k] == old(rows)[k].(appliedAt := SweptRow(old(rows)[k], k + 1, latestSeq, now).appliedAt)
        invariant latestWasNew <==> 1 <= latestSeq <= i && old(rows)[latestSeq - 1].appliedAt.None?
      {
        if rows[i].appliedAt.None? && i + 1 <= latestSeq {
          rows := rows[i := rows[i].(appliedAt := Some(now))];
          if i + 1 == latestSeq {
            latestWasNew := true;
          }
        }
        i := i + 1;
      }
    }

    /** `_supersede_stale_flattens`: older unfinished flattens are void. */
    method SupersedeStaleFlattens(latestSeq: nat)
      modifies this
      ensures |rows| == |old(rows)|
      ensures forall i :: 0 <= i < |rows| ==>
                rows[i] == old(rows)[i].(result := SweptRow(old(rows)[i], i + 1, latestSeq, 0).result)
    {
      var i := 0;
      while i < |rows|
        invariant i <= |rows| == |old(rows)|
        invariant forall k :: i <= k < |rows| ==> rows[k] == old(rows)[k]
        invariant forall k :: 0 <= k < i ==>
                    rows[k] == old(rows)[k].(result := SweptRow(old(rows)[k], k + 1, latestSeq, 0).result)
      {
        if rows[i].action.Flatten? && rows[i].result.None? && i + 1 < latestSeq {
          rows := rows[i := rows[i].(result := Some(Superseded))];
        }
        i := i + 1;
      }
    }
  }

  class KillSwitch {
    const table: CommandTable
    var halted: bool
    var flattening: bool
    var reason: Option<string>
    var latestSeq: Option<nat>

    ghost function View(): Memory
      reads this
    {
      Memory(KillState(halted, flattening), reason, latestSeq)
    }

    constructor (table: CommandTable)
      ensures this.table == table && View() == Derived(None)
    {
      this.table := table;
      halted, flattening, reason, latestSeq := false, false, None, None;
    }

    method ApplyLatest(latest: Option<Reading>)
      modifies this
      ensures View() == Derived(latest)
    {
      if latest.None? {
        halted, flattening, reason, latestSeq := false, false, None, None;
        return;
      }
      var state := DeriveKillState(Some(latest.value.row.action), latest.value.row.result);
      latestSeq, reason := Some(latest.value.seqNo), Some(latest.value.row.reason);
      halted, flattening := state.halted, state.flattening;
    }

    /** Boot-time derivation: the memory of a restarted engine is the log's. */
    method Load()
      modifies this
      ensures View() == Derived(Latest(table.rows)) && SaysTheLog(View(), table.rows)
    {
      DerivedSaysTheLog(table.rows);
      ApplyLatest(Latest(table.rows));
    }

    /** The whole call with nothing in between; its two halves are steps of their own in a run. */
    method MarkFlattenVerified(commandSeq: Option<nat>) returns (marked: bool)
      modifies this, table
      ensures table.rows == if commandSeq.None? then old(table.rows) else Marked(old(table.rows), commandSeq.value)
      ensures marked <==> table.rows != old(table.rows)
      ensures View() == if marked then old(View()).(state := KillState(old(halted), false)) else old(View())
    {
      if commandSeq.None? {
        return false;
      }
      var s := commandSeq.value;
      if s < 1 || s > |table.rows| || table.rows[s - 1].result.Some? {
        return false;
      }
      assert table.rows[s - 1].(result := Some(FlatVerified)).result != table.rows[s - 1].result;
      table.rows := table.rows[s - 1 := table.rows[s - 1].(result := Some(FlatVerified))];
      flattening := false;
      marked := true;
    }

    /** One uninterrupted latest-wins pass of the sweeper. */
    method Sweep(now: Time) returns (pokeController: bool)
      modifies this, table
      ensures table.rows == Swept(old(table.rows), |old(table.rows)|, now)
      ensures View() == Derived(Latest(table.rows))
      ensures SaysTheLog(View(), table.rows) && SaysTheLog(View(), old(table.rows))
      ensures pokeController == flattening
    {
      hide SaysTheLog;
      DerivedSaysTheLog(table.rows);
      SweepKeepsTheLastWord(table.rows, now);
      var latest := Latest(table.rows);
      if latest.None? {
        ApplyLatest(None);
        return flattening;
      }
      var newlySeen := table.StampApplied(latest.value.seqNo, now);
      table.SupersedeStaleFlattens(latest.value.seqNo);
      assert table.rows == Swept(old(table.rows), |old(table.rows)|, now);
      ApplyLatest(latest);
      pokeController := flattening;
    }
  }

  // ── Runs: every await is a place where others run ────────────────

  /** `pending` is what a sweep in progress has read; `clearing` a verified mark whose flag is not yet down. */
  datatype System = System(log: Log, memory: Memory, pending: Option<Option<Reading>>, clearing: bool)

  datatype Step =
    | Issuing(action: Action, reason: string)
    | SweepReads
    | SweepCommits(now: Time)
    | SweepApplies
    | MarkCommits(seqNo: nat)
    | MarkClears
    | Restarts
    | Loads

  function Next(s: System, step: Step): System {
    match step
    case Issuing(action, reason) => s.(log := AfterIssue(s.log, action, reason).0)
    case SweepReads => s.(pending := Some(Latest(s.log)))
    case SweepCommits(now) =>
      if s.pending.Some? && s.pending.value.Some? then s.(log := Swept(s.log, s.pending.value.value.seqNo, now)) else s
    case SweepApplies => if s.pending.Some? then s.(memory := Derived(s.pending.value), pending := None) else s
    case MarkCommits(seqNo) => s.(log := Marked(s.log, seqNo), clearing := s.clearing || Marked(s.log, seqNo) != s.log)
    case MarkClears =>
      if s.clearing then s.(memory := s.memory.(state := s.memory.state.(flattening := false)), clearing := false) else s
    case Restarts => System(s.log, Derived(None), None, false)
    case Loads => s.(memory := Derived(Latest(s.log)))
  }

  function Run(s: System, steps: seq<Step>): System {
    if steps == [] then s else Next(Run(s, steps[..|steps| - 1]), steps[|steps| - 1])
  }

  // ── What every step keeps ────────────────────────────────────────

  /** Rows stay, in place; actions and reasons never change; pickup and outcome are written once. */
  ghost predicate Grows(was: Log, now: Log) {
    && |was| <= |now|
    && forall i :: 0 <= i < |was| ==>
         && now[i].action == was[i].action && now[i].reason == was[i].reason
         && (was[i].appliedAt.Some? ==> now[i].appliedAt == was[i].appliedAt)
         && (was[i].result.Some? ==> now[i].result == was[i].result)
  }

  /** A void flatten has a later row, and no flatten before a resume is unverified. */
  ghost predicate LogSafe(log: Log) {
    && (forall i :: 0 <= i < |log| && log[i].result == Some(Superseded) ==> log[i].action.Flatten? && i < |log| - 1)
    && (forall i, j :: 0 <= i < j < |log| && log[j].action.Resume? && log[i].action.Flatten? ==> IsVerifiedOrVoid(log[i]))
  }

  /** A row someone read is still there, with the same action, and no newer reading is lost in it. */
  ghost predicate ReadFrom(log: Log, reading: Reading) {
    && 1 <= reading.seqNo <= |log|
    && log[reading.seqNo - 1].action == reading.row.action
    && log[reading.seqNo - 1].reason == reading.row.reason
    && (reading.row.result.Some? ==> log[reading.seqNo - 1].result == reading.row.result)
  }

  /** The memory always names a row, is halted exactly when that row is not a resume, and flattens only
      for a flatten. */
  ghost predicate MemoryNames(log: Log, m: Memory) {
    match m.latestSeq
    case None => m.state == KillState(false, false)
    case Some(s) =>
      && 1 <= s <= |log|
      && (m.state.halted <==> !log[s - 1].action.Resume?)
      && (m.state.flattening ==> log[s - 1].action.Flatten?)
      && m.reason == Some(log[s - 1].reason)
  }

  ghost predicate Safe(s: System) {
    && LogSafe(s.log) && MemoryNames(s.log, s.memory)
    && (s.pending.Some? && s.pending.value.Some? ==> ReadFrom(s.log, s.pending.value.value))
  }

  /** With the log safe, the guard's window since the last resume is as strict as the whole log. */
  lemma GuardSeesTheWholeLog(log: Log, seqNo: nat)
    requires LogSafe(log) && IsUnresolved(log, seqNo)
    ensures seqNo in UnresolvedAfter(log, SinceResume(log))
  {
  }

  lemma IssueKeepsSafe(log: Log, action: Action, reason: string)
    requires LogSafe(log)
    ensures LogSafe(AfterIssue(log, action, reason).0) && Grows(log, AfterIssue(log, action, reason).0)
  {
    var now := AfterIssue(log, action, reason).0;
    if action.Resume? && now != log {
      forall i, j | 0 <= i < j < |now| && now[j].action.Resume? && now[i].action.Flatten? ensures IsVerifiedOrVoid(now[i]) {
        if j == |log| && IsUnresolved(log, i + 1) {
          GuardSeesTheWholeLog(log, i + 1);
        }
      }
    }
  }

  /** So `resume` is accepted exactly when no flatten in the whole log lacks a verified or void outcome. */
  lemma ResumeIsAcceptedExactly(log: Log, reason: string)
    requires LogSafe(log)
    ensures AfterIssue(log, Resume, reason).1.Issued? <==> forall s: nat :: !IsUnresolved(log, s)
    ensures AfterIssue(log, Resume, reason).1.Issued? <==>
              forall i :: 0 <= i < |log| && log[i].action == Flatten ==> log[i].result in {Some(FlatVerified), Some(Superseded)}
  {
    assert forall i :: 0 <= i < |log| && log[i].action == Flatten ==>
             (IsUnresolved(log, i + 1) <==> log[i].result !in {Some(FlatVerified), Some(Superseded)});
    var unresolved := UnresolvedAfter(log, SinceResume(log));
    if unresolved != [] {
      assert IsUnresolved(log, unresolved[0]);
    } else {
      forall s: nat ensures !IsUnresolved(log, s) {
        if IsUnresolved(log, s) {
          GuardSeesTheWholeLog(log, s);
        }
      }
    }
  }

  /** A halt or flatten needs a reason of its own and is then always appended; whatever is appended is as asked
      for, unseen and without outcome, with a resume's reason filled in. */
  lemma IssuedAsAsked(log: Log, action: Action, reason: string)
    ensures var (now, answer) := AfterIssue(log, action, reason);
            && (answer.BlankReason? <==> reason == "" && action != Resume)
            && (answer.ResumeRefused? ==> action == Resume)
            && (answer.Issued? ==> now == log + [Command(action, if reason == "" then "resume" else reason, None, None)]
                                   && answer.seqNo == |log| + 1)
            && (!answer.Issued? ==> now == log)
  {
  }

  /** "Flatten, halt, resume" never slips through: with no sweep in between the resume is refused. */
  lemma HaltDoesNotLaunderAFlatten(log: Log, why: string, next: string, reason: string)
    requires LogSafe(log) && why != "" && next != ""
    ensures var two := AfterIssue(AfterIssue(log, Flatten, why).0, Halt, next).0;
            && |two| == |log| + 2
            && AfterIssue(two, Resume, reason) == (two, ResumeRefused(UnresolvedAfter(two, SinceResume(two))))
            && |log| + 1 in UnresolvedAfter(two, SinceResume(two))
  {
    var one := AfterIssue(log, Flatten, why).0;
    var two := AfterIssue(one, Halt, next).0;
    IssueKeepsSafe(log, Flatten, why);
    IssueKeepsSafe(one, Halt, next);
    assert IsUnresolved(two, |log| + 1);
    GuardSeesTheWholeLog(two, |log| + 1);
  }

  lemma MarkResolves(log: Log, seqNo: nat, s: nat)
    requires 1 <= seqNo <= |log| && log[seqNo - 1].result.None?
    ensures IsUnresolved(Marked(log, seqNo), s) <==> IsUnresolved(log, s) && s != seqNo
  {
  }

  lemma SweepResolves(log: Log, now: Time, s: nat)
    ensures IsUnresolved(Swept(log, |log|, now), s) <==> IsUnresolved(log, s) && (s == |log| || log[s - 1].result.Some?)
  {
  }

  /** What unblocks it is the outcome: when one flatten alone is unresolved, verifying it, or a sweep that
      finds a newer command, is enough for the resume to be accepted. */
  lemma AnOutcomeUnblocksResume(log: Log, seqNo: nat, reason: string, now: Time)
    requires LogSafe(log) && IsUnresolved(log, seqNo) && log[seqNo - 1].result.None?
    requires forall s: nat :: IsUnresolved(log, s) ==> s == seqNo
    ensures AfterIssue(log, Resume, reason).1.ResumeRefused?
    ensures AfterIssue(Marked(log, seqNo), Resume, reason).1.Issued?
    ensures AfterIssue(Swept(log, |log|, now), Resume, reason).1.Issued? <==> seqNo < |log|
  {
    assert 1 <= seqNo <= |log|;
    hide LogSafe, Grows, Marked, SweptRow, IsUnresolved, AfterIssue, UnresolvedAfter;
    MarkKeepsSafe(log, seqNo);
    SweepKeepsSafe(log, |log|, now);
    RefusedOrIssued(log, reason);
    ResumeIsAcceptedExactly(log, reason);
    ResumeIsAcceptedExactly(Marked(log, seqNo), reason);
    ResumeIsAcceptedExactly(Swept(log, |log|, now), reason);
    forall s: nat
      ensures IsUnresolved(Marked(log, seqNo), s) <==> IsUnresolved(log, s) && s != seqNo
      ensures IsUnresolved(Swept(log, |log|, now), s) <==> s == seqNo == |log|
    {
      MarkResolves(log, seqNo, s);
      SweepResolves(log, now, s);
    }
  }

  /** A resume always has a reason, so it is issued or refused. */
  lemma RefusedOrIssued(log: Log, reason: string)
    ensures AfterIssue(log, Resume, reason).1.Issued? || AfterIssue(log, Resume, reason).1.ResumeRefused?
  {
  }

  lemma SweepKeepsSafe(log: Log, latestSeq: nat, now: Time)
    requires LogSafe(log) && latestSeq <= |log|
    ensures LogSafe(Swept(log, latestSeq, now)) && Grows(log, Swept(log, latestSeq, now))
  {
  }

  lemma MarkKeepsSafe(log: Log, seqNo: nat)
    requires LogSafe(log)
    ensures LogSafe(Marked(log, seqNo)) && Grows(log, Marked(log, seqNo))
  {
  }

  lemma ReadersKeepUp(was: Log, now: Log, m: Memory, pending: Option<Reading>)
    requires Grows(was, now)
    ensures MemoryNames(was, m) ==> MemoryNames(now, m)
    ensures pending.Some? && ReadFrom(was, pending.value) ==> ReadFrom(now, pending.value)
  {
  }

  lemma StepKeepsSafe(s: System, step: Step)
    requires Safe(s)
    ensures Safe(Next(s, step)) && Grows(s.log, Next(s, step).log)
  {
    hide AfterIssue, Swept, Marked, LogSafe, Grows, MemoryNames, ReadFrom;
    var now := Next(s, step);
    GrowsItself(s.log);
    match step {
      case Issuing(action, reason) => IssueKeepsSafe(s.log, action, reason);
      case SweepReads => LatestIsRead(s.log);
      case SweepCommits(clock) =>
        if s.pending.Some? && s.pending.value.Some? {
          ReadInRange(s.log, s.pending.value.value);
          SweepKeepsSafe(s.log, s.pending.value.value.seqNo, clock);
        }
      case SweepApplies => DerivedNames(s.log, s.pending.GetOr(None));
      case MarkCommits(seqNo) => MarkKeepsSafe(s.log, seqNo);
      case MarkClears => ClearedNames(s.log, s.memory);
      case Restarts => DerivedNames(s.log, None);
      case Loads =>
        LatestIsRead(s.log);
        DerivedNames(s.log, Latest(s.log));
    }
    ReadersKeepUp(s.log, now.log, now.memory, now.pending.GetOr(None));
    ReadersKeepUp(s.log, now.log, s.memory, s.pending.GetOr(None));
  }

  lemma GrowsItself(log: Log)
    ensures Grows(log, log)
  {
  }

  lemma LatestIsRead(log: Log)
    ensures Latest(log).Some? ==> ReadFrom(log, Latest(log).value)
  {
  }

  lemma ReadInRange(log: Log, reading: Reading)
    requires ReadFrom(log, reading)
    ensures reading.seqNo <= |log|
  {
  }

  lemma DerivedNames(log: Log, reading: Option<Reading>)
    requires reading.Some? ==> ReadFrom(log, reading.value)
    ensures MemoryNames(log, Derived(reading))
  {
  }

  lemma ClearedNames(log: Log, m: Memory)
    requires MemoryNames(log, m)
    ensures MemoryNames(log, m.(state := m.state.(flattening := false)))
  {
  }

  // ── Whole runs ───────────────────────────────────────────────────

  const EMPTY := System([], Memory(KillState(false, false), None, None), None, false)

  lemma {:induction false} RunKeepsSafe(s: System, steps: seq<Step>)
    requires Safe(s)
    ensures Safe(Run(s, steps)) && Grows(s.log, Run(s, steps).log)
  {
    hide Safe, Next, Grows;
    GrowsItself(s.log);
    if steps != [] {
      var before := Run(s, steps[..|steps| - 1]);
      RunKeepsSafe(s, steps[..|steps| - 1]);
      StepKeepsSafe(before, steps[|steps| - 1]);
      GrowsThrough(s.log, before.log, Run(s, steps).log);
    }
  }

  lemma GrowsThrough(a: Log, b: Log, c: Log)
    requires Grows(a, b) && Grows(b, c)
    ensures Grows(a, c)
  {
  }

  lemma {:induction false} RunConcat(s: System, a: seq<Step>, b: seq<Step>)
    ensures Run(s, a + b) == Run(Run(s, a), b)
  {
    if b == [] {
      assert a + b == a;
    } else {
      assert (a + b)[..|a + b| - 1] == a + b[..|b| - 1];
      RunConcat(s, a, b[..|b| - 1]);
    }
  }

  /** From an empty log, through any interleaving of issuing, sweeping, verifying and restarting: once a
      resume is in the log, every flatten before it is verified or void, and it stays so for good. */
  lemma ResumeNeverLeapfrogsAFlatten(past: seq<Step>, future: seq<Step>, i: nat, j: nat)
    requires i < j < |Run(EMPTY, past).log|
    requires Run(EMPTY, past).log[i].action.Flatten? && Run(EMPTY, past).log[j].action.Resume?
    ensures var was, now := Run(EMPTY, past).log, Run(EMPTY, past + future).log;
            && IsVerifiedOrVoid(was[i])
            && i < |now| && now[i].result == was[i].result
  {
    RunKeepsSafe(EMPTY, past);
    RunConcat(EMPTY, past, future);
    RunKeepsSafe(Run(EMPTY, past), future);
  }

  /** Outcomes are written once, and a void command always has a later one. */
  lemma OutcomesAreWriteOnce(past: seq<Step>, future: seq<Step>, i: nat)
    requires i < |Run(EMPTY, past).log| && Run(EMPTY, past).log[i].result.Some?
    ensures var was, now := Run(EMPTY, past).log, Run(EMPTY, past + future).log;
            && i < |now| && now[i].result == was[i].result
            && (was[i].result == Some(Superseded) ==> i + 1 < |was|)
  {
    RunKeepsSafe(EMPTY, past);
    RunConcat(EMPTY, past, future);
    RunKeepsSafe(Run(EMPTY, past), future);
  }

  /** A sweep nobody interrupts, or a reload, makes the memory the latest row's state. */
  lemma QuietSweepCatchesUp(s: System, now: Time)
    ensures var swept := Run(s, [SweepReads, SweepCommits(now), SweepApplies]);
            && swept.log == Swept(s.log, |s.log|, now) && swept.memory == Derived(Latest(swept.log))
            && SaysTheLog(swept.memory, swept.log) && SaysTheLog(swept.memory, s.log)
    ensures Run(s, [Loads]).memory == Derived(Latest(s.log)) && SaysTheLog(Run(s, [Loads]).memory, s.log)
  {
    hide SaysTheLog, Derived, SweptRow;
    DerivedSaysTheLog(s.log);
    SweepKeepsTheLastWord(s.log, now);
    var three := [SweepReads, SweepCommits(now), SweepApplies];
    assert three[..2][..1] == three[..1] && three[..1][..0] == [];
    assert Run(s, three[..1]) == Next(s, SweepReads);
    assert Run(s, three[..2]) == Next(Next(s, SweepReads), SweepCommits(now));
    assert Run(s, three) == Next(Next(Next(s, SweepReads), SweepCommits(now)), SweepApplies);
    assert [Loads][..0] == [];
  }

  /** Nothing but verifying and superseding ever writes an outcome. */
  ghost predicate KnownOutcomes(log: Log) {
    forall i :: 0 <= i < |log| ==> log[i].result in {None, Some(FlatVerified), Some(Superseded)}
  }

  lemma {:induction false} OutcomesAreKnown(steps: seq<Step>)
    ensures KnownOutcomes(Run(EMPTY, steps).log)
  {
    if steps != [] {
      OutcomesAreKnown(steps[..|steps| - 1]);
      hide Derived, UnresolvedAfter;
    }
  }

  /** A flatten in any reachable state, and one sweep: the memory is halted and flattening for that row, which
      has no outcome and is the only one that stands in the way of a resume. */
  lemma IssuedFlattenIsPickedUp(past: seq<Step>, why: string, now: Time)
    requires why != ""
    ensures var was, s := Run(EMPTY, past), Run(EMPTY, past + [Issuing(Flatten, why), SweepReads, SweepCommits(now), SweepApplies]);
            && |s.log| == |was.log| + 1 && LogSafe(s.log)
            && s.log[|was.log|].action == Flatten && s.log[|was.log|].appliedAt == Some(now) && s.log[|was.log|].result == None
            && s.memory == Memory(KillState(true, true), Some(why), Some(|s.log|))
            && IsUnresolved(s.log, |s.log|) && forall t: nat :: IsUnresolved(s.log, t) ==> t == |s.log|
  {
    var more := [Issuing(Flatten, why), SweepReads, SweepCommits(now), SweepApplies];
    var was := Run(EMPTY, past);
    var issued := Next(was, Issuing(Flatten, why));
    RunConcat(EMPTY, past, [Issuing(Flatten, why)] + more[1..]);
    RunConcat(was, [Issuing(Flatten, why)], more[1..]);
    assert more == [Issuing(Flatten, why)] + more[1..] && more[1..] == [SweepReads, SweepCommits(now), SweepApplies];
    assert [Issuing(Flatten, why)][..0] == [];
    assert Run(was, [Issuing(Flatten, why)]) == issued;
    QuietSweepCatchesUp(issued, now);
    RunKeepsSafe(EMPTY, past + more);
    OutcomesAreKnown(past);
    var log := issued.log;
    assert log == was.log + [Command(Flatten, why, None, None)];
    var s := Run(EMPTY, past + more);
    assert s.log == Swept(log, |log|, now) && SaysTheLog(s.memory, s.log);
    hide Run, Derived, AfterIssue;
    forall t: nat ensures IsUnresolved(s.log, t) <==> t == |s.log| {
      SweepResolves(log, now, t);
    }
  }

  /** A verified mark nobody interrupts is the method's: the flag comes down exactly when the outcome was written. A
      restart keeps the log and loses everything else. */
  lemma QuietMarkIsTheMethods(s: System, seqNo: nat)
    requires !s.clearing
    ensures var marked := Run(s, [MarkCommits(seqNo), MarkClears]);
            && marked.log == Marked(s.log, seqNo) && !marked.clearing && marked.pending == s.pending
            && marked.memory == if marked.log != s.log then s.memory.(state := KillState(s.memory.state.halted, false)) else s.memory
    ensures Run(s, [Restarts]) == System(s.log, Memory(KillState(false, false), None, None), None, false)
  {
    var two := [MarkCommits(seqNo), MarkClears];
    hide Marked;
    assert two[..1][..0] == [] && [Restarts][..0] == [];
    assert Run(s, two[..1]) == Next(s, MarkCommits(seqNo));
    assert Run(s, two) == Next(Next(s, MarkCommits(seqNo)), MarkClears);
  }

  /** What the memory says about the row it names, and about the latest one when that is it. */
  ghost predicate LagsOnlyBehindNewer(log: Log, m: Memory) {
    m.latestSeq.Some? ==>
      && 1 <= m.latestSeq.value <= |log|
      && (m.state.halted <==> !log[m.latestSeq.value - 1].action.Resume?)
      && (m.latestSeq.value == |log| ==> m.state.halted == Derived(Latest(log)).state.halted)
      && (m.latestSeq.value == |log| && m.state.flattening ==> log[|log| - 1].action.Flatten?)
  }

  lemma NamingIsLagging(log: Log, m: Memory)
    requires MemoryNames(log, m)
    ensures LagsOnlyBehindNewer(log, m)
  {
  }

  /** Between sweeps the memory may lag, but only behind rows newer than the one it names: it is halted
      exactly when that row is not a resume, whatever ran in between. */
  lemma MemoryLagsOnlyBehindNewerRows(steps: seq<Step>)
    ensures LagsOnlyBehindNewer(Run(EMPTY, steps).log, Run(EMPTY, steps).memory)
  {
    RunKeepsSafe(EMPTY, steps);
    hide Run, LogSafe, MemoryNames, LagsOnlyBehindNewer;
    NamingIsLagging(Run(EMPTY, steps).log, Run(EMPTY, steps).memory);
  }
}
