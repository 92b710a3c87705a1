/** Persist before submit: the row is committed first, and its unique client id is submitted once. */
module Submission {
  import opened Domain
  import opened Tables
  import opened OrderRows

  // ── Client order ids ─────────────────────────────────────────────

  /** An entry's id comes with its event; a liquidation's is built from the flatten id and the symbol. */
  datatype ClientKey = Entry(id: nat) | Liquidation(prefix: nat, symbol: Symbol)

  /** The first 12 of the flatten id's 32 hexadecimal digits; distinct flattens may share them. */
  function Prefix(flattenId: nat): nat {
    flattenId / 0x1_00000_00000_00000_00000
  }

  function LiquidationKey(flattenId: nat, symbol: Symbol): ClientKey {
    Liquidation(Prefix(flattenId), symbol)
  }

  /** Two liquidations share a client id exactly when they are for one symbol and their flatten ids agree but
      for the last twenty digits; no entry's id is a liquidation's. */
  lemma LiquidationKeysCollide(f: nat, a: Symbol, g: nat, b: Symbol)
    ensures LiquidationKey(f, a) == LiquidationKey(g, b) <==>
              a == b && f / 0x1_0000_0000_0000_0000_0000 == g / 0x1_0000_0000_0000_0000_0000
    ensures forall id: nat :: LiquidationKey(f, a) != Entry(id)
  {
  }

  // ── The submit discipline, uninterrupted ─────────────────────────

  /** An order row's state, as far as submission touches it. */
  datatype Row = Row(status: Status, filledQty: real)

  const PENDING := Row(PendingSubmit, 0.0)

  /** How the broker takes a submit: an answer, a refusal, a rate limit, or silence. */
  datatype Answer = Accepted(order: Row) | Rejection | RateLimited | Unknown

  /** A broker snapshot on the locked row: the transition plan decides, for the stream may have won. */
  function WithAnswer(row: Row, order: Row): Row {
    if PlanTransition(row.status, row.filledQty, order.status, order.filledQty).Apply? then order else row
  }

  /** Never a resubmit: the first poll that finds the order decides. */
  function FirstFound(lookups: seq<Option<Row>>): Option<Row> {
    if lookups == [] then None
    else if lookups[0].Some? then lookups[0]
    else FirstFound(lookups[1..])
  }

  /** The locked row once the handler is done; `lookups` are the answers to the client-id polls. A refusal is
      written without asking the plan, and an order no poll finds leaves the row as it is. */
  function Concluded(row: Row, answer: Answer, lookups: seq<Option<Row>>): Row {
    match answer
    case Accepted(order) => WithAnswer(row, order)
    case Rejection => row.(status := Rejected)
    case RateLimited => row.(status := Failed)
    case Unknown => if FirstFound(lookups).Some? then WithAnswer(row, FirstFound(lookups).value) else row
  }

  /** A late submit answer or lookup never regresses a row the stream has advanced. */
  lemma AnswersNeverRegress(row: Row, answer: Answer, lookups: seq<Option<Row>>)
    requires answer.Accepted? || answer.Unknown?
    ensures var now := Concluded(row, answer, lookups);
            && row.filledQty <= now.filledQty
            && (IsAbsorbing(row.status) ==> now == row)
            && (now != row ==> now == if answer.Accepted? then answer.order else FirstFound(lookups).GetOr(row))
  {
  }

  /** What each answer does to the row it finds: a refusal is written over whatever is there, an answer replaces
      the row unless that is finished or ahead of it, and silence is the first lookup that finds the order, or
      nothing. */
  lemma AnswersLandAsGiven(row: Row, answer: Answer, lookups: seq<Option<Row>>)
    ensures answer.Rejection? ==> Concluded(row, answer, lookups) == Row(Rejected, row.filledQty)
    ensures answer.RateLimited? ==> Concluded(row, answer, lookups) == Row(Failed, row.filledQty)
    ensures answer.Accepted? ==>
              Concluded(row, answer, lookups) == if IsAbsorbing(row.status) || answer.order.filledQty < row.filledQty then row else answer.order
    ensures answer.Unknown? && (forall k :: 0 <= k < |lookups| ==> lookups[k].None?) ==> Concluded(row, answer, lookups) == row
    ensures forall k :: 0 <= k < |lookups| && lookups[k].Some? && (forall j :: 0 <= j < k ==> lookups[j].None?) && answer.Unknown? ==>
              Concluded(row, answer, lookups) == Concluded(row, Answer.Accepted(lookups[k].value), [])
  {
    FoundFirst(lookups);
    hide FirstFound, PlanTransition;
    if answer.Accepted? {
      PlanDecides(row, answer.order);
    }
  }

  lemma PlanDecides(row: Row, order: Row)
    ensures WithAnswer(row, order) == if IsAbsorbing(row.status) || order.filledQty < row.filledQty then row else order
  {
  }

  lemma {:induction false} FoundFirst(lookups: seq<Option<Row>>)
    ensures (forall k :: 0 <= k < |lookups| ==> lookups[k].None?) ==> FirstFound(lookups).None?
    ensures forall k :: 0 <= k < |lookups| && lookups[k].Some? && (forall j :: 0 <= j < k ==> lookups[j].None?) ==>
              FirstFound(lookups) == lookups[k]
  {
    if lookups != [] {
      FoundFirst(lookups[1..]);
      forall k | 0 <= k < |lookups| && lookups[k].Some? && (forall j :: 0 <= j < k ==> lookups[j].None?)
        ensures FirstFound(lookups) == lookups[k]
      {
        if k > 0 {
          assert lookups[0].None? && lookups[1..][k - 1] == lookups[k];
          assert forall j :: 0 <= j < k - 1 ==> lookups[1..][j] == lookups[j + 1];
        }
      }
    }
  }

  class Store {
    var rows: map<ClientKey, Row>

    constructor ()
      ensures rows == map[]
    {
      rows := map[];
    }

    /** `_persist_pending`: the unique constraint decides whether the insert commits. */
    method PersistPending(key: ClientKey) returns (committed: bool)
      modifies this
      ensures committed <==> key !in old(rows)
      ensures rows == if committed then old(rows)[key := Row(PendingSubmit, 0.0)] else old(rows)
    {
      committed := key !in rows;
      if committed {
        rows := rows[key := PENDING];
      }
    }

    method Update(key: ClientKey, row: Row)
      requires key in rows
      modifies this
      ensures rows == old(rows)[key := row]
    {
      rows := rows[key := row];
    }

    /** `_apply_submit_result`: the broker's order onto the locked row. */
    method ApplySubmitResult(key: ClientKey, order: Row)
      requires key in rows
      modifies this
      ensures rows == old(rows)[key := WithAnswer(old(rows)[key], order)]
    {
      var plan := PlanTransition(rows[key].status, rows[key].filledQty, order.status, order.filledQty);
      if plan.Apply? {
        rows := rows[key := order];
      }
    }
  }

  class Gateway {
    var submits: seq<ClientKey>
    var lookedUp: nat

    constructor ()
      ensures submits == [] && lookedUp == 0
    {
      submits, lookedUp := [], 0;
    }

    method SubmitOrder(key: ClientKey)
      modifies this`submits
      ensures submits == old(submits) + [key]
    {
      submits := submits + [key];
    }

    method LookUp()
      modifies this`lookedUp
      ensures lookedUp == old(lookedUp) + 1
    {
      lookedUp := lookedUp + 1;
    }
  }

  /** `_resolve_ambiguous`: poll by client id until found or out of delays. */
  method ResolveAmbiguous(store: Store, gateway: Gateway, key: ClientKey, lookups: seq<Option<Row>>)
    requires key in store.rows
    modifies store, gateway`lookedUp
    ensures store.rows == old(store.rows)[key := Concluded(old(store.rows)[key], Unknown, lookups)]
    ensures gateway.lookedUp <= old(gateway.lookedUp) + |lookups|
  {
    var k := 0;
    assert lookups[0..] == lookups;
    while k < |lookups|
      invariant k <= |lookups| && store.rows == old(store.rows)
      invariant FirstFound(lookups) == FirstFound(lookups[k..])
      invariant gateway.lookedUp == old(gateway.lookedUp) + k
    {
      assert lookups[k..][1..] == lookups[k + 1..];
      gateway.LookUp();
      if lookups[k].Some? {
        store.ApplySubmitResult(key, lookups[k].value);
        return;
      }
      k := k + 1;
    }
  }

  /** `_submit_and_apply`: one submit, whatever comes back; `stream` is what another writer commits to the
      row before this handler locks it. */
  method SubmitAndApply(store: Store, gateway: Gateway, key: ClientKey, answer: Answer, lookups: seq<Option<Row>>, stream: Option<Row>)
    requires key in store.rows
    modifies store, gateway
    ensures gateway.submits == old(gateway.submits) + [key]
    ensures store.rows == old(store.rows)[key := Concluded(stream.GetOr(old(store.rows)[key]), answer, lookups)]
  {
    gateway.SubmitOrder(key);
    if stream.Some? {
      store.Update(key, stream.value);
    }
    var locked := store.rows[key];
    match answer {
      case Accepted(order) => store.ApplySubmitResult(key, order);
      case Rejection => store.Update(key, locked.(status := Rejected));
      case RateLimited => store.Update(key, locked.(status := Failed));
      case Unknown => ResolveAmbiguous(store, gateway, key, lookups);
    }
  }

  /** `_on_order` for an approved request: halted engines submit nothing, and an id that already has a row
      is never submitted again. */
  method OnOrder(store: Store, gateway: Gateway, key: ClientKey, halted: bool, answer: Answer, lookups: seq<Option<Row>>, stream: Option<Row>)
    modifies store, gateway
    ensures halted || key in old(store.rows) ==> store.rows == old(store.rows) && gateway.submits == old(gateway.submits)
    ensures !halted && key !in old(store.rows) ==>
              && gateway.submits == old(gateway.submits) + [key]
              && store.rows == old(store.rows)[key := Concluded(stream.GetOr(PENDING), answer, lookups)]
  {
    if halted {
      return;
    }
    var committed := store.PersistPending(key);
    if committed {
      SubmitAndApply(store, gateway, key, answer, lookups, stream);
      assert store.rows == old(store.rows)[key := Concluded(stream.GetOr(PENDING), answer, lookups)];
    }
  }

  /** What the flatten summary reports for one symbol: the row's truth, not "we tried". */
  datatype Summary = NotPersisted | Terminal(status: Status) | StillAmbiguous | SubmittedOk

  function Summarized(row: Row): Summary {
    if row.status == Rejected || row.status == Failed then Terminal(row.status)
    else if row.status == PendingSubmit then StillAmbiguous
    else SubmittedOk
  }

  /** A liquidation nobody else writes about reports what happened: refused, rate-limited, unanswered and not found,
      or what the broker said of the order. */
  lemma LiquidationsReportWhatHappened(answer: Answer, lookups: seq<Option<Row>>)
    ensures var summary := Summarized(Concluded(Row(PendingSubmit, 0.0), answer, lookups));
            && (answer.Rejection? ==> summary == Terminal(Rejected))
            && (answer.RateLimited? ==> summary == Terminal(Failed))
            && (answer.Unknown? && (forall k :: 0 <= k < |lookups| ==> lookups[k].None?) ==> summary == StillAmbiguous)
            && (answer.Accepted? && answer.order.filledQty >= 0.0 ==>
                  summary == if answer.order.status in {Rejected, Failed} then Terminal(answer.order.status)
                             else if answer.order.status == PendingSubmit then StillAmbiguous else SubmittedOk)
  {
    AnswersLandAsGiven(Row(PendingSubmit, 0.0), answer, lookups);
    hide Concluded;
  }

  /** `_liquidate_symbol`: the same discipline under the liquidation's own client id; halted or not. */
  method LiquidateSymbol(store: Store, gateway: Gateway, flattenId: nat, symbol: Symbol,
                         answer: Answer, lookups: seq<Option<Row>>, stream: Option<Row>) returns (summary: Summary)
    modifies store, gateway
    ensures var key := LiquidationKey(flattenId, symbol);
            if key in old(store.rows)
            then store.rows == old(store.rows) && gateway.submits == old(gateway.submits) && summary == NotPersisted
            else
              && gateway.submits == old(gateway.submits) + [key]
              && store.rows == old(store.rows)[key := Concluded(stream.GetOr(PENDING), answer, lookups)]
              && summary == Summarized(store.rows[key])
  {
    var key := LiquidationKey(flattenId, symbol);
    var committed := store.PersistPending(key);
    if !committed {
      return NotPersisted;
    }
    SubmitAndApply(store, gateway, key, answer, lookups, stream);
    assert store.rows == old(store.rows)[key := Concluded(stream.GetOr(PENDING), answer, lookups)];
    var status := store.rows[key].status;
    if status == Rejected || status == Failed {
      return Terminal(status);
    }
    summary := if status == PendingSubmit then StillAmbiguous else SubmittedOk;
  }

  // ── The replay guard ─────────────────────────────────────────────

  const MAX_SEEN: nat := 512

  function Seen(seen: set<nat>, flattenId: nat): set<nat> {
    if flattenId in seen then seen
    else if |seen + {flattenId}| > MAX_SEEN then {flattenId}
    else seen + {flattenId}
  }

  lemma SeenIsBounded(seen: set<nat>, flattenId: nat)
    requires |seen| <= MAX_SEEN
    ensures |Seen(seen, flattenId)| <= MAX_SEEN && flattenId in Seen(seen, flattenId)
    ensures |seen| < 512 ==> Seen(seen, flattenId) == seen + {flattenId}
    ensures |seen| == 512 && flattenId !in seen ==> Seen(seen, flattenId) == {flattenId}
  {
    if flattenId in seen {
      assert seen + {flattenId} == seen;
    }
  }

  class FlattenGuard {
    var seenFlattenIds: set<nat>

    ghost predicate Valid()
      reads this
    {
      |seenFlattenIds| <= MAX_SEEN
    }

    constructor ()
      ensures Valid() && seenFlattenIds == {}
    {
      seenFlattenIds := {};
    }

    method OnFlatten(flattenId: nat) returns (spawn: bool)
      requires Valid()
      modifies this
      ensures Valid() && |seenFlattenIds| <= 512 && flattenId in seenFlattenIds
      ensures spawn <==> flattenId !in old(seenFlattenIds)
      ensures seenFlattenIds == Seen(old(seenFlattenIds), flattenId)
      ensures |old(seenFlattenIds)| < 512 ==> seenFlattenIds == old(seenFlattenIds) + {flattenId}
      ensures |old(seenFlattenIds)| == 512 && spawn ==> seenFlattenIds == {flattenId}
    {
      SeenIsBounded(seenFlattenIds, flattenId);
      if flattenId in seenFlattenIds {
        return false;
      }
      seenFlattenIds := seenFlattenIds + {flattenId};
      if |seenFlattenIds| > MAX_SEEN {
        seenFlattenIds := {flattenId};
      }
      spawn := true;
    }
  }

  // ── Runs with crashes, lost answers and replays ──────────────────

  /** Where one handler is: its event has arrived, its row is committed, or its submit has been sent. */
  datatype Stage = Arrived | Persisted | Sent

  datatype Handler = Handler(key: ClientKey, stage: Stage)

  /** `rows` and `placed` survive a crash; handlers, the replay guard and the lock do not. */
  datatype System = System(
    rows: map<ClientKey, Row>,
    submits: seq<ClientKey>,
    placed: set<ClientKey>,
    handlers: seq<Handler>,
    seen: set<nat>,
    driving: Option<nat>)

  datatype Step =
    | OrderArrives(id: nat)                         // first delivery or replay
    | FlattenArrives(flattenId: nat)                // spawns a drive unless replayed or one is in flight
    | LiquidationStarts(symbol: Symbol)             // by the drive in flight
    | FlattenEnds
    | Persists(handler: nat)                        // the insert commits, or the unique constraint refuses it
    | Submits(handler: nat, lands: bool)            // the call is made; the broker may or may not place it
    | Concludes(handler: nat, answer: Answer, lookups: seq<Option<Row>>)  // a lost answer never comes
    | RowChanges(key: ClientKey, row: Row)          // stream or reconcile
    | LegArrives(key: ClientKey, row: Row)          // a broker-named child row
    | Crashes

  function Next(s: System, step: Step): System {
    match step
    case OrderArrives(id) => s.(handlers := s.handlers + [Handler(Entry(id), Arrived)])
    case FlattenArrives(f) =>
      if f in s.seen then s
      else s.(seen := Seen(s.seen, f), driving := if s.driving.Some? then s.driving else Some(f))
    case LiquidationStarts(symbol) =>
      if s.driving.Some? then s.(handlers := s.handlers + [Handler(LiquidationKey(s.driving.value, symbol), Arrived)]) else s
    case FlattenEnds => s.(driving := None)
    case Persists(i) =>
      if i < |s.handlers| && s.handlers[i].stage.Arrived? && s.handlers[i].key !in s.rows
      then s.(rows := s.rows[s.handlers[i].key := PENDING], handlers := s.handlers[i := s.handlers[i].(stage := Persisted)])
      else s
    case Submits(i, lands) =>
      if i < |s.handlers| && s.handlers[i].stage.Persisted?
      then s.(submits := s.submits + [s.handlers[i].key],
              placed := if lands then s.placed + {s.handlers[i].key} else s.placed,
              handlers := s.handlers[i := s.handlers[i].(stage := Sent)])
      else s
    case Concludes(i, answer, lookups) =>
      if i < |s.handlers| && s.handlers[i].stage.Sent? && s.handlers[i].key in s.rows
      then s.(rows := s.rows[s.handlers[i].key := Concluded(s.rows[s.handlers[i].key], answer, lookups)])
      else s
    case RowChanges(key, row) => if key in s.rows then s.(rows := s.rows[key := row]) else s
    case LegArrives(key, row) => if key in s.rows then s else s.(rows := s.rows[key := row])
    case Crashes => s.(handlers := [], seen := {}, driving := None)
  }

  function Run(s: System, steps: seq<Step>): System {
    if steps == [] then s else Next(Run(s, steps[..|steps| - 1]), steps[|steps| - 1])
  }

  const BOOT := System(map[], [], {}, [], {}, None)

  /** Submitted ids are distinct and have rows, what the broker holds was submitted, and a handler about to
      submit owns its row alone. */
  ghost predicate Disciplined(s: System) {
    && (forall i :: 0 <= i < |s.submits| ==> s.submits[i] in s.rows)
    && (forall i, j :: 0 <= i < j < |s.submits| ==> s.submits[i] != s.submits[j])
    && (forall key :: key in s.placed ==> key in s.submits)
    && (forall h :: 0 <= h < |s.handlers| && s.handlers[h].stage.Persisted? ==>
          s.handlers[h].key in s.rows && s.handlers[h].key !in s.submits)
    && (forall h :: 0 <= h < |s.handlers| && s.handlers[h].stage.Sent? ==> s.handlers[h].key in s.submits)
    && (forall g, h :: 0 <= g < h < |s.handlers| && s.handlers[g].stage.Persisted? && s.handlers[h].stage.Persisted? ==>
          s.handlers[g].key != s.handlers[h].key)
    && |s.seen| <= MAX_SEEN
  }

  /** The insert: the row is new, so no other handler owns it and nothing was submitted under it. */
  lemma PersistKeepsDiscipline(s: System, i: nat)
    requires Disciplined(s)
    ensures Disciplined(Next(s, Persists(i)))
  {
  }

  /** The submit: its handler alone owned the row, so the id is new to the broker. */
  lemma SubmitKeepsDiscipline(s: System, i: nat, lands: bool)
    requires Disciplined(s)
    ensures Disciplined(Next(s, Submits(i, lands)))
  {
  }

  /** Anything else submits nothing and gives no handler a row. */
  lemma OtherKeepsDiscipline(s: System, step: Step)
    requires Disciplined(s) && !step.Persists? && !step.Submits?
    ensures Disciplined(Next(s, step))
  {
    if step.FlattenArrives? {
      SeenIsBounded(s.seen, step.flattenId);
    }
  }

  lemma StepKeepsDiscipline(s: System, step: Step)
    requires Disciplined(s)
    ensures Disciplined(Next(s, step))
    ensures s.rows.Keys <= Next(s, step).rows.Keys && s.submits <= Next(s, step).submits
  {
    hide Disciplined;
    match step {
      case Persists(i) => PersistKeepsDiscipline(s, i);
      case Submits(i, lands) => SubmitKeepsDiscipline(s, i, lands);
      case _ => OtherKeepsDiscipline(s, step);
    }
  }

  lemma {:induction false} RunKeepsDiscipline(s: System, steps: seq<Step>)
    requires Disciplined(s)
    ensures Disciplined(Run(s, steps))
    ensures s.rows.Keys <= Run(s, steps).rows.Keys && s.submits <= Run(s, steps).submits
  {
    hide Disciplined, Next;
    if steps != [] {
      RunKeepsDiscipline(s, steps[..|steps| - 1]);
      StepKeepsDiscipline(Run(s, steps[..|steps| - 1]), steps[|steps| - 1]);
    }
  }

  /** Over any run with crashes, lost answers, replays and cleared replay guards: every order this engine
      placed has a committed row under its client id, and no client id is ever submitted twice. */
  lemma PlacedOrdersHaveRowsAndAreSubmittedOnce(steps: seq<Step>)
    ensures var s := Run(BOOT, steps);
            && (forall key :: key in s.placed ==> key in s.rows)
            && (forall i :: 0 <= i < |s.submits| ==> s.submits[i] in s.rows)
            && (forall i, j :: 0 <= i < j < |s.submits| ==> s.submits[i] != s.submits[j])
  {
    RunKeepsDiscipline(BOOT, steps);
  }

  lemma {:induction false} RunConcat(s: System, a: seq<Step>, b: seq<Step>)
    ensures Run(s, a + b) == Run(Run(s, a), b)
  {
    if b == [] {
      assert a + b == a;
    } else {
      assert (a + b)[..|a + b| - 1] == a + b[..|b| - 1];
      RunConcat(s, a, b[..|b| - 1]);
    }
  }

  /** Once an id has been submitted, nothing that ever happens afterwards submits it again. */
  lemma NeverResubmitted(past: seq<Step>, future: seq<Step>, i: nat, j: nat)
    requires i < |Run(BOOT, past).submits| <= j < |Run(BOOT, past + future).submits|
    ensures Run(BOOT, past + future).submits[j] != Run(BOOT, past).submits[i]
  {
    hide Disciplined, Next;
    RunConcat(BOOT, past, future);
    assert Disciplined(BOOT) by { BootIsDisciplined(); }
    RunKeepsDiscipline(BOOT, past);
    RunKeepsDiscipline(Run(BOOT, past), future);
    DistinctSubmits(Run(BOOT, past + future), i, j);
  }

  lemma BootIsDisciplined()
    ensures Disciplined(BOOT)
  {
  }

  lemma DistinctSubmits(s: System, i: nat, j: nat)
    requires Disciplined(s) && i < j < |s.submits|
    ensures s.submits[i] != s.submits[j]
  {
  }

  /** Each delivery, first or replayed, starts one handler for its id; a leg's row takes its id as an insert would, so
      no handler can insert it again. */
  lemma ArrivalsStartHandlers(s: System, id: nat, symbol: Symbol, leg: ClientKey, row: Row, i: nat)
    ensures Next(s, OrderArrives(id)) == s.(handlers := s.handlers + [Handler(Entry(id), Arrived)])
    ensures Next(s, LiquidationStarts(symbol)).handlers == s.handlers +
              if s.driving.Some? then [Handler(LiquidationKey(s.driving.value, symbol), Arrived)] else []
    ensures leg !in s.rows ==> Next(s, LegArrives(leg, row)).rows == s.rows[leg := row]
    ensures var after := Next(s, LegArrives(leg, row));
            i < |after.handlers| && after.handlers[i].key == leg ==> Next(after, Persists(i)) == after
  {
  }

  /** One drive at a time: the flatten in flight is never displaced, only ended or lost in a crash, and a new
      one starts only for an id the guard does not remember. */
  lemma OneDriveAtATime(s: System, step: Step)
    ensures s.driving.Some? ==> Next(s, step).driving == if step.FlattenEnds? || step.Crashes? then None else s.driving
    ensures s.driving.None? && Next(s, step).driving.Some? ==>
              step.FlattenArrives? && step.flattenId !in s.seen && Next(s, step).driving == Some(step.flattenId)
  {
  }

  /** A handler nobody interrupts, for an entry or a liquidation, acts as the uninterrupted method: its row,
      its one submit, and the conclusion on the row as another writer may have left it. */
  lemma UninterruptedHandler(s: System, h: nat, lands: bool, answer: Answer, lookups: seq<Option<Row>>, stream: Option<Row>)
    requires h < |s.handlers| && s.handlers[h].stage.Arrived? && s.handlers[h].key !in s.rows
    ensures var key := s.handlers[h].key;
            var sent := Next(Next(s, Persists(h)), Submits(h, lands));
            var written := if stream.Some? then Next(sent, RowChanges(key, stream.value)) else sent;
            var r := Next(written, Concludes(h, answer, lookups));
            && r.rows == s.rows[key := Concluded(stream.GetOr(PENDING), answer, lookups)]
            && r.submits == s.submits + [key]
            && r.placed == if lands then s.placed + {key} else s.placed
  {
    var key := s.handlers[h].key;
    var persisted := Next(s, Persists(h));
    assert persisted.handlers[h] == Handler(key, Persisted);
    var sent := Next(persisted, Submits(h, lands));
    assert sent.handlers[h] == Handler(key, Sent);
  }
}
