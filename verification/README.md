# Fill ledger, kill switch and timed controllers: a Dafny model

The trading engine under `backend/app` keeps its own books against a broker it cannot trust to tell it
everything. Executions arrive on a stream that may drop, repeat or reorder them; cumulative snapshots arrive
whenever someone asks. Three writers (the trade-updates stage, reconciliation and the submit handler) turn
both into fills, FIFO lots, positions and order rows. Around them stand an append-only command log for the
kill switch and a handful of loops that run against the clock. This project models those parts and proves
what they are for.

How the modules follow the program:

| modules | what they model |
|---|---|
| `Domain`, `Sums`, `Tables` | values, exact sums, the tables and the session that holds them |
| `Lots`, `Fifo`, `FifoSplit`, `LotAccounting`, `FillScope` | the lot engine: its loop, the queue it refines, its accounting, and whose lots a fill reaches |
| `FillLedger`, `LedgerRuns`, `TraceRefinement`, `RoundingBound` | the fill ledger: what every writer adds, whole runs, convergence to a broker trace, and exactly when rounding stays bounded |
| `Positions`, `OrderRows`, `TradeUpdates`, `Brackets` | the position row, the order row and its legs, the stream transaction, a bracket's round trip |
| `Remainders` | parked liquidation quantity and its retry protocol |
| `Reconciliation`, `ReconcileQuiet`, `ReconcileListing`, `ReconcileTwice`, `ReconcileLate`, `ReconcileGaps` | reconcile, exactly when doing it twice is doing it once, and where it does less than described |
| `Books`, `DbRuns`, `Provenance`, `StrategyBooks`, `DbLedger`, `Evidence`, `OrderConfluence`, `UnseenRows`, `MixedRuns`, `ReconciledEnds` | invariants of every reachable state of all writers together; where every ledger step comes from; rows, ledger and trace agree |
| `Commands` | the command log, its guard, its sweeper and the cached state |
| `Submission` | persist before submit, through crashes and replays |
| `FlattenDrive`, `FlattenRules`, `CloseWindow` | the flatten pass and the drive to flat, the rules that publish it, and the clock that must not miss the close |
| `FeedHealth`, `TokenBucket` | the feed watchdog with its reader, and the rate limiter |

Code that changes rows or fields is a class with methods (`Session`, `CommandTable`, `KillSwitch`,
`AsyncTokenBucket`, `MarketDataConsumer`, ...), each proved equal to a specification function of the old state;
the theorems are about those functions, and about runs that interleave them. What an operation decides (whose
lots, which row, which outcome) is stated again by lemmas that do not name the function deciding it. A committed transaction is one
step, which the source's row locks justify; where the source awaits between two effects (a sweep's read,
commit and apply, a verified mark and its flag, a handler's insert and its submit) the run splits there.

Idealisations, stated once:

- Quantities, prices and times are exact. Column rounding is modelled for fill prices in the ledger
  (`Column.Micros`), where it is the point; the tables use exact prices.
- The broker, clocks, Redis and generated keys are inputs. A broker answer is any value unless a theorem
  names what it assumes: a consistent trace, a coherent broker, snapshots that lead to one final state.
- The broker's execution ids never imitate the local fallback and synthetic key formats.
- The unique constraints on client and broker order ids hold of committed tables: a transaction that would break
  them rolls back and is in no run.
- One portfolio, whose order rows share one id space; `seq` numbers of the command log have no gaps.

Where the documentation promises more than the code does, the code is followed, with a failing input and the
exact condition:

- The refused-submit path writes its status without consulting `plan_transition`
  (`backend/app/engine/execution/handler.py:746`). "Absorbing states are final" holds exactly for transactions
  that are no refusal of a finished order: `OrderConfluence.TxnAdvances`; `OrderConfluence.RefusalUndoesAFill`
  is a run in which it fails.
- `restated` is read as the absorbing `replaced` (`backend/app/brokers/alpaca/status.py:33`). Confluence holds
  exactly without it in mid-life: `OrderConfluence.CommutesWithTheFinal`;
  `OrderConfluence.RestatedMidLifeSplitsRuns` is the split.
- When a bracket with two unseen legs is adopted from the open list, both rows are created but only the first
  enters the index, so the second counts as an orphan in that pass
  (`backend/app/services/reconciliation.py:330-356`). `ReconcileGaps.OrphanWithARow` says for which entries of
  a list without repetitions that happens, from the starting rows and the list alone;
  `ReconcileGaps.SecondLegCountsAsOrphan` is such a list.
- A `failed` row whose broker order opens and closes between two reconciles is not revisited by the straggler
  pass (`backend/app/services/reconciliation.py:392-396`). `ReconcileGaps.WrittenOffStays` says exactly when a
  reconcile leaves a failed row failed, `ReconcileGaps.WrittenOffForGood` what the sweep adds;
  `ReconcileGaps.FilledOrderStaysWrittenOff` is a filled order that stays so.
- A row that was written off should have nothing filled, as no snapshot ever reached it. The refused-submit path
  can write `failed` over a fill (`backend/app/engine/execution/handler.py:746`): `UnseenRows.TxnKeepsUnfilled`
  is exact about when a transaction keeps it, `UnseenRows.RefusalOverAFill` is one that does not.
- A reconcile should be idempotent. Against answers that agree it is, exactly when no written-off bracket with
  lost fills is still worked by the broker without a row for some leg: the deficit sweep revives such a row
  behind the pass that persists legs (`backend/app/services/reconciliation.py:407-428`).
  `ReconcileLate.SecondReconcileExactly`; `ReconcileLate.WrittenOffBracketTakesTwo` is one. That the answers
  agree is needed: `ReconcileTwice.DisagreeingLookupsTakeTwo`.
- Rounding does not accumulate exactly as long as no span is priced with the fallback
  (`backend/app/engine/execution/synthesis.py:104-116`): `RoundingBound.BoundHoldsThroughoutExactly`;
  `TraceRefinement.FallbackExceedsTheBound` is a run that does.

## Model

| member | source | states |
|---|---|---|
| `Lots.OpenLots` | backend/app/engine/execution/lots.py:116-153 | the query's rows come back distinct and oldest first by (opened_at, created_at, id) |
| `Lots.QueuedIsEligible` | backend/app/engine/execution/lots.py:116-132 | only open lots of the fill's symbol and the other side are consumed, of its own strategy or, without one, opened no later than the fill |
| `Lots.EligibleIsQueued` | backend/app/engine/execution/lots.py:116-132 | and every admitted row is in the queue |
| `Lots.ConsumeLots` | backend/app/engine/execution/lots.py:155-198 | the loop leaves the lots, closes, remaining quantity and both totals that consuming the queue head by head does |
| `Lots.ApplyFillToLots` | backend/app/engine/execution/lots.py:83-269 | one fill: consume, then open a lot, or park a strategy-less remainder; the returned P&L and quantities are those of the closes. Which lots it may and must close is `FillScope`'s |
| `Fifo.FifoIsClamp` | backend/app/engine/execution/lots.py:141-198 | the loop refines a share-by-share queue: each eligible lot gives clamp(q - open quantity ahead of it, 0, its open quantity), every other lot is untouched |
| `Fifo.RemainingIsShortfall` | backend/app/engine/execution/lots.py:155-202 | what no lot absorbs is exactly the fill's excess over all eligible open quantity |
| `FifoSplit.SplitFillIsOneFill` | backend/app/engine/execution/lots.py:141-250 | a fill of q1 and then one of q2 at the same price and time equal one of q1+q2: same lots, same parked and same opened quantity, and lot by lot the same quantity closed for the same realized P&L |
| `FifoSplit.ClosesTakeFromLot` | backend/app/engine/execution/lots.py:160-194 | for each lot, the quantity and the P&L of its close rows are what the lot lost and gained |
| `FifoSplit.ClosesMatchLots` | backend/app/engine/execution/lots.py:171-194 | the close rows carry exactly the P&L the lot rows gained |
| `LotAccounting.ApplyKeepsBook` | backend/app/engine/execution/lots.py:160-194 | per lot: original minus open quantity is the sum of its closes, open stays within [0, original], closed_at is set exactly when nothing is open, and its P&L and strategy match its closes |
| `LotAccounting.ApplyKeepsOneSided` | backend/app/engine/execution/lots.py:111-132 | no (symbol, strategy) scope ever holds both long and short open lots |
| `LotAccounting.GateReadsNet` | backend/app/engine/risk/state.py:220-237 | so the gross open quantity the no-pyramiding gate sums is the absolute net, and zero exactly when the strategy is flat |
| `LotAccounting.ApplyMovesValue` | backend/app/engine/execution/lots.py:155-250 | double entry for any fill, flips through zero and strategy-less closes included: signed quantity, cost basis and P&L move by the applied quantity and its notional |
| `LotAccounting.NothingEligibleIsLeft` | backend/app/engine/execution/lots.py:160-202 | a remainder is only left when every eligible lot is closed |
| `FillScope.StrategyFillStaysHome` | backend/app/engine/execution/lots.py:116-123 | a strategy's fill leaves every lot of another strategy, symbol or side as it was, books its closes on its own strategy, and opens its own lot |
| `FillScope.LiquidationStaysInThePast` | backend/app/engine/execution/lots.py:23-36 | a fill without a strategy opens nothing, leaves every lot of another symbol, of its own side, or opened after it as it was, and books each close on its lot's own strategy |
| `FillScope.LeftoverUsesUpTheScope` | backend/app/engine/execution/lots.py:116-202 | a fill with something left over has used up, and stamped closed, every open lot in its reach: opposite, same symbol, its own strategy's or else of its past |
| `FillScope.OlderGoFirst` | backend/app/engine/execution/lots.py:141-153 | a lot is touched only when every older lot in the fill's reach is used up, by opening, then by creation, then by key |
| `FillScope.OutOfReachMakesNoDifference` | backend/app/engine/execution/lots.py:15-30 | strategies do not see each other: two tables that differ only in lots the fill cannot reach give the same closes, the same rest, and the same rows wherever they agreed |
| `FillScope.CloseRowsAre` | backend/app/engine/execution/lots.py:160-194 | each close row carries the fill's order, fill id and time, its lot's strategy, and (exit - entry) times its quantity, signed by the lot's side |
| `FillLedger.CatchUpReaches` | backend/app/engine/execution/synthesis.py:129-202 | catching up takes an order's recorded quantity to the larger of itself and the cumulative, other orders stay, and the deterministic id never blocks a needed row |
| `FillLedger.ExecutionCompletes` | backend/app/engine/execution/trade_updates.py:301-323 | the clamped execution row takes a ledger that reached the execution's start to the cumulative |
| `FillLedger.EventReachesCumulative` | backend/app/engine/execution/trade_updates.py:232-374 | with no trust in the broker, a non-duplicate event takes the ledger from L to max(L, cumulative), a duplicate changes nothing, and no other order moves |
| `FillLedger.SpanMeetsTheAverage` | backend/app/engine/execution/synthesis.py:75-116 | the price of a span makes the recorded notional meet the broker's average, falls back to that average when nothing positive would, and without one repeats the ledger's own |
| `FillLedger.PriorAverages` | backend/app/engine/execution/trade_updates.py:421-431 | the backed-out average and the execution together make the reported average; a first execution's is the reported one |
| `FillLedger.RoundingIsSymmetric` | backend/app/models/trading.py:89-90 | the price column rounds both signs alike, to the nearest micro, halves away from zero |
| `LedgerRuns.LedgerIsLargestReported` | backend/app/engine/execution/trade_updates.py:248-328 | over any run of stream events and reconcile snapshots, an order's ledger is the largest cumulative reported outside duplicates |
| `TraceRefinement.StoredIsClose` | backend/app/models/trading.py:89-90 | the six-decimal price column is off by at most half a micro |
| `TraceRefinement.SpanLands` | backend/app/engine/execution/synthesis.py:75-116 | a span priced from the recorded notional without the fallback lands on the trace: all earlier rounding error is absorbed, leaving only this span's own |
| `TraceRefinement.PriorIsReported` | backend/app/engine/execution/trade_updates.py:421-431 | the average backed out of an execution is the one the broker reported before it |
| `TraceRefinement.CatchUpRefines` | backend/app/services/reconciliation.py:764-785 | a reconcile's snapshot that is priced without the fallback moves the ledger to the larger trace prefix |
| `TraceRefinement.EventRefines` | backend/app/engine/execution/trade_updates.py:232-431 | so does any event of a consistent trace: early, late, repeated, without its execution id, or not a fill |
| `TraceRefinement.RunRoundsOnce` | backend/app/engine/execution/synthesis.py:60-116 | rounding does not accumulate: after any delivered multiset in any order, for any positive traces, if no step priced a span with the fallback then every order's recorded quantity is its trace's at the largest index seen and the notional is off by at most half a micro per share of the last synthesized span |
| `RoundingBound.FallbackBreaksTheBound` | backend/app/engine/execution/synthesis.py:104-116 | whatever evidence it comes from, a span priced with the fallback books at least a micro per share where nothing was missing, and so takes its order's notional out of the bound |
| `RoundingBound.BoundHoldsThroughoutExactly` | backend/app/engine/execution/synthesis.py:60-116 | exactly when rounding does not accumulate: over any positive traces and any consistent run, every ledger stays within half a micro per share of its last synthesized span after every step if and only if no step prices a span with the fallback |
| `TraceRefinement.WorthyRunStaysClear` | backend/app/engine/execution/synthesis.py:104-116 | when every execution is worth more than half a micro per share of its order, no step of any such run takes the fallback |
| `TraceRefinement.FallbackExceedsTheBound` | backend/app/engine/execution/synthesis.py:104-116 | a run over a consistent trace of a very cheap instrument in which the fallback is taken and the notional is off by more than the bound |
| `TraceRefinement.RunRefinesTraces` | backend/app/engine/execution/synthesis.py:60-116 | the two together, for traces in which every execution outweighs the rounding |
| `TraceRefinement.ExactRunIsPrefix` | backend/app/engine/execution/trade_updates.py:232-431 | in exact arithmetic the ledger is exactly (sum of quantities, sum of quantity times price) of that prefix, and the fallback is never taken |
| `Positions.ApplyFillToPosition` | backend/app/engine/execution/positions.py:33-89 | the position table after a fill: the row is added, updated, or deleted at zero |
| `Positions.PositionFollowsFill` | backend/app/engine/execution/positions.py:33-89 | each symbol's net moves by the signed fill, from flat at the fill's price; no other row is touched and no flat row is ever kept |
| `Positions.AverageKeepsCost` | backend/app/engine/execution/positions.py:55-89 | adding keeps the total cost, reducing keeps the average, and a flip restarts it at the fill price |
| `OrderRows.ApplyIdentity` | backend/app/engine/execution/apply.py:38-49 | the broker id is set once, the fill time only by a snapshot that has one |
| `OrderRows.SnapshotsMoveOnlyForward` | backend/app/engine/execution/state.py:58-94 | the plan is a conflict for an absorbing row, stale for a smaller filled quantity, and otherwise to apply; status, quantity and any average are copied exactly then, the identity always, and nothing else changes |
| `OrderRows.MappedStatuses` | backend/app/brokers/alpaca/status.py:22-54 | a raw broker name is read as a status a row takes for good exactly when it is one of six, `restated` among them; no name is read as failed or pending_submit |
| `OrderRows.OwnNamesAreRead` | backend/app/brokers/alpaca/status.py:22-42 | each status the broker can report has its own word |
| `OrderRows.OtherNamesAreHeld` | backend/app/brokers/alpaca/status.py:22-64 | apart from three synonyms any other word is read as held |
| `OrderRows.ApplySnapshot` | backend/app/engine/execution/apply.py:52-69 | state is copied exactly when the transition plan says apply; the plan is returned |
| `OrderRows.PersistBracketLegs` | backend/app/engine/execution/apply.py:72-138 | one row for each named leg the parent does not have, and their number; what the rows say is `OrderRows.NewRowsAreLegs`'s |
| `OrderRows.NewRowsAreLegs` | backend/app/engine/execution/apply.py:106-128 | each added row is one leg's that the broker named and the parent did not have: its client and broker id, symbol, side, class, status, filled quantity and average, its quantity or else the parent's, under the parent and its strategy |
| `OrderRows.NewLegsHaveRows` | backend/app/engine/execution/apply.py:94-129 | and each such leg has its row among those added |
| `OrderRows.EveryNamedLegIsThere` | backend/app/engine/execution/apply.py:72-138 | afterwards every leg the broker named has a row under its parent |
| `OrderRows.LegsArePersistedOnce` | backend/app/engine/execution/apply.py:72-138 | asking again creates nothing, at any later time |
| `Brackets.ExitLegClosesTheEntry` | backend/app/engine/execution/apply.py:75-77 | a strategy flat in a symbol has its bracket's entry filled and the legs' rows created; a fill of the same quantity on an opposite leg's row leaves it flat again |
| `Brackets.StreamAddsFirstLegs` | backend/app/engine/execution/trade_updates.py:435-468 | a stream event adds rows exactly for the named legs of the fetched family, and only for a bracket that is no leg itself and had none |
| `Brackets.SubmitAddsItsLegs` | backend/app/engine/execution/handler.py:633-651 | a submit's answer is copied onto its row, its named legs get rows, and no other row is touched or added |
| `OrderConfluence.WritesAdvance` | backend/app/engine/execution/state.py:58-94 | through any sequence of row writes filled_qty never falls, ids and instrument stay, and an absorbing status other than failed is final |
| `OrderConfluence.SnapshotsAreConfluent` | backend/app/engine/execution/state.py:68-94 | every delivery order with repetition that includes the final snapshot ends in its status, filled_qty and average, even through a premature giving-up |
| `OrderConfluence.RunsAgree` | backend/app/engine/execution/state.py:68-94 | two runs over one final snapshot, started from pending_submit or failed, end alike |
| `OrderConfluence.CommutesWithTheFinal` | backend/app/brokers/alpaca/status.py:22-54 | over the broker's raw names: a snapshot commutes with the final one if and only if its name is not one a row takes for good, or it is the same end |
| `OrderConfluence.RestatedMidLifeSplitsRuns` | backend/app/brokers/alpaca/status.py:33 | an order restated with two shares and then filled with five ends replaced with two or filled with five, by order of delivery |
| `OrderConfluence.WritesKeepUnseenUnfilled` | backend/app/services/reconciliation.py:821-829 | through any adopting, submit-answer and giving-up writes a row that was written off, or that no snapshot reached, has no filled quantity |
| `UnseenRows.TxnKeepsUnfilled` | backend/app/engine/execution/handler.py:732-746 | a transaction of any writer keeps that true of every row if and only if it is not a refused submit written over a row with a fill, nor persists such a row |
| `UnseenRows.RunKeepsUnfilled` | backend/app/engine/execution/handler.py:732-746 | so it holds over whole runs of all writers without such a refusal |
| `UnseenRows.RefusalOverAFill` | backend/app/engine/execution/handler.py:610-619 | a `failed` written over a row the stream had partly filled leaves a written-off row with a fill |
| `OrderConfluence.TxnAdvances` | backend/app/engine/execution/handler.py:732-746 | a transaction undoes no row's progress if and only if it is not a refused submit written over an order that had finished |
| `OrderConfluence.RefusalUndoesAFill` | backend/app/engine/execution/handler.py:732-746 | a refusal committed after the stream filled the order takes its row from filled to rejected |
| `OrderConfluence.RunAdvances` | backend/app/engine/execution/state.py:58-94 | over whole runs of all writers no row disappears, no filled_qty falls, and an absorbing status is left only from failed |
| `MixedRuns.RunStaysTrue` | backend/app/engine/execution/state.py:58-94 | in any run of all writers against a market that reports truthfully, every row's filled quantity and average are at every moment a reported prefix of its order's trace, and the row is on the way to the order's end |
| `MixedRuns.MixedRunIsPrefix` | backend/app/engine/execution/trade_updates.py:232-374 | in such a run every order's ledger is exactly a prefix of its trace, and no smaller than any cumulative the run reported for it, the sweep's own-column snapshots included |
| `MixedRuns.FinalEventSettlesRowAndLedger` | backend/app/engine/execution/trade_updates.py:107-175 | once the stream has delivered an order's final event, wherever in a run of stream events, submit answers, refusals, new rows and reconciles of both kinds, its row shows that end, its ledger is its whole trace, and filled_qty equals the ledger quantity |
| `ReconciledEnds.LearnedEndSettlesRowAndLedger` | backend/app/services/reconciliation.py:308-534 | the same once a synthesizing reconcile has been told the end, by the open list or by a lookup, wherever in such a run: the row shows it, the ledger is the whole trace, and the two agree |
| `TradeUpdates.LocateFinds` | backend/app/engine/execution/trade_updates.py:182-205 | a row with the event's broker id wins over one with its client id, and an event is unmatched only when no row has either |
| `TradeUpdates.StageFill` | backend/app/engine/execution/trade_updates.py:313-346 | the fill row, its lots and, except under a broker overwrite, its position, together; for whom it acts is `Provenance.FillActsForItsOrder`'s |
| `Provenance.FillActsForItsOrder` | backend/app/engine/execution/trade_updates.py:325-337 | by the order's own strategy: with one, what the fill does not close is opened as one lot of that strategy and nothing is parked; without one, nothing is opened and exactly that is parked, on the fill's terms |
| `TradeUpdates.SynthesizeSpan` | backend/app/engine/execution/synthesis.py:129-202 | a synthetic fill under its deterministic id, or nothing when the id is there |
| `TradeUpdates.CatchUpLedger` | backend/app/engine/execution/trade_updates.py:376-405 | the gap back-fill as a method over the tables |
| `TradeUpdates.Recorded` | backend/app/engine/execution/trade_updates.py:232-374 | recording touches no order row and adds exactly the event's ledger rows |
| `TradeUpdates.RecordExecution` | backend/app/engine/execution/trade_updates.py:232-374 | dedup, gap, clamp in the source's order; an announced fill is the last ledger row under the execution's key, and silence means it was already covered |
| `TradeUpdates.Process` | backend/app/engine/execution/trade_updates.py:107-178 | the whole stream transaction, resurrection and leg adoption included |
| `TradeUpdates.EnsureLegs` | backend/app/engine/execution/trade_updates.py:435-463 | a bracket parent without children gets the nested legs, if the fetch answered |
| `Remainders.ReadCompanions` | backend/app/services/reconciliation.py:596-609 | the sets and counts the pass decides by are what the log says of each anomaly |
| `Remainders.RetryUnappliedRemainders` | backend/app/services/reconciliation.py:536-712 | the retry pass over the log as read at its start |
| `Remainders.PassKeepsLog` | backend/app/services/reconciliation.py:611-711 | every companion row is justified by the rows before it: open anomaly, counted cycle, residual re-parked at once |
| `Remainders.OncePerAnomaly` | backend/app/services/reconciliation.py:634-703 | an anomaly is resolved at most once, alerted at most once, never retried after its resolution, and alerted only after its third failed cycle |
| `Remainders.ThirdFailureAlerts` | backend/app/services/reconciliation.py:550-562 | a retry is alerted exactly when it closes nothing for at least the third time and was not alerted before |
| `Remainders.RetryReportsItsCloses` | backend/app/services/reconciliation.py:634-703 | what a retry logs is what it did: the quantity and P&L of the closes it added and the rest, parked again on the same terms; or a counted failure of the whole |
| `Remainders.ParkedQuantityIsConserved` | backend/app/services/reconciliation.py:634-671 | quantity applied by retries plus quantity still open is the quantity originally parked, across any number of passes and new fills |
| `Remainders.PassOnlyClosesThePast` | backend/app/engine/execution/lots.py:122-132 | each close row a pass adds was made by the retry of one open anomaly, for that remainder's order and fill, from a lot opened no later than that remainder printed |
| `Remainders.PassKeepsOpenings` | backend/app/services/reconciliation.py:611-671 | a retry pass opens no lot and changes when no lot was opened |
| `Remainders.PassDrains` | backend/app/services/reconciliation.py:611-712 | after one pass every anomaly still open has no eligible lot |
| `Books.InsertFillKeepsOk` | backend/app/engine/execution/synthesis.py:160-192 | one inserted fill keeps quantity, money and attribution in balance |
| `Books.PassKeepsOk` | backend/app/services/reconciliation.py:536-712 | a retry pass keeps them too |
| `DbRuns.ProcessedKeepsOk` | backend/app/engine/execution/trade_updates.py:107-175 | a stream event keeps the books |
| `DbRuns.ReconciledKeepsOk` | backend/app/services/reconciliation.py:130-223 | a reconcile, synthesizing or not, keeps the books |
| `DbRuns.EveryRunKeepsOk` | backend/app/engine/execution/lots.py:155-250 | in every reachable state: signed open lots plus signed parked remainders are the signed fills; total realized P&L is sells minus buys of applied quantity plus signed open cost basis; and per strategy the closes' P&L is the lots' |
| `DbRuns.EveryReachableStateIsOk` | backend/app/engine/execution/lots.py:155-250 | so the books balance in every state the writers can reach from empty tables |
| `DbRuns.KeptByEveryRun` | backend/app/engine/execution/trade_updates.py:120-160 | an induction principle: a property kept by inserting a fill, changing order rows but not their strategy, symbol and side, retrying remainders and replacing positions is kept by every run of all writers |
| `StrategyBooks.StrategyFillMovesNet` | backend/app/engine/execution/lots.py:15-18 | a strategy's fill moves its own signed open lots by the whole signed quantity, and no other strategy's |
| `StrategyBooks.LiquidationMovesNet` | backend/app/engine/execution/lots.py:20-27 | a strategy-less fill moves each strategy's signed open lots by exactly what its closes booked on that strategy |
| `StrategyBooks.EveryReachableStateIsAttributed` | backend/app/engine/execution/lots.py:15-36 | in every state reachable from empty tables: each lot, close and parked remainder names the fill it comes from and agrees with that fill and its order's strategy, symbol and side, only orders without a strategy park; per symbol and strategy, signed open lots are the signed fills of its orders plus what liquidations closed of it; and what liquidations filled is closed or still parked |
| `StrategyBooks.GateReadsOwnFills` | backend/app/engine/risk/state.py:220-237 | so the gate reads the size of the strategy's own orders' net fills less what liquidations took, and zero exactly when it has no open lot |
| `DbLedger.TxnActs` | backend/app/services/reconciliation.py:764-799 | committing a transaction runs exactly its ledger steps: a stream event at the row it locates, a synthesizing reconcile the snapshots it takes in turn, any other none |
| `DbLedger.RunActs` | backend/app/services/reconciliation.py:764-799 | and so a run of transactions is the run of their steps |
| `DbLedger.RunReachesLargestReported` | backend/app/engine/execution/trade_updates.py:248-328 | over any run of all writers from empty tables, each order's ledger is the largest cumulative among that run's own steps outside duplicates |
| `Evidence.ReconcileStepsAreEvident` | backend/app/services/reconciliation.py:308-534 | every step of a synthesizing reconcile is a listed order or leg that names its row, what a lookup returned for that row, or the row's own columns |
| `Evidence.EveryStepIsReported` | backend/app/services/reconciliation.py:308-534 | every step of a run is an event one of its transactions delivered for the row it located, or such evidence in one of its reconciles |
| `Evidence.LedgerWasReported` | backend/app/engine/execution/trade_updates.py:248-328 | so whatever quantity an order's ledger holds, some transaction of the run reported exactly that |
| `Evidence.FreshEventIsApplied` | backend/app/engine/execution/trade_updates.py:248-328 | and no delivered event that was not a duplicate is lost: from then on the ledger is at least its cumulative |
| `DbLedger.StreamRunTracksPosition` | backend/app/engine/execution/positions.py:33-89 | in stream-only runs each position row is the signed sum of the fills, and exists exactly when that is not zero |
| `Reconciliation.AdoptOrder` | backend/app/services/reconciliation.py:724-803 | resurrect, synthesize what the ledger never saw, take the snapshot; changed and the synthesized count are what became of the tables |
| `Reconciliation.AdoptLeg` | backend/app/services/reconciliation.py:330-351 | a listed leg with a local parent gets the family's rows, and only this leg enters the index |
| `Reconciliation.ListingFinds` | backend/app/services/reconciliation.py:307-315 | a listed order finds the row with its broker id, failing that the one with its client id, and is an orphan only without either |
| `Reconciliation.MatchListed` | backend/app/services/reconciliation.py:328-385 | one listed order: its row by broker id, client id or leg adoption, or an orphan |
| `Reconciliation.MatchAllListed` | backend/app/services/reconciliation.py:308-385 | the listing pass with its two index dictionaries, matched set and counters |
| `Reconciliation.RecoverLocal` | backend/app/services/reconciliation.py:400-414 | one straggler: broker truth and legs, never submitted, or missing |
| `Reconciliation.ListedAndFinishedAreLeftAlone` | backend/app/services/reconciliation.py:387-398 | recovery does nothing for a row the listing matched, a finished one, and one whose broker id is listed |
| `Reconciliation.UnknownRowsAge` | backend/app/services/reconciliation.py:805-850 | a row the broker does not know is written off exactly when it is pending, never heard of and over two minutes old; otherwise it is counted missing |
| `Reconciliation.RecoverStragglers` | backend/app/services/reconciliation.py:387-414 | the straggler loop over the rows read at the start |
| `Reconciliation.SweepLedgerDeficits` | backend/app/services/reconciliation.py:434-534 | every deficit the query saw is repaired from broker truth or the row's own columns; the count is the fills added |
| `Reconciliation.ReconcilePositions` | backend/app/services/reconciliation.py:225-287 | an empty list against a nonzero market value leaves every row as it was and removes none; otherwise each listed symbol holds what was last listed for it, no other is held, and the number removed is that of the rows gone |
| `Reconciliation.PositionsAreTheBrokers` | backend/app/services/reconciliation.py:225-287 | unless the answer is suspect, the rows afterwards are the broker's list whatever was there before |
| `DbLedger.ReconciledPositionsAreTheBrokers` | backend/app/services/reconciliation.py:160-287 | the same of a whole reconcile: however many fills it makes up for, none of them moves a position row |
| `Reconciliation.ReconcilePortfolio` | backend/app/services/reconciliation.py:130-223 | orders, sweep, retry, positions in the source's order; synthesized counts exactly the fills added |
| `ReconcileQuiet.EventFindsItsRow` | backend/app/engine/execution/trade_updates.py:182-205 | by either identifier an event reaches the one row of its order, whether or not the broker gave the order a client id |
| `ReconcileQuiet.ListingIsQuiet` | backend/app/services/reconciliation.py:322-385 | on settled tables the listing pass changes nothing and matches every listed row |
| `ReconcileQuiet.RecoveryIsQuiet` | backend/app/services/reconciliation.py:387-414 | on settled tables the straggler pass changes nothing |
| `ReconcileQuiet.SweepIsQuiet` | backend/app/services/reconciliation.py:434-534 | on settled tables the deficit sweep changes nothing |
| `ReconcileQuiet.RetryIsQuiet` | backend/app/services/reconciliation.py:611-711 | a pass with nothing to close changes no lot and no close, and only counts failures |
| `ReconcileListing.AdoptCatches` | backend/app/services/reconciliation.py:724-803 | adopting a snapshot of its own order leaves a row and ledger that adopting it again would not change |
| `ReconcileListing.LegsArrive` | backend/app/engine/execution/apply.py:72-138 | persisting legs completes the family, leaves every other row alone, and leaves one row for each order |
| `ReconcileListing.AdoptKeepsHoused` | backend/app/engine/execution/apply.py:38-49 | taking the broker's identity gives no two rows one broker order, and no leg another parent |
| `ReconcileTwice.FirstPassIsQuiet` | backend/app/services/reconciliation.py:289-432 | unless a row revives late, one reconcile settles every row: caught up, or finished and unlisted, or unknown to the broker, with listed families complete; and it creates no second row for a client id or a broker id |
| `ReconcileTwice.SecondReconcileChangesNothing` | backend/app/services/reconciliation.py:130-223 | with the same answers and clock, and no row that revives late, a second synthesizing reconcile changes no order, fill, lot, lot close or position, updates and synthesizes nothing; after the first, no open parked remainder has an eligible lot |
| `ReconcileLate.SecondReconcileExactly` | backend/app/services/reconciliation.py:387-432 | against answers that agree, a second reconcile changes nothing if and only if the starting tables have no late row: an unlisted bracket written off with more filled than recorded, that the broker still works and some named leg of which has no row |
| `ReconcileLate.LateTakesTwo` | backend/app/services/reconciliation.py:387-432 | the sweep revives such a row behind the pass that persists legs, so the second reconcile creates rows |
| `ReconcileLate.WrittenOffBracketTakesTwo` | backend/app/services/reconciliation.py:387-432 | a concrete bracket of that kind |
| `ReconcileTwice.UnfilledIsNotLate` | backend/app/services/reconciliation.py:821-829 | no row is late in balanced tables in which nothing is filled on a row written off |
| `ReconcileTwice.DisagreeingLookupsTakeTwo` | backend/app/services/reconciliation.py:398-406 | why the answers have to agree: an order live by client id and canceled by broker id is changed again by the second reconcile |
| `ReconcileGaps.OrphanWithARow` | backend/app/services/reconciliation.py:328-380 | of the orders that have a row when the listing pass is over, it counts as orphans exactly the named legs no starting row names, of a parent with a row, after an earlier such leg of the same parent |
| `ReconcileGaps.SecondLegCountsAsOrphan` | backend/app/services/reconciliation.py:328-380 | a listed bracket whose row is there and whose two legs have none: both get rows, the second is counted as an orphan |
| `ReconcileGaps.WrittenOffStays` | backend/app/services/reconciliation.py:387-414 | after the order half of a reconcile a failed row is still failed, untouched with its ledger, if and only if no listed order or leg is found to be its own |
| `ReconcileGaps.WrittenOffForGood` | backend/app/services/reconciliation.py:434-534 | the deficit sweep adds exactly the rows with more filled than recorded that a lookup answers for |
| `ReconcileGaps.UnfilledWrittenOffForGood` | backend/app/services/reconciliation.py:434-534 | which is none when nothing was filled on the row |
| `ReconcileGaps.WrittenOffInRuns` | backend/app/services/reconciliation.py:387-534 | so after any run of all writers from empty tables without a refusal over a fill, a reconcile leaves a failed row failed if and only if no listed order or leg is its own |
| `ReconcileGaps.FilledOrderStaysWrittenOff` | backend/app/services/reconciliation.py:387-414 | an order written off and then filled away from the open list stays failed, though a lookup would have found it |
| `Commands.CommandTable.IssueCommand` | backend/app/services/engine_commands.py:84-150 | the row appended, or the refusal and its sequence numbers |
| `Commands.UnresolvedAfter` | backend/app/services/engine_commands.py:121-136 | the guard lists exactly the unverified flattens after a position, in order |
| `Commands.ResumeIsAcceptedExactly` | backend/app/services/engine_commands.py:115-148 | a resume is accepted if and only if every flatten in the whole log is flat_verified or superseded, no other outcome counting |
| `Commands.IssuedAsAsked` | backend/app/services/engine_commands.py:102-152 | a halt or flatten is refused only for a blank reason; what is issued is appended as asked, unseen and without outcome, a resume's missing reason filled in; a refusal changes nothing |
| `Commands.HaltDoesNotLaunderAFlatten` | backend/app/services/engine_commands.py:93-104 | flatten, halt, resume is refused while nothing resolved the flatten |
| `Commands.AnOutcomeUnblocksResume` | backend/app/services/engine_commands.py:137-148 | verifying the one open flatten, or a sweep that finds a newer command, is what lets the resume through |
| `Commands.CommandTable.StampApplied` | backend/app/engine/commands.py:175-196 | pickup is stamped on every unseen row up to the one read, and on none after it |
| `Commands.CommandTable.SupersedeStaleFlattens` | backend/app/engine/commands.py:198-213 | exactly the older unfinished flattens become superseded |
| `Commands.KillSwitch.Sweep` | backend/app/engine/commands.py:145-173 | an uninterrupted sweep leaves the memory saying what the last row says: halted by anything but a resume, flattening exactly for a flatten not verified yet, under its reason and number |
| `Commands.KillSwitch.Load` | backend/app/engine/kill_switch.py:64-74 | so does a boot |
| `Commands.KillSwitch.MarkFlattenVerified` | backend/app/engine/kill_switch.py:95-113 | the row's first outcome is written, or nothing; true exactly when it was |
| `Commands.QuietMarkIsTheMethods` | backend/app/engine/kill_switch.py:64-113 | in a run, the two halves of an uninterrupted mark are the method's, and a restart keeps the log and forgets the rest |
| `Commands.StepKeepsSafe` | backend/app/engine/commands.py:145-213 | every step of any interleaving keeps the log append-only and write-once and the memory naming a row |
| `Commands.ResumeNeverLeapfrogsAFlatten` | backend/app/services/engine_commands.py:109-150 | over all interleavings of issue, sweep, verify and restart, every flatten before a resume is verified or superseded, and stays so |
| `Commands.OutcomesAreWriteOnce` | backend/app/engine/kill_switch.py:104-113 | results never change once written, and a superseded row has a later one |
| `Commands.QuietSweepCatchesUp` | backend/app/models/engine_command.py:74-91 | in a run, after an uninterrupted sweep or a reload: halted if and only if the log's last action is not a resume, flattening if and only if it is a flatten whose result is not flat_verified |
| `Commands.IssuedFlattenIsPickedUp` | backend/app/engine/commands.py:145-173 | from any reachable state, a flatten issued and swept once: the memory is halted and flattening for that row, which is stamped, has no outcome, and is the only one in the way of a resume |
| `Commands.MemoryLagsOnlyBehindNewerRows` | backend/app/engine/commands.py:148-159 | between sweeps the memory lags only behind rows newer than the one it names: it is halted exactly when that row is not a resume |
| `Submission.Store.PersistPending` | backend/app/engine/execution/handler.py:279-319 | the unique client id decides whether the pending row commits |
| `Submission.OnOrder` | backend/app/engine/execution/handler.py:190-277 | a halted engine or a known id submits nothing; otherwise one committed row, one submit, and the row's conclusion |
| `Submission.SubmitAndApply` | backend/app/engine/execution/handler.py:586-631 | one submit, whatever comes back, and the row concluded from the answer through the transition plan, over what the stream wrote meanwhile |
| `Submission.ResolveAmbiguous` | backend/app/engine/execution/handler.py:682-730 | an unknown fate is looked up by client id, never resubmitted; unfound stays pending |
| `Submission.AnswersNeverRegress` | backend/app/engine/execution/handler.py:633-730 | an accepted or looked-up answer never lowers what the stream had written: the filled quantity does not fall, a finished row stays, and the row is otherwise the answer's |
| `Submission.AnswersLandAsGiven` | backend/app/engine/execution/handler.py:593-730 | a refusal is written over whatever the row says, an answer replaces the row unless that is finished or ahead of it, and silence counts as the first lookup that finds the order |
| `Submission.LiquidateSymbol` | backend/app/engine/execution/handler.py:526-584 | one committed row, one submit and its outcome for a liquidation, nothing for a key already there |
| `Submission.LiquidationsReportWhatHappened` | backend/app/engine/execution/handler.py:567-584 | the summary of a liquidation: refused, rate-limited, ambiguous when no lookup finds it, or what the broker said |
| `Submission.FlattenGuard.OnFlatten` | backend/app/engine/execution/handler.py:342-359 | a replayed flatten id starts nothing while it is remembered; never more than 512 ids are |
| `Submission.OneDriveAtATime` | backend/app/engine/execution/handler.py:342-404 | a flatten in flight is never displaced, and a new one starts only for an id the guard does not remember |
| `Submission.LiquidationKeysCollide` | backend/app/engine/execution/handler.py:534-541 | liquidation ids are equal exactly for one symbol under flatten ids that agree in their first twelve digits |
| `Submission.PlacedOrdersHaveRowsAndAreSubmittedOnce` | backend/app/engine/execution/handler.py:257-321 | over any run with crashes, lost answers, replays and a cleared replay set: every order placed has a committed row, and no client id is submitted twice |
| `Submission.NeverResubmitted` | backend/app/models/trading.py:48 | nothing that happens after a submit ever submits that id again |
| `Submission.ArrivalsStartHandlers` | backend/app/engine/execution/handler.py:190-264 | each delivery starts one handler for its id, a liquidation's under the flatten in flight, and a leg's row takes its id as an insert would |
| `Submission.UninterruptedHandler` | backend/app/engine/execution/handler.py:257-264 | the steps of an entry or a liquidation nobody interrupts are the method's one row, one submit, one conclusion |
| `FlattenDrive.CancelWorking` | backend/app/engine/execution/handler.py:425-456 | one isolated cancel for each working order; awaited are exactly those that landed |
| `FlattenDrive.ConfirmCancels` | backend/app/engine/execution/handler.py:466-490 | polling ends when all have settled; what is left is exactly what never showed settled in any round polled |
| `FlattenDrive.Liquidate` | backend/app/engine/execution/handler.py:494-516 | one isolated submit for each open uncovered position, and its outcome |
| `FlattenDrive.ExecuteFlatten` | backend/app/engine/execution/handler.py:406-524 | whatever a cancel, a poll or a submit raises, a pass makes all its cancels and all its submits, in that order; if the order listing raises it does nothing, if the position listing does it ends behind the cancels |
| `FlattenDrive.CancelsSpareLiquidations` | backend/app/engine/execution/handler.py:425-440 | a pass cancels every working order once and never a liquidation |
| `FlattenDrive.SubmitsCloseWhatIsOpen` | backend/app/engine/execution/handler.py:497-516 | a pass submits for exactly the open and uncovered positions |
| `FlattenDrive.SubmitsAreSafe` | backend/app/engine/execution/handler.py:526-561 | never twice for a symbol, never for a flat or covered one, and always the whole position on the reducing side |
| `FlattenDrive.SubmitsWholePositions` | backend/app/engine/execution/handler.py:497-516 | for each symbol a pass submits the whole position once, or nothing; what is in flight between ticks is taken from this |
| `FlattenDrive.WhatADriveFiresOn` | backend/app/engine/flatten_controller.py:101-120 | exposed by a position of either sign, a working order or a pending row; a drive publishes exactly when something works or is pending or some open position has no liquidation out |
| `FlattenDrive.TickLowersTheMeasure` | backend/app/engine/flatten_controller.py:235-272 | one tick of the drive lowers (working orders, distance of the positions from flat), lexicographically |
| `FlattenDrive.DriveReachesFlat` | backend/app/engine/flatten_controller.py:323-328 | from any exposure, under-sized liquidations included, the drive is no longer exposed within three ticks per position and two more |
| `FlattenDrive.TwoDrivesAreEnough` | backend/app/engine/flatten_controller.py:108-120 | when every liquidation fills between ticks, the third tick finds nothing exposed |
| `FlattenRules.ExposurePredates` | backend/app/engine/flatten_controller.py:419-443 | true exactly when some position has no open lot to explain it or one opened before the session |
| `FlattenRules.FlattenController.DriveKillFlatten` | backend/app/engine/flatten_controller.py:235-272 | one tick of the drive on the log and the memory: the row is verified only when broker truth shows no exposure; with exposure and an open market the drive is on, and published unless fully covered |
| `FlattenRules.OnlyADriveVerifies` | backend/app/engine/flatten_controller.py:235-262 | a tick writes at most one outcome, on the row being driven, which had none, and only when nothing is exposed |
| `FlattenRules.FlattenController.MaybeNextOpenFlatten` | backend/app/engine/flatten_controller.py:274-321 | the next-open rule against the clock: due only in an open market from the grace after the session opened; the same day's observation, else lot evidence, decides staleness; the day is marked or the drive published |
| `FlattenRules.FlattenController.OpenTick` | backend/app/engine/flatten_controller.py:212-222 | a tick ahead of the open observes, one behind it applies the rule |
| `FlattenRules.TheObservationDecides` | backend/app/engine/flatten_controller.py:274-321 | the last look before the open decides the day: what was flat then is never driven by the next-open rule, whatever is opened since and whatever the lots say; what was exposed then is driven by every due tick until one finds it flat |
| `FlattenRules.DayIsMarkedOnceFlat` | backend/app/engine/flatten_controller.py:274-321 | over clocked ticks with stale exposure the day is marked exactly by a due tick that found nothing exposed, and until then every due tick publishes unless all is covered |
| `FlattenRules.DrivenFlattenUnblocksResume` | backend/app/engine/flatten_controller.py:235-272 | the ticks applied to the log in turn: within three ticks per position and two more one finds nothing exposed; up to the first such tick the row has no outcome and a resume is refused, from it on the row is verified, the drive over, and a resume is issued |
| `FlattenRules.IssuedFlattenUnblocksResume` | backend/app/engine/flatten_controller.py:235-272 | a kill flatten's whole life from any reachable state: issued and swept once it is driven, a resume is refused until the first tick that finds nothing exposed, within three ticks per position and two more, and issued from then on, the engine still halted |
| `CloseWindow.SleepIsSafe` | backend/app/engine/flatten_controller.py:468-474 | a sleep is at least a second and never carries a wake a second past its target |
| `CloseWindow.SleepHalvesTheWay` | backend/app/engine/flatten_controller.py:468-474 | a sleep goes half the way to its target, cut to fifteen minutes, in the last half hour to two, rounded up in the last second; half a minute behind it |
| `CloseWindow.EarlierCloseCounts` | backend/app/engine/flatten_controller.py:203-209 | the live clock's close of an open market pulls the calendar's forward and never back |
| `CloseWindow.RulesByTheClock` | backend/app/engine/flatten_controller.py:186-231 | which rule a tick evaluates, if and only if: raised, kill drive, no session, before the open, day, window, behind it |
| `CloseWindow.IdleWakesMeetTheirInstant` | backend/app/engine/flatten_controller.py:195-231 | half a minute between wakes while anything is driven or a tick raised; otherwise a sleep toward the open, the flatten instant or the next open, not a second past it |
| `CloseWindow.TickNeverPassesTheWindow` | backend/app/engine/flatten_controller.py:186-225 | before the flatten instant no tick's sleep ends more than half a minute after it |
| `CloseWindow.PokesBringForward` | backend/app/engine/flatten_controller.py:476-500 | a poke only brings the next wake forward |
| `CloseWindow.WindowIsDrivenThroughout` | backend/app/engine/flatten_controller.py:186-228 | from the flatten instant to the close: after any moment there is a wake within half a minute and the latency, it drives the kill flatten or the close flatten unless the drives raised, and so does the next |
| `CloseWindow.SleepUntilWindow` | backend/app/engine/flatten_controller.py:169-184 | the wake loop ends, within half a minute plus latency of the flatten instant and before the close, whatever is poked on the way |
| `FeedHealth.StalenessFloor` | backend/app/brokers/alpaca/streams.py:109-142 | the window is the request or what the slowest subscribed channel can satisfy (five seconds, or two minutes on bars alone), whichever is larger |
| `FeedHealth.WatchdogPace` | backend/app/brokers/alpaca/streams.py:476-500 | the watchdog looks five times a window within its caps, and the key lives two windows in whole seconds |
| `FeedHealth.WritesAreThrottled` | backend/app/brokers/alpaca/streams.py:660-706 | within a second of a write that landed only a forced one is made; what lands is the status, the instant and the window, and nothing else moves |
| `FeedHealth.MarketDataConsumer.MarkAlive` | backend/app/brokers/alpaca/streams.py:573-589 | a message clears staleness and stamps the key, past the throttle on a transition |
| `FeedHealth.MarketDataConsumer.WatchdogTick` | backend/app/brokers/alpaca/streams.py:591-640 | a tick flags and stamps staleness, or re-stamps health once data has been seen |
| `FeedHealth.MarketDataConsumer.WriteFeedHealth` | backend/app/brokers/alpaca/streams.py:660-706 | throttled unless forced, and only a write that lands moves the throttle |
| `FeedHealth.MessagesStampOncePerSecond` | backend/app/brokers/alpaca/streams.py:573-589 | a message clears staleness and stamps ok at once on a transition, otherwise once a second |
| `FeedHealth.LooksFlagSilence` | backend/app/brokers/alpaca/streams.py:591-640 | a look flags the feed exactly after a window of silence, stamping the transition at once, clears nothing, and re-stamps only a feed that had data |
| `FeedHealth.Poller.Poll` | backend/app/engine/feed_health.py:55-106 | a poll reads healthy if and only if the key could be read, is there and unexpired, says ok, carries a stamp and a window, and the stamp is within the window; everything else reads stale |
| `FeedHealth.OpenGateMeansRecentData` | backend/app/engine/feed_health.py:71-106 | while the gate is open a real message came less than two windows and one poll ago, whatever writes failed and whenever the key was lost |
| `FeedHealth.LastMessageIsReal` | backend/app/brokers/alpaca/streams.py:515-530 | the time that bound speaks of is a message's, never the boot seed |
| `FeedHealth.LostKeyReadsStale` | backend/app/engine/feed_health.py:71-106 | a poll after the key was lost reads stale however fresh the feed was |
| `FeedHealth.KeyOutlivesTheGap` | backend/app/brokers/alpaca/streams.py:471-500 | poll plus throttle is shorter than both the window and the time to live |
| `FeedHealth.HealthyFeedIsNeverStale` | backend/app/brokers/alpaca/streams.py:631-640 | with writes landing, gaps under the window and the watchdog on time, no later poll reads stale |
| `FeedHealth.HealthyFeedOpensTheGate` | backend/app/brokers/alpaca/streams.py:573-640 | from boot: after any silence and a first message, every poll of a healthy run opens the gate |
| `TokenBucket.NewBucket` | backend/app/brokers/ratelimit.py:40-59 | construction fails exactly on a rate or burst that is not positive, and starts full |
| `TokenBucket.AsyncTokenBucket.Refill` | backend/app/brokers/ratelimit.py:61-67 | a refill credits elapsed time and keeps the tokens within [0, capacity] |
| `TokenBucket.AsyncTokenBucket.Acquire` | backend/app/brokers/ratelimit.py:69-93 | the wait loop: refusals, the grant, and the positive wait of a turn that could not grant |
| `TokenBucket.RefillCreditsOnce` | backend/app/brokers/ratelimit.py:61-67 | credit is at most the rate times how far the clock passed its high-water mark; a step back is never credited twice |
| `TokenBucket.WindowsAreBounded` | backend/app/brokers/ratelimit.py:53-93 | between any two grants of any run at most one capacity plus the accrual between their clock readings is granted |
| `TokenBucket.SecondTurnGrants` | backend/app/brokers/ratelimit.py:83-93 | the second turn grants if and only if at least the computed wait has elapsed |

## Left out

- Prices and quantities of the tables: rounding to their columns, except for fill prices in `TraceRefinement`, and Decimal context precision.
- Event-log rows that are only audit: the model keeps the four kinds the retry pass reads back (parked, resolved, retry failed, alert).
- The `lots_fully_closed` counter, `raw` and audit columns, equity snapshots, and the published notifications other than which fill is announced.
- Lock ordering and deadlock freedom inside the database, sessions and object identity: rows are values, a transaction is one step.
- Retry delays, reconnect loops, JSON and HTTP parsing, pub/sub wake-ups: a poke is modelled only as a shortened sleep or an early sweep.
- Risk gates other than the open-quantity read, price quantization, approvals and ownership checks.
- What the drives answer inside one clock tick: `CloseWindow` takes it as an input, `FlattenRules` says what it is.
- Post-close checks and calendar resolution; the session of the day is an input.
- Broker accounts inside one flatten pass: the order listing and the fresh positions are inputs, and `FlattenDrive.Between` says what the market does between ticks (cancels settle; then submits are accepted and some liquidation of an open position fills; no new exposure; no pending entry rows).
- FlattenDrive.DriveReachesFlat: assumes one working liquidation per symbol is the one that counts, as the covered-symbol test does.
- MixedRuns.FinalEventSettlesRowAndLedger: needs a market that tells the truth (answers and events are moments of each order's trace, an order never ends and then goes on, a refused order has no end at the broker).
- ReconciledEnds.LearnedEndSettlesRowAndLedger: of the same market, for a reconcile whose answers about the row are all its end, and a row that is not written off unless it is listed.
- ReconcileTwice.SecondReconcileChangesNothing: needs answers that agree (without that it is false, by `ReconcileTwice.DisagreeingLookupsTakeTwo`), brackets one level deep, as the broker nests them, no answer that reads `failed` (which `OrderRows.MappedStatuses` excludes), and tables that satisfy the unique constraints with each leg under its parent.
- Reconciliation.ReconcilePositions: of a list that names a symbol twice the last word holds; the source inserts twice, and rolls back, when the symbol had no row.
- FlattenDrive.TickLowersTheMeasure: of a pass whose two listings answer; one that raises is repeated by the next tick.
- ReconcileGaps.OrphanWithARow: the open list names no order twice.
- CloseWindow.SleepUntilWindow: fixed calendar, finitely many pokes, and tick latency of at most ninety seconds, which with the two-minute buffer floor keeps the wake before the close.
- TokenBucket.WindowsAreBounded: times are high-water readings, which are the readings themselves unless the clock steps back.
- FeedHealth.MarketDataConsumer.MarkAlive: one instant stands for the two clock reads of a call, and one clock for the writer's monotonic and the payload's wall time.
- Commands.CommandTable.IssueCommand: takes the reason already stripped of white space; the advisory lock makes the guard and the insert one step.
