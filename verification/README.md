# TradingIA: bridge write protocol and backtest engines, modelled and proved

The project models four parts of the repository.

**The MT5 bridge's write protocol** (`Bridge*.dfy`). Opens, closes, manual resolutions and
reconciliations are threads over one idempotency table, one append-only journal and one broker. One
store method or one backend call is one atomic step, which is where the original can be preempted: store
methods run under a lock and a transaction. The environment chooses, at every step, which thread moves,
what the clock says, what the backend answers or whether it raises, whether `order_send` took effect
before raising, and when the process crashes and restarts through the startup reconciliation. A theorem
about every sequence of actions is therefore a theorem about every interleaving, crash and restart.
Positions can also be opened and closed outside the bridge. `BridgeProtocol` is the transition system.
`BridgeDriver` lets a schedule of other threads' actions, terminal answers and clock readings drive one
thread through it; the schedule leaves the thread no choice. `BridgeTrading` writes the request functions
out as imperative methods over a shared store and backend and proves that each ends exactly where its
schedule drives the protocol, whatever the schedule is. Each request also says outright, in terms of what
it meets and sees at each of its steps, what it answers and when it comes to call `order_send`.

**The FX backtest engine and the Phase 5H pipeline** (`Fx*.dfy`, `FailedBreakout.dfy`, `Phase5h*.dfy`).
The bar loop with shifted targets, swap accrual, flips, insolvency termination and end-of-data
liquidation; the daily-range failed-breakout strategy; tail cleanup, validator, trade records and
accounting check. `Segments` cuts a list of targets into its blocks; in their terms `FxEquity`,
`LongFlatSchedule` and `Phase5hEvents` say, from the inputs alone, which trades a run makes and what
every point of its curve is.

**The live-tick clock normalizer** (`ServerClock.dfy`).

**The long/flat engine and the hourly spread calibration** (`LongFlat*.dfy`, `SpreadCalibration.dfy`,
`CalibrationColumns.dfy`).

Code that updates state is imperative here too (`BridgeStore`, `Backend`, `BridgeThread`, `FxBacktest`,
`Backtest`, `ServerClockOffset` and the loops of the strategy, the cleanup, the validator, the records
and the calibration). Each such method is proved equal to a function of its inputs or of the old state,
and the properties are proved about those functions. Money, prices and spreads are exact reals, times are
integer UTC seconds (the clock normalizer uses real seconds), and a day or an hour is found by division.

## What turned out false, and what holds instead

- *Costlier runs are dominated at every bar.* False at the costlier run's last bar when it is stopped by
  the insolvency policy. A direct flip can be cut short by its closing leg in the costlier run while the
  cheaper one flips on and loses more; and on the last bar of the data the costlier run can be stopped by
  the mark at the CLOSE while the cheaper one is liquidated at that bar's OPEN for less.
  `FxMonotone.CostsOnlyHurt` proves domination everywhere else, and
  `FxSharpness.LastPointDominatedExactlyWhen` proves that the last point is dominated for all prices and
  costs if and only if the signals never flip directly and want no position on the last bar.
- *A SUBMITTED row without an owner blocks OK for ever.* True after a crash. Without a crash, a
  reconciliation that read the table earlier and is preempted before it stores its verdict can still store
  OK over a later MISMATCH, and the next open goes through (`BridgeWitnesses.StaleOkHidesStuckRow`,
  reachable from the first start by `BridgeWitnesses.RacesAreReachable`).
  `BridgeTheorems.OrphanBlocksOkExactlyWhen` gives the exact condition.
- *The guard `updated_at != created_at` stops duplicates* (mt5_bridge/trading.py:291). It fails on two inputs:
  every RECEIVED row, and a SUBMITTED row whose clock read the same at creation and at submission.
  `BridgeGuard.GuardPassesExactlyWhen` proves that over every run these and no other rows let a request with
  their fingerprint go on; `BridgeWitnesses.GuardAdmitsDuplicates` and `GuardAdmitsSubmittedDuplicate` take
  one of each kind up to the compare-and-set, which is what stops it.
- *The record checks never refuse a trade of the pipeline.* False for timestamps that `_load_bars` accepts
  (src/fx/research/phase5h_runner.py:68-73): it asks for sorted, not for increasing times, and the checks find
  a trade's bars by time. `Phase5hTimestamps.NeverRefusedExactlyWhen` gives the exact condition on the bars: no
  entry bar has the time of the bar four later. `RunIsRecordedExactlyWhen` gives it for one run. Equal times
  can also pass silently: the record then names another bar (`WrongBarIsAccepted`), and
  `RecordNamesItsBarsExactlyWhen` says when it names its own.

Where code and documentation differ the model follows the code: `apply_hourly_p95_spread` is documented to
refuse a profile from another dataset, but compares no dataset (src/fx/cost_calibration.py:188-202); a
comment in `_close` speaks of swap already deducted mid-trade, but it is subtracted at the close
(src/fx/backtesting/engine.py:269-271 and 318).

## Model

| member | source | states |
|---|---|---|
| BridgeTable.BridgeStore.BeginIdempotentRequest | mt5_bridge/store.py:196-243 | a new id gets one fresh RECEIVED row; a known id keeps its row untouched and returns it, or the conflict if the fingerprint differs |
| BridgeTable.BridgeStore.UpdateIdempotencyState | mt5_bridge/store.py:245-279 | the update looks at no state: any existing row gets the new state and the given columns, the others keep theirs |
| BridgeTable.BridgeStore.TransitionIdempotencyState | mt5_bridge/store.py:281-334 | compare-and-set: succeeds and updates exactly when the row is in the expected state, else changes nothing |
| BridgeTable.BridgeStore.FindIncompleteAtStartup | mt5_bridge/store.py:343-356 | returns exactly the ids in RECEIVED or SUBMITTED, so it is empty exactly when nothing is incomplete |
| BridgeTable.BridgeStore.ReadJournalForClientOrderId | mt5_bridge/store.py:406-424 | all journal entries of one id and no others, in journal order: there is a rising list of places, exactly those of the id, whose entries they are |
| BridgeTable.EntriesAreHistory | mt5_bridge/store.py:406-424 | every journal and id has such a list of places |
| BridgeTable.BridgeStore.AppendJournal | mt5_bridge/store.py:375-386 | the journal only grows at its end |
| BridgeTrading.Backend.OrderSend | mt5_bridge/backend.py:455-482 | an executed order opens a position under the next ticket, tagged with its client order id, or removes the position it closes; the call is on record with its answer even when it raises |
| BridgeDriver.DrivenIsRun | mt5_bridge/trading.py:245-744 | wherever a schedule drives a thread is a run of the protocol in which that thread takes steps and nothing else: it is neither aborted nor caught in a crash |
| BridgeTrading.BridgeThread.BeginIdempotentRequest | mt5_bridge/trading.py:259-297 | one atomic step of the protocol: the returned record decides between conflict, replay, refusal and going on |
| BridgeTrading.BridgeThread.RequireTradingPermissions | mt5_bridge/trading.py:186-213 | two fresh reads; the request is rejected exactly when one of them raises, the terminal is not connected or not allowed to trade, or an account flag is off |
| BridgeTrading.BridgeThread.TerminalizePreSubmissionReject | mt5_bridge/trading.py:747-780 | exactly if the compare-and-set meets a RECEIVED row: the row ends REJECTED with the error code, the rejection is the last journal entry and the failure is raised; otherwise the table is left alone and reconciliation is required |
| BridgeTrading.BridgeThread.Submit | mt5_bridge/trading.py:380-402 | the RECEIVED to SUBMITTED compare-and-set, and the journal entry only if it succeeded |
| BridgeTrading.BridgeThread.SendAndRecord | mt5_bridge/trading.py:403-480 | the reply decides outcome, row and journal: an exception leaves the row SUBMITTED, another code REJECTED with that code, done FILLED with the returned payload, whose price and volume are the reply's where it names them, whose identifiers are the broker's and whose quote is the order's |
| BridgeTrading.BridgeThread.PlaceDemoOrder | mt5_bridge/trading.py:245-479 | the open ends where its schedule drives the protocol; the first of its checks that fails, in order and each in terms of what it met at that step, decides the answer; order_send is called if and only if all of them pass, kill switch, reconciliation, position count, minimum volume and order_check included, and otherwise no call of this thread exists; a returned result is the payload of a FILLED row |
| BridgeTrading.BridgeThread.CloseDemoPosition | mt5_bridge/trading.py:482-744 | the same for a close of the position with the requested ticket, which asks neither kill switch nor reconciliation |
| BridgeTrading.BridgeThread.SentOpenExactlyWhen | mt5_bridge/trading.py:299-385 | the answers of an open mean order_send was called if and only if account, table, permissions, kill switch, reconciliation, free slot, symbol, minimum volume, fresh quote, order_check and the compare-and-set all let it through |
| BridgeTrading.BridgeThread.SentCloseExactlyWhen | mt5_bridge/trading.py:535-640 | and those of a close if and only if account, table, permissions, an open position with its ticket, symbol, fresh quote, order_check and the compare-and-set do |
| BridgeGates.ActiveSwitchStopsOpens | mt5_bridge/trading.py:306-307 | from any state with the kill switch active, over every continuation that does not release it, crashes included, every open that is sent is one that had already passed the switch |
| BridgeGates.OutcomeTellsWhetherSent | mt5_bridge/trading.py:403-480 | in every run a request that called order_send ends with a new result or the send failure, unless it is cut off; any other outcome means it made no call |
| BridgeGates.NothingHappensUnlogged | mt5_bridge/trading.py:259-479 | in every run each row has its begin entry, each call its order_check and submitting entries and a close its context entry, each conflict, replay, rejection, failure, fill and resolution its own |
| BridgeTrading.BridgeThread.ResolveReceivedAttempt | mt5_bridge/reconciliation.py:65-163 | the manual resolution goes through if and only if the row is RECEIVED without identifiers, the journal has no submission evidence, both backend reads answer, no open position and no working order carries the tag, and the row is still RECEIVED at the compare-and-set; success means order_send was never called for the id, the row is REJECTED as aborted, and the verdict recomputed from what it then met is stored |
| BridgeWitnesses.ResolutionGoesThrough | mt5_bridge/reconciliation.py:87-163 | from every serving state a received attempt without evidence can be resolved: there is a run to the rejected row and the reported verdict |
| BridgeTrading.BridgeThread.RunReconciliation | mt5_bridge/reconciliation.py:166-212 | UNKNOWN exactly if one of the two backend reads raises, else MISMATCH exactly if the table read afterwards is incomplete, else OK; the verdict is stored |
| BridgeSafety.RunKeepsInv | mt5_bridge/trading.py:245-744 | the ownership invariant is kept by every run: rows, submitter history, broker calls, journal evidence and every thread's program counter fit together |
| BridgeSafety.EffectOnTable | mt5_bridge/store.py:245-334 | no step of any thread moves a row off its edges, including the unconditional update, because only the owner of a SUBMITTED row can reach it |
| BridgeTheorems.AtMostOneSend | mt5_bridge/trading.py:380-404 | in every run order_send is called at most once per client order id, and only by the thread recorded as having moved that row to SUBMITTED |
| BridgeTheorems.SubmitterIsTheMover | mt5_bridge/store.py:303-334 | that record gains an entry exactly when a row moves RECEIVED to SUBMITTED, names the thread that moved it, and is never overwritten |
| BridgeTheorems.EveryMoveIsAnEdge | mt5_bridge/store.py:245-334 | one action moves a row only RECEIVED to REJECTED, RECEIVED to SUBMITTED or SUBMITTED to FILLED or REJECTED, and never changes its request hash |
| BridgeTheorems.RowsAreStamped | mt5_bridge/store.py:219-334 | every change of a row carries the clock reading of the step that made it; a new row has that reading as both stamps, and created_at never changes |
| BridgeTheorems.RowLifecycle | mt5_bridge/trading.py:411-457 | over every continuation a row only moves forward, and once terminal it keeps state, payload and all other columns for ever |
| BridgeTheorems.ResolutionExcludesSend | mt5_bridge/reconciliation.py:87-163 | once a resolution of an id succeeded, no order_send for it happened before or ever happens after, whatever requests were in flight |
| BridgeTheorems.SentCannotBeResolved | mt5_bridge/reconciliation.py:141-151 | once order_send was called for an id, no step of a resolution of it succeeds or changes the table |
| BridgeTheorems.ReceivedHasNoEvidence | mt5_bridge/reconciliation.py:94-139 | the identifier, journal and live-position checks never refuse a reachable RECEIVED row: no identifiers, no submission evidence, no open position with its tag |
| BridgeTheorems.CrashedSubmissionIsAbsorbing | mt5_bridge/__main__.py:47-56 | a row left SUBMITTED by a crash never changes again; whenever the bridge serves, the stored state is MISMATCH or UNKNOWN; no reconciliation reports OK; no open reaches order_send |
| BridgeTheorems.OrphanBlocksOkExactlyWhen | mt5_bridge/reconciliation.py:200-212 | with an ownerless SUBMITTED row, OK is never stored again if and only if it is not stored now and no reconciliation in flight carries it |
| BridgeWitnesses.ClosesAreNotGated | mt5_bridge/trading.py:546-556 | from every serving state a close of an open position with a fresh id can reach order_send, whatever kill switch and reconciliation say, and sends the close of exactly that position |
| BridgeWitnesses.CrashedBridgeStillCloses | mt5_bridge/__main__.py:47-56 | after a crash that left a row SUBMITTED the bridge can come back with MISMATCH stored and close any open position |
| BridgeWitnesses.GuardAdmitsDuplicates | mt5_bridge/trading.py:291-297 | whenever an open with a fresh id would be admitted, two requests with that id can both pass the guard over a RECEIVED row and stand at the compare-and-set together |
| BridgeGuard.GuardPassesExactlyWhen | mt5_bridge/trading.py:276-297 | over every run, a request that finds a row with its fingerprint goes on to its checks if and only if the row is RECEIVED, or SUBMITTED with updated_at equal to created_at |
| BridgeWitnesses.GuardAdmitsSubmittedDuplicate | mt5_bridge/trading.py:291-297 | and a request whose id is already SUBMITTED can, when the clock read the same twice |
| BridgeWitnesses.StaleOkHidesStuckRow | mt5_bridge/reconciliation.py:200-212 | a preempted reconciliation can store OK over a later MISMATCH, and the next open, with a free position slot, is let through beside a stuck row |
| BridgeWitnesses.RacesAreReachable | mt5_bridge/app.py:448-450 | the stale verdict and both kinds of duplicates exist from the very first start of the bridge, for any two ids and room for a single position |
| BridgeWitnesses.BootServes | mt5_bridge/__main__.py:47-56 | a start, first or after a crash, can lead to serving with the verdict on the table it found: MISMATCH if incomplete, else OK |
| BridgeReplay.ReplayFidelity | mt5_bridge/trading.py:265-280 | once an id is FILLED, later requests with the same fields can only replay the stored payload, others can only conflict; they change only the journal, across restarts |
| BridgeReplay.ResultsAgree | mt5_bridge/trading.py:437-457 | any two requests for one id that return a result return the same one |
| BridgeWitnesses.ReplayIsAnswered | mt5_bridge/trading.py:276-280 | a matching request for a FILLED id can always run to the replayed result |
| BridgePayload.FilledRowsAnswer | mt5_bridge/trading.py:428-457 | in every run a FILLED row answers its own request: id, volume or position as asked for, columns equal to the payload's identifiers, slippage measured adversely against the side it was sent at, for a close the side opposite to the position with that ticket, whose whole volume it closed |
| BridgePayload.EveryCallCarriesOut | mt5_bridge/trading.py:549-604 | in every run each order_send carries out the request of its row: an open asks for that symbol, side and volume; a close names the requested ticket and deals that position's volume on the opposite side |
| BridgePayload.TicketsIdentify | mt5_bridge/backend.py:463-475 | over a whole run a ticket belongs to one position only, so the position a close names is unique |
| BridgePayload.ResultsAnswer | mt5_bridge/trading.py:707-744 | in every run a returned result, new or replayed, answers the fields of the request that got it |
| BridgeReport.FilledRowsReport | mt5_bridge/trading.py:429-457 | in every run the payload of a FILLED row reports one order_send call of its id: the price and volume the broker filled at, or the order's own where the reply names none, its order and deal numbers, and the moment of the answer |
| BridgeReport.ResultsReport | mt5_bridge/trading.py:437-479 | the same for every result returned, new or replayed |
| BridgeReport.ResultNamesItsPosition | mt5_bridge/trading.py:433-435 | an executed open left, under its tag, the position its result names, with its symbol, side and volume |
| BridgeBroker.OnePositionPerClientOrder | mt5_bridge/backend.py:463-478 | in every run open positions have distinct tickets, and those of the bridge distinct client order ids, each of an id order_send was called for |
| ServerClock.ServerClockOffset.ToUtc | mt5_bridge/server_clock.py:72-132 | calibration and returned time of one tick, refusals included |
| ServerClock.NearestIsNearest | mt5_bridge/server_clock.py:51-58 | the rounded value is a multiple of 1800 s, and no other multiple is nearer |
| ServerClock.TickOnBoundary | mt5_bridge/server_clock.py:84-115 | a tick within 5 s of a half-hour boundary installs exactly that boundary, dated now unless it was known already, or is refused if it is out of range, with the error of a first or of a later calibration |
| ServerClock.TickOffBoundary | mt5_bridge/server_clock.py:91-132 | a tick off every boundary teaches nothing: with calibration it is corrected by the known offset; without one it is refused, as out of range exactly from 14 h 15 min off |
| ServerClock.EveryOffsetIsAligned | mt5_bridge/server_clock.py:102-132 | after every history of ticks and resets the offset is a multiple of 1800 s within 14 h |
| ServerClock.SelfStabilizing | mt5_bridge/server_clock.py:84-132 | whatever the history, one tick at now + 1800k + d with d within 5 s leaves the offset exactly 1800k and returns now + d |
| ServerClock.ReturnedTimes | mt5_bridge/server_clock.py:84-132 | every returned time is within 5 s of now or is raw minus an unchanged offset; a refused tick changes nothing |
| FxCosts.CrossingsBetween | src/fx/backtesting/costs.py:238-254 | the day loop returns the crossings of the interval, terminates, and refuses an interval that runs backwards |
| FxCosts.CrossingsAreExact | src/fx/backtesting/costs.py:238-254 | that list holds every configured rollover instant in (start, end], nothing else, each once and in order |
| FxCosts.CrossingsAdd | src/fx/backtesting/costs.py:238-254 | the crossings of adjacent intervals join to those of the whole: none lost or charged twice at the seam |
| FxCosts.ChargesExact | src/fx/backtesting/costs.py:164-215 | the financing of a position is its side's rate per lot times the crossings, those on the triple weekday counted three times |
| FxCosts.WeekdaysFollow | src/fx/backtesting/costs.py:212-215 | a whole day has one weekday, the next day the next, and second 0 is a Thursday |
| FxLoop.AccruedSwap | src/fx/backtesting/engine.py:146-166 | one charge for every crossing of the bar, or the error for a swap model without schedule |
| FxLoop.FxBacktest.ProcessBar | src/fx/backtesting/engine.py:138-208 | one iteration: accrue, close, stop on insolvency, open, mark |
| FxLoop.FxBacktest.Liquidate | src/fx/backtesting/engine.py:210-219 | an open position is closed at the last bar's OPEN, replacing the last point |
| FxLoop.FxBacktest.Run | src/fx/backtesting/engine.py:115-235 | the imperative loop returns exactly the result of the state function, errors included; the two theorems that follow say what that result is |
| FxEquity.TradesAreBlocks | src/fx/backtesting/engine.py:134-219 | a run makes exactly one trade for each block of the shifted signals that ended while it ran, in order, of its side, from its first bar to the bar after it, and one for the block at the end of the data if it was not stopped |
| FxEquity.CurveIsWorth | src/fx/backtesting/engine.py:195-235 | every point has its bar's time and target, and its equity is the initial balance, the net PnL of the trades booked by then, and what closing the open position at that close would book with the financing accrued since it was opened, before exit slippage and commissions; at the end it is the balance |
| FxEquity.CarriedInOrder | src/fx/backtesting/engine.py:146-166 | in a run with a result no position was carried backwards in time, nor over midnight with a swap model but no rollover schedule |
| Segments.SegsExact | src/fx/backtesting/engine.py:138-192 | those blocks are exactly the maximal runs of one target other than flat that have ended, each once and in order |
| FxAccounting.RunConserves | src/fx/backtesting/engine.py:172-235 | balance = initial + sum of net PnL; an unterminated run ends flat with equity equal to balance; every trade is the round trip of two bars with its exact financing |
| FxAccounting.RunAccounted | src/fx/backtesting/engine.py:146-180 | after every bar, accrued swap is the charge over the crossings since the position opened, through bars, flips and closes |
| FxAccounting.TradeCosts | src/fx/backtesting/engine.py:252-339 | spread cost is entry spread (LONG) or exit spread (SHORT) x point x exposure, slippage cost 2 x points x point x exposure, commission nothing, twice the rate per side or once the round-turn rate x lots, net PnL the execution PnL less commission and swap over (open, close] |
| FxAccounting.TradePrices | src/fx/backtesting/execution.py:109-133 | a trade fills at the open of its bars: a buy at the ask plus slippage, a sell at the bid less slippage; it exists only with one currency and positive metadata |
| FxAccounting.MarkIsLiquidationValue | src/fx/backtesting/engine.py:341-360 | an open position is marked at what closing at that price would book, before exit slippage and commission |
| FxAccounting.CostsAreCosts | src/fx/backtesting/engine.py:311-316 | spread, slippage and commission of every round trip are non-negative |
| FxRuns.NoLookahead | src/fx/backtesting/engine.py:134-208 | bars equal through i and signals equal through i-1 give equal states after bar i |
| FxRuns.SamePastSameRecord | src/fx/backtesting/engine.py:134-219 | two results with the same past contain the same points and trades of it; liquidation only adds after it |
| FxRuns.InsolvencyPolicy | src/fx/backtesting/engine.py:180-219 | with the policy on, every point before the last is positive and there is one point per processed bar; a terminated run ends at or below zero, and its trades, position and balance stay those of the bar that stopped it |
| FxRuns.StopsOnlyIfAsked | src/fx/backtesting/engine.py:180-208 | without the policy no run is stopped |
| FxRuns.BrokenFlipOpensNothing | src/fx/backtesting/engine.py:172-190 | a flip whose close leaves balance at or below zero ends the run flat on that bar; no second leg, no later trade |
| FxMonotone.CostsOnlyHurt | src/fx/backtesting/engine.py:142-219 | more slippage, spread or commission: a result whenever the cheaper run has one, same positions while it lasts, no later stop, no higher equity before its last point, no better trade; whole curve and balance if it is not stopped |
| FxMonotone.FillsGetWorse | src/fx/backtesting/execution.py:109-133 | a buy never gets cheaper and a sell never dearer with more spread and slippage |
| FxMonotone.NetIsExecution | src/fx/backtesting/engine.py:252-339 | the reference and spread-only PnL cancel: net PnL is execution PnL less commission and swap |
| FxSharpness.FlipWitness | src/fx/backtesting/engine.py:184-192 | for every signal sequence with a direct flip there are prices and slippages for which the costlier run's last point is higher |
| FxSharpness.LastBarWitness | src/fx/backtesting/engine.py:204-219 | the same for every sequence that wants a position on the last bar: CLOSE mark against OPEN liquidation |
| FxSharpness.LastPointDominatedExactlyWhen | src/fx/backtesting/engine.py:172-219 | the last point is dominated for all prices and costs if and only if there is no direct flip and no position wanted on the last bar |
| FailedBreakout.DailyRangeFailedBreakout | src/fx/strategies/phase5h_failed_breakout.py:15-61 | the streaming loop computes the machine's output for every bar sequence; control is flat; an unknown variant is an error |
| FailedBreakout.StreamingIsDefinition | src/fx/strategies/phase5h_failed_breakout.py:22-61 | for chronological bars that output equals a definition without state, over all bars of calendar day D-1 |
| FailedBreakout.BlocksStartAtConfirmations | src/fx/strategies/phase5h_failed_breakout.py:48-60 | a block starts at i exactly when bar i-1, same day, not held and not a confirmation, closed beyond the whole range of day D-1 and bar i closes strictly inside it |
| FailedBreakout.RangeDecides | src/fx/strategies/phase5h_failed_breakout.py:29-49 | the recorded range is the true minimum low and maximum high of that day, and exists exactly when the day has bars |
| FailedBreakout.TargetsAreBlocks | src/fx/strategies/phase5h_failed_breakout.py:37-54 | every block is four targets of one side followed by flat, unless the data end |
| FailedBreakout.TargetsAreCausal | src/fx/strategies/phase5h_failed_breakout.py:28-61 | for any bars, the targets of a longer history begin with those of the shorter one |
| Phase5hTargets.CompletedTargets | src/fx/research/phase5h_runner.py:87-110 | a target is flattened exactly when it lies in the first four of a block, of the original list, that starts too late; length is kept |
| Phase5hTargets.ValidatePreEngineTargets | src/fx/research/phase5h_runner.py:113-124 | passes exactly when lengths agree and every block is complete; otherwise names the first incomplete block |
| Phase5hTargets.CleanedIsComplete | src/fx/research/phase5h_runner.py:87-124 | whatever list of blocks is cleaned, the result passes the validator |
| Phase5hTargets.CleanedKeepsCompletable | src/fx/research/phase5h_runner.py:101-107 | cleaning keeps exactly the blocks with room for entry and four bars |
| Phase5hSchedule.RunOnSchedule | src/fx/backtesting/engine.py:138-208 | for complete blocks every trade is one block's: opened on the bar after its start, closed four bars later, held 4; the open position is always the one whose block wants it |
| Phase5hSchedule.NothingToLiquidate | src/fx/backtesting/engine.py:210-219 | for complete blocks the end-of-data liquidation never fires |
| Phase5hSchedule.EveryBlockIsTraded | src/fx/backtesting/engine.py:168-192 | as long as the run goes on, every complete block that is over has its trade |
| Phase5hEvents.TradesOfBlocks | src/fx/backtesting/engine.py:134-219 | for complete blocks a result has exactly one trade for each block whose four bars and exit lie among the bars processed, in order, from the bar after its start to the fifth |
| Phase5hSchedule.EngineSucceeds | src/fx/backtesting/engine.py:138-208 | with one currency, positive metadata and a rollover schedule the engine raises on no chronological bars |
| Phase5hRun.TradeRecords | src/fx/research/phase5h_runner.py:138-148 | succeeds exactly when every trade passes the index, signal, holding and record checks, with one record per trade in order |
| Phase5hRun.Reconcile | src/fx/research/phase5h_runner.py:160-164 | the six sums and the verdict of the run-level accounting check |
| Phase5hRun.TotalsAreSums | src/fx/research/phase5h_runner.py:160-164 | each of the six totals is the sum of its own column over the records |
| Phase5hRun.IdentitiesReconcile | src/fx/research/phase5h_runner.py:160-164 | records that each balance always pass the run-level check |
| Phase5hRun.EveryTradeHasRecord | src/fx/research/phase5h_runner.py:138-148 | for chronological bars on which no entry bar shares its time with the bar four later, no trade of any engine result over complete blocks makes the record checks fail; with strictly increasing times the record is that of the trade's own bars |
| Phase5hRun.BlockIsRecordedExactlyWhen | src/fx/research/phase5h_runner.py:139-147 | for chronological bars a block's record is refused by the holding check exactly if the target before the last bar with its entry time is flat, and otherwise names the bars its two times lead to |
| Phase5hRun.RunStage | src/fx/research/phase5h_runner.py:179-193 | for chronological bars only the engine and the holding check can fail: the engine not with complete metadata, the holding check not if time passes during every holding period; a result is one record for each trade of the engine run over the cleaned targets, in order; with strictly increasing times these are the records of exactly the confirmations whose exit the run lived to see, all of them unless it was stopped; the control variant returns no record and no error |
| Phase5hRun.EveryEventIsTraded | src/fx/research/phase5h_runner.py:182-189 | for chronological bars, unless insolvent, every confirmation with room for entry and four bars has its trade |
| Phase5hTimestamps.RunIsRecordedExactlyWhen | src/fx/research/phase5h_runner.py:138-148 | for any configuration, a run that is not stopped passes all record checks if and only if every block's target before the last bar with its entry time is not flat |
| Phase5hTimestamps.NeverRefusedExactlyWhen | src/fx/research/phase5h_runner.py:138-148 | for chronological bars, no run of any configuration over any complete blocks is refused a record if and only if no entry bar shares its time with the bar four later; otherwise already a stage configuration is refused one |
| Phase5hTimestamps.RecordNamesItsBarsExactlyWhen | src/fx/research/phase5h_runner.py:139-146 | the looked-up entry (exit) bar is the trade's own if and only if the bar after it is later |
| Phase5hTimestamps.WrongBarIsAccepted | src/fx/research/phase5h_runner.py:139-147 | if just the bar after the entry shares its time, the record is accepted with that bar's open as entry reference and the entry bar as signal |
| Phase5hTimestamps.EqualTimesAreRefused | src/fx/research/phase5h_runner.py:182-189 | nine bars on which the strategy's own event is traded and refused its record under a stage configuration |
| LongFlat.Backtest.ProcessBar | src/backtesting/engine.py:134-198 | one bar: enter or exit at the open against slippage and fee, mark at the close |
| LongFlat.Backtest.ForceClose | src/backtesting/engine.py:200-228 | an open position is sold at the last close and replaces the last point |
| LongFlat.Backtest.Run | src/backtesting/engine.py:84-252 | the loop returns the specified result or the first validation error, a result exactly for valid inputs; its assertion about warm-up trades never fires; the two theorems that follow say what that result is |
| LongFlatSchedule.TradesAreBlocks | src/backtesting/engine.py:113-228 | a run makes exactly one trade for each block of bars from evaluation_start on whose previous signal is LONG, in order: entered at the first bar's open plus slippage with the configured fraction of the capital and all earlier net PnL, the fee out of it, and left at the open after the block, or the last close, less slippage and fee |
| LongFlatSchedule.CurveIsWorth | src/backtesting/engine.py:184-247 | every point has its bar's time, is LONG exactly if that bar wants a position, and its equity is the uncommitted cash and the position at the close; a forced close turns the last point into FLAT with the capital and all net PnL |
| LongFlat.ValidateOhlcv | src/data/validation.py:85-118 | accepts exactly increasing timestamps, positive prices, non-negative volume and consistent highs and lows |
| LongFlatTheorems.CostsNeverHelp | src/backtesting/engine.py:118-228 | with fractions in [0,1] a higher fee or slippage gives no more equity at any bar, forced close included, the same positions, and never a negative value |
| LongFlatTheorems.NeverNegative | tests/test_engine_invariants.py:130-140 | no equity point and no final equity is negative, for all prices and signals |
| LongFlatTheorems.WarmupIsInvisible | src/backtesting/engine.py:113-140 | with evaluation_start e at least 1 the result equals that of the suffix from row e-1 with evaluation_start 1 |
| LongFlatTheorems.BooksAddUp | src/backtesting/engine.py:154-245 | final equity = capital + sum of net PnL; each net PnL = gross PnL - entry fee - exit fee; no trade is entered before the evaluated period |
| LongFlatTheorems.EnteringCosts | src/backtesting/engine.py:140-152 | entering changes the account's worth at that price by exactly its fee and the slippage on the size bought |
| LongFlatTheorems.ExitingCosts | src/backtesting/engine.py:155-180 | exiting changes it by exactly its fee and the slippage on the size sold |
| LongFlatTheorems.SelfFinancing | src/backtesting/engine.py:134-228 | without costs a bar changes equity only by the price move on the position held, overnight and intraday, and the forced close changes it not at all |
| LongFlatTheorems.NoLookahead | src/backtesting/engine.py:113-140 | the state after n bars depends on those bars and on the signals before the last of them only |
| SpreadCalibration.SortedIsSorted | src/fx/cost_calibration.py:178-183 | sorting orders and permutes |
| SpreadCalibration.QuantileIsLeast | src/fx/cost_calibration.py:142-147 | the nearest-rank quantile is an observed value and the least one that the asked-for share of values does not exceed |
| SpreadCalibration.MedianSplits | src/fx/cost_calibration.py:150-156 | at least half of the values lie at or below the median and at most half strictly below it |
| SpreadCalibration.CalibrateSpreadByHour | src/fx/cost_calibration.py:159-185 | per hour: count, missing, and median and P95 exactly when there are enough observations; a minimum below 1 is an error |
| CalibrationColumns.ColumnsAreExact | src/fx/cost_calibration.py:168-185 | in every calibration each row has its hour, the number of bars of that hour with and without an observed spread, and, exactly if there are enough, their median and the least observed spread that 95 of 100 do not exceed; likewise the totals |
| CalibrationColumns.MedianIsMiddle | src/fx/cost_calibration.py:150-156 | the median is the value in the middle, or halfway between the two, where a place is fixed by how many values lie below |
| CalibrationColumns.CountIsBars | src/fx/cost_calibration.py:168-177 | the observations of an hour that do not exceed a value are as many as the bars of that hour with such a spread |
| SpreadCalibration.EveryBarIsCounted | src/fx/cost_calibration.py:168-177 | observations plus missing over the 24 hours is the number of bars |
| SpreadCalibration.ApplyHourlyP95Spread | src/fx/cost_calibration.py:188-202 | succeeds exactly when every bar's hour has a P95, and then changes nothing but the spreads; otherwise the error is that of the first bar that cannot be served |
| SpreadCalibration.LastBucketCounts | src/fx/cost_calibration.py:195-195 | of several rows for one hour the last one counts |
| SpreadCalibration.UsableExactlyWhen | src/fx/cost_calibration.py:178-202 | a calibration serves a bar of an hour exactly when its dataset has enough observations of that hour |
| SpreadCalibration.TransformedCovers | src/fx/cost_calibration.py:188-202 | in every hour the transformed spread covers at least 95 of 100 observations, and no lower value does |

## Left out

- HTTP routes, authentication, JSON and SQLite storage, configuration, the CLI and the real MetaTrader
  backend: I/O. The table is a map with atomic methods, the broker's answers are chosen by the environment.
- Request fingerprints are the semantic fields themselves; SHA-256, sanitized messages, account identity
  text, magic number and deviation are not modelled. The comment tag of an order is its client order id,
  and a position opened outside the bridge has none.
- Serializing a stored result to text and back is the identity here: decimals stay exact values.
- Clock readings in the bridge are arbitrary integers, so nothing relies on them being monotone.
- BridgeTrading.Backend.OrderSend: an executed order always reports its order and deal number; a broker that
  fills but omits them is not modelled.
- Quote freshness, symbol tradability and account checks appear as the verdict the environment chooses, with
  the branch each verdict takes; how the verdict is computed is left out.
- A bound on open positions under concurrent opens with different ids: check and send are separate steps.
- FxMonotone.CostsOnlyHurt: at the costlier run's last point domination is claimed only away from a direct
  flip and from a last bar that wants a position, because it is false there (FxSharpness).
- Decimal rounding, binary floating point, NaN and fractional signals: exact reals and integers instead. In
  the long/flat engine a slippage of exactly -1 would divide by zero, so the configuration type excludes it.
- Symbol, lots and contract size are not repeated in positions and trades: one run has one configuration.
- The time-zone checks on timestamps, and the overflow of dates at the ends of the calendar.
- Phase5hRun.RunStage: the frozen input fingerprints, the split by calendar dates, the hourly cost lookup and
  the metrics and attributions of the summary are left out; the stage starts from its bars.
- Quote freshness, gap classification, chronological splits, chunk ranges, swap-unit conversion, indicators,
  bootstrap, Sharpe and study reports: reading one branch or one short loop settles them.
