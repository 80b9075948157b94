# Reverto, verified

A Dafny model of the trading core of Reverto, a bot that opens, averages down, trails and closes
inverse-perpetual deals, and proofs of what that core keeps. The deal engine exists twice in the
program: driven by ticks (`core/trading_engine.py`, `paper/`, `live/`) and by candles
(`backtest/`). Six smaller cores stand beside it: key rotation, exchange accounts, deal matching,
rate limiting, the notification queue and the SQL ledger.

Prices, sizes and balances are `real`. `round()` is `Deals.RoundTo`, half to even with a proved
error bound. The indicator engine is an oracle: arbitrary answers per tick, an arbitrary function of
the visible candles in a backtest. Clocks, random ids and stops of the process are parameters.
`dafny verify dfyconfig.toml` checks everything.

## How the files fit together

| file | what it holds |
|---|---|
| `InversePerpMath.dfy`, `Deals.dfy` | target prices, orders, average entry, profit |
| `TickRules.dfy`, `ExitGuarantees.dfy`, `DcaLadder.dfy`, `DcaLevels.dfy`, `TrailingStop.dfy`, `WickFills.dfy` | the tick engine's decisions on one deal, and what they mean in percentages, prices and over runs |
| `StateIO.dfy` | saving and loading a deal |
| `PaperLedger.dfy` | the ledger object both engines use |
| `DrawdownGuard.dfy` (module `Drawdown`) | the guard, and the report's drawdown figure |
| `EngineRules.dfy`, `EngineRuns.dfy`, `DrawdownLatch.dfy`, `EngineLadders.dfy`, `Restarts.dfy`, `EditLock.dfy` | one tick as a function of the engine's state and its file; money, deals, the latch, ladders, restarts and raising checks over every run |
| `TickOutcomes.dfy`, `GuardReadings.dfy`, `FeeLaw.dfy` | those functions told by their effects: what a tick decides, opens and pays, when the guard trips, what a run costs |
| `TradingEngine.dfy` | the tick engine as objects, each method tied to those functions |
| `CandleRules.dfy`, `CandleExits.dfy`, `BacktestRuns.dfy`, `BacktestLadder.dfy`, `BacktestEngine.dfy` | the same for the candle engine |
| `Lockstep.dfy` | the two engines side by side |
| `Credentials.dfy` | sealed keys and rotation, stopping anywhere |
| `AccountRules.dfy`, `AccountColumns.dfy`, `ExchangeAccounts.dfy` | account rows and blobs: every interleaving, the table column by column, and the program's own order of steps |
| `ParityMatch.dfy`, `RateBudget.dfy`, `LoginWindow.dfy`, `NotifyQueue.dfy`, `DealLedger.dfy` | one core each |
| `Options.dfy`, `Multisets.dfy` | small helpers |

## Where the code does not do what it says

The model follows the code. The members named at each point are the statements about it.

- `backtest/backtest_engine.py:54` claims the paper engine's logic exactly. With wick simulation
  off the engines do move in step (`Lockstep.EnginesInStep`). With it on, they do exactly as long as
  their trailing peaks meet and no take-profit fills away from the market, averaging included
  (`Lockstep.StepAgreesIff`, `InStepIff`); a trailing deal's first tick agrees exactly when it is not
  below the entry (`Lockstep.FirstTickIff`).
- `_check_tp` never reads `price_enabled`; the backtest does (`Lockstep.PriceSwitchIff`).
- Wick simulation can fill a take-profit at a price the market has left. It does exactly when an
  earlier price had reached the target and either that hit was held back (unconfirmed, or short of
  the minimum) or a DCA or an edit moved the target onto it later (`WickFills.WickOnlyFillIff`): with
  the default ladder (`WickFills.PhantomTakeProfit`) and without any DCA (`HeldBackTakeProfit`).
- The cumulative size LiveEngine logs at boot (`live/live_engine.py:145-160`) repeats the base order
  and omits the last DCA, so it bounds the ladder exactly when the multiplier is at least 1 or there
  is no DCA (`DcaLadder.LoggedBoundsLadderIff`).
- `core/trading_engine.py:1887-1893` says a ladder stops when the balance cannot fund its fees. It
  does not: the balance never decides which deals stay, average or close
  (`EngineRuns.BalanceNeverDecides`), and an order whose fee is refused is placed
  (`EngineRuns.UnpaidDcaIsPlaced`, `UnpaidDcaExample`).
- Portal and engine accept any percentage in an edit (`web/routes/deals.py:105-173`). A long's
  target at 100 (a short's at -100) divides by zero, and so does a stop at the opposite
  (`EditLock.AttemptRaisesIff`). The exception ends the tick in its first stage, before any operator
  file is read, so one such edit locks the engine: no later edit, close file or restart helps, only a
  close made in the state file while the bot is stopped (`EditLock.OneEditLocks`, `LockedUntilIff`).
- `web/routes/drawdown.py:30-40` says a running engine picks a reset up on its next tick. The next
  tick that saves overwrites the reset (`DrawdownLatch.ResetIsOverwritten`); only a restart makes it
  effective.
- A trip is lost without any reset if the process restarts before a tick has saved it
  (`DrawdownLatch.UnsavedTripIsLost`); after that it is final (`SavedTripIsFinal`).
- A clock-skewed tick saves the pause it forces, and a restart from that file keeps it for ever
  although nothing tripped (`DrawdownLatch.SkewPauseSurvivesRestart`, `PauseIsForever`).
- The close handler writes the new balance over the old file in mid-tick and leaves the fee total as
  it was. A restart from that file forgets the fees counted since the last snapshot
  (`Restarts.RestartFromMerge`). Every file also rounds every profit to satoshis
  (`paper/state_io.py:58`): up to half a satoshi is lost per deal, and that adds up without limit
  (`Restarts.PnlErrorsBounded`, `ErrorsAddUp`).
- `_cancel` says profit is not realised and writes zeros to the ledger, but `close_deal` books it
  into the balance. While the process runs the balance is what the ledger's profits predict plus the
  cancelled deals' profits (`DealLedger.BalanceVersusLedger`, an invariant of `LedgerEngine`), and one
  cancel parts the two exactly when its price is not the average entry (`DealLedger.CancelPartsIff`).
- After a restart ledger and memory agree exactly when the file has every deal up to date
  (`DealLedger.RestartAgreesIff`): a close that reached the ledger and not the file brings the deal
  back open (`LateCloseDisagrees`), and a current file agrees exactly when rounding changes no booked
  profit (`CurrentFileAgreesIff`).
- The remedy for an interrupted rotation (`core/credentials.py:363-368`), restoring the backup,
  recovers everything exactly when the backup is whole and no blob had been replaced yet
  (`Credentials.RestoreRecoversIff`); a stop in mid-copy leaves a torn backup
  (`Credentials.TornBackupRecoversNothing`).
- `core/exchange_account_store.py:146-149` and `:381-383` say nothing enumerates blobs by file name.
  Rotation does (`Credentials.KeyStore.ListUuids`), so an unreadable orphan makes it refuse.
- `_notify` drops the oldest item without looking again whether the queue is still full. The drop was
  needed exactly when the worker took nothing since the put failed (`NotifyQueue.DropWasNeededIff`,
  and a run where it was not, `NeedlessDrop`).
- The login gate is asked before the password is checked and the failure recorded after, so `m`
  attempts at once can record `9 + m` failures in a window, not 10. `/auth/totp/disable` records
  failures without asking the gate (`web/routes/auth.py:1061`, `:1107`), and those come on top
  (`LoginWindow.FailuresBounded`, `BoundIsReached`).
- `web/routes/auth.py:173-179` rounds the wait up so that nobody is told to come back too early. The
  fraction of a second is dropped before: within a second past a full minute the header is too short,
  and below one second it is 0 (`LoginWindow.HeaderTooShortIff`).
- A replay files order rows under another bot's deal when their ids collide
  (`DealLedger.ReplayTrespassesIff`).
- A token bucket pays out again whatever time the clock steps back
  (`RateBudget.BackwardStepsArePaidAgain`), without limit inside one second (`RateBudget.ClockStepsBack`).
- The report's drawdown is measured from the running peak. It is the largest drop exactly when no
  negative balance lies further below the smallest positive one before it
  (`Drawdown.ReportIsLargestDropIff`), so always while no balance is negative
  (`SolventReportIsLargestDrop`), and sometimes below zero (`DebtExamples`).

## Model

| member | source | states |
|---|---|---|
| InversePerpMath.TpReachedIffReturn | core/inverse_perp_math.py:38-74 | for both sides a price has reached the take-profit target exactly when the return has reached the percentage, and the target realises exactly that |
| InversePerpMath.SlReachedIffReturn | core/inverse_perp_math.py:77-106 | the stop line likewise, for a loss |
| InversePerpMath.ReturnMonotone | paper/paper_state.py:113-172 | a long's return grows with the price, a short's falls |
| Deals.PnlAdditive | paper/paper_state.py:95-172 | a deal's profit at any price is the sum of its orders' profits as deals of their own |
| Deals.TpTargetExact | paper/paper_state.py:113-172 | at the target the profit percentage is exactly leverage squared times the configured one, and reaching the target is reaching that profit |
| Deals.SlTargetExact | paper/paper_state.py:113-172 | the same at the stop line with the opposite sign |
| Deals.PnlMonotone | paper/paper_state.py:113-172 | the BTC profit moves with the price in the deal's direction |
| Deals.RoundTo | core/trading_engine.py:1884-1885 | rounding moves a value by at most half a unit and never below zero |
| Deals.HalvesGoToEven | core/trading_engine.py:1884-1885 | a value half-way between two units goes to the even one |
| TickRules.OpenedIsSound | core/trading_engine.py:1410-1455 | a fresh deal averages its entry price and has usable targets |
| TickRules.CheckDealSound | core/trading_engine.py:1514-1549 | the checks of one tick leave a deal sound |
| TickOutcomes.ConfiguredExits | core/trading_engine.py:1551-1807 | a deal without overrides exits at the configured percentages, or not at all where they are off |
| TickOutcomes.EditedStop | core/trading_engine.py:1710-1807 | an edited stop has the edited kind and fires exactly at the edited percentage; what the edit leaves out is as configured |
| TickOutcomes.EditedTarget | core/trading_engine.py:1563-1632 | so does an edited target |
| TickOutcomes.EditChanges | core/trading_engine.py:1294-1306 | an edit file changes the settings it names in one deal and nothing else |
| TickOutcomes.TickOutcome | core/trading_engine.py:1514-1549 | a whole tick of a deal without a trailing stop: take-profit before stop before DCA, each exactly when its percentages or its plan say so |
| TickOutcomes.OneDealMonitored | core/trading_engine.py:1514-1549 | a deal that leaves is in history at its fill, with its orders, reason and trigger; one that stays is kept as its checks left it |
| TickOutcomes.OneDcaPerTick | core/trading_engine.py:1514-1549 | a tick places at most one DCA over all deals, and one exactly when some deal is due |
| TickOutcomes.OpensAsConfigured | core/trading_engine.py:1410-1478 | direction, leverage, size, price and settings of a new deal |
| TickOutcomes.TickOpensIff | core/trading_engine.py:834-857 | when a tick of an engine without deals opens one |
| TickOutcomes.ClosesAtTick | core/trading_engine.py:1308-1325 | a close or cancel file is obeyed at the tick's price |
| ExitGuarantees.TakesProfitIff | core/trading_engine.py:1551-1645 | a deal takes profit exactly when its best price would realise the goal, the minimum is met now and the exit is confirmed, or when it would not and an indicator group fires; a fill away from the market realises exactly the goal |
| ExitGuarantees.StopsOutIff | core/trading_engine.py:1710-1807 | a fixed stop fires exactly when the loss has reached its goal |
| ExitGuarantees.TakeProfitPays | core/trading_engine.py:1551-1645 | every price take-profit, wick fills included, realises its goal and the configured minimum |
| DcaLevels.DcaPlacedIff | core/trading_engine.py:1843-1885 | an order is placed exactly when averaging is on, the limit not reached, and the price the k-th spacing away from the last fill; spacings grow by the step scale, sizes by the multiplier, and the order has the k-th size rounded |
| DcaLevels.LadderFollowsPlan | core/trading_engine.py:1843-1885 | so every ladder's fills and sizes follow those two sequences |
| DcaLadder.LadderOnEveryRun | core/trading_engine.py:1843-1921 | on every run of ticks of one long deal its orders are such a ladder within the limit, and the list only grows |
| EngineLadders.LaddersOnEveryRun | core/trading_engine.py:1514-1549 | on every run of the engine, with several deals sharing one DCA per tick, edits, closes and restarts, every long deal open, closed or on file is such a ladder |
| EngineLadders.FillsOnEveryRun | core/trading_engine.py:1843-1885 | of an engine that begins without deals, in plain numbers: base order, limit, spacings and sizes of every long deal |
| DcaLadder.LadderDescends | core/trading_engine.py:1857-1882 | later fills of a ladder lie strictly below earlier ones |
| DcaLadder.OpenedLadder | core/trading_engine.py:1410-1445 | a fresh deal is such a ladder |
| DcaLadder.RungLowersAverage | paper/paper_state.py:95-111 | every DCA of positive size strictly lowers the average entry and with it the take-profit target |
| DcaLadder.LoggedBoundsLadderIff | live/live_engine.py:145-160 | the figure logged at boot bounds the ladder's unrounded size exactly when the multiplier is at least 1 or there is no DCA |
| DcaLadder.LoggedGap | live/live_engine.py:145-160 | by how much the logged figure and the full ladder differ |
| DcaLadder.LadderSizeRounded | core/trading_engine.py:1883-1900 | a ladder's size differs from the unrounded one by at most half a unit per DCA |
| TrailingStop.TickIsHistory | core/trading_engine.py:1484-1512 | after one monitored tick the trackers and the trailing peak are the extremes of all ticks since the deal opened |
| TrailingStop.TrailingOnEveryRun | core/trading_engine.py:1710-1807 | over every run the peak equals its history form, and every tick the deal survived was strictly on the safe side of the line |
| TrailingStop.SafeRunsSurvive | core/trading_engine.py:1710-1807 | conversely, on a run of safe ticks only a take-profit closes the deal |
| TrailingStop.OpenedDealTrails | core/trading_engine.py:1410-1807 | both directions from the opening of a deal on |
| TrailingStop.PlainTrailingRun | core/trading_engine.py:1710-1807 | without wick simulation, for both sides: the peak is the best of the checked ticks, and the deal is stopped exactly off their line |
| TrailingStop.LineNeverLoosens | core/trading_engine.py:1740-1800 | a long's stop line never falls and a short's never rises |
| WickFills.WickTpIsHistory | core/trading_engine.py:1585-1645 | the take-profit under wick simulation as a function of the whole price history: held back, at the market, at the target, or by an indicator group |
| WickFills.AwayFillIff | core/trading_engine.py:1585-1645 | a tick fills away from the market exactly when the target was already seen, the tick is short of it, and minimum and confirmation pass |
| WickFills.WickOnlyFillIff | core/trading_engine.py:1303-1645 | over the whole life of a deal, with any edits and ticks whose checks raise: the target was already seen exactly because an earlier tick at it was held back, or a DCA or an edit moved it onto an earlier price |
| WickFills.WickStepIff | core/trading_engine.py:1585-1645 | without a trailing stop wick simulation changes a tick exactly when the target was seen, the tick is short of it, and it is cleared or an indicator group fires |
| WickFills.WickInertIff | core/trading_engine.py:1585-1645 | and a run exactly when some tick of it, up to the closing one, is such a tick |
| WickFills.PhantomTakeProfit | core/trading_engine.py:1585-1645 | with the default ladder a deal closes in profit at a price the market is nowhere near |
| WickFills.HeldBackTakeProfit | core/trading_engine.py:1616-1645 | and without any DCA, when the tick at the target was not confirmed |
| StateIO.DealRoundTrip | paper/state_io.py:28-158 | a deal saved and loaded is the same deal but for its profit figures |
| StateIO.SavedFigures | paper/state_io.py:28-93 | a saved closed deal shows its profit to eight decimals and its percentage to four |
| StateIO.SameRun | core/trading_engine.py:1484-1921 | deals that agree on what a reload keeps have the same future |
| StateIO.RunSplits | core/trading_engine.py:1514-1549 | a run is its first part and then the rest |
| StateIO.RestartIsTransparent | paper/state_io.py:96-158 | saving and loading at any tick leaves every later fill, DCA, close and booked deal as it would have been |
| PaperLedger.PaperState.constructor | paper/paper_state.py:183-188 | an empty ledger |
| PaperLedger.PaperState.OpenDeal | paper/paper_state.py:206-209 | dictionary assignment into the open deals |
| PaperLedger.PaperState.CloseDeal | paper/paper_state.py:211-227 | an open deal is removed, stamped, booked and appended; an unknown id changes nothing |
| PaperLedger.RemovedAt | paper/paper_state.py:211-215 | removing one of several deals with distinct ids leaves the others in order |
| Drawdown.DrawdownGuard.constructor | core/drawdown_guard.py:66-75 | a fresh guard |
| Drawdown.DrawdownGuard.Update | core/drawdown_guard.py:77-114 | one reading: the peak, the latch and what is returned |
| Drawdown.DrawdownGuard.Reset | core/drawdown_guard.py:127-136 | back to a fresh guard |
| Drawdown.DrawdownGuard.ToDict | core/drawdown_guard.py:138-152 | what is saved is the guard |
| Drawdown.DrawdownGuard.FromDict | core/drawdown_guard.py:154-163 | loading restores it; a missing key leaves that field fresh |
| Drawdown.TriggeredIffPairwise | core/drawdown_guard.py:77-114 | an enabled guard is triggered exactly when some positive reading is followed by one far enough below it |
| Drawdown.DisabledNeverTriggers | core/drawdown_guard.py:77-90 | a disabled guard observes nothing |
| Drawdown.CalcMaxDrawdown | backtest/backtest_report.py:106-124 | the report's loop computes the running-peak walk |
| Drawdown.ReportReachesIffPairwise | backtest/backtest_report.py:106-124 | the report reaches a percentage exactly when two balances are that far apart |
| Drawdown.ReportIsPeakDrop | backtest/backtest_report.py:106-124 | the report is the deepest fall of any balance below its running peak |
| Drawdown.ReportIsLargestDropIff | backtest/backtest_report.py:106-124 | it is the largest pairwise drop, and attained, exactly when every negative balance lies no further below the smallest earlier positive one than some balance lies below its running peak |
| Drawdown.SolventReportIsLargestDrop | backtest/backtest_report.py:106-124 | while no running balance is negative it is the largest drop, between 0 and 100 |
| Drawdown.GuardAgreesWithReport | core/drawdown_guard.py:77-114 | guard and report agree on every run of balances |
| Drawdown.DebtExamples | backtest/backtest_report.py:106-124 | 1, 10, -1 is understated; 10, -1 is not |
| EngineRuns.SweepConserves | core/trading_engine.py:1514-1549 | one pass over the open deals conserves the money |
| EngineRuns.BalanceNeverDecides | core/trading_engine.py:1883-1900 | which deals stay, average, close or raise does not depend on the balance |
| EngineRuns.UnpaidDcaIsPlaced | core/trading_engine.py:1883-1915 | a due DCA whose fee is refused is placed; the fee is counted, the cash untouched |
| EngineRuns.UnpaidDcaExample | core/trading_engine.py:1883-1915 | books in which that happens |
| EngineRuns.SweepKeepsDeals | core/trading_engine.py:1514-1549 | no deal is lost or duplicated by a pass |
| EngineRuns.TickKeeps | core/trading_engine.py:782-960 | a tick keeps money and deals accounted for, wherever a raising check or an exception between stages stops it, under any edits |
| EngineRuns.MoneyOnEveryRun | paper/paper_engine.py:55-77 | on every run from any start: one open deal at most if at most one was, every opened deal open or closed and not both, the balance the starting capital plus profit less accepted fees, and at least what the fee total predicts, with equality exactly when no positive fee was refused |
| FeeLaw.FeesOnEveryRun | core/trading_engine.py:1406-1408 | from an engine without deals the fee total is the taker rate on every order of every deal and on every exit that is not a cancel; debits and refusals make it up; the balance is capital plus each closed deal's profit at its closing price less the debits |
| FeeLaw.FeeRefusedIff | paper/paper_engine.py:55-77 | a fee is refused exactly when the balance is smaller, and then only counted |
| FeeLaw.HandlerCash | paper/close_handler.py:206-290 | a close pays the rate on the whole size whatever the balance, a cancel nothing; both book the profit |
| GuardReadings.BalanceTripsIff | core/trading_engine.py:1138-1173 | over every run a guard on the balance trips exactly when two balances after monitoring are the percentage apart |
| GuardReadings.EquityTripsIff | core/trading_engine.py:1120-1173 | and one on the equity exactly when two balances with the open deals' profit are |
| DrawdownLatch.TickDisk | paper/close_handler.py:343-385 | the file a tick leaves: its own snapshot if it saves, otherwise one whose guard, pause and fee total are those of before |
| DrawdownLatch.TrippedTick | core/trading_engine.py:1138-1173 | a tick of a tripped engine, skewed or cut short, enters nothing and stays tripped; its file is tripped afterwards exactly when it was or the tick saved |
| DrawdownLatch.TrippedUntilIff | core/trading_engine.py:834-857 | over every run of ticks, restarts and portal resets a tripped engine stays tripped exactly when every restart finds a tripped file, and while it does it opens no deal on a signal |
| DrawdownLatch.SavedTripIsFinal | core/trading_engine.py:640-653 | once the file is tripped, no run without a portal reset loses the trip or enters on a signal |
| DrawdownLatch.UnsavedTripIsLost | core/trading_engine.py:640-653 | a trip the file does not hold survives a restart after the next tick exactly when that tick saved |
| DrawdownLatch.SkewedTripTakesEffect | live/live_engine.py:171-221 | a trip on a skewed tick is held through any number of further skewed ticks without effect; the first sound tick that reaches the guard pauses the engine, and stops it if so configured |
| DrawdownLatch.SkewPauseSurvivesRestart | live/live_engine.py:171-221 | an untripped, unpaused engine restarts paused exactly when the tick that wrote its file was skewed |
| DrawdownLatch.PauseIsForever | core/trading_engine.py:651-653 | no run of ticks lifts a pause |
| DrawdownLatch.ResetIsOverwritten | web/routes/drawdown.py:25-40 | a portal reset of a running tripped engine is gone after its next tick that saves |
| DrawdownLatch.ResetThenRestartClears | core/trading_engine.py:640-653 | a reset followed by a restart clears trip and pause |
| Restarts.LoadedIsAStart | core/trading_engine.py:608-690 | an engine over any file has its deals accounted for, so that the money statement applies to it |
| Restarts.RestartFromSnapshot | core/trading_engine.py:547-606 | open deals come back in everything a tick reads, of the closed ones the newest fifty with rounded profits; what the fee total leaves unexplained moves by exactly the forgotten profits and the roundings of balance, fees and kept profits |
| Restarts.SnapshotDrift | paper/state_io.py:28-93 | those roundings come to nothing when every figure is whole, and to half a satoshi per kept deal and one for the balance at most, plus half a fee unit |
| Restarts.WholeIff | paper/state_io.py:58 | a figure is written as it is exactly when it is a whole number of units |
| Restarts.RestartFromMerge | paper/close_handler.py:343-385 | after a close in a tick that does not save, a restart has the exact balance, the whole history with rounded profits, and the fee total of the last snapshot; the gap shrinks by the fees since and the rounding errors, none when all profits are whole |
| Restarts.MergedHolds | paper/close_handler.py:343-385 | what the close handler's file holds, key by key |
| Restarts.OfflineClosesAt | web/routes/deals.py:236-374 | the portal's close of a stopped bot is in the file's history at its price, with the profit there |
| Restarts.GuardSurvivesRestart | core/trading_engine.py:640-653 | peak, latch, reason and pause come back from a snapshot |
| Restarts.PnlErrorsBounded | paper/state_io.py:58 | the profits' rounding errors sum to half a satoshi per deal at most |
| Restarts.ErrorsAddUp | paper/state_io.py:58 | and reach that for any number of deals |
| EditLock.AttemptRaisesIff | core/inverse_perp_math.py:38-106 | a check raises exactly at the percentage that divides by zero, the stop's only when take-profit lets the deal stay |
| EditLock.MonitoringTotalIff | core/trading_engine.py:1514-1549 | monitoring completes exactly when no open deal's check raises; with percentages in range it always does |
| EditLock.LockedTick | core/trading_engine.py:834-860 | a tick of an engine whose deal raises moves that deal's trackers and nothing else |
| EditLock.LockedUntilIff | web/routes/deals.py:236-468 | through every run of ticks, restarts and portal resets the engine stays locked exactly when the deal is never closed in the file of the stopped bot; until then no file is obeyed, nothing entered, and cash and deals on file stay as they are |
| EditLock.OneEditLocks | web/routes/deals.py:105-173 | one edit to that percentage, obeyed on a tick that saves, is enough |
| TradingEngine.Engine.constructor | core/trading_engine.py:217-370 | a new engine, over the state file if there is one |
| TradingEngine.Engine.LoadState | core/trading_engine.py:608-690 | what each key of the file restores, and what a missing one leaves |
| TradingEngine.Engine.DeductBalance | paper/paper_engine.py:55-77 | the debit is made exactly when the balance suffices |
| TradingEngine.Engine.OpenDeal | core/trading_engine.py:1410-1478 | the deal under its id and its entry fee, or nothing when the ledger refused |
| TradingEngine.Engine.UpdateWickTrackers | core/trading_engine.py:1484-1512 | every open deal has seen the tick |
| TradingEngine.Engine.CloseOut | core/trading_engine.py:1631-1645 | settle, then charge the exit fee |
| TradingEngine.Engine.MonitorDeal | core/trading_engine.py:1514-1549 | the verdict on one deal is carried out, on the ledger and in cash, or its check raises |
| TradingEngine.Engine.MonitorOpenDeals | core/trading_engine.py:1514-1549 | the loop computes the sweep, at most one DCA per tick, up to the first raising check |
| TradingEngine.Engine.CurrentEquity | core/trading_engine.py:1120-1136 | balance plus unrealised profit |
| TradingEngine.Engine.UpdateDrawdownGuard | core/trading_engine.py:1138-1173 | guard, pause and stop move together |
| TradingEngine.Engine.CheckManualTrigger | core/trading_engine.py:1175-1196 | a forced entry only without an open deal and when it is safe |
| TradingEngine.Engine.ObeySentinel | core/trading_engine.py:1249-1327 | an edit, a cancel or a close of one deal, and the file the last two write |
| TradingEngine.Engine.HandlerClose | paper/close_handler.py:206-290 | the settlement close and cancel share |
| TradingEngine.Engine.PersistState | paper/close_handler.py:343-385 | the handler's keys, profits rounded, over whatever the file held, or nothing when the write fails |
| TradingEngine.Engine.CheckDealSentinels | core/trading_engine.py:1249-1327 | all operator files in order |
| TradingEngine.Engine.CheckEntry | core/trading_engine.py:1383-1404 | an entry only without an open deal, with candles, on a signal |
| TradingEngine.Engine.WriteState | core/trading_engine.py:547-606 | what the state file holds, profits rounded and open deals marked to the price, or the old file when the write fails |
| TradingEngine.Engine.PreTickHook | live/live_engine.py:171-201 | a skewed clock forces the pause and stashes it |
| TradingEngine.Engine.PostTickHook | live/live_engine.py:203-221 | and gives it back |
| TradingEngine.Engine.TickBody | core/trading_engine.py:834-860 | the stages of a tick in order, up to where a raising check or an exception stops it |
| TradingEngine.Engine.Tick | core/trading_engine.py:782-960 | one tick on the objects is one tick of the value model |
| CandleRules.CandleDcaIsTickDca | backtest/backtest_engine.py:303-335 | the second copy of the DCA rule agrees with the first on every long deal |
| CandleRules.CandleKeepsPlain | backtest/backtest_engine.py:187-301 | a candle leaves a deal long, unedited and sound |
| CandleRules.MonitorBalances | backtest/backtest_engine.py:187-195 | monitoring a candle keeps money, fees and deals accounted for |
| CandleRules.EnterBalances | backtest/backtest_engine.py:337-366 | so does an entry |
| BacktestRuns.MoneyOfABacktest | backtest/backtest_engine.py:105-137 | a finished backtest has no open deal, every opened deal in its history once and in order, balance equal to capital plus profit less fees, and fees equal to its deals' entry and exit fees |
| FeeLaw.FeesOfABacktest | backtest/backtest_engine.py:105-137 | its fees are the taker rate on every order and every exit, up to half a unit of the tenth decimal per fee |
| BacktestLadder.EveryBacktestDealIsALadder | backtest/backtest_engine.py:303-335 | every deal in a finished backtest's history is a ladder within its order limit |
| BacktestLadder.EveryBacktestDealFollowsPlan | backtest/backtest_engine.py:303-335 | in plain numbers: base order, limit, spacings and sizes |
| CandleExits.CandleTakesProfitIff | backtest/backtest_engine.py:209-271 | for every candle: profit is taken exactly when the high is worth the goal, at a price worth exactly that, or an indicator group fires, at the close |
| CandleExits.CandleStopsOutIff | backtest/backtest_engine.py:273-301 | a fixed stop fires exactly when the low is worth its loss, and costs exactly that |
| CandleExits.CandleWithoutStop | backtest/backtest_engine.py:273-276 | without a stop a deal that takes no profit stays |
| CandleExits.PeakIsHighest | backtest/backtest_engine.py:283-287 | over a run of candles the trailing peak is the largest of the first open and all highs |
| CandleExits.TrailingStopIff | backtest/backtest_engine.py:283-301 | the trailing stop fires exactly when the low is the percentage below that, and fills there |
| CandleExits.CandleAveragesIff | backtest/backtest_engine.py:303-335 | a deal that stays is averaged exactly when the close is the next spacing away, at the close with the planned size |
| CandleExits.CandleExitBooked | backtest/backtest_engine.py:368-398 | a closed deal is in history at its fill with the profit of its orders there |
| CandleExits.CandleKeepsDeal | backtest/backtest_engine.py:187-195 | a deal that stays is kept as the candle leaves it |
| CandleExits.CandleEntersIff | backtest/backtest_engine.py:196-207 | when a candle opens a deal, and that it does so at the close as configured |
| CandleExits.WarmUpIdles | backtest/backtest_engine.py:117-122 | the first 78 candles change nothing |
| CandleExits.EndsAtLastClose | backtest/backtest_engine.py:129-135 | what is open at the end leaves at the last close |
| BacktestRuns.PointerIsExact | backtest/backtest_engine.py:139-163 | on sorted data the pointer walk shows exactly the candles stamped before the current one |
| BacktestRuns.PointerMonotone | backtest/backtest_engine.py:155-159 | a pointer never goes back |
| BacktestRuns.Causality | backtest/backtest_engine.py:120-128 | two data sets that agree before a candle give the same books after it |
| BacktestEngine.Backtester.constructor | backtest/backtest_engine.py:56-99 | a new backtest |
| BacktestEngine.Backtester.OhlcUpTo | backtest/backtest_engine.py:139-163 | each pointer passes its leading earlier candles and the cuts are returned |
| BacktestEngine.Backtester.CheckTpSlIntracandle | backtest/backtest_engine.py:209-301 | take-profit and stop inside the candle |
| BacktestEngine.Backtester.CheckDca | backtest/backtest_engine.py:303-335 | the DCA at the close and its fee |
| BacktestEngine.Backtester.OpenDeal | backtest/backtest_engine.py:337-366 | an entry under its id and its fee; into an empty ledger it is the value model's entry |
| BacktestEngine.Backtester.CloseDeal | backtest/backtest_engine.py:368-398 | an exit and its fee; an unknown id is ignored |
| BacktestEngine.Backtester.ProcessCandle | backtest/backtest_engine.py:169-207 | one candle on the objects is one candle of the value model, and at most one deal is open |
| BacktestEngine.Backtester.CloseRemaining | backtest/backtest_engine.py:129-135 | what is open leaves at the last close |
| BacktestEngine.Backtester.Run | backtest/backtest_engine.py:105-137 | the whole backtest, with the pointers' total steps at most the data's length |
| Lockstep.EnginesInStep | backtest/backtest_engine.py:54 | with wick simulation off both engines hold the same orders and peak on every price series until they close on the same tick for the same reason, fills differing only in that the backtest fills at its line |
| Lockstep.BacktestBounds | backtest/backtest_engine.py:253-300 | live take-profits pay at least the backtest's, live stops cost at least as much |
| Lockstep.PriceSwitchIff | core/trading_engine.py:1551-1600 | with wick simulation off and the price take-profit switched off the engines agree on a tick exactly below the target |
| Lockstep.FirstTickIff | core/trading_engine.py:1740-1760 | under wick simulation a trailing deal's first tick agrees exactly when it is not below the entry |
| Lockstep.WickTrailingInStepIff | core/trading_engine.py:1740-1800 | and, without averaging, so does the whole run |
| Lockstep.StepAgreesIff | core/trading_engine.py:1585-1807 | under either setting and with averaging, one step agrees exactly when the peaks meet and no fill away from the market happens |
| Lockstep.InStepIff | core/trading_engine.py:1585-1807 | and a run exactly when every step of it does, a condition on the tick engine alone |
| Credentials.ContentRoundTrip | core/credentials.py:258-312 | both stored forms read back as what was saved |
| Credentials.KeyStore.Read | core/credentials.py:202-312 | the dictionary, or None for a missing or unreadable blob; with a blob and no key file it makes a key that opens nothing stored before |
| Credentials.KeyStore.SaveKeys | core/credentials.py:233-279 | a stop leaves the old blob or the new one; other blobs and the key are untouched |
| Credentials.KeyStore.DeleteKeys | core/credentials.py:314-335 | exactly one blob goes |
| Credentials.KeyStore.ListUuids | core/credentials.py:339-347 | every `.enc` file once |
| Credentials.KeyStore.LoadAll | core/credentials.py:381-393 | everything decrypts, or the rotation is off |
| Credentials.KeyStore.Rotate | core/credentials.py:349-439 | refused without a change exactly when something is unreadable; otherwise stopped in one of three recoverable shapes or completed |
| Credentials.CrashSafe | core/credentials.py:349-439 | wherever it stops, every blob opens to its old payload under the key file or this rotation's backup |
| Credentials.KeyFirst | core/credentials.py:421-427 | as long as the key file is the old one, so is every blob |
| Credentials.CompletionKeepsAnswers | core/credentials.py:281-312 | after completion every lookup answers as before |
| Credentials.RerunRefusesIff | core/credentials.py:381-393 | after a stop a second rotation refuses, changing nothing, exactly when the key was replaced and some blob was not |
| Credentials.RestoreRecoversIff | core/credentials.py:363-368 | after any stop that leaves this rotation's backup, restoring it recovers everything exactly when there is nothing to recover or the backup is whole and no blob was replaced |
| Credentials.TornBackupRecoversNothing | core/credentials.py:400-401 | a stop in mid-copy leaves a backup that recovers nothing |
| Credentials.NothingEverLost | core/credentials.py:349-439 | over any number of attempts, stopped anywhere and with any backups swept, every payload still opens with some key on disk |
| AccountRules.InsertKeeps | core/exchange_account_store.py:186-215 | the insert transaction keeps uuids, names, blobs and defaults sound |
| AccountRules.UpdateKeeps | core/exchange_account_store.py:336-373 | so does an update, even of a row deleted meanwhile, and identity columns never change |
| AccountRules.EveryMomentWhole | core/exchange_account_store.py:126-408 | at every moment of every interleaving of creates, updates and deletes, stops included, each row's blob exists with its own keys, uuids and names are unique, and each user has at most one default per exchange |
| AccountRules.NothingLeftOver | core/exchange_account_store.py:216-225 | when all sessions have ended the blobs are the rows' and nothing else |
| ExchangeAccounts.AccountStore.CreateAccount | core/exchange_account_store.py:126-231 | blob first, row second as given, blob taken back on a lost race |
| ExchangeAccounts.AccountStore.UpdateAccount | core/exchange_account_store.py:293-373 | the given columns change and no others, or nothing does; a collision exactly when another row has the alias |
| AccountColumns.UpdateColumns | core/exchange_account_store.py:293-373 | an update is refused exactly when another row has the new alias, else it changes the given columns of one row and at most takes defaults off in its bucket |
| AccountColumns.InsertColumns | core/exchange_account_store.py:186-215 | an insert is refused exactly when the name is taken, else the row is there as given and others at most lose a default |
| ExchangeAccounts.AccountStore.SetDefault | core/exchange_account_store.py:403-408 | this account becomes the only default of its bucket |
| ExchangeAccounts.AccountStore.DeleteAccount | core/exchange_account_store.py:376-400 | row first, blob second |
| ParityMatch.MatchDeals | scripts/parity_compare.py:164-200 | the nested loops compute the greedy matching and both lists of leftovers |
| ParityMatch.GreedyIsMatching | scripts/parity_compare.py:164-200 | the pairs are one-to-one and inside the window |
| ParityMatch.EachTakesNearest | scripts/parity_compare.py:181-192 | each paper deal takes the nearest live deal still free |
| ParityMatch.NearestIsFirst | scripts/parity_compare.py:181-192 | and of several equally near ones the first |
| ParityMatch.OutputsPartitionInputs | scripts/parity_compare.py:193-200 | pairs and leftovers partition both inputs |
| ParityMatch.NothingMissed | scripts/parity_compare.py:180-196 | no leftover pair lies inside the window |
| ParityMatch.AtLeastHalf | scripts/parity_compare.py:164-200 | no valid matching has more than twice as many pairs |
| ParityMatch.HalfIsReached | scripts/parity_compare.py:164-200 | and the factor two is reached |
| RateBudget.CostBudget.Consume | core/rate_budget.py:53-74 | grants exactly when the refilled level suffices, and debits |
| RateBudget.ConsumeInFull | core/rate_budget.py:53-74 | the level a call finds, when it is granted and what it leaves, in plain arithmetic |
| RateBudget.CostBudget.Peek | core/rate_budget.py:76-82 | decides what consume answers for every positive cost |
| RateBudget.CostBudget.Reset | core/rate_budget.py:84-91 | the key, or every key, is full again |
| RateBudget.AdmittedFromInflow | core/rate_budget.py:53-74 | for any clock: what is left and what was admitted came from the opening level and the inflow between consecutive calls |
| RateBudget.AnyClockBound | core/rate_budget.py:24-42 | for any clock a key is admitted at most the budget plus that inflow |
| RateBudget.BackwardStepsArePaidAgain | core/rate_budget.py:65-68 | the inflow is that of the time gone by and once more that of every step back |
| RateBudget.TokenBucketBound | core/rate_budget.py:24-42 | while the clock does not go back a key is admitted at most the budget plus the stretch's refill |
| RateBudget.RejectionsAreNeutral | core/rate_budget.py:69-72 | deleting refused calls changes no later answer |
| RateBudget.KeysAreIndependent | core/rate_budget.py:53-74 | a key's bucket depends on its own calls alone |
| RateBudget.ClockStepsBack | core/rate_budget.py:65-68 | the bound for any clock is reached, and has no limit inside one second |
| LoginWindow.UserStore.IncrementFailedLogin | core/user_store.py:350-396 | one failure: a longer streak or a fresh one |
| LoginWindow.UserStore.ResetFailedLogin | core/user_store.py:399-412 | a clean row, or nothing for an unknown user |
| LoginWindow.UserStore.CheckLoginRateLimit | core/user_store.py:415-454 | who is limited and for how long |
| LoginWindow.FailuresBounded | core/user_store.py:320-454 | no interval shorter than the window without a success holds more than nine failures, plus the attempts that can run at once, plus the failures of handlers that ask no gate |
| LoginWindow.BoundIsReached | web/routes/auth.py:1053-1107 | and that many are possible, for any number of either |
| LoginWindow.CounterIsStreak | core/user_store.py:350-396 | the counter is the number of failures since the last pause of more than fifteen minutes |
| LoginWindow.ShutIff | core/user_store.py:415-454 | the gate is shut exactly after ten of them, for fifteen minutes from the last |
| LoginWindow.SuccessForgives | core/user_store.py:399-412 | a success forgives every failure before it |
| LoginWindow.RoundedToMinute | web/routes/auth.py:158-179 | a full number of minutes, no shorter than the seconds and less than a minute longer |
| LoginWindow.HeaderTooShortIff | web/routes/auth.py:158-179 | after the advertised wait the account is still limited exactly when the remaining time was less than a second past a full minute; the header is 0 exactly below one second, and one second more always suffices |
| NotifyQueue.EveryMomentSound | core/trading_engine.py:468-541 | every interleaving keeps the cap, the order, the sentinel and the drop count right |
| NotifyQueue.FirstInFirstOut | core/trading_engine.py:468-541 | what left the queue and what is in it are, in order, what was sent; whoever was dropped is older than everything queued |
| NotifyQueue.DrainedWhenStopped | core/trading_engine.py:771-776 | when the sentinel ends the worker every notification was dispatched or dropped |
| NotifyQueue.AtMostTwoPuts | core/trading_engine.py:483-503 | a second put always finds room |
| NotifyQueue.DropWasNeededIff | core/trading_engine.py:488-497 | on every run, the queue is still full when a failed put evicts exactly when the worker took nothing in between; the head goes either way |
| NotifyQueue.NeedlessDrop | core/trading_engine.py:488-497 | a run whose drop was not needed |
| NotifyQueue.LatchIff | core/trading_engine.py:488-541 | the latch for the summary line is shut exactly while some drop has not been followed by a drained queue |
| NotifyQueue.Notifier.Notify | core/trading_engine.py:468-503 | the loop ends within two puts with the new item last in the queue |
| NotifyQueue.Notifier.WorkerGet | core/trading_engine.py:514-521 | the worker's take |
| NotifyQueue.Notifier.WorkerFinish | core/trading_engine.py:521-541 | the end of a dispatch and the summary latch |
| DealLedger.WritesStayHome | core/deal_store.py:158-232 | create, update and save never alter another owner's row, and save fails exactly on another owner's id |
| DealLedger.ReplayOnlyAdds | core/deal_store.py:234-285 | a replay alters no row that exists |
| DealLedger.ReplayTwiceIsOnce | core/deal_store.py:234-285 | replaying twice is replaying once |
| DealLedger.ReplayTrespassesIff | core/deal_store.py:256-285 | when a replay files orders under another bot's deal |
| DealLedger.ForeignAgrees | core/deal_store.py:70-91 | foreign steps leave a bot's rows and memory in agreement |
| DealLedger.ForeignSavesAreForeign | core/deal_store.py:175-232 | every update and save of another bot's deal is a foreign step |
| DealLedger.ForeignWritesIff | core/deal_store.py:288-368 | another bot's order or closing is one exactly when it leaves this bot's deal alone |
| DealLedger.ForeignReplay | core/deal_store.py:234-285 | another bot's replay is one exactly when it adds nothing under this bot's deal |
| DealLedger.LedgerEngine.CreateWithRetry | core/trading_engine.py:399-439 | refused, changing nothing, exactly when all three ids are taken |
| DealLedger.LedgerEngine.OpenDeal | core/trading_engine.py:1450-1470 | a refused deal never reaches memory; an accepted one is in both |
| DealLedger.LedgerEngine.AverageDown | core/trading_engine.py:1843-1921 | the order the DCA rule asks for reaches the order row, the deal row, memory and cash together, or nothing changes |
| DealLedger.LedgerEngine.CloseDeal | core/deal_store.py:332-368 | status, reason and profit agree with memory, and the cash moves by profit and fee |
| DealLedger.LedgerEngine.constructor | core/trading_engine.py:217-370 | a bot without rows and its ledger agree |
| DealLedger.LedgerEngine.CancelDeal | paper/close_handler.py:254-290 | a cancel books the profit into the balance and zeros into the ledger |
| DealLedger.BalanceVersusLedger | paper/close_handler.py:254-290 | in every state the balance less what the ledger's profits predict is the sum of the cancelled deals' profits at their cancelling prices |
| DealLedger.ExitInCash | paper/close_handler.py:206-290 | what each kind of exit does to balance and fee total |
| DealLedger.RowColumns | core/deal_store.py:94-155 | a row holds the first order's price, the summed size and the average that makes up their value |
| DealLedger.CancelPartsIff | paper/close_handler.py:254-290 | one cancel parts them exactly when its price is not the average entry |
| DealLedger.LedgerEngine.OthersWrite | core/deal_store.py:158-232 | a foreign step between two of the bot's statements leaves ledger, memory and cash in agreement |
| DealLedger.LedgerEngine.ReplayOnRestart | core/deal_store.py:234-285 | replaying deals as memory holds them, or held them earlier, changes nothing |
| DealLedger.RestartAgreesIff | core/trading_engine.py:687-712 | after a restart from any earlier file the replay changes nothing, and ledger and memory agree exactly when the file has every deal up to date |
| DealLedger.CurrentFileAgreesIff | paper/state_io.py:28-158 | from a current file, exactly when rounding changes no booked profit |
| DealLedger.LateCloseDisagrees | core/trading_engine.py:1647-1708 | a deal closed after the file was written comes back open beside its closed row |

## Left out

- Web portal, Telegram, exchange clients, order placement, process start-up, logging and metrics: input and output.
- The indicator engine: an oracle.
- IEEE floats, JSON text and numeric strings: reals and a value tree; rounding appears as a named function with an error bound.
- Deals are values in the ledger: that two references to one deal object see each other's writes is not captured. Timestamps, bot name, symbol and entry trigger of a deal are dropped, and a side other than long or short is not modelled.
- A configured take-profit or stop of 100 percent, which the configuration admits and which divides by zero in a long's take-profit and a short's stop, is excluded by `TickRules.Config.Valid`; an edit to it is not (`EditLock`).
- EngineRuns.TickKeeps: an exception other than a raising check stops a tick between stages only. Inside a stage the cash moves in single steps, each of which `EngineRuns.ChargeConserves` and `SettleConserves` cover.
- The liquidation guard, the entry schedule and reconciliation: they appear as inputs or not at all.
- TradingEngine.Engine.CheckManualTrigger: the distance to liquidation is an input.
- DrawdownLatch.TrippedUntilIff: entries on a signal; a manual trigger bypasses the pause by design.
- BacktestEngine.Backtester.constructor: the refusal of missing timeframes is not modelled.
- Credentials.KeyStore.ListUuids: each file once, not the sorted order; no result depends on the order.
- DcaLadder.LadderOnEveryRun: long deals only; the program marks the spacing of a short's ladder as unfinished.
- Lockstep.PriceSwitchIff: with wick simulation off; with it on, trailing peaks part as well (`Lockstep.FirstTickIff`).
- Lockstep.WickTrailingInStepIff: without averaging down; with it, `Lockstep.InStepIff` is the condition.
- The engines' fees differ by rounding (ten decimals in the backtest only); `Lockstep` compares positions and fills, not fees.
- Two rotations at once, re-encryption of TOTP seeds, and how long backups are kept: one rotation at a time, `.enc` files only, any set of backups may be swept.
- NotifyQueue.DrainedWhenStopped: says nothing of a worker still busy when the shutdown wait runs out; the summary line the worker logs is not modelled beyond its latch.
- LoginWindow.FailuresBounded: one account; the in-memory counter for unknown user names is not modelled.
- DealLedger.ForeignAgrees: a foreign write that hits this bot's deal is not a foreign step (`DealLedger.ForeignWritesIff`, `ForeignReplay`); database errors other than an id collision are not modelled.
- DealLedger.CurrentFileAgreesIff: the mark a tick's file puts on an open deal's profit is left out; only the row write of that deal's next DCA reads it.
- Schema migrations, changelog, roadmap, portfolio and plugin code: easy members.
