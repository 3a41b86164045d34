# A verified model of a trading-signal detector and its auto-execution layer

The repository finds liquidity-sweep setups on M5 candles, simulates them, and can place and manage
the resulting limit orders through a MetaTrader 5 terminal. This project models the four parts of it
whose correctness is not visible from any one function, and proves what each of them is for.

## What is modelled

**Order execution** (`OrderProtocol`, `OrderSafety`, `OrderTheorems`, `Recovery`, `Desks`,
`Lifecycle`, `KillzoneCleanup`, `StartupRecovery`, `OrderPlacement`, `GivenUp`). The journal and the broker are
two stores that jobs update by separate steps. `OrderProtocol.Step` gives the effect of each atomic
step: broker fills, exits, reductions and removals on their own; placement; the lifecycle poll; any
number of killzone cleanups; crashes; startup reconciliation. Every step may fail, take effect
without being acknowledged, or be overtaken by other jobs, and `update_order_status` writes blindly.
`OrderSafety` proves one invariant for every step, `OrderTheorems` derives what holds over every
history, and `GivenUp` which live orders a startup gives up. The job modules are the loops themselves:
between any two of their broker or journal calls `Desks.Desk.Interfere` lets the others take arbitrary
steps, and each contract says which steps the job takes, in which order, and what it reports.

Assumptions of this part. A broker ticket is pending, open, closed or removed, and moves only
forward; a cancel succeeds only on an order that is still pending; a deal never closes more than is
open. A fill is all or nothing: after a partial fill (`src/execution/order_manager.py:25-26`) a ticket
would be a pending order and an open position at once, and a cleanup could then journal `cancelled`
over an open position. At most one lifecycle poll is in flight at a time. `Config.pollReads` states that a poll's position read returns the real positions or raises, and
`Config.recoveryReads` that recovery's position read succeeds (recovery turns an exception into an
empty list, `src/execution/recovery.py:69-74`). `get_open_positions` returns an empty list when the terminal returns `None`
(`src/mt5_client/client.py:477-479`), so the repository itself guarantees neither; theorems that need
them say so, and `ExitMeansClosedIff` shows that both are needed.

**Detection** (`Sorting`, `Gathering`, `Components`, `UnionFind`, `SweepTypes`, `SweepDedup`,
`SweepDetection`, `Swings`, `StructureShift`, `PointsOfInterest`, `SetupBuilder`,
`LateGaps`, `DecisionTiming`, `Matching`, `SwingLevels`, `EqualLevels`). Sweep detection and its
union-find deduplication, the ATR-filtered fractal swings, the break-of-structure detector, fair value
gaps, order blocks, targets, grading, and the day's bookkeeping over both killzones. What each of these
reports is then characterised, in both directions, by candles, prices and times alone, without the
functions that compute it: `SwingColumn`, `ShiftConditions`, `SweepOrder`, `SameEvents`, `EntryZones`,
`SetupConditions`, `DayOrder`, `LevelConditions`. `Mirror` and `Reflection` show that buying and selling are one strategy: turning the
prices upside down turns every result upside down.

**Simulation and accounting** (`Simulator`, `TradeStory`, `Drawdown`, `LiveR`, `PlanIdentity`,
`OutcomeCache`). Both copies of the trade simulator against one automaton, the automaton against the
candles of the trade's 24 hours, the equity statistics, live R against simulated R, and the grid
search's shared outcome cache.

**Sizing and calendar** (`PositionSizing`, `TradingDay`, `LosingStreak`). The lot size for a risk
budget, the trading day that rolls over at 23:00 in Paris, and the losing streak counted on it.

Prices, volumes and R are `real`; floating point is not modelled. Candle times are whole
microseconds, calendar instants whole seconds, on the UTC line. A raised `ValueError` is `Err` with
the name of the check. Loops of the source are methods with the same branches, proved equal to (or
related to) specification functions, and the lemmas are about those functions.

## What turned out conditional

Several properties the documentation or comments suggest hold only under a condition. Each is stated
with exactly that condition, or with an input on which it fails.

- The TP1 partial close takes effect at most once per ticket exactly when the closed share exceeds the
  guard's own tolerance of 1e-9 lots, or cannot fit twice, or is not positive
  (`OrderTheorems.PartialCloseAtMostOnceIff`).
- A journaled exit means a closed position exactly when no failed position read, of a poll or of
  recovery, is taken for an empty list (`OrderTheorems.ExitMeansClosedIff`).
- Recovery documents itself as safe to call again. Where the broker stays quiet while it runs and until
  the next call, the stores agree after one call, and a second one does nothing, exactly when no orphan
  was stuck and, if the position read failed, every open position is journaled `tp1_hit`
  (`Recovery.InSyncAfterIff`, `Recovery.NextRunIsQuietIff`). Where the broker acts between the calls, the
  second one finds nothing to close exactly when, in addition, every working order has a `pending` row
  and, if there is one, the read of the pending orders succeeded (`Recovery.SafeLaterIff`; a `tp1_hit`
  row would do as well, but no reachable state gives a working order one); otherwise it closes positions
  that were given up (`Recovery.LaterRunClosesThem`).
- Startup gives up a live order in every history exactly as `GivenUp.Overlooked` says: a working one when
  the read of the pending orders failed; an open one with a `filled` row when the position read failed
  and no exit is on record; an open one with a `pending` row when the position read failed or came before
  the fill and the read of the pending orders failed or came after it (`GivenUp.GivesUpLiveIff`,
  `GivenUp.GivenUpLiveWasOverlooked`). So a fill between the two reads suffices where nothing fails
  (`OrderTheorems.FillBetweenReadsIsClosed`), as does a failed read of the pending orders before a fill
  (`OrderTheorems.FailedPendingReadClosesALaterFill`) or a failed position read
  (`OrderTheorems.TwoRestartsCloseALivePosition`): each time the next startup closes the live position.
- `compute_volume` promises never to overshoot the budget by rounding. That holds exactly for volume
  steps that are a whole number of their last decimal; a step of 0.25 is rounded to one decimal and
  can overshoot (`PositionSizing.KeepsBudgetIffExact`).
- Live R and simulated R of a runner exit agree exactly when half the position is closed at TP1 or
  both targets carry the same R (`LiveR.RunnerAgreesIff`). When the second half is stopped they agree
  exactly when it leaves at the plan's stop; the live stop has moved to the entry by then, where it
  realises half an R more (`LiveR.StoppedRunnerAgreesIff`).
- The outcome cache, whose key rounds prices to six decimals and omits both R:R fields, is transparent
  on every frame exactly when any two setups with one key are the same plan, or share the exact entry
  and both have their stop beyond it, so that the fill itself stops them
  (`OutcomeCache.TransparentOnAllFramesIff`, `PlanIdentity.AlikeIff`). Setups whose entry and runner are
  quoted prices, on a tick coarser than 1e-6, and whose stops are quoted prices moved by one buffer, as
  the grid search derives from an unrounded ATR, meet this wherever TP1 lies
  (`OutcomeCache.TickPricesNeverCollide`). The averaged equal-high and equal-low targets remain off the
  tick: two clusters of five and six swings can collide (`OutcomeCache.OffTickCollision`).
- A setup's entry zone is not known at the shift: a gap that completes later replaces an order block. On
  a plausible frame the decision stands against every plausible continuation, for all levels, exactly
  when a gap is complete already or none is possible any more (`DecisionTiming.DecisionStandsIff`,
  `DecisionTiming.ZoneKnownIff`). A gap is possible until the last candle is past the window, half an
  hour after the confirmation, as long as the ATR can be defined by then; at the very end of the window
  it takes a positive ATR as well (`LateGaps.GapPossible`). `LateGaps.GapFollows` builds the candles that
  complete one.
- Grade B is documented as "one weakness allowed". Once a shift and its R:R have passed their checks,
  order blocks are always graded B, and the only setups rejected for their grade are gaps at minor levels
  that have no weakness at all (`SetupConditions.GradeIs`).
- An exit is journaled as a full win exactly when its price lies within half a percent of the entry from
  the runner target; every other exit counts as stopped (`Lifecycle.ExitIff`). So a runner that close to
  the stop or the entry makes a stopped trade a win (`Lifecycle.ExitAtPlannedPrices`).
- `build_setup_candidates` documents its setups as ordered by killzone and then by `timestamp_utc`
  (`src/detection/setup.py:294-295`). The timestamp is that of the confirmation; the code orders the
  setups of a killzone by their sweeps instead (`DayOrder.SessionInOrder`).
- Reflection fails for a bar that is both a fractal high and a fractal low, because highs are tested
  first (`Mirror.RawMirrorsIff`, `Mirror.AmbiguousBarBreaksTheMirror`).
- `mark_swing_levels` documents that dropping swings after the cutoff prevents future-data leakage.
  It does exactly when no swing up to the cutoff is confirmed by later candles
  (`SwingLevels.CutoffIsCausalIff`, `SwingLevels.CutoffSeesTheFuture`); it never looks further than
  `lookback` candles past the cutoff (`SwingLevels.CutoffReadsLookback`).
- Greedy matching can lose half of the best possible pairs, but never more
  (`Matching.GreedyIsHalfOptimal`, `Matching.GreedyCanLoseHalf`).
- A reported rejection or `order_send_exception` may leave an order at the broker that the journal does not know
  (`OrderPlacement.PlaceOrder`).

## Model

| member | source | states |
|---|---|---|
| OrderSafety.StepKeeps | src/scheduler/runner.py:306-382 | every atomic step of any job, of the broker, of placement, of a crash or of recovery keeps the invariant over both stores, and moves each journal status along the documented edges or not at all |
| OrderSafety.NoSecondPartial | src/execution/position_lifecycle.py:210-211 | when an order passes the volume guard on a snapshot and another TP1 share would still fit, no TP1 share of it has been closed yet |
| OrderSafety.LifePartialKeeps | src/execution/position_lifecycle.py:223-241 | the TP1 close keeps the invariant whether or not it takes effect and whether or not it is acknowledged |
| OrderSafety.LifeWriteKeeps | src/execution/position_lifecycle.py:169-173 | the lifecycle's blind status writes never contradict the broker, although the row they overwrite may have changed since it was read |
| OrderSafety.CleanCancelKeeps | src/execution/order_manager.py:379-387 | a cancel, effective or not, acknowledged or not, keeps the invariant and marks as confirmed only orders the broker removed |
| OrderSafety.CleanWriteKeeps | src/execution/order_manager.py:389-403 | the delayed `cancelled` write hits a row that is still pending |
| OrderSafety.PlaceKeeps | src/execution/order_manager.py:287-342 | acceptance by the broker and the later insert keep the invariant, also when the acknowledgement or the insert is lost |
| OrderSafety.RecoveryKeeps | src/execution/recovery.py:68-215 | every step of startup reconciliation, with failed reads and failed closes, and a crash, keep the invariant |
| OrderTheorems.RunKeepsInv | src/scheduler/runner.py:306-382 | the invariant holds after every history from a state where it holds |
| OrderTheorems.CancelAndFillNeverDisagree | src/execution/position_lifecycle.py:439-463 | once the journal says `cancelled` the order was never filled and never will be; once it says `filled` or later the broker never removes it unfilled, over every continuation |
| OrderTheorems.VolumeConserved | src/mt5_client/client.py:543-604 | volume working plus open plus closed is the volume placed, the journaled volume is that volume, and `tp1_hit` means the TP1 share was closed |
| OrderTheorems.EveryStepFollowsAnEdge | src/journal/repository.py:349-377 | in every reachable state each step leaves each journal status as it is or moves it along a documented edge |
| OrderTheorems.AtMostThreeStatusChanges | src/journal/repository.py:349-377 | over any history a journaled order changes status at most three times |
| OrderTheorems.ChangesSpendRank | src/journal/repository.py:349-377 | the number of changes plus the remaining rank never exceeds the rank at the start |
| OrderTheorems.PartialWithLostAck | src/execution/position_lifecycle.py:223-241 | a history in which the partial close works but its acknowledgement is lost leaves the row `filled` |
| OrderTheorems.PartialCloseAtMostOnceIff | src/execution/position_lifecycle.py:208-241 | the TP1 partial close takes effect at most once per ticket in every history if and only if the volume guard can tell a closed share from a full position |
| OrderTheorems.FailedRecoveryReadLosesAPosition | src/execution/recovery.py:69-74 | if recovery's position read may fail, some history journals the exit of a half-closed position that is still open |
| OrderTheorems.TwoRestartsCloseALivePosition | src/execution/recovery.py:64-133 | from a reachable state with an open, correctly journaled position, one startup with a failed position read gives it up and a second one, in which nothing fails, closes it at market |
| OrderTheorems.FillBetweenReadsIsClosed | src/execution/recovery.py:68-178 | in every configuration a correctly journaled working order that fills between the two broker reads of a startup in which nothing fails is given up while open, and the next such startup closes it |
| OrderTheorems.FailedPendingReadClosesALaterFill | src/execution/recovery.py:133-178 | in every configuration a working order is given up when the read of the pending orders fails, with nothing left open; after it fills, a startup in which nothing fails closes it |
| GivenUp.GivesUpLiveIff | src/execution/recovery.py:68-215 | in any startup, with any interleaved events and any failing reads, the row of a live order is given up if and only if it works and the read of the pending orders failed, or it is open with a filled row and the position read failed without an exit on record, or it is open with a pending row and the position read failed or preceded the fill and the other read failed or followed it |
| GivenUp.GivenUpLiveWasOverlooked | src/execution/recovery.py:68-215 | in every history whichever step journals a live order as lost is a row of such a startup, with that cause |
| GivenUp.StartupSees | src/execution/recovery.py:68-141 | the lists and rows a startup works with are those of the states at its two reads, since when orders only moved forward |
| OrderTheorems.EmptyReadLosesAPosition | src/mt5_client/client.py:474-479 | if a poll's failed read may look like an empty list, some history journals the exit of a half-closed position that is still open |
| OrderTheorems.ExitMeansClosedIff | src/mt5_client/client.py:474-479 | journaled exits are fully closed positions if and only if neither polls nor recovery take a failed position read for an empty list |
| Desks.Desk.Interfere | src/scheduler/runner.py:306-382 | whatever the other jobs and the broker do in between, the running job's own progress is untouched, closed volume stays closed, orders that left the pending list stay out of it, and journaled cancellations stay |
| Desks.StepForeign | src/scheduler/runner.py:306-382 | a step of one job changes nothing that belongs to another, and no step takes back closed volume or returns an order to the pending list |
| Lifecycle.CheckOpenPositions | src/execution/position_lifecycle.py:71-148 | under arbitrary interference the poll takes one snapshot, one journal read and, for every active row in turn, exactly the steps that its status, the snapshot and the broker's answers demand; the report counts the rows journaled under each status and names exactly the failed writes; from a reachable state every row it wrote still carries that status when it returns, a filled pending order is `filled`, and a vanished position whose exit is shown is `tp_runner_hit` if the exit lies within half a percent of the entry from the runner and `sl_hit` otherwise |
| Lifecycle.ExitIff | src/execution/position_lifecycle.py:362-379 | an exit is classified as a full win if and only if it lies within half a percent of the entry from the runner |
| Lifecycle.ExitAtPlannedPrices | src/execution/position_lifecycle.py:362-379 | for a runner more than half a percent away from stop and entry, an exit at the runner is a full win and exits at the stop and at the entry are not |
| Lifecycle.ReportTallies | src/execution/position_lifecycle.py:56-64 | each counter of the report is the number of rows with the steps of its kind, and the errors are the tickets whose journal write failed |
| Lifecycle.HandleAll | src/execution/position_lifecycle.py:99-146 | the loop handles every polled row once, in order, each with the steps `Handled` prescribes; its report is the sum over them, and no row it is done with is touched again |
| Lifecycle.HandlePending | src/execution/position_lifecycle.py:156-175 | a pending row whose ticket is among the positions is journaled `filled`, any other is left alone |
| Lifecycle.HandleFilled | src/execution/position_lifecycle.py:183-261 | a filled row is reconciled if its position is gone; otherwise one partial close is sent exactly when the position has full volume and the quote has reached TP1, and `tp1_hit` is written exactly when it was acknowledged |
| Lifecycle.ReconcileClosedPosition | src/execution/position_lifecycle.py:286-359 | a vanished position is journaled when the history shows its exit, as a full win within half a percent of the entry from the runner and as stopped elsewhere, and left for the next poll otherwise |
| Lifecycle.TakePartial | src/execution/position_lifecycle.py:223-256 | one partial close, then the `tp1_hit` write exactly when the close was acknowledged |
| Lifecycle.ClosePartial | src/mt5_client/client.py:543-604 | a partial close counts as acknowledged only if it took effect |
| Desks.StepSettles | src/scheduler/runner.py:306-382 | a row that left `pending` and is not in the poll's remaining list keeps its status under every step of every job and of the broker, until the next poll or restart |
| KillzoneCleanup.EndOfKillzoneCleanup | src/execution/position_lifecycle.py:424-472 | under arbitrary interference every pending order of the killzone is tried once; the count returned is the number of orders that both stores then show as cancelled; no order whose cancel the broker honours is left working; only a failed journal write ends the job early |
| KillzoneCleanup.CancelOrder | src/execution/order_manager.py:363-403 | the journal is written exactly when the broker acknowledged the removal |
| OrderPlacement.PlaceOrder | src/execution/order_manager.py:166-355 | refused and dry orders leave nothing behind; success means a broker order and a `pending` row of the computed volume; a rejection or exception after the broker took the order, or a failed insert, leaves an order the journal does not know, and in no other case |
| OrderPlacement.Send | src/execution/order_manager.py:287-323 | the broker holds the order exactly when the volume is positive and the call took effect, whatever it reported |
| OrderPlacement.SizedIff | src/execution/order_manager.py:188-256 | an order reaches the broker if and only if the guards pass, account and symbol can be read, entry and stop differ and the contract size is positive |
| OrderPlacement.RefusalIs | src/execution/order_manager.py:188-256 | a refused order carries the code of the first check that stands in its way |
| OrderPlacement.SizedWithinBudget | src/execution/order_manager.py:222-256 | for representable steps an order above the minimum lot loses at its stop at most the fraction of the balance and at most the cap, and one step more would lose more |
| Recovery.RecoveryEstablishesSync | src/execution/recovery.py:98-215 | with successful reads and closes, every open position is journaled `filled` or `tp1_hit`, every `pending` row is a working order and every `filled` row an open position |
| Recovery.QuietIffInSync | src/execution/recovery.py:98-215 | recovery closes nothing and writes nothing if and only if the stores agree already |
| Recovery.SecondRecoveryIsQuiet | src/execution/recovery.py:64 | a second run right after the first makes no broker action and no status write |
| Recovery.InSyncAfterIff | src/execution/recovery.py:68-215 | after one run on a broker that stays quiet, for every combination of failed reads, stuck positions and lagging histories, the stores agree if and only if nothing is left open: no orphan was stuck and, after a failed position read, every open position is journaled `tp1_hit` |
| Recovery.NextOrphans | src/execution/recovery.py:98-133 | the exact set of positions the next run will find to close if the broker stays quiet during and after the first |
| Recovery.NextRunIsQuietIff | src/execution/recovery.py:64 | while the broker stays quiet, the next run whose reads succeed closes and writes nothing if and only if that set is empty |
| Recovery.LaterOrphans | src/execution/recovery.py:98-133 | after any fills, closes and removals by the broker since the first run, the positions the next run finds to close are exactly those left open and the untracked working orders that have filled |
| Recovery.SafeLaterIff | src/execution/recovery.py:64 | whatever the broker does between the runs, the next one finds nothing to close if and only if the first left nothing open and no working order untracked |
| Recovery.LaterRunClosesThem | src/execution/recovery.py:98-133 | otherwise the next run with working reads and closes closes exactly those positions at market and leaves the others alone |
| Recovery.ClosingIsInvisible | src/execution/recovery.py:118-133 | closing orphans changes neither the set of pending orders nor the outcome of the row passes |
| Recovery.RowAfter | src/execution/recovery.py:137-215 | the status one run leaves each row with, by the broker's phase, the failed reads and the exits on record |
| Recovery.BrokerAfterIs | src/execution/recovery.py:98-133 | one run closes whole exactly the open positions it sees that are unknown to the journal or journaled with a terminal status and can be closed |
| Recovery.LostIff | src/execution/recovery.py:158-215 | the rows reported lost are exactly those one run turns to `lost` |
| StartupRecovery.ReconcileOrphanPositions | src/execution/recovery.py:56-225 | both stores and the report after recovery, for every combination of failed reads, positions that cannot be closed and histories that lag; the stores agree if and only if no orphan was stuck and, after a failed position read, every open position is journaled `tp1_hit` |
| StartupRecovery.ReachableIsSound | src/execution/recovery.py:56-64 | whatever history came before, the broker meets the assumption of the recovery theorems |
| StartupRecovery.CloseOrphans | src/execution/recovery.py:98-133 | exactly the orphans whose close works are closed, and the others are reported |
| StartupRecovery.RecoverRows | src/execution/recovery.py:150-215 | exactly the rows without a broker counterpart are rewritten, each to the status the reads imply, and exactly the rows given up are counted |
| UnionFind.HalvingKeeps | src/detection/sweep.py:244-248 | pointing a node at its grandparent keeps every representative and moves strictly up the forest |
| UnionFind.LinkingMerges | src/detection/sweep.py:250-253 | hanging one root below another merges exactly the two classes and leaves a forest |
| UnionFind.Forest.Find | src/detection/sweep.py:244-248 | path halving terminates, returns the representative and does not change the partition |
| UnionFind.Forest.Union | src/detection/sweep.py:250-253 | the partition after a union is the old one with the two classes merged |
| SweepDedup.Cluster | src/detection/sweep.py:255-267 | two sweeps share a root exactly when a chain of duplicate pairs connects them |
| SweepDedup.Group | src/detection/sweep.py:269-271 | the dictionary holds every class once, members ascending, keys in order of first member |
| SweepDedup.Best | src/detection/sweep.py:275-279 | the first member with the largest excursion and, among those, the earliest time |
| SweepDedup.DeduplicateSweeps | src/detection/sweep.py:180-283 | the output is `Dedup`: one representative for every connected component, by time, ties in order of first appearance; exactly negative tolerances are refused |
| SweepDedup.KeptArePairwiseDistinct | src/detection/sweep.py:180-230 | no two kept sweeps are duplicates of each other |
| SweepDedup.KeptIsDedup | src/detection/sweep.py:269-283 | there is only one list with one best sweep per component in this order |
| SweepDedup.EveryClusterIsKeptOnce | src/detection/sweep.py:273-280 | every input sweep is connected to exactly one kept sweep, which is in the output and at least as good |
| SweepDedup.KeptSortedByTime | src/detection/sweep.py:282-283 | the output is ascending by time |
| SweepDedup.DedupIsIdempotent | src/detection/sweep.py:180-283 | deduplicating the output returns the same list |
| SweepDedup.InputOrderIsIrrelevant | src/detection/sweep.py:180-283 | permuting the input keeps the same sweeps unless two of one cluster tie exactly, and the same list if the kept times differ |
| SameEvents.KeptIff | src/detection/sweep.py:232-283 | a sweep is kept if and only if it outranks, by excursion, then time, then position, every sweep it is chained to by steps of equal direction, at most the minutes apart and within the fraction of the mean price |
| SameEvents.KeptApart | src/detection/sweep.py:241-254 | no two kept sweeps are such a step apart, and they ascend in time |
| SameEvents.EveryEventIsKept | src/detection/sweep.py:257-283 | every sweep is chained to exactly one that outranks its whole chain, and that one is kept |
| SweepDetection.FindReturn | src/detection/sweep.py:286-310 | the earliest candle of the return window that closes back across the level |
| SweepDetection.DetectSweeps | src/detection/sweep.py:48-177 | all sweeps sorted by time, deduplicated on request; the argument checks and the order in which they apply |
| SweepDetection.SweepsAreSoundAndComplete | src/detection/sweep.py:123-170 | a sweep is reported if and only if a candle of the killzone goes at least the buffer through a listed level and the first candle to close back follows within the window; its direction, level, times, extreme and excursion are those of the candles and the level |
| SweepOrder.SweepsInOrder | src/detection/sweep.py:123-170 | on a frame in order of time the sweeps are listed by candle and then by level, one for each pair that makes a sweep |
| SweepDetection.HitsOfPrefix | src/detection/sweep.py:303-310 | on a prefix the loops find exactly the hits whose return candle lies in the prefix, for any candle times |
| SweepDetection.SweepsOfPrefix | src/detection/sweep.py:123-170 | on the first m candles the detector reports exactly the sweeps that have returned by then, in the same order |
| Swings.Atr | src/detection/swings.py:37-83 | the array equals Wilder's recursion bar by bar, undefined before the first full window |
| Swings.FindRawSwings | src/detection/swings.py:86-143 | a bar is marked exactly when it is strictly beyond every neighbour within the lookback, highs before lows |
| Swings.FindSwings | src/detection/swings.py:146-246 | the column of swings that survive the amplitude filter, and exactly when the arguments are refused |
| Swings.RawOfPrefix | src/detection/swings.py:126-139 | a fractal is decided by the bars up to its right-hand neighbours |
| Swings.MemoryOfPrefix | src/detection/swings.py:197-221 | the filter's running state before a bar depends on no bar later than the confirmation of the one before it |
| Swings.SwingsOfPrefix | src/detection/swings.py:146-246 | a prefix and the full frame agree on every swing confirmed within the prefix |
| SwingColumn.RawHighIff | src/detection/swings.py:131-139 | a raw high is a bar strictly above all `lookback` bars on either side, which exist |
| SwingColumn.RawLowIff | src/detection/swings.py:131-139 | a raw low is a bar strictly below them that is no raw high |
| SwingColumn.KeptIff | src/detection/swings.py:197-221 | a raw swing stands in the column if and only if no swing of the other side stands before it or it is at least the multiplier times the ATR at its bar away from the latest one that does |
| SwingColumn.OnlyRawSwings | src/detection/swings.py:197-221 | nothing else stands in the column |
| SwingColumn.FirstRawIsKept | src/detection/swings.py:160-165 | the first raw swing of a frame is always kept |
| SwingColumn.TrueRangeIs | src/detection/swings.py:40-41 | the true range is the largest of the bar's height and the distances of its ends from the previous close |
| SwingColumn.AtrIsWeightedMean | src/detection/swings.py:43-46 | the ATR is the mean of all true ranges so far under weights that sum to one, the latest weighing one part in the period and older ones fading geometrically |
| SwingColumn.AtrBetween | src/detection/swings.py:43-46 | the ATR lies between the least and the greatest true range so far |
| StructureShift.CheckDisplacement | src/detection/mss.py:225-254 | the latest of the confirming candle and the three before it whose body reaches the multiple of the mean body before it |
| StructureShift.DetectMss | src/detection/mss.py:61-222 | the shift of the first candle in the window that confirms, and exactly when the arguments are refused |
| StructureShift.ShiftIsGenuine | src/detection/mss.py:145-222 | a reported shift broke the latest pivot confirmed by then with a body close, in time, and its displacement candle is the latest of the last four that is impulsive |
| ShiftConditions.ShiftIff | src/detection/mss.py:145-222 | a shift is reported if and only if some candle of the search window closes beyond the latest confirmed pivot past the extreme with a displaced candle among the last four, and it is the shift of the first such candle with the latest displaced one |
| ShiftConditions.ConfirmingIff | src/detection/mss.py:168-222 | the confirming candle is the first that does so within the minutes after the return, and there is none exactly when none does |
| ShiftConditions.ShiftAtIff | src/detection/mss.py:175-222 | what one candle confirms: pivot, close, ratio and displacement candle |
| ShiftConditions.BodyRatioIs | src/detection/mss.py:240-253 | the ratio compares the body with the mean body of the candles before it and is undefined exactly when they do not all exist or have no body |
| StructureShift.NoLookahead | src/detection/mss.py:137-190 | a detector that has seen only the first m candles reports the full frame's shift if its confirming candle is among them, and nothing otherwise |
| StructureShift.FutureIsIrrelevant | src/detection/mss.py:137-222 | two frames that agree up to the confirming candle report the same shift |
| PointsOfInterest.DetectFvgs | src/detection/fvg.py:60-147 | all gaps of the direction inside the window that are large enough in ATR, by middle candle |
| PointsOfInterest.FvgsOfPrefix | src/detection/fvg.py:107-145 | the gaps of a prefix are a prefix of the gaps |
| PointsOfInterest.DetectOrderBlock | src/detection/order_block.py:52-122 | the bounded backward scan from the displacement candle, and exactly when the lookback is refused |
| PointsOfInterest.OrderBlockIsLatest | src/detection/order_block.py:93-121 | the block is that of the latest opposite-coloured candle within the lookback before the displacement candle, and there is none exactly when there is no such candle |
| PointsOfInterest.OteMeansRetracement | src/detection/setup.py:718-747 | the test holds if and only if the zone contains a price that retraces between 62 % and 79 % of the leg |
| EntryZones.GapsAreListed | src/detection/fvg.py:107-145 | the gaps listed are exactly those between the outer candles of three, of the direction, with the middle candle in the window and the size at least the multiple of a positive ATR, in order |
| EntryZones.FirstGapIff | src/detection/setup.py:502-504 | the first gap is the earliest, and there is none exactly when no candle makes one |
| EntryZones.BlockIff | src/detection/order_block.py:93-121 | the order block is the last candle to close against the shift among the twenty before the displacement candle, with its edges |
| SetupBuilder.SelectTakeProfit | src/detection/setup.py:680-715 | the scan over the sorted levels computes the target below |
| SetupBuilder.TakeProfitIsNearest | src/detection/setup.py:680-715 | the target is the nearest opposing level, other than the one just swept, that reaches the minimum R:R; none is returned exactly when there is none |
| SetupBuilder.PartialTargetBetween | src/detection/setup.py:655-677 | TP1 lies min(runner R:R, cap) risks from the entry, never beyond the runner, and on its side exactly when the cap is positive |
| SetupBuilder.TryBuildSetup | src/detection/setup.py:454-602 | the decision for one sweep, rejection reasons included, and exactly when a detector's `ValueError` passes through |
| SetupBuilder.BuildSetupCandidates | src/detection/setup.py:249-397 | for every killzone with a bias the deduplicated sweeps are detected, aligned with the bias and judged, setups and rejections in that order; the day fails exactly when some killzone's detector refuses its arguments |
| SetupBuilder.EveryAlignedSweepIsJudgedOnce | src/detection/setup.py:350-393 | verdict k of the day is about its k-th bias-aligned sweep, and the sweeps of the setups and of the rejections together are exactly the aligned ones |
| SetupBuilder.DaySetupsAreSound | src/detection/setup.py:350-393 | every setup of the day comes from a reported bias-aligned sweep of one killzone, is confirmed strictly after that killzone's start and no later than its end, long exactly for a bullish bias, with its nearest target at or above the minimum R:R and TP1 on the way to it |
| SetupBuilder.ReportedSweepIsTimely | src/detection/sweep.py:123-170 | a reported sweep starts inside the killzone and does not return before it starts |
| SetupConditions.VerdictIff | src/detection/setup.py:454-602 | the decision on a sweep is exactly the one verdict, with its reason or its whole plan and grade, that its shift, its zone, the prices and the levels call for |
| SetupConditions.TargetIs | src/detection/setup.py:680-715 | the target is the nearest level on the profit side at least the minimum R:R away and not just swept, the first listed of those equally near, and there is none exactly when no level is |
| SetupConditions.ZoneIff | src/detection/setup.py:474-510 | the entry zone is the earliest gap from the second of the displacement candle to half an hour after the confirmation, or without one the order block |
| SetupConditions.GradeIs | src/detection/grading.py:101-136 | for setups that passed the displacement and R:R checks: blocks are B; gaps are A+ or A away from minor levels; at minor levels they are B with a small gap or a bare R:R and rejected otherwise |
| SetupConditions.GateIff | src/detection/setup.py:367-393 | a setup confirmed after the killzone's end is rejected at its confirmation, and every other verdict stands |
| SetupConditions.RefusesIff | src/detection/setup.py:466-500 | the pipeline of a sweep raises exactly when a shift parameter is out of range, or there is a shift and a gap parameter is |
| SetupConditions.DayEntersAtEdges | src/detection/setup.py:512-514 | every setup of the day enters at the low (short: high) of its gap's third candle or at the high (short: low) of its block candle |
| DayOrder.JudgedIff | src/detection/setup.py:337-354 | judged in a killzone are exactly the sweeps along the bias that outrank every sweep of the killzone they are chained to, of different events and in order of time |
| DayOrder.VerdictAt | src/detection/setup.py:356-393 | verdict `k` is the one on sweep `k` |
| DayOrder.SessionInOrder | src/detection/setup.py:356-393 | the setups of a killzone come in order of their sweeps, and so do its rejections |
| DayOrder.DayInOrder | src/detection/setup.py:301-397 | each killzone adds its setups and its rejections after those of the earlier ones |
| DecisionTiming.DecisionIsFinal | src/detection/setup.py:454-602 | once the frame reaches past confirmation plus thirty minutes, later candles do not change the decision on a sweep |
| DecisionTiming.NoShiftIsFinal | src/detection/setup.py:454-602 | without a shift in the full frame every prefix rejects the sweep for that reason |
| DecisionTiming.DecisionStandsIff | src/detection/setup.py:454-602 | after a confirmed shift on a plausible frame, no plausible continuation changes the decision, whatever the levels, if and only if the candles so far hold a complete gap or leave no room for one |
| DecisionTiming.ZoneKnownIff | src/detection/setup.py:484-510 | the entry zone survives every plausible continuation if and only if the same holds |
| DecisionTiming.DecisionCanChange | src/detection/setup.py:454-602 | while a gap is possible, a concrete continuation and levels for which the decision differs |
| LateGaps.GapFollows | src/detection/fvg.py:107-145 | candles that complete a first gap, away from any given price, whenever one is possible |
| Matching.FindNearest | calibration/run_swing_calibration.py:317-331 | the first unused candidate of the right type and within the tolerances that is nearest in time |
| Matching.GreedyIsValidAndMaximal | calibration/run_swing_calibration.py:312-341 | the pairing is injective, respects type and tolerances, and nothing can be added to it |
| Matching.MaximalIsHalf | calibration/run_swing_calibration.py:312-341 | any maximal pairing has at least half the size of any valid one |
| Matching.GreedyIsHalfOptimal | calibration/run_swing_calibration.py:312-341 | so has the greedy pairing |
| Matching.GreedyCanLoseHalf | calibration/run_swing_calibration.py:312-341 | a concrete input on which half of the pairs are lost |
| Matching.Match | calibration/run_swing_calibration.py:301-341 | matched plus missed is the number annotated, matched plus spurious the number detected, and the lists are the unmatched ones in order |
| Matching.MatchLevels | src/detection/liquidity.py:337-394 | each recent H4 swing yields exactly one level, confirmed by the H1 swing the greedy pairing gives it; leftover recent H1 swings are minor |
| Matching.H1SwingsUsedOnce | src/detection/liquidity.py:337-394 | a level is major exactly when it has an H1 swing within tolerance, no H1 swing confirms twice, and none both confirms and counts as minor |
| LevelConditions.GreedyTakes | calibration/run_swing_calibration.py:312-341 | each reference takes the first of the nearest candidates in time among those of its side, within both tolerances and not taken before, and none exactly when there is none |
| LevelConditions.CalibrationWindowIs | calibration/run_swing_calibration.py:301-341 | eight hours on H4, three on H1, 0.1 % of the annotated price |
| LevelConditions.KeepIs | calibration/run_swing_calibration.py:301-341 | the unmatched points are listed in their own order, none left out and none added |
| SwingLevels.MarkSwingLevels | src/detection/liquidity.py:269-397 | the levels of both frames as of the cutoff, and exactly when the arguments are refused |
| SwingLevels.LevelsAreLatestFirst | src/detection/liquidity.py:396-397 | the levels come latest first |
| LevelConditions.LevelIff | src/detection/liquidity.py:269-397 | the levels are one for each of the latest H4 swings, major with two touches if the matching confirms it, and one minor for each of the latest H1 swings, twice as many, that confirms none |
| LevelConditions.SwingsByIff | src/detection/liquidity.py:248-266 | the swings read are exactly those of the column whose bars are not later than the cutoff |
| LevelConditions.SwingsByInOrder | src/detection/liquidity.py:248-266 | in order of time |
| SwingLevels.CutoffReadsLookback | src/detection/liquidity.py:248-266 | the swings as of a cutoff are fixed by the candles up to `lookback` bars past it |
| SwingLevels.CutoffIsCausalIff | src/detection/liquidity.py:248-266 | the frame cut at the cutoff gives the same swings if and only if none of them is confirmed later |
| SwingLevels.CutoffSeesTheFuture | src/detection/liquidity.py:248-266 | three candles on which the cut frame gives other swings |
| EqualLevels.RunsAreComponents | src/detection/liquidity.py:428-443 | in a list sorted by price, gaps wider than the tolerance separate exactly the connected components of "within tolerance" |
| EqualLevels.FindEqualHighsLows | src/detection/liquidity.py:400-443 | high clusters, then low clusters, each the components of the sorted side with at least two members |
| EqualLevels.ClustersAreComponents | src/detection/liquidity.py:400-443 | a cluster is reported if and only if it is built from a whole component of at least two levels |
| LevelConditions.EqualLevelIff | src/detection/liquidity.py:428-454 | an equal level is reported if and only if it is the mean, least and greatest price of at least two levels that lie step by step within the tolerance while their neighbours do not |
| LevelConditions.EqualLevelsByPrice | src/detection/liquidity.py:428-443 | the equal levels of a side come by price |
| EqualLevels.SortedSide | src/detection/liquidity.py:428-430 | the list clustered for a side holds that side's levels, by price |
| EqualLevels.AverageBetweenExtremes | src/detection/liquidity.py:446-454 | the average price lies between the extremes of the cluster |
| Mirror.RawMirrorsIff | src/detection/swings.py:131-139 | a raw swing is mirrored if and only if its bar is not both a fractal high and a fractal low |
| Mirror.AmbiguousBarBreaksTheMirror | src/detection/swings.py:131-139 | three candles on which both sides of the mirror report a high |
| Mirror.SwingMirrors | src/detection/swings.py:197-221 | without such bars the filtered swings are mirrored |
| Mirror.ShiftMirrors | src/detection/mss.py:145-195 | a bullish shift upside down is the bearish shift of the mirrored candles |
| Mirror.RawSweepsMirror | src/detection/sweep.py:130-168 | every sweep is mirrored, in the same order, on any frame |
| Mirror.DedupMirrors | src/detection/sweep.py:180-283 | the representatives of the mirrored sweeps are the mirrored representatives |
| Reflection.FvgsMirror | src/detection/fvg.py:107-145 | gaps of the opposite direction in the mirror |
| Reflection.OrderBlockMirrors | src/detection/order_block.py:93-121 | order blocks of the opposite direction in the mirror |
| Reflection.OteMirrors | src/detection/setup.py:718-747 | the entry band is the same from either side |
| Reflection.TakeProfitMirrors | src/detection/setup.py:680-715 | the mirrored trade has the mirrored target, ties included |
| Reflection.VerdictMirrors | src/detection/setup.py:454-602 | from candles to plan, grade or rejection, the mirrored input gets the mirrored verdict |
| Reflection.DayMirrors | src/detection/setup.py:350-397 | a whole day of the mirrored market, with mirrored bias and levels, yields the mirrored setups and rejections in the same order |
| Reflection.OutcomeMirrors | calibration/run_full_backtest.py:158-288 | the mirrored trade earns the same R at the same times |
| Simulator.SimulateOutcome | calibration/run_full_backtest.py:128-300 | the three index loops equal the one-pass automaton, with the stop winning a candle that also touches a target |
| Simulator.SimulateSetupOutcome | calibration/run_setup_outcome_backtest.py:107-307 | the second copy agrees with the first on every field they share |
| Simulator.RaceTp1 | calibration/run_full_backtest.py:197-230 | the second phase, against the automaton from the entry candle on |
| Simulator.RaceRunner | calibration/run_full_backtest.py:245-288 | the third phase, against the automaton after the TP1 candle |
| Simulator.SettledIsStable | calibration/run_full_backtest.py:158-288 | an outcome decided by a stop or runner touch does not change when candles are appended |
| Simulator.UnsettledOutcomes | calibration/run_full_backtest.py:174-288 | only settled trades are reported as stopped or as full wins |
| Simulator.StrictAtMostRealistic | calibration/run_full_backtest.py:186-195 | strict R never exceeds realistic R and differs exactly when the stop preceded the fill |
| TradeStory.SimulatedIff | calibration/run_full_backtest.py:128-300 | the result is exactly what the candles from the timestamp to 24 hours later tell: first touch of the entry, first touch of stop or TP1 with the stop winning one candle, then of stop or runner, with times, minutes and both R values |
| TradeStory.OutsideIsIrrelevant | calibration/run_full_backtest.py:128-138 | a candle before the timestamp or more than 24 hours after it never changes the result |
| TradeStory.TimesAreInDay | calibration/run_full_backtest.py:128-138 | entry and resolution lie in those 24 hours, both ends included |
| Drawdown.MaxDrawdown | calibration/run_full_backtest.py:319-329 | the single pass returns the largest fall from any point to the same or a later one |
| Drawdown.DrawdownUnique | calibration/run_full_backtest.py:319-329 | that maximum is unique |
| Drawdown.MaxConsecutive | calibration/run_full_backtest.py:306-316 | the length of the longest run of stop-losses |
| Drawdown.MonthlyBreakdown | calibration/run_full_backtest.py:563-579 | the months are consecutive stretches that cover all rows; each line has its stretch's total and drawdown and the running total |
| Drawdown.MonthsAgainstTheWhole | calibration/run_full_backtest.py:563-579 | monthly totals sum to the overall total and no month's drawdown exceeds the overall one |
| LiveR.GetPositionCloseInfo | src/mt5_client/client.py:627-658 | profit is the sum over all exit deals of the ticket, price and time are those of the latest one, the last listed of several at one time, and nothing is returned exactly when there is none |
| LiveR.ExitsAre | src/mt5_client/client.py:641-645 | the exits counted are the exit deals of the ticket, each as often as the history has it |
| LiveR.RealizedRIs | src/execution/position_lifecycle.py:382-418 | R is the profit over the money at risk when both are known, otherwise the move in the trade's direction over the stop distance, and zero without a distance |
| LiveR.StoppedOutAgrees | src/execution/position_lifecycle.py:382-418 | a position closed whole at its stop makes minus one R, live as in the simulator, and none at its entry |
| LiveR.RealizedRIsWeightedMean | src/execution/position_lifecycle.py:396-416 | for any number of partial exits profit-based R is the sum of the exits' R values weighted by their volume shares, and the weights sum to one if and only if the exits close the whole order |
| LiveR.RealizedRBetweenExits | src/execution/position_lifecycle.py:396-416 | live R of a fully closed position lies between the R of its worst and of its best exit |
| LiveR.RunnerAgreesIff | calibration/run_full_backtest.py:265-267 | live R of a runner exit equals the simulator's if and only if half was closed at TP1 or both targets carry the same R |
| LiveR.StoppedRunnerAgreesIff | src/execution/position_lifecycle.py:243-248 | with half closed at TP1 and the rest leaving at any price, live R equals the R the simulator books for a stopped runner if and only if that price is the plan's stop; at the entry it is half an R more |
| OutcomeCache.SharedCache.Outcomes | calibration/run_grid_search_extended_fast.py:193-228 | the cache and the outcomes after a combination, from the cache before it |
| OutcomeCache.TransparentOnAllFramesIff | calibration/run_grid_search_extended_fast.py:167-228 | for setups built with one partial target, across any sequence of combinations and on every plausible frame, the shared cache returns fresh outcomes if and only if any two setups with one key are the same plan, or share the entry and neither stop is on the loss side |
| PlanIdentity.AlikeIff | calibration/run_full_backtest.py:158-288 | two built plans of one time and direction end alike on every plausible frame if and only if they are the same plan, or share the entry and neither stop is on the loss side |
| PlanIdentity.PlansApart | calibration/run_full_backtest.py:158-288 | a frame of one or two candles that tells two different trades apart, long or short |
| PlanIdentity.SameTradesEndAlike | calibration/run_full_backtest.py:158-195 | two plans stopped by whatever candle fills them end alike on any frame |
| PlanIdentity.BuiltPlanIsUnique | src/detection/setup.py:655-715 | time, direction, entry, stop and runner determine the plan, its TP1 and both R:R fields included |
| PlanIdentity.SoundPlansAreBuilt | src/detection/setup.py:671-714 | the plans of accepted setups have a TP1 and R:R fields that follow from entry, stop and runner |
| OutcomeCache.CacheIsTransparent | calibration/run_grid_search_extended_fast.py:193-228 | without such a collision the cached outcomes equal fresh simulations across any sequence of combinations, on any frame |
| OutcomeCache.TickPricesNeverCollide | calibration/run_grid_search_extended_fast.py:98-112 | setups with entry and runner on a tick coarser than 1e-6 and stops on that tick moved by one buffer never collide, wherever TP1 lies; on a tick of 1e-6 the buffer must be on that grid too |
| OutcomeCache.OnGridIff | calibration/run_grid_search_extended_fast.py:167-176 | rounding to six decimals keeps a price exactly when it is a multiple of 1e-6 |
| OutcomeCache.KeysEqualIff | calibration/run_grid_search_extended_fast.py:167-176 | keys are equal if and only if instrument, time and direction are and all four prices round to the same millionth |
| OutcomeCache.OffTickCollision | src/detection/liquidity.py:446-454 | two setups to the averages of equal-highs clusters that differ in one swing share a key, are different trades, and make the cache return a wrong outcome on some frame |
| PositionSizing.VolumeIsSafe | src/execution/order_manager.py:108-158 | for representable steps the lot stays within the broker's limits, risks no more than the budget unless it is the minimum lot, and wastes less than a step unless it is the maximum lot |
| PositionSizing.VolumeIsMonotone | src/execution/order_manager.py:133-158 | a larger budget or a closer stop never shrinks the lot |
| PositionSizing.VolumeIsAffordable | src/execution/order_manager.py:139-158 | the lot is the whole number of steps the budget affords, raised to the minimum, cut to the maximum, and otherwise rounded to the step's decimals |
| PositionSizing.DigitsAreLeast | src/execution/order_manager.py:155-158 | the decimals are the fewest that make the step at least one unit |
| PositionSizing.RoundIsNearest | src/execution/order_manager.py:158 | rounding gives the nearest multiple of the last decimal, the even one of two |
| PositionSizing.RefusedIff | src/execution/order_manager.py:130-140 | with a step that is not negative the sizing refuses exactly a distance or contract size that is not positive |
| PositionSizing.RoundKeepsMultiples | src/execution/order_manager.py:155-158 | for representable steps the final rounding changes nothing |
| PositionSizing.InexactOvershoots | src/execution/order_manager.py:155-158 | every other step has a budget that the rounding overshoots |
| PositionSizing.KeepsBudgetIffExact | src/execution/order_manager.py:139-158 | the budget is kept for all symbols and budgets if and only if the step is representable |
| TradingDay.RolloverShows2300 | src/scheduler/hard_stops.py:294-302 | the rollover is the one instant at which Paris clocks show 23:00 of that day |
| TradingDay.ParisLocalDateIs | src/scheduler/hard_stops.py:282-292 | the trading date is the day whose 23:00 comes next on the Paris clock |
| TradingDay.RangesAreConsecutive | src/scheduler/hard_stops.py:305-322 | each range ends where the next begins and none is empty |
| TradingDay.DaysTileTheLine | src/scheduler/hard_stops.py:282-322 | an instant lies in a day's range if and only if that day is its Paris trading date |
| TradingDay.TodayRolloverStartsTheDay | src/scheduler/hard_stops.py:294-302 | today's rollover is the start of the range that holds the instant, and every instant since then has the same date |
| LosingStreak.ConsecutiveSlToday | src/scheduler/hard_stops.py:261-279 | the number of stopped trades before the first other one, latest first |
| LosingStreak.TakenOnIsTheDay | src/scheduler/hard_stops.py:261-272 | the trades counted are exactly the taken ones whose Paris trading date is the day, latest first |
| LosingStreak.TakenOnCounts | src/scheduler/hard_stops.py:261-272 | no trade of the day is dropped or counted twice |

## Left out

- Partial fills of a limit order: the model fills it whole, see the assumptions above.
- Telegram messages, charts, dashboards, report text and logging: input and output only.
- MetaTrader 5, SQLAlchemy and APScheduler internals: the broker and the journal are abstract stores, the scheduler an arbitrary interleaving.
- Floating-point rounding, and pandas and NumPy indexing.
- The position of the broker-side stop: `modify_position_sl` has no effect on either store of the model, and its failure is ignored as in the source.
- IANA time-zone data: Paris time is any offset of one or two hours that changes only in the early morning hours.
- One order per setup: `place_order` does not look for an earlier order of the setup, so nothing is claimed about it.
- Broker orders that the journal does not know: recovery does not repair pending ones, and the model has no such claim.
- Orders of unknown direction (`_tp1_hit` raises `ValueError`): the direction is an enumeration.
- Pre-trade guards and the spread log of `place_order`: the guards are one answer of the outside world, the log has no effect.
- Higher-timeframe bias, the Asian range and the previous day's levels: inputs of `BuildSetupCandidates`, with little to prove.
- Confluence texts and the number of weaknesses in the grade: only whether there is one matters for the grade.
- Grid-search verdicts, thresholds and the train and holdout split.
- Hard stops other than the trading day and the losing streak: daily loss, maximum loss and trade counts.
- SetupBuilder.BuildSetupCandidates: takes each killzone's bias and levels as given, because their computation is not part of this model.
- StartupRecovery.ReconcileOrphanPositions: assumes a broker that stays quiet and journal writes that succeed while it runs, as the property it establishes does; the invariant of `OrderSafety` covers a broker that acts and writes that fail, and `GivenUp` says which live orders such a run gives up.
- Lifecycle.CheckOpenPositions: polls the active rows in an arbitrary order, of which oldest first is one.
- Drawdown.MonthlyBreakdown: rows carry the number of their month instead of a timestamp, and are in order of time as the caller sorts them.
