# A model of the simulated-trading loop, the structure detector and the signal desk

This project models three parts of the trading system and proves what they guarantee.

* **The loop and its ledgers.** Every iteration of `run_sim_loop` syncs orders, syncs positions, reconciles four
  ledgers and saves a gate, manages open positions (exit retries included), approves at most one plan and executes.
  `Ledger.Db` holds the tables; `Ledger.Store` is the same tables as an object the methods change in place. The
  answers of the remote account (rows, failures, exceptions, clocks) are arbitrary inputs of every step. Each method
  is tied to a specification function on `Db`, and the theorems are about those functions over all runs:
  `ReconcilerTheorems`, `IssueRows`, `SelfHealing`, `FillOnce`, `DealFills`, `EntryTheorems`, `LoopTheorems`, `ExitRetries`,
  `ExitRuns`, `StopRatchet`.
* **The structure detector, its table, the indicators and the replay.** `Structures` is the fold over bars with its
  four cycle variables, `Lifecycle` its grammar and prefix stability, `StructureTable` the idempotent persistence,
  `Indicators` and `IndicatorRows` the indicator loops against direct definitions, `Replay` the time-step replay with
  indicators computed once, `ReplayTrades` and `BacktestStats` the life of one simulated trade and the one-pass statistics.
* **The signal desk.** `Risk`, `EntryTrigger`, `Corrections` and `StateMachine` are the entry signals, their re-check,
  their sizing and the manual approvals; `SignalTheorems` says what every run of them keeps. `BattlePool` is the
  capacity allocator.
* **The rules.** The modules named `...Rules` say what each step decides on the fields of the rows and answers alone,
  with the numbers written out and without the functions that compute the decision: when an iteration approves a plan
  (`ApprovalRules`), what it buys and which stages it takes (`LoopRules`), when a position is sold (`ExitRules`), which
  bars carry a structure event (`StructureRules`), when a bar is shown in the replay (`ReplayRules`), every outcome of an
  advance and an approval of the desk (`DeskRules`, `SignalRules`, `EntryRules`, `AdvanceRules`), what a sync makes of
  each order, deal, holding and position (`OrderRules`, `PositionRules`), what reconciliation finds and what gate it
  saves (`ReconcileRules`), every indicator column (`IndicatorRules`), the end of a trade (`TradeRules`), the rows of the
  structure table (`TableRules`) and the priorities of the pool (`PoolRules`).

Conventions. Prices are reals and times integer seconds; rounding is not modelled. A table is a sequence of rows and a
row's id is its index. Symbols are in their canonical form (`normalize_symbol`), with one positions row a symbol, as the
unique column demands; a commit that would break a unique column fails and changes nothing. The production session has
autoflush off (`app/db.py:52`): what order sync and reconciliation look up by a query (a symbol's row, the sum of an
order's deals, an open issue) is looked up in the tables as they were committed before that step; position sync flushes
every new row. Every clock reading that order sync and exit management decide by is an input of its own. `fillLog` is a history of the model: the orders a fill was
applied or inferred for, in order. Remote quantities that were dealt are natural numbers.

Things the proofs brought out:

* The first BUY attempted in an iteration is on the plan just approved exactly when that plan sizes to at least one
  share (`EntryTheorems.ApprovalAndExecutionAgree`). When it sizes to nothing the loop goes on to the next executable plan,
  which can be one with an approval left over from a cancelled order (`EntryTheorems.StaleApprovalCanBeBought`).
* A SELL that turns out filled after its position vanished remotely takes no shares: the row closed unverified with its
  shares, and only an OPEN row is looked for (`FillOnce.LateSellTakesNothing`). `FillOnce.FillTakesSharesIff` and
  `FillOnce.SharesAreConserved` say exactly when the shares follow the sales.
* With a deals feed a fill is applied twice when the order's own row and its deal arrive in one sync: ten shares sold
  take twenty from the position (`DealFills.OrderRowAndDealTakeTwice`; the exact condition is `DealFills.FilledOnceIff`).
* An open-orders answer that names an unknown order twice opens two rows of one issue, since the second lookup does not
  see the first row; `IssueRows.OneRowAKeyIff` is the exact condition. The set of open issues, and
  whether new entries are allowed, are right all the same (`ReconcilerTheorems.RunMatchesDetection`, `OpenGateMeansAgreement`).
* The number of exits a silent account can draw out is one plus the retry limit times the timeouts that fit in a retry
  window, and a run attains it (`ExitRuns.ThreeExitsWithOneRetry`): an older waiting exit is picked again while the newer
  one is still inside its window. The bound needs that no waiting exit leaves the window between the two clock readings
  that the retry rule and the hold rule take; a run in which one does submits one exit more
  (`ExitRuns.CrossingRunExceedsBound`, exact condition for one slot: `ExitRetries.SecondClockMattersIff`).
* A price that would stop a position out goes on doing so, whatever the account reports. The level itself can fall, from
  zero to below, once the account reports a negative cost (`StopRatchet.NegativeCostDropsStop`); the exact condition of
  one step is `StopRatchet.ManagingLowersStopIff`.
* A manual approval of an entry needs that the symbol has no positions row at all, open or closed: the column is unique,
  so the insert fails at commit and nothing changes (`SignalTheorems.ApprovedIffValid`).
* `advance_state_machine` looks at corrections and cooldowns before it looks at an open position, so a hard stop could
  be missed in such a table; no run leaves such a table behind (`SignalTheorems.NoHardStopIsMissed`).

## Model

| member | source | states |
|---|---|---|
| OrderSync.SyncSimOrders | app/services/order_sync.py:19-103 | order sync in place leaves exactly the tables of the specification, and changes nothing when a read or the commit fails |
| OrderSync.SyncOrder | app/services/order_sync.py:28-61 | one unresolved order: the remote row, the fill, the timeout and its cancel answer, each with its effect on position and plan |
| OrderSync.SyncDeal | app/services/order_sync.py:63-103 | one remote deal: recorded unless known, added to the order's committed deals, and applied when they cover the order |
| OrderSync.OpenOrClosePosition | app/services/order_sync.py:143-195 | a filled BUY opens or rewrites the symbol's row and moves its plan; a filled SELL takes its shares and closes at zero |
| OrderSync.OrdersAfterSync | app/services/order_sync.py:28-61 | the order table after the loop, row by row: no order's outcome depends on another order |
| OrderRules.OrdersSyncByRule | app/services/order_sync.py:28-61 | where each order goes, by its status, the last remote row of its id, its age and its cancel answer |
| OrderRules.OneOrderByRule | app/services/order_sync.py:28-61 | one turn: what a reported fill makes of positions, plan and log, and what a cancelled BUY makes of its plan |
| OrderRules.FillsByRule | app/services/order_sync.py:143-195 | the row a fill opens, reopens or sells from, field by field |
| OrderRules.DealByRule | app/services/order_sync.py:63-103 | one deal: ignored, recorded, or recorded and filled, with the order's new quantity and price |
| OrderRules.SyncCommitsUnlessTwice | app/services/order_sync.py:19-103 | when a sync fails and changes nothing, and what it leaves otherwise |
| PositionRules.RowsByRule | app/services/position_sync.py:42-176 | what a remote row overwrites or adopts, field by field, and which BUY it infers filled |
| PositionRules.MatchIsUnique | app/services/position_sync.py:226-276 | the one awaiting BUY that fits quantity, time and price, and none when several await |
| PositionRules.VanishedByRule | app/services/position_sync.py:178-213 | which row closes, verified or not, with what result, and which plan cools down |
| PositionSync.SyncFutuPositions | app/services/position_sync.py:24-216 | position sync in place: remote rows overwrite or adopt positions, missing remote-backed positions close; a failed read changes nothing |
| PositionSync.SyncPositionRow | app/services/position_sync.py:42-176 | one remote row: the symbol's position overwritten, or adopted from a matching unresolved BUY or as an orphan |
| PositionSync.ClosePosition | app/services/position_sync.py:178-213 | a remote-backed position missing remotely closes verified when a filled SELL explains it, unverified otherwise |
| PositionSync.PositionsAfterClose | app/services/position_sync.py:178-213 | the positions after the closing loop, row by row |
| Reconciler.RunReconciliation | app/services/trade_reconciler.py:46-150 | one run in place, failed reads and exceptions at any check included: issue table, saved gate and both counters |
| Reconciler.UpsertIssue | app/services/trade_reconciler.py:466-511 | the open row the query finds among the committed rows is refreshed, otherwise a row is added |
| Reconciler.ResolveStaleIssues | app/services/trade_reconciler.py:221-244 | exactly the open managed rows whose key was not seen are resolved, and counted |
| Reconciler.CheckRemotePositions | app/services/trade_reconciler.py:247-273 | upserts and remembers one key for each remotely held symbol without an open local position |
| Reconciler.CheckLocalPositions | app/services/trade_reconciler.py:276-349 | upserts and remembers the missing, quantity and cost keys of the open positions |
| Reconciler.CheckRemoteOrders | app/services/trade_reconciler.py:352-374 | upserts and remembers the remote orders unknown locally |
| Reconciler.CheckLocalOrders | app/services/trade_reconciler.py:377-417 | upserts and remembers the unresolved local orders found neither in orders nor in deals |
| Reconciler.CheckClosedUnverified | app/services/trade_reconciler.py:420-442 | upserts and remembers the positions whose close was not verified |
| Reconciler.CheckInferredBuys | app/services/trade_reconciler.py:445-463 | upserts and remembers the BUY orders whose fill was inferred |
| ReconcilerTheorems.FoundIffDiscrepancy | app/services/trade_reconciler.py:247-463 | the keys a run upserts are exactly the discrepancies of the ledgers, stated without any issue table, and each is of a managed type |
| ReconcilerTheorems.RunMatchesDetection | app/services/trade_reconciler.py:77-90 | after a run that returned, the open managed issues are exactly the current discrepancies, from any issue table; continuing rows keep their first sighting, vanished ones are resolved, unmanaged rows are untouched |
| ReconcilerTheorems.RepeatRunIsQuiet | app/services/trade_reconciler.py:46-90 | a second run on the same ledgers opens nothing, resolves nothing and only moves the last sighting |
| IssueRows.OneRowAKeyIff | app/services/trade_reconciler.py:466-511 | a run that returns keeps one open row a key if and only if the open-orders answer names no unknown order without an open issue twice |
| IssueRows.RepeatedOrderOpensTwoRows | app/services/trade_reconciler.py:352-374 | an answer that names one unknown order twice leaves two open rows of one key |
| IssueRows.EveryHistoryKeepsOneOpenPerKey | app/services/trade_reconciler.py:466-511 | over any history without such an answer, failed and raised runs included, no key has two open rows |
| ReconcilerTheorems.EveryHistoryMatchesDetection | app/services/trade_reconciler.py:77-90 | from an empty issue table, after any history whose last run returned, incremental reconciliation equals detection from scratch |
| ReconcilerTheorems.FailedReadClosesGate | app/services/trade_reconciler.py:52-75 | a failed ledger read resolves nothing, opens the account failure and closes the gate |
| ReconcilerTheorems.RaisedRunClosesGate | app/services/trade_reconciler.py:119-150 | a run that raises opens the run failure and closes the gate, and resolves nothing if it raised before its last step |
| ReconcilerTheorems.CleanRunRecovers | app/services/trade_reconciler.py:221-244 | the first run that finds no discrepancy resolves every managed issue and opens the gate exactly when no unmanaged HIGH or CRITICAL issue is open |
| ReconcilerTheorems.OpenGateMeansAgreement | app/services/rules_approval.py:117-145 | after reconciliation new entries are allowed exactly when the run returned, the ledgers agree and nothing unmanaged blocks |
| ReconcileRules.DiscrepanciesAreCalled | app/services/trade_reconciler.py:247-463 | what each type of issue stands for in the rows, with the key it carries |
| ReconcileRules.AgreementIs | app/services/trade_reconciler.py:247-417 | the ledgers agree exactly when every holding has an open row, every open row is held at its size, and every SELL still out is known remotely |
| ReconcileRules.SeverityTable | app/services/trade_reconciler.py:247-463 | which issue types are CRITICAL, HIGH or INFO |
| ReconcileRules.GateOfRun | app/services/trade_reconciler.py:514-584 | the gate a returned run saves, by the worst open issue, and its counts |
| ReconcileRules.ChecksFind | app/services/trade_reconciler.py:247-463 | the first checks of a run find exactly the discrepancies of the types they look for, so a raise at any of them leaves just those |
| ReconcileRules.RunLeaves | app/services/trade_reconciler.py:46-150 | what a run leaves in the issue table and which gate it saves: returned, failed at a read, or raised at any check |
| ReconcileRules.StaleCounted | app/services/trade_reconciler.py:221-244 | what a run counts as resolved: the open, managed issues it did not see |
| SelfHealing.SyncMirrorsRemote | app/services/position_sync.py:35-213 | after a successful position sync every remote holding has an open local row with its shares and cost, and what is open but not held is a local strategy position |
| SelfHealing.SyncHealsPositions | app/services/trade_reconciler.py:247-349 | reconciling against the rows just synced reports no missing-local, quantity or cost issue, and missing-remote only on local strategy positions |
| FillOnce.SettledIsAbsorbing | app/services/order_sync.py:12-45 | over any run of syncs without deals FILLED, FILLED_INFERRED, CANCELLED and FAILED rows never change again |
| FillOnce.FilledAtMostOnce | app/services/order_sync.py:28-45 | over any such run fills are applied or inferred for exactly the orders that went from unresolved to filled, for each once |
| FillOnce.OrderSyncIsItsFills | app/services/order_sync.py:143-195 | an order sync changes positions by the fills it logged, in the order of the log, and by nothing else |
| FillOnce.FillTakesSharesIff | app/services/order_sync.py:170-182 | the fill of a SELL takes its shares from the symbol's row exactly when the row is OPEN, or has none, or none were sold |
| FillOnce.SharesAreConserved | app/services/order_sync.py:143-195 | over any run of order syncs a position's shares are its start minus everything sold, cut off at zero, exactly when nothing was sold while the row was not OPEN or the sales before took all; a row that begins OPEN or empty always meets it |
| FillOnce.LateSellTakesNothing | app/services/order_sync.py:170-182 | a position that vanished remotely before its exit was reported filled keeps all its shares |
| DealFills.FilledOnceIff | app/services/order_sync.py:63-103 | over any run of syncs, deals included, no order's fill is applied twice exactly when no deal completes an order that was filled before it |
| DealFills.OrderRowAndDealTakeTwice | app/services/order_sync.py:37-103 | one sync that reports a SELL of ten filled and its deal takes twenty shares and closes the position |
| PositionManager.ManagePositions | app/services/position_manager.py:25-65 | the loop over the positions in place, and the number of exits it submitted |
| PositionManager.ManagePosition | app/services/position_manager.py:68-254 | one position: marks, stops, the exit the prices call for, its pending-order rule, and whether an order was added |
| PositionManager.FindExitSlot | app/services/position_manager.py:156-206 | an active exit holds, an old waiting one is retried up to the limit, one still recent at the second clock reading holds, otherwise a first exit |
| PositionManager.RetryableExit | app/services/position_manager.py:291-307 | the order picked for a retry is retryable, and no retryable order was submitted later |
| ExitRules.ManagingSendsWhatIsDue | app/services/position_manager.py:68-254 | a SELL goes out exactly when the row is OPEN and priced, has shares to sell, an exit is due, the orders in the way permit it and the broker accepts; its kind, shares, limit and retry count; and the row it leaves |
| ExitRules.IntentIs | app/services/position_manager.py:108-126 | the exit the prices call for: stop or trailing stop, orphan take-profit, second target, half at the first, in this order |
| ExitRules.SlotIs | app/services/position_manager.py:156-206 | the retry count a new exit may carry, on the orders of the symbol |
| ExitChain.ChainIsBounded | app/services/position_manager.py:156-206 | attempts spaced by more than the timeout, with monotone counts that share one window each, number at most one plus limit times attempts a window |
| ExitRetries.SecondClockMattersIff | app/services/position_manager.py:291-324 | two clock readings grant a slot that one would hold back exactly when no exit is active or retryable, some waiting exit leaves the window between them, and none is still inside |
| ExitRetries.ExitOrdersAreBounded | app/services/position_manager.py:156-206 | in every run in which the account stays silent about a symbol's exits and no waiting exit leaves the window between the two readings, from no pending exit, at most 1 + max retries * max(1, ceil(window / timeout)) exits are submitted for it |
| ExitRuns.ThreeExitsWithOneRetry | app/services/position_manager.py:291-324 | a scheduled silent run with window twice the timeout and limit one submits three exits: the bound is attained, and one plus the limit is none |
| ExitRuns.CrossingRunExceedsBound | app/services/position_manager.py:291-324 | a scheduled silent run with limit zero submits two exits, because one left the window between the two readings |
| ExitRetries.SilentSyncRows | app/services/order_sync.py:46-61 | order sync of a silent account only times out that symbol's exits |
| StopRatchet.HardStopNeverFalls | app/services/position_manager.py:90-126 | over any interleaving of order sync, position sync and management, whatever the account reports, every price that stops a linked, non-orphan position out stops it out ever after |
| StopRatchet.HardStopNeverFallsInRuns | app/services/sim_loop.py:24-91 | the same over every run of whole iterations |
| StopRatchet.TrailingLowersStopIff | app/services/position_manager.py:122-126 | the trailing update lowers the level exactly when it runs, there was no trailing stop, and both the fixed stop and the new level are negative |
| StopRatchet.ManagingLowersStopIff | app/services/position_manager.py:68-126 | the same for a whole management step, in terms of the position before it and its price |
| StopRatchet.NegativeCostDropsStop | app/services/position_sync.py:76-96 | a BUY adopted at a negative cost, its deal and the next price take the level from zero to below |
| Approval.ReadPortfolio | app/services/portfolio_manager.py:25-88 | the capital state of the answers, and the position budget it leaves on every plan that takes one |
| Approval.ValidatePlans | app/services/realtime_execution_validator.py:17-110 | every plan's new status, price and validation time, and a context for exactly the plans quoted now |
| Approval.ApprovePlans | app/services/sim_loop.py:56-75 | the approval loop over the triggered plans, stopped by the first approval |
| Approval.ExecutePlan | app/services/sim_order_executor.py:29-96 | one plan: skipped, blocked, refused or accepted, with the order and the buy log |
| Approval.ExecuteApprovedOrders | app/services/sim_order_executor.py:12-99 | the execution loop in order, stopped by the first accepted BUY |
| EntryTheorems.TriggeredIsSorted | app/services/sim_loop.py:56-62 | the approval list has each triggered plan once, by validation time then id |
| EntryTheorems.ExecutableIsSorted | app/services/sim_order_executor.py:16-35 | the execution list has the same order |
| EntryTheorems.ReviewInOrder | app/services/sim_loop.py:56-75 | every plan before the approved one was re-reviewed and is not executable, every later one is untouched |
| EntryTheorems.ExecutionListAfterReview | app/services/sim_order_executor.py:16-35 | after the review the execution list is empty without an approval, and headed by the approved plan with one |
| EntryTheorems.ApprovalAndExecutionAgree | app/services/sim_loop.py:56-76 | no BUY without an approval, at most one accepted, and the first attempted is on the approved plan exactly when it sizes to a share |
| EntryTheorems.StaleApprovalCanBeBought | app/services/sim_order_executor.py:36-98 | concrete tables in which the approved plan sizes to nothing and another plan's left-over approval is bought |
| EntryTheorems.CancelledBuyLeavesApproval | app/services/order_sync.py:106-115 | that left-over approval comes about: a timed-out BUY is cancelled, its plan armed, funded and triggered again with the approval it had |
| SimLoop.RunSimLoop | app/services/sim_loop.py:24-91 | one iteration in place: the step order, the early exits, the approval and the BUYs |
| SimLoop.RunLoop | app/services/sim_loop.py:24-91 | the scheduler: a sequence of iterations on the same tables |
| LoopTheorems.RunKeepsOneOpenPerKey | app/services/trade_reconciler.py:466-511 | every run of the loop keeps one open issue row a key, as long as no answer names an unknown order twice |
| LoopTheorems.IterationApprovalIsSound | app/services/rules_approval.py:25-114 | an iteration approves exactly the first plan that passes every rule; then its reconciliation returned, the ledgers agreed, and the plan's budget is the account's equity times the symbol share |
| LoopTheorems.EveryApprovalIsSound | app/services/sim_loop.py:29-75 | the same for every iteration of every run, whatever the remote account answers |
| ApprovalRules.ApprovesIffPassesFirst | app/services/sim_loop.py:54-75 | a plan is approved exactly when the iteration gets to its review and the plan is the first by validation time and id to pass every rule on quote, market, day, capital, symbol and gate |
| ApprovalRules.CapitalPassesIff | app/services/portfolio_manager.py:25-111 | capital allows a plan exactly when all three reads came back, fewer positions than the limit are open locally and held remotely, cash and equity are positive, and the symbol has no open row and no working order |
| ApprovalRules.GatePassesIff | app/services/rules_approval.py:117-145 | a saved gate lets entries through exactly when it allows them and no open issue is HIGH or CRITICAL |
| ApprovalRules.BudgetOfApproved | app/services/sim_loop.py:63-66 | the approved plan leaves with the account's equity times the symbol share as its budget |
| ApprovalRules.ValidationPlaces | app/services/realtime_execution_validator.py:17-110 | where validation puts a plan by its quote and levels: paused, invalidated, not chased, triggered, armed or active |
| ApprovalRules.FundingWritesBudgets | app/services/portfolio_manager.py:195-210 | which plans get a budget, the equity times the symbol share or zero, and that nothing else of any plan changes |
| LoopRules.BuysByRule | app/services/sim_order_executor.py:29-98 | one executable plan: passed over, blocked, or one BUY with this size, price and limit, and what it leaves on plan and log |
| LoopRules.ExecutionGoesInOrder | app/services/sim_order_executor.py:12-99 | the plans in their order, each on the tables the one before left, until a BUY is accepted |
| LoopRules.ExecutionListIs | app/services/sim_order_executor.py:12-35 | what may be executed: nothing while simulated trading is off, else each triggered, approved, long plan once, by validation time and id |
| LoopRules.IterationTakesItsSteps | app/services/sim_loop.py:24-91 | order sync, position sync, reconciliation and management all take place, in this order, and entries only add orders |
| LoopRules.CutShortIff | app/services/sim_loop.py:24-91 | an iteration is cut short exactly when it does not get to its review, and then approves and buys nothing |
| LoopRules.EveryRowIsManaged | app/services/position_manager.py:25-65 | one pass manages every row once, on the orders sent before it |
| LoopTheorems.IterationBuysTheApproved | app/services/sim_loop.py:56-76 | in every iteration nothing is bought without an approval and the buy log grows by at most the accepted BUY |
| LoopTheorems.DailyCapHolds | app/services/rules_approval.py:148-158 | over every run with a forward clock the BUYs accepted on one UTC day never exceed the daily limit |
| Structures.DetectLatestStructures | app/services/structures.py:53-95 | the loop with its four cycle variables gives the fold of the specification |
| Lifecycle.DetectionsOfPrefix | app/services/structures.py:69-95 | the detections of a prefix are a prefix of the detections |
| Lifecycle.DetectionsOfStoredPrefix | app/services/structures.py:30-50 | the same for stored bars joined with their indicators, within the 160-bar window |
| Lifecycle.EveryHistoryIsGrammatical | app/services/structures.py:98-277 | bottom events are a prefix of (passivation structure failed)*, top events of (passivation structure invalidated)*, each linked to the event before it at a strictly earlier time with its levels inherited |
| Lifecycle.EveryScanIsGrammatical | app/services/structures.py:30-95 | the same for a scan of any stored history with increasing times |
| StructureRules.EventsAreGivenByBars | app/services/structures.py:98-277 | an event is reported exactly when a bar gives it: each of the six kinds by the bar's own prices, averages, DIF, histogram and volume, the 30 or 8 bars before it, and the newest event of its side; with all its levels and times |
| StructureRules.SeriesIsLast160 | app/services/structures.py:30-50 | the series a scan reads: the last 160 stored bars that have a DIF and a histogram, in order |
| StructureTable.EventTable.PersistOne | app/services/structures.py:293-347 | one detection in place: refresh the row of its key, or insert it under its parent and flag the parent |
| StructureTable.EventTable.PersistDetections | app/services/structures.py:293-347 | the loop in place, and the row of every detection |
| StructureTable.PersistAgain | app/services/structures.py:293-347 | persisting what is already there changes labels only |
| StructureTable.IncrementalEqualsOneShot | app/services/structures.py:293-347 | scanning after every new bar leaves the same events, levels, links and flags as one scan of the whole series |
| StructureTable.PersistAllKeepsFlags | app/services/structures.py:328-345 | a structure is failed or invalidated exactly when an ending points at it |
| StructureTable.ScanLeavesLinkedTable | app/services/structures.py:280-347 | after a scan every confirmation and ending points at the row of its own parent event |
| TableRules.PersistsByRule | app/services/structures.py:293-347 | a detection on file is only labelled again; a new one is added under the row of its parent, which its kind may flag |
| Indicators.RollingAverage | app/services/indicators.py:52-60 | the sliding sum equals the direct window mean at every index |
| Indicators.Ema | app/services/indicators.py:40-49 | the running value equals the recursive average at every index |
| Indicators.Rsi | app/services/indicators.py:75-99 | the two running averages give Wilder's index at every index |
| Indicators.CalculateKdj | app/services/indicators.py:102-122 | the running K and D equal their recurrences at every index |
| Indicators.MeanInRange | app/services/indicators.py:52-60 | a window mean lies between any bounds on its window |
| Indicators.EmaInRange | app/services/indicators.py:40-49 | an EMA lies between the least and the greatest value seen so far |
| Indicators.RsiInRange | app/services/indicators.py:75-99 | the RSI is defined exactly from index `period` on, and in [0, 100] |
| Indicators.KdjInRange | app/services/indicators.py:102-122 | with every close inside its bar K and D are in [0, 100] and J in [-200, 300] |
| IndicatorRows.CalculateIndicatorRows | app/services/indicators.py:125-214 | the loops together give the row of every ordered bar |
| IndicatorRows.RollingDeviation | app/services/indicators.py:63-72 | the deviation of exactly the last `window` values, and none before |
| IndicatorRows.SortOrders | app/services/indicators.py:126 | sorting by time orders the bars and loses none |
| IndicatorRows.RowOfPrefix | app/services/indicators.py:125-214 | a bar's row depends on that bar and the bars before it only |
| IndicatorRows.RowsOfPrefix | app/services/indicators.py:125-214 | the rows of a prefix are a prefix of the rows |
| IndicatorRules.RowsByRule | app/services/indicators.py:40-214 | every column of every row on the bars: means, exponential averages, MACD, true range, bands, strength, stochastic and ratios, each with its window |
| Replay.PrecomputeIndicators | app/services/backtest.py:480-490 | one row for every bar id of the history, from the rows of its own group |
| Replay.GroupByTime | app/services/backtest.py:89-91 | one batch for every availability time, holding exactly the bars of that time in order |
| Replay.ReplayTables.Admit | app/services/backtest.py:93-103 | one step adds the batch's copies and their stored indicator columns |
| Replay.ReplayBars | app/services/backtest.py:81-103 | the replay loop leaves the tables of the specification |
| Replay.TimesAreAvailabilities | app/services/backtest.py:493-500 | the steps are exactly the availability times, strictly increasing |
| Replay.ReleasedIsVisible | app/services/backtest.py:89-98 | after every step exactly the bars whose availability time has passed have been released, each once |
| Replay.NoLookAhead | app/services/backtest.py:89-103 | at every step the tables hold exactly the visible bars, and the indicators precomputed over the full history equal those computed from the visible bars of that symbol and timeframe |
| ReplayRules.ShownIffPeriodOver | app/services/backtest.py:89-103 | at every step the tables hold a copy, without its turnover, of exactly the bars whose day, hour or quarter of an hour is over by the clock, each once |
| ReplayRules.StepsAreEnds | app/services/backtest.py:493-500 | the steps are the ends of the bars' periods, each once, in order |
| ReplayTrades.ActiveReplayTrade.ApplyBarRisk | app/services/backtest.py:243-262 | one bar: extremes and count updated, closed at the stop when the low reaches it |
| ReplayTrades.FollowTrade | app/services/backtest.py:133-168 | the loop as one trade sees it, to its hard stop, exit signal or the end |
| ReplayTrades.NoTradeLosesMoreThanOneR | app/services/backtest.py:243-296 | from its entry bar on, whatever the bars, a trade loses at most one R, exactly one R if and only if the hard stop closed it, its result lies between its recorded extremes, and its risk is refused if and only if its stop is not below its entry |
| TradeRules.TradeEndsByRule | app/services/backtest.py:243-296 | a trade ends on the first bar that reaches its stop, at the stop, or with an approved exit, at the close, or at the last close; its bars, extremes and result |
| BacktestStats.DrawdownAndLosses | app/services/backtest.py:307-320 | the maximum drawdown is the least E_j - E_i over all i <= j of the cumulative curve from 0, and the streak is the longest run of non-positive results |
| BattlePool.BattlePoolTable.RankBattlePool | app/services/battle_pool.py:24-62 | the ranking in place: archive, order, allocate, place, and the counts |
| BattlePool.LatestAreNewest | app/services/battle_pool.py:166-181 | one event for every symbol, and none older than another of its symbol |
| BattlePool.SortScoredOrders | app/services/battle_pool.py:28-32 | the events ordered by score downwards then symbol, none lost |
| BattlePool.LoopIsPositional | app/services/battle_pool.py:33-40 | the counting loop gives each event the priority its position alone calls for |
| BattlePool.CapacityHolds | app/services/battle_pool.py:33-40 | at most three S and ten A for any number of events, and every event is counted once |
| BattlePool.AllocationIsFair | app/services/battle_pool.py:33-40 | the final priority is never better than the score's own and never improves further down |
| BattlePool.DemotedIffFull | app/services/battle_pool.py:35-39 | an event leaves its own tier exactly when that tier is already full of events ranked before it |
| BattlePool.ActiveItemsAreTheScored | app/services/battle_pool.py:25-62 | the ACTIVE items are exactly the scored symbols, each at its position's priority; other rows are only archived |
| PoolRules.PriorityByScoreAndPlace | app/services/battle_pool.py:33-40 | the priority of every place of the ranked list by its score and place: S from 85 in the first three, A from 70 in the next ten, C under 50, else B |
| PoolRules.CapacityIsThreeAndTen | app/services/battle_pool.py:33-40 | at most three S and ten A, every event one of the four, and the counters count them |
| PoolRules.RankedByScoreThenSymbol | app/services/battle_pool.py:28-32 | falling score, equal scores by symbol, the same events |
| PoolRules.ItemsAreThoseEvents | app/services/battle_pool.py:25-62 | every event has an ACTIVE item with its structure, score and priority; an item of no event is only archived |
| Risk.CalculatePositionSize | app/services/risk.py:79-113 | the steps of the sizing give the specified size |
| Risk.SizeIsGreatest | app/services/risk.py:79-113 | a size is the greatest whole number of shares, at least one, within the allowed loss and the symbol cap; there is none exactly when the inputs are refused or one share does not fit |
| Risk.StopIffSupported | app/services/risk.py:18-66 | there is a structure stop exactly when an hourly structure of the script's kind has its level the script's share of a positive ATR above a positive price below the entry, and that price is the stop |
| Risk.PortfolioAllowsNewPosition | app/services/risk.py:116-131 | the counting loop decides by open symbol, open count and industry exposure |
| EntryRules.SizeIffFits | app/services/risk.py:79-113 | the size of an entry is the greatest number of shares, at least one, that fits the allowed loss and the symbol cap; there is none exactly when none fits |
| EntryRules.RoomIff | app/services/risk.py:116-131 | a new position is allowed exactly when the symbol has none open, fewer are open than the limit, and its known industry has room |
| EntryRules.TriggerFiresIff | app/services/entry_trigger.py:22-153 | the trigger fires, or its structure expires, exactly so on the last nine bars and their indicators |
| EntryTrigger.FiredIffResumes | app/services/entry_trigger.py:22-153 | the trigger fires exactly when a live bottom structure is followed by a later bar that meets every condition bar by bar, and reports that bar, close and level |
| Corrections.EntryTriggerFailure | app/services/corrections.py:76-123 | the loop with its running histogram finds the first failure |
| Corrections.NoFailureIffTriggerHolds | app/services/corrections.py:76-123 | there is none exactly when the first five bars all closed at or above the level and any known MA20, the known histogram never fell, and the last close is near the entry |
| Corrections.UncorrectedIffValid | app/services/corrections.py:19-73 | a pending entry is left alone exactly when its structure is live, its trigger holds, fewer than four bars passed and the market is tradeable |
| SignalRules.HoldsIffKept | app/services/corrections.py:76-123 | a trigger holds exactly when the first five bars later than it stayed over level and MA20, no known histogram value fell under one before it, and the last close is within 3 percent of the entry |
| StateMachine.SignalDesk.ReconcilePendingEntry | app/services/corrections.py:19-73 | the newest pending entry is corrected by the first rule it breaks |
| StateMachine.SignalDesk.AdvanceStateMachine | app/services/state_machine.py:81-212 | one advance in place, all branches in their order |
| StateMachine.SignalDesk.CreateEntryCandidate | app/services/state_machine.py:215-296 | the entry signal, or the state that says why there is none |
| StateMachine.SignalDesk.ManagePosition | app/services/state_machine.py:299-407 | an open position: exits, reductions and the trailing stop in their order |
| StateMachine.SignalDesk.ApproveSignal | app/services/approvals.py:11-61 | an approval in place, or its refusal and what the refusal still changed |
| StateMachine.SignalDesk.RejectSignal | app/services/approvals.py:64-71 | the signal is rejected whatever its status |
| AdvanceRules.AdvancesByRule | app/services/state_machine.py:81-212 | the outcome of every advance on any desk: the correction of the newest pending entry, else cooldown, missing data, the open position, market, trend, pending entry or structures, in this order |
| AdvanceRules.LooksByRule | app/services/state_machine.py:141-212 | what the newest structures lead to: a cooldown, a wait, or an entry |
| EntryRules.CreatesByRule | app/services/state_machine.py:215-296 | what a fired trigger leads to: one entry with this price, stop, size and source, or the state that says why not |
| DeskRules.ManagingFollowsRules | app/services/state_machine.py:299-407 | an open position: its exit, reduction or state, its signal, its result and its trailing stop, by the five exit conditions in their order |
| DeskRules.EveryAdvanceManages | app/services/state_machine.py:105-120 | so for every advance of a symbol with an open position, in every run that began sane |
| AdvanceRules.ExitApproved | app/services/approvals.py:52-58 | an approved exit closes the open row and cools the symbol down |
| AdvanceRules.ReductionApproved | app/services/approvals.py:42-51 | an approved reduction takes its shares, and at zero closes and cools down |
| AdvanceRules.EntryApproved | app/services/approvals.py:17-41 | an approved entry opens one row with the price, stop and shares it names |
| AdvanceRules.OnlyPendingIsApproved | app/services/approvals.py:11-71 | what is not pending is refused and nothing changes; a rejection marks any signal and leaves positions and states alone |
| SignalTheorems.RunKeepsSane | app/services/state_machine.py:81-212 | over every run of advances, approvals and rejections there is at most one pending signal of a kind a symbol, never a pending entry beside an open position, and neither during a cooldown |
| SignalTheorems.AdvanceAddsSoundly | app/services/state_machine.py:141-296 | an advance adds at most one signal, and an entry only in a tradeable market and trend, out of cooldown, with nothing open or pending, on the newest live bottom structure and a strictly later trigger bar, greatest in size |
| SignalTheorems.EveryEntryWasSound | app/services/state_machine.py:215-296 | every entry signal of every run was created by one of its steps under those conditions |
| SignalTheorems.ApprovedIffValid | app/services/approvals.py:17-41 | a pending entry is approved exactly when complete, still valid and without a positions row; then exactly the position it describes is added |
| SignalTheorems.ValidMeansEveryBar | app/services/corrections.py:76-123 | for a valid entry every bar since the trigger, fewer than four, has kept level, MA20 and histogram, and the last close is within 3 percent |
| SignalTheorems.EveryApprovalIsSound | app/services/approvals.py:17-41 | the same re-check holds for every entry approved after any run |
| SignalTheorems.EffectiveStopNeverFalls | app/services/state_machine.py:335-372 | over every run the stop that guards a position never falls, its entry and fixed stop stay, and a closed position never opens again |
| SignalTheorems.HardStopIsSignalled | app/services/state_machine.py:299-310 | an open position whose daily close is at or below its stop gets a pending exit at its next advance |
| SignalTheorems.NoHardStopIsMissed | app/services/state_machine.py:105-120 | the same after every run with days that pass |
| SignalTheorems.EmptyDeskMissesNoHardStop | app/services/state_machine.py:105-120 | the same from an empty desk, with no other assumption |

## Left out

- StopRatchet.HardStopNeverFalls: the level below zero, which no price is compared with; `ManagingLowersStopIff` says when it falls there.
- FillOnce.SettledIsAbsorbing: syncs without a deals feed only; a deal rewrites the order it names, settled or not.
- FillOnce.FilledAtMostOnce: the same; `DealFills.FilledOnceIff` has the exact condition with deals.
- FillOnce.OrderSyncIsItsFills: the same.
- FillOnce.SharesAreConserved: order syncs without deals, since position sync sets shares from the remote row and a deal can take them twice (`DealFills.OrderRowAndDealTakeTwice`).
- IssueRows.EveryHistoryKeepsOneOpenPerKey: asks that no answer repeats an unknown order, since one that does opens two rows (`IssueRows.OneRowAKeyIff`).
- LoopTheorems.RunKeepsOneOpenPerKey: the same condition.
- ExitRetries.ExitOrdersAreBounded: asks that no waiting exit crosses the window between two clock readings, since a run in which one does exceeds the bound (`ExitRuns.CrossingRunExceedsBound`).
- StructureTable.IncrementalEqualsOneShot: scans of one symbol at a time, for histories within the 160-bar window that the detector loads.
- EntryTheorems.ApprovalAndExecutionAgree: the approved plan comes first only when it sizes to a share; the other case is a counterexample.
- Replay.NoLookAhead: the market, trend and structure evaluations that read the replay tables are separate readers and not part of this module.
- Rounding (`round(..., 2)`, `round(..., 4)`), floating-point error, the Bollinger square root (a parameter of the rows) and the logarithms of the screener scores.
- The weights inside `score_structure_event`; the score is an input. Direction, daily state, stage and reason texts of pool items and events, and the eligibility flag derived from the priority.
- The loss rule of the daily risk block, which reads the R values of closed positions, is an input of each review.
- Market state, stock trend, stage and suggested-action labels of structure events; only the direction label is kept, and the follow-through returns and quality fields are dropped.
- The `triggered_entry` flag of a structure, and entries of the second script, which the state machine never creates.
- Audit rows, texts, labels, view models, transition logs and `next_wait`; the display score of a signal and its target percentage.
- A correction or a trigger check on a zero price, and an industry check with zero configured equity, which raise a division error; they count as a failed check or no deviation here.
- A malformed remote row that cannot be parsed; the order of rows that tie on the sort key of a query, other than by id.
- Positions written by both the loop and the signal desk at once: each is modelled on its own tables.
- A cap on the number of positions across symbols: pending BUYs on other symbols are not counted (app/services/portfolio_manager.py:45 and 110), so it does not hold.
- One-way plan statuses: plan generation sets a plan ACTIVE again whatever its status (app/services/trade_plan.py:57-60).
- The other figures of the backtest report (win rate, medians, groupings) and the selection of symbols and start date of the replay.
- Broker clients, web routes, command line, templates, the JSON and SQL layers, deployment, the background job runner and its file lock.
