# Trading system: verified model

This project models the three parts of the trading system whose correctness spans many functions and a history,
and proves what they promise.

* **Execution protocol.** An immutable plan is approved, consumed atomically into order intents, and submitted by
  one process to a broker that may refuse, fail or vanish after acting. Duplicated events, cumulative polls and
  reconciliation then drive the intents to a final state. `Protocol` is the state machine over committed writes: a
  run is any list of actions, an action is one transaction, one call of the broker client, or the loss of the
  submitting process (an exception or a crash). An action whose guard fails changes nothing, so a statement about
  all lists of actions covers every interleaving of transactions and a crash between any two of them. `Store`,
  `Brokers`, `OrderManagers`, `Reconciliations` and `Services` hold the classes whose methods perform those
  actions step by step. The store keeps a ghost `history`, and every method proves that the tables are exactly
  where that history leads, so the theorems in `Safety` hold of every state the classes can reach.
* **Research engine.** Indicators feed the strategy rules, the rules feed the bar-by-bar backtest, backtests feed
  nested walk-forward selection, and one holdout may be opened once. Array passes are methods proved equal to
  functions of the history up to each bar. That equality is what makes look-ahead impossible, and it is carried
  through the rules, the loop, the ranking and the folds.
* **Risk gates.** The pre-trade gate, the correlation and portfolio review, and target construction accumulate sums
  in loops; each is proved to report nothing exactly when its declared limits hold.

Prices, quantities and money are `real`; instants are `int`; a plan hash is the content it covers (no two contents
share one); the identity verifier, the broker client, the broker's read side, square roots and quotes are
parameters. The tolerance 1e-9 is the constant `EPS`.

## Results where the code does not meet its purpose

* `Snapshots.EqualPartialFillsLoseOne`: two equal partial fills at one price have the same fingerprint, so the
  second is taken for a duplicate and the order stays half filled however often it is polled. `SnapshotCatchesUp`
  gives the exact condition under which one poll catches up.
* `Consumption.RequestIdsClash`: client request ids join plan id and order id with `_`, and nothing forbids `_` inside
  either. Two different orders share an id exactly when one plan id is the other cut at an underscore and the order id
  carries the rest; `InsertAllExactly` says that the second plan is then refused as a whole. A clash needs plan ids of
  different lengths, and the ids the planners make (`plan_` and 10 or 12 hexadecimal digits) never clash
  (`PlannedOrdersNeverClash`).
* `BrokerEvents.InvisibleExactlyWhenIgnored`: duplicate delivery is not always invisible. A fill without
  a positive quantity is discarded and does not reserve its execution id, so a later fill under that id may be accepted.
  Deleting the repeats from an event list leaves the order as it is if and only if every repeat arrives at
  an order whose handler discards it. An id that never turns from a non-positive to a positive quantity is enough for
  that (`DuplicateDeliveryIsInvisible`), but not necessary: a zero fill between two equal ones is harmless. A zero fill
  followed by a positive one is the smallest failing case (`DuplicateDeliveryNeedsPayloads`).
* `Scenarios.CrashAfterCallGoesUnnoticed`: a crash after the client call leaves canaries open until recovery or
  reconciliation looks at the intent. At-most-once submission holds regardless.
* `WalkForward.UnfilledNeverFires`: a fold lists unfilled stop-limit orders as a failure reason, but the backtest
  loop overwrites that mark before any trade is recorded.
* `BacktestLaws.StreamingStopIsBatchStop`: the streaming stop ignores a stop at or below zero while the batch simulation
  does not, so the two part exactly on a bar that trades at or below such a stop; positive lows rule it out.
* The module text of `shared/indicators.py` puts the stop at the peak minus a multiple of the previous bar's ATR;
  `chandelier_stop_entry_peak` and the backtest use the ATR of the current bar. The model follows the code.
  The text of `adx_di` counts 2 * period - 2 invalid leading entries; the code leaves 2 * period - 1 at zero
  (`Strategy.FilterNeedsWarmAdx`).

## Model

| member | source | states |
|---|---|---|
| `Models.CanonicalKeeps` | execution/models.py:76-83 | sorting the orders of a plan for hashing neither drops nor repeats one |
| `Models.SameHashSameContent` | execution/models.py:100-107 | two untampered plans with one hash agree on account, mode, expiry and orders |
| `IntentState.SetStatusKeeps` | execution/state.py:20-48 | a guarded status write never reopens a final status or a PENDING intent and keeps fills and status in agreement |
| `IntentState.FilledQuantityOfPrefix` | shared/db.py:2449-2454 | the filled sum only grows as fill rows are appended |
| `BrokerEvents.OnFilledAdds` | execution/broker.py:88-170 | a fill that is not ignored raises the sum to exactly min(sum + reported, order quantity), and the books stay in agreement |
| `BrokerEvents.HandleKeeps` | execution/broker.py:57-185 | no event breaks the books, reopens a final status or touches the fills of a cancelled or rejected order |
| `BrokerEvents.FillsAreConserved` | execution/broker.py:93-170 | over any event list fills never exceed the order, FILLED means complete up to EPS, final statuses stay, frozen sums stay |
| `BrokerEvents.InvisibleExactlyWhenIgnored` | execution/broker.py:93-137 | deleting every later repeat of a fill identity leaves the whole order identical if and only if each repeat arrives at an order that discards it |
| `BrokerEvents.DuplicateDeliveryIsInvisible` | execution/broker.py:111-137 | for ids that never turn from a non-positive to a positive quantity, every event list is identical with and without its repeats |
| `BrokerEvents.DuplicateDeliveryNeedsPayloads` | execution/broker.py:103-108 | the smallest failing case: a zero fill under an id leaves the id free for a positive one |
| `BrokerStatus.EverySpellingIsRead` | execution/broker.py:29-50 | every spelling of a local status word, in any case, with underscores and with the enum prefix, is read as that status |
| `BrokerStatus.SpellingDoesNotMatter` | execution/broker.py:29-34 | any other status word is looked up independently of case and underscores |
| `Snapshots.ApplySnapshotKeeps` | execution/broker_live.py:382-430 | one cumulative snapshot keeps the books and moves the sum by no more than the broker reported |
| `Snapshots.SnapshotsNeverOvershoot` | execution/broker_live.py:401-417 | over repeated, stale or reordered snapshots the sum never falls, never passes the largest cumulative seen, never passes the order |
| `Snapshots.SnapshotCatchesUp` | execution/broker_live.py:403-417 | one application reaches the target within EPS if and only if nothing is missing or the increment's fingerprint is new |
| `Snapshots.SecondSnapshotAdoptsStatus` | execution/broker_live.py:401-430 | a partial fill on a cancelled or rejected order is booked first; the second identical snapshot adopts the status |
| `Snapshots.SwallowedIncrementIsLost` | execution/broker.py:111-137 | an increment taken for a duplicate is never recovered by polling the same broker state again |
| `Snapshots.EqualPartialFillsLoseOne` | execution/broker.py:118-125 | two equal partial fills at one price lose the second for good |
| `CanaryBudget.CloseCanaries` | shared/db.py:1449-1481 | exactly the selected ACTIVE rows are closed with the reason, all others are untouched |
| `CanaryBudget.ScanPromises` | shared/db.py:1373-1407 | the candidate loop stops at the first row that can serve the request and closes only rows it passed over |
| `CanaryBudget.ReserveGrantsFirstFit` | shared/db.py:1351-1446 | a fresh request is granted if and only if some canary fits, the first one pays, and no other counter moves |
| `CanaryBudget.ReserveIsIdempotent` | shared/db.py:1361-1367 | asking again for the same request id charges nothing |
| `CanaryBudget.ReserveStaysWithinBudget` | shared/db.py:1408-1437 | used counters stay equal to the usage rows and within max_orders and max_notional + EPS |
| `CanaryBudget.OpeningStaysWithinBudget` | shared/db.py:1322-1348 | opening a canary keeps every budget equation |
| `CanaryBudget.ClosingStaysWithinBudget` | shared/db.py:1484-1499 | closing canaries keeps every budget equation |
| `CanaryBudget.ClosedAccountGrantsNothing` | shared/db.py:1373-1409 | with no ACTIVE canary of the account no new request is granted |
| `Consumption.InsertAllExactly` | shared/db.py:2356-2379 | a batch of intents goes in if and only if every side is legal and no request id is taken or repeated |
| `Consumption.ConsumeKeepsBooks` | execution/order_manager.py:157-200 | consumption creates exactly the approved orders, in order, once, and keeps every ticket invariant |
| `Consumption.AbsentOrComplete` | execution/order_manager.py:122-203 | a plan has no intents, or exactly those of one consumed ticket |
| `Consumption.ConsumedOnce` | shared/db.py:2335-2345 | a non-empty plan never has two consumed tickets |
| `Consumption.RequestIdsClash` | execution/order_manager.py:179-180 | two orders share a client request id if and only if they are one order or one plan id is the other cut at an underscore and the order id carries the rest |
| `Consumption.EqualLengthPlansNeverClash` | execution/order_manager.py:179-180 | for plan ids of one length equal request ids mean equal orders |
| `Consumption.PlannedOrdersNeverClash` | production/decision.py:244-256 | the plan ids the planners make never clash, whatever the order ids |
| `Consumption.DecideKeepsBooks` | shared/db.py:2266-2324 | approving or rejecting keeps unique nonces and every consumption invariant |
| `Consumption.InsertConfirmationKeepsBooks` | shared/db.py:2212-2241 | creating a ticket keeps every consumption invariant |
| `Consumption.EvolvingKeepsBooks` | execution/state.py:35-48 | an intent may change status and fills freely without disturbing what its ticket approved |
| `Protocol.RunIsSound` | execution/order_manager.py:222-356 | over every run intents and tickets only move forward and tickets, fills and budgets stay sound |
| `Protocol.StepIsSound` | execution/broker.py:73-185 | one action of any kind keeps those invariants |
| `Safety.RunIsSafe` | execution/order_manager.py:243-356 | the submission invariant holds in every state of every run |
| `Safety.FundIsSafe` | execution/broker_live.py:198-204 | reserving keeps it: a usage row exists only for an intent that has left PENDING |
| `Safety.CallIsSafe` | execution/broker_live.py:249-281 | calling keeps it: one call per intent, for no more than was reserved |
| `Safety.AtMostOnce` | execution/order_manager.py:329-356 | over every run the broker is called at most once per client request id |
| `Safety.NoWayBack` | execution/state.py:35-48 | an intent that left PENDING never returns, final statuses stay, fills are only appended |
| `Safety.FillsAlwaysConserved` | execution/broker.py:139-165 | fills are conserved in every reachable state |
| `Safety.ExposureIsCapped` | shared/db.py:1351-1446 | every call has a reservation of its own, counters stay within caps, all that was ever sent fits all caps plus one EPS each |
| `Safety.EveryCallWasApproved` | execution/service.py:192-203 | every broker call is an order of a LIVE plan of that account that a verified proof approved, with its symbol, side, price and quantity |
| `Safety.PlansAreConsumedAtomically` | execution/order_manager.py:157-200 | under any interleaving a plan has no intents or exactly those of its one consumed ticket, with unique nonce, same hash, and a proof when LIVE |
| `Safety.ShutOffHolds` | shared/db.py:1484-1488 | once an account is shut off no LIVE order of it reaches the broker until a canary of it is opened |
| `Safety.NoCallUntilReopened` | execution/order_manager.py:253-269 | the same between any two points of one history |
| `Safety.ClosingShutsOff` | shared/db.py:1449-1481 | closing the account's canaries shuts it off if and only if the submitting process holds no reservation of that account |
| `Scenarios.CrashAfterCallGoesUnnoticed` | execution/order_manager.py:228-237 | a crash after the call leaves SUBMITTING without a broker id and all canaries as they were |
| `Scenarios.SomeRunTrades` | execution/order_manager.py:329-356 | some run does place exactly one order, so the safety theorems are not empty |
| `PreTradeRisk.TicketReasons` | execution/pretrade_risk.py:85-97 | no ticket reason if and only if approved, bound to this plan and hash, and nothing expired |
| `PreTradeRisk.StandingReasons` | execution/pretrade_risk.py:98-145 | account and book state reasons, exactly |
| `PreTradeRisk.WellFormedReasons` | execution/pretrade_risk.py:104-117 | every order is legal and freshly quoted, or there is a reason |
| `PreTradeRisk.SlippageReasons` | execution/pretrade_risk.py:118-129 | every reference price is within its slippage of the market, or there is a reason |
| `PreTradeRisk.BuyingPowerReasons` | execution/pretrade_risk.py:130-139 | total BUY notional is within buying power, or there is a reason |
| `PreTradeRisk.HoldingsReasons` | execution/pretrade_risk.py:147-158 | no sale exceeds the held quantity plus EPS, or there is a reason |
| `PreTradeRisk.OrderLimitReasons` | execution/pretrade_risk.py:173-188 | every order is priced and within its cap, or there is a reason |
| `PreTradeRisk.ProjectQuantities` | execution/pretrade_risk.py:190-210 | the dictionary holds exactly held + buys - sells for every symbol |
| `PreTradeRisk.MeasureExposure` | execution/pretrade_risk.py:216-232 | the running gross is the sum of all projected exposures and each is compared with the position cap |
| `PreTradeRisk.ExposureReasons` | execution/pretrade_risk.py:212-236 | position and portfolio caps hold, or there is a reason |
| `PreTradeRisk.DailyLossReasons` | execution/pretrade_risk.py:237-245 | the daily loss limit holds, or there is a reason |
| `PreTradeRisk.LimitReasons` | execution/pretrade_risk.py:160-245 | all configured limits hold, or there is a reason |
| `PreTradeRisk.Evaluate` | execution/pretrade_risk.py:73-249 | PASS if and only if the declared conditions hold; UNKNOWN orders and an unsynced account are always named |
| `PreTradeRisk.TouchedIsExact` | execution/pretrade_risk.py:194-210 | every held or traded symbol is counted once and no other is |
| `PreTradeRisk.PassCapsEverySymbol` | execution/pretrade_risk.py:216-232 | a PASS under a position cap bounds every symbol there is |
| `Store.ExecutionStore.InsertPlan` | shared/db.py:2150-2174 | a plan id is bound to one content |
| `Store.ExecutionStore.RequestConfirmation` | shared/db.py:2212-2241 | a ticket is created exactly when its id and idempotency key are free |
| `Store.ExecutionStore.UpdateConfirmation` | shared/db.py:2266-2324 | PENDING becomes the decision exactly when binding and nonce checks pass |
| `Store.ExecutionStore.ApproveByProof` | execution/service.py:198-203 | approval through the proof channel is one protocol step |
| `Store.ExecutionStore.ApproveByChannel` | execution/order_manager.py:44-56 | every other channel cannot be the proof channel |
| `Store.ExecutionStore.Decline` | shared/db.py:2300-2324 | rejection is one protocol step |
| `Store.ExecutionStore.InsertIntents` | execution/order_manager.py:178-187 | the insert loop equals the all-or-nothing batch |
| `Store.ExecutionStore.ConsumeConfirmation` | execution/order_manager.py:157-203 | the consuming transaction equals its specification on the whole state |
| `Store.ExecutionStore.UpdateStatus` | execution/state.py:20-48 | the in-place update equals the guarded transition |
| `Store.ExecutionStore.Claim` | execution/order_manager.py:331-334 | a PENDING intent of a consumed plan becomes SUBMITTING |
| `Store.ExecutionStore.MarkUnknown` | execution/order_manager.py:339-351 | an intent becomes UNKNOWN unless it is final |
| `Store.ExecutionStore.Acknowledge` | execution/order_manager.py:352-353 | the ack is recorded and the submitting process is idle again |
| `Store.ExecutionStore.CreateLiveCanary` | shared/db.py:1322-1348 | a canary is opened exactly when readiness passed and the request is bounded, and then as the last row |
| `Store.ExecutionStore.CloseLiveCanaries` | shared/db.py:1484-1499 | only canary statuses change, as selected |
| `Store.ExecutionStore.ScanCanaries` | shared/db.py:1373-1407 | the loop equals the recursive scan |
| `Store.ExecutionStore.AuthorizeLiveCanary` | shared/db.py:1351-1446 | the reservation transaction equals its specification on the whole state |
| `Store.ExecutionStore.ReserveBudget` | shared/db.py:1360-1440 | row by row updates produce the specified canaries and usages |
| `Store.ExecutionStore.MarkReadiness` | shared/db.py:1311-1319 | only the readiness gate changes |
| `Store.ExecutionStore.SetAccountSync` | shared/db.py:1990-2006 | only the account's sync status changes |
| `Store.ExecutionStore.ListIntents` | shared/db.py:2382-2386 | exactly the intents of the plan, in order |
| `Brokers.LaterIsForward` | execution/state.py:20-48 | between any two points of a history state only moves forward and both are safe |
| `Brokers.BrokerEventHandler.Handle` | execution/broker.py:57-71 | one event changes exactly one intent as specified; an unknown intent changes nothing |
| `Brokers.BrokerEventHandler.OnFilled` | execution/broker.py:88-170 | the step-by-step fill transaction equals the specified transition |
| `Brokers.LiveBroker.Resolve` | execution/broker_live.py:387-398 | the addressee of a snapshot: by broker order id, else by remark |
| `Brokers.LiveBroker.ApplyTo` | execution/broker_live.py:400-430 | applying a snapshot equals the specified transition; an error if and only if a needed price is missing |
| `Brokers.LiveBroker.DrainEvents` | execution/broker_live.py:343-355 | draining equals applying the queued snapshots in order, and empties the queue |
| `Brokers.LiveBroker.PollOne` | execution/broker_live.py:361-375 | one polled row becomes what polling makes of it, and raises exactly when a needed price is missing |
| `Brokers.LiveBroker.PollActiveOrders` | execution/broker_live.py:357-380 | every intent of the plan is polled once up to the first that raises; the rest stay as they were; a simulating broker never raises |
| `Brokers.SimulatedPollKeepsFills` | execution/broker_live.py:432-441 | the simulated answer of a broker that neither trades nor queries is never ahead of the books of any reachable intent |
| `Brokers.LiveBroker.CheckSubmission` | execution/broker_live.py:176-204 | the LIVE checks pass exactly on consumed, matching, priced intents of a presentable ticket |
| `Brokers.LiveBroker.SubmitOrder` | execution/broker_live.py:138-230 | the client is called if and only if LIVE is enabled, all checks pass, a canary pays, the client is connected and the quantity is whole; success if and only if it then names an order id; otherwise a rehearsal is acknowledged exactly for a presentable ticket and writes nothing |
| `Brokers.LiveBroker.SubmitLive` | execution/broker_live.py:234-341 | exactly one call with the stored intent's symbol, side, whole quantity and reference price; none when the client cannot be loaded or attached |
| `OrderManagers.TicketOwnsIntents` | execution/order_manager.py:142-152 | a consumed ticket of the plan owns exactly the plan's intents |
| `OrderManagers.OrderManager.Consume` | execution/order_manager.py:122-218 | accepted exactly under the stated conditions; then the plan's intents are exactly the approved orders and exactly the listed ones are returned; a refusal changes nothing |
| `OrderManagers.OrderManager.Recover` | execution/order_manager.py:222-241 | exactly the SUBMITTING intents without a broker id become UNKNOWN; one of a LIVE plan closes the canaries of the account, which is then shut off |
| `OrderManagers.OrderManager.GuardAccount` | execution/order_manager.py:253-263 | a LIVE plan on an account that is not SYNCED leaves no open canary |
| `OrderManagers.OrderManager.RefuseUnknown` | execution/order_manager.py:264-270 | detects an UNKNOWN intent of the plan and closes the account |
| `OrderManagers.OrderManager.ChooseRoute` | execution/order_manager.py:271-284 | a route is found exactly when the mode's broker is in place |
| `OrderManagers.OrderManager.PreTrade` | execution/order_manager.py:285-322 | passes exactly when the gate does; an unknown or unsynced rejection closes the account |
| `OrderManagers.OrderManager.PaperSubmit` | execution/paper_broker.py:15-32 | acks exactly approved, consumed PAPER submissions with a replayable id |
| `OrderManagers.OrderManager.Route` | execution/order_manager.py:335-353 | either acknowledged as SUBMITTED with a broker id, or UNKNOWN with the account closed |
| `OrderManagers.OrderManager.SubmitOne` | execution/order_manager.py:331-356 | one round leaves the intent out of PENDING or UNKNOWN with the account closed, and calls the broker for this account only |
| `OrderManagers.OrderManager.SubmitAll` | execution/order_manager.py:330-356 | the loop leaves every intent out of PENDING, or stops at an UNKNOWN one with the account closed |
| `OrderManagers.OrderManager.PassGates` | execution/order_manager.py:251-322 | which requests are refused before anything is consumed, exactly, and which refusals close the account |
| `OrderManagers.OrderManager.Submit` | execution/order_manager.py:243-365 | refusals characterised exactly; no call unless the gate passed and the ticket could be consumed; unsynced or unknown states call nothing and shut the account off; an unknown outcome is recorded and shuts off; success means exactly the approved intents, none PENDING |
| `Reconciliations.ConsistentStays` | execution/broker.py:213-247 | a row that raises no mismatch is not written to |
| `Reconciliations.NoAnswerStaysInconsistent` | execution/broker.py:219-243 | a row without a usable answer stays inconsistent against every broker until something else moves it |
| `Reconciliations.Reconciliation.ReconcileRows` | execution/broker.py:213-248 | each listed row becomes what the broker's answer makes of it; ok if and only if all are supported |
| `Reconciliations.Reconciliation.ReconcilePaper` | execution/broker.py:257-276 | the PAPER check, from local rows alone |
| `Reconciliations.Reconciliation.ReconcilePlan` | execution/broker.py:207-255 | ok if and only if every intent is supported, and then nothing is written; otherwise MISMATCH, no open canary, and the account is shut off |
| `Services.KeysAreUnique` | execution/service.py:110-150 | an idempotency key names one ticket over every run |
| `Services.ConsumedIsFinal` | execution/service.py:392-395 | a consumed ticket never changes again |
| `Services.ExecutionService.SnapshotPlan` | execution/service.py:86-108 | only an untampered core plan is copied |
| `Services.ExecutionService.RequestConfirmation` | execution/service.py:110-151 | a used key returns its ticket unchanged; a new ticket is PENDING and never outlives its plan |
| `Services.ExecutionService.Approve` | execution/service.py:153-208 | APPROVED if and only if the ticket is pending, its stored plan matches, nothing expired, no claim contradicts it, the nonce is new and the verifier accepts a proof over this ticket's plan, hash and nonce; a failure changes no ticket |
| `Services.ExecutionService.Execute` | execution/service.py:355-438 | which requests are refused, exactly; nothing is written without an executable request and a route; a LIVE call also needs readiness and no kill switch; success means exactly the approved orders exist and none is PENDING |
| `Indicators.Rma` | shared/indicators.py:26-34 | each entry of the in-place pass is the Wilder mean of the history up to it |
| `Indicators.Sma` | shared/indicators.py:57-68 | the rolling sum equals the mean of the last window at every bar |
| `Indicators.Atr` | shared/indicators.py:37-50 | each entry is the smoothed true range of the history up to it |
| `Indicators.AdxDi` | shared/indicators.py:75-139 | ADX, +DI and -DI at a bar are functions of the history up to it and of whether two periods of data exist |
| `Indicators.MaSlope` | shared/indicators.py:152-170 | each entry is the least-squares slope of the last averages |
| `Indicators.SlopeOfLine` | shared/indicators.py:162-169 | on a straight line the regression returns its slope |
| `Indicators.MovesWithinRange` | shared/indicators.py:102-107 | +DM plus -DM never exceeds the true range of the bar |
| `Indicators.RmaDominated` | shared/indicators.py:110-115 | the Wilder recurrence keeps a pointwise bound |
| `Indicators.AdxBounds` | shared/indicators.py:75-139 | +DI, -DI and ADX lie in [0, 100] and +DI + -DI never exceeds 100, at every bar |
| `Indicators.PeakIsMaximum` | shared/indicators.py:204-213 | the stop's peak is the maximum high since entry |
| `Indicators.ChandelierStops` | shared/indicators.py:177-214 | the stop series is peak since entry minus the ATR multiple, 0 before entry |
| `Strategy.Compile` | shared/strategy_evaluator.py:91-130 | the evaluator's arrays equal the history functions |
| `Strategy.GenerateAlpha` | shared/alpha_model.py:55-78 | exactly the bars of the window on which the entry rule holds |
| `Strategy.NoEntryBeforeWarmUp` | shared/strategy_evaluator.py:37-74 | no entry mode fires before the average has a full window |
| `Strategy.FilterNeedsWarmAdx` | shared/strategy_evaluator.py:144-145 | the ADX filter lets nothing pass before ADX is valid |
| `Strategy.CrossNeedsWarmAverages` | shared/strategy_evaluator.py:77-83 | a dead cross needs both averages valid on both bars and excludes an up cross |
| `Strategy.SeriesDoNotLookAhead` | shared/strategy_evaluator.py:110-130 | two histories of one length that agree before bar k have series that agree before bar k |
| `Strategy.EntryDoesNotLookAhead` | shared/strategy_evaluator.py:37-74 | the entry rule on a bar depends on nothing after it |
| `Strategy.ExitDoesNotLookAhead` | shared/strategy_evaluator.py:160-188 | the exit decision on a bar depends on nothing after it |
| `Backtest.RunBacktest` | shared/backtest.py:149-287 | the loop yields exactly the trades and equity of the replayed book |
| `Backtest.Turn` | shared/backtest.py:213-267 | one bar's updates equal one replay step |
| `Backtest.Exit` | shared/backtest.py:235-262 | fill simulation and booking equal the specified exit |
| `Backtest.CloseOut` | shared/backtest.py:269-284 | an open position is sold at the last close and ends the curve in cash |
| `BacktestLaws.FillsAreFeasible` | shared/backtest.py:235-248 | in every exit mode and on any bar, an exit price is one the bar reached: not below its low, open and close, not above both open and close; within low and high when the bar is well formed |
| `BacktestLaws.LeavingAccounts` | shared/backtest.py:251-262 | selling turns the invested capital into capital times exit (1 - c) / (entry (1 + c)) |
| `BacktestLaws.OwedIsGrowth` | shared/backtest.py:216-262 | the capital is the starting cash times the product over trades |
| `BacktestLaws.BacktestAccounts` | shared/backtest.py:203-286 | on every series of positive closes: final equity is the accounting identity; one entry per bar; trades ordered without overlap, at prices their bars reached, none unfilled; with positive prices and a cost below 10000 basis points equity and exit prices stay positive |
| `BacktestLaws.StreamingStopIsBatchStop` | shared/backtest.py:229-248 | on every bar of an open position the streaming stop decides trigger, price and reason as exit_simulate does on the batch series, if and only if the bar does not trade at or below a stop at or below zero; a positive low is enough |
| `BacktestLaws.BacktestDoesNotLookAhead` | shared/backtest.py:184-286 | a backtest ending before bar k is identical on histories of one length that agree before k |
| `Statistics.MaxDrawdown` | shared/backtest.py:309-316 | the one-pass loop equals the recursive drawdown |
| `Statistics.DrawdownIsMaximum` | shared/backtest.py:309-316 | it is the maximum of (e_i - e_j) / e_i over all i up to j, attained, and below 1 |
| `Statistics.ComputeStats` | shared/backtest.py:290-335 | the statistics equal their definitions on trades and equity |
| `Statistics.KellyNeedsProfit` | shared/backtest.py:327-334 | a positive Kelly fraction implies gains outweigh losses, break-even trades counted against it |
| `Selection.ThresholdDropsAQuarter` | research/walk_forward.py:155-170 | the adaptive threshold is at least 5 and otherwise excludes at most a quarter of the candidates |
| `Selection.RankedIsSorted` | research/walk_forward.py:194-198 | ranking permutes the candidates into the declared order |
| `Selection.RankedIsStable` | research/walk_forward.py:194-198 | candidates that rank the same stay in grid order |
| `Selection.ShortlistIsBest` | research/walk_forward.py:187-199 | nothing left out ranks above anything kept, and only viable candidates are kept when there are any |
| `Selection.FindBest` | research/walk_forward.py:302-302 | the maximum loop returns the first best index |
| `Selection.BestIsBest` | research/walk_forward.py:202-211 | nothing outranks the winner and every earlier candidate ranks strictly below it |
| `WalkForward.WindowsAreChronological` | research/walk_forward.py:242-276 | training precedes validation precedes testing; test windows do not overlap |
| `WalkForward.RunAll` | research/walk_forward.py:279-286 | the grid loop yields one report per parameter set, in order |
| `WalkForward.SelectParams` | research/walk_forward.py:278-310 | the selection loops equal the specified choice |
| `WalkForward.ChoiceIsBestValidated` | research/walk_forward.py:290-304 | the chosen parameters come from the grid and nothing shortlisted validated better |
| `WalkForward.ChoiceIgnoresTheFuture` | research/walk_forward.py:242-310 | histories of one length that agree up to the end of training give identical inner training results for the whole grid and choose identical parameters, validation and training results |
| `WalkForward.FoldIgnoresItsFuture` | research/walk_forward.py:242-310 | the same for each fold of the walk-forward |
| `WalkForward.ProductionIgnoresLastTest` | research/pipeline.py:621-639 | production parameters do not depend on the last eighth of the development data |
| `WalkForward.RunFolds` | research/walk_forward.py:238-367 | the fold loop yields the specified folds, none when there is too little data |
| `WalkForward.UnfilledNeverFires` | research/walk_forward.py:350-351 | the unfilled failure reason of a fold can never occur, whatever the cost and whatever opens, highs and lows the bars have |
| `WalkForward.EligibleIsTrustworthy` | research/walk_forward.py:398-406 | a robust verdict means at most one failed fold, no fold below -25 percent or above 25 percent drawdown, and every passed fold traded and gained with positive Sharpe |
| `Holdouts.HoldoutStore.SealHoldout` | shared/db.py:1067-1098 | sealing is one step of the holdout table; a second interval owner is refused |
| `Holdouts.HoldoutStore.OpenHoldout` | shared/db.py:1101-1137 | opening is one step with the specified outcome |
| `Holdouts.HoldoutStore.ConsumeHoldout` | shared/db.py:1140-1159 | only an opened holdout of the same candidate is consumed; a refusal changes nothing |
| `Holdouts.HoldoutStore.Evaluate` | research/pipeline.py:877-894 | one evaluation measures once, a repeat returns the cached result unchanged, anything else contaminates |
| `Holdouts.SingleUse` | shared/db.py:1101-1137 | over every run a holdout is opened at most once, and a consumed one was exposed exactly once |
| `Holdouts.LaterRunsKeepTheEvidence` | shared/db.py:1067-1159 | contamination is absorbing, candidate and interval never change, every cached answer is the first consumed result |
| `Holdouts.OneEvaluationPerInterval` | shared/db.py:415-429 | one interval has one holdout and at most one first use |
| `Correlation.Moments` | production/portfolio_risk.py:106-110 | the accumulating sums are covariance and variances |
| `Correlation.CovarianceIsBounded` | production/portfolio_risk.py:106-110 | cov^2 <= va * vb for every pair of series |
| `Correlation.CorrelationIsBounded` | production/portfolio_risk.py:84-113 | every stored correlation lies in [-1, 1] |
| `Correlation.SameReturnsCorrelatePerfectly` | production/portfolio_risk.py:106-112 | series with the same returns correlate with exactly 1 |
| `Correlation.PairCorrelations` | production/portfolio_risk.py:69-113 | the table holds exactly the existing correlations of every ordered pair of symbols, over the last 252 closes of each |
| `PortfolioRisk.UsedCorrelationsAreBounded` | production/portfolio_risk.py:188-193 | every correlation compared with the threshold lies in [-1, 1] |
| `PortfolioRisk.PassCapsTwins` | production/portfolio_risk.py:188-199 | two active symbols with the same recent returns cannot pass together above the pair cap |
| `PortfolioRisk.Buckets` | production/portfolio_risk.py:151-172 | the dictionaries hold exactly the exposure of every group, sector or currency |
| `PortfolioRisk.BucketFailures` | production/portfolio_risk.py:158-182 | no bucket failure if and only if every capped bucket is within its cap |
| `PortfolioRisk.LiquidityFailures` | production/portfolio_risk.py:165-170 | no liquidity failure if and only if every proposed position is within its volume share |
| `PortfolioRisk.PairFailures` | production/portfolio_risk.py:186-199 | no pair failure if and only if every highly correlated pair is within its cap, correlations being those of the closes |
| `PortfolioRisk.AccountFailures` | production/portfolio_risk.py:201-221 | no account failure if and only if synced and affordable |
| `PortfolioRisk.CheckPortfolio` | production/portfolio_risk.py:116-223 | passed if and only if every cap holds |
| `PortfolioRisk.ApplyDecision` | production/portfolio_risk.py:226-251 | a pass keeps every fraction; a failure zeroes what was proposed and keeps what is held; the last plan of a symbol counts |
| `PortfolioRisk.PassBoundsEveryPosition` | production/portfolio_risk.py:150-160 | a pass bounds every single position by the group cap |
| `TargetPortfolios.ReviewedIsDistinct` | production/target_portfolio.py:78-100 | the reviewed portfolio names each symbol once |
| `TargetPortfolios.BuildTargetPortfolio` | production/target_portfolio.py:58-123 | a pass means every cap holds for the final fractions; a failure gives every symbol its exact fallback, above its current fraction if and only if a short position is covered |
| `TargetPortfolios.FailureNeverAddsRisk` | production/target_portfolio.py:106-115 | without short holdings the fallback of a failed review is never above the current fraction |

## Left out

- Brokers.LiveBroker.SubmitOrder: with LIVE enabled it is modelled for an intent the one submitting process has claimed; `submit` called outside `OrderManager` on a PENDING intent, which could call the client twice, is not modelled.
- Brokers.LiveBroker.PollActiveOrders: the broker always has an event handler; one built without a handler, which only audits simulated answers, is not modelled.
- Store.ExecutionStore.RequestConfirmation: asks for a stored plan with this hash, which both callers establish before they insert a ticket (`execution/order_manager.py:78-98`, `execution/service.py:110-132`); a ticket for a plan that was never stored is not modelled.
- Store.ExecutionStore.Claim: asks for a consumed ticket of the plan, because the loop of `submit` only runs after `consume`; claiming an intent nobody approved is not modelled.
- Store.ExecutionStore.AuthorizeLiveCanary: the step as its one caller takes it, for the claimed intent; `ReserveBudget` and the lemmas of `CanaryBudget` hold for every request.
- OrderManagers.OrderManager.Submit: models one submitting process and one instant `now` per call; two concurrent submit loops could both read PENDING before either writes SUBMITTING. The plan id is required to be non-empty, as `execute` demands, because an empty id lists the intents of all plans.
- WalkForward.RunFolds: parameters carry their defaults, so the variant key never sees a missing `adx_threshold`; averages over folds are not modelled, and the unused feature snapshots are not either.
- Correlation.CorrelationIsBounded: closes are taken in date order with one close per day, as the bars table returns them.
- PortfolioRisk.CheckPortfolio: the policy is complete; filling absent limits with the defaults is left to the caller.
- Indicators.AdxDi: the four parallel price lists are one list of bars, so the length check of the evaluator is not modelled.
- BacktestLaws.BacktestAccounts: closes are positive, because an entry divides by its close; highs, lows and opens are arbitrary. Rounding of floating point is not modelled.
- Holdouts.HoldoutStore.Evaluate: the gate that only verified candidates reach the holdout, and the lifecycle status that follows from it, are not modelled.
- `set_confirmation_status`, a blind write used by a command-line tool, is not an action of the protocol.
- SQLite, JSON, SHA-256 and HMAC: tables are maps and sequences reassigned atomically; intents, fills and dedupe marks are grouped per intent; canaries are named by row number; the dedupe lookup is set membership.
- The core store and the execution store are one object, with the core plans as a parameter of the service.
- Audit rows other than dedupe marks, notifications, broker order payloads, outbox, monitoring and API quota.
- `reconcile_all`, `reconcile_runtime`, account synchronisation, status queries and rejection through the service: each only combines or reads what is modelled.
- Qlib and vectorbt engines, information-coefficient analysis, factor reports, lifecycle rules and robustness statistics.
- Sockets, the command line, deployment and distribution scripts, configuration.
