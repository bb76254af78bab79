# Vantage paper trading, verified

A Dafny model of the paper-trading core of Vantage and of the loops and gates around it, with
proofs. `dafny verify dfyconfig.toml` checks everything.

The mutable parts of the system are classes, proved against specifications on values; the
theorems are about the specifications.

| module | what it is |
|---|---|
| `Models`, `Prelude`, `Sorting` | the trading values; insertion-ordered dictionaries and sums over them; stable sorting by a key |
| `Fills`, `OrderLife`, `LimitOrders`, `TrailingStops` | the fill simulator, the life of one order over the snapshots it is shown, what limit orders get from them, and the trailing rule |
| `Accounting`, `PaperAccounts` | average-cost accounting against a ledger of cash and inventory; the account object |
| `EngineSpec`, `EngineRuns`, `EngineTheorems`, `EngineBooks`, `ProtectionExits`, `PaperEngines` | the engine as a state machine, the invariant of its runs, what it means, which snapshots reach which orders, why protections exit, and the engine object |
| `Flattening`, `Scenarios` | when the kill-switch flatten completes, and when it reopens a position; concrete runs that go wrong |
| `KillSwitches`, `Runtimes` | the scoped halt protocol, and the order gateway in front of the engine |
| `Risk` | risk gate, sizing, rounding, autotrade planning |
| `Backtests` | the bar loop and the walk-forward folds, for an arbitrary strategy |
| `RateLimits`, `Gaps`, `Hubs` | the sliding-window limiter; candle gaps; merging and confirming candles |
| `Indicators`, `Money` | rolling indicators; the running cash of the money overview |

Money, prices and indicator values are exact reals. Uuids are numbers tagged with who constructed
the order; clocks are parameters; the ensemble, the candle provider, the verdict of the risk gate
and the current book are parameters. An `assert` that raises inside the fill simulator is an
explicit outcome, since an order without the price its type needs is accepted by the engine.

Where the code does not keep what its documentation or its comments say, the code is modelled, and
the exact condition is proved:

- Reduce-only is checked when an order is submitted, not when it fills
  (`Flattening.FlattenEndsFlatExactly`, `EngineTheorems.FillReducesExactly`; the run
  `Scenarios.StopInsideFlattenReopens`).
- An accepted order without a price its type needs raises inside every later snapshot of its symbol
  that comes to ask for it, and the protections are then not checked (`Fills.RaisesExactly`,
  `EngineBooks.BookRaisesExactly`; the run `Scenarios.UnpricedLimitDisablesStop`).
- A trailing stop forgets an extreme of exactly zero (`TrailingStops.TrailingDepartsExactly`; the
  order `TrailingStops.TrailingForgetsZero`).
- A stop-limit that was triggered and rests has to be triggered again in order to fill
  (`LimitOrders.LimitFillsExactly`; the order `LimitOrders.TriggeredStopLimitForgets`).
- An ended order that its caller submits once more works again (`EngineTheorems.EndedIsFinal`,
  `EngineTheorems.ResubmittedWorksAgain`).
- Rounding a size to a step can round up past a limit (`Risk.RoundingTripsRiskExactly`,
  `Risk.RoundingTripsExposureExactly`; the size `Risk.RoundingUpTripsTheGate`).
- Polling overlapping bars does not keep the candle series ascending
  (`Hubs.PollKeepsOrderExactly`, `Hubs.RepollingDisorders`).

## Model

| member | source | states |
|---|---|---|
| PaperAccounts.PaperAccount.ApplyFill | backend/app/services/paper_engine/account.py:39-98 | the in-place account opens, adds, reduces, closes or flips exactly as the value-level `Accounting.ApplyFill`, and returns the position the symbol then has |
| PaperAccounts.PaperAccount.CloseOrFlip | backend/app/services/paper_engine/account.py:85-98 | a position reduced to zero is booked as a closed trade, and what is left of the fill opens the opposite one |
| PaperAccounts.PaperAccount.Close | backend/app/services/paper_engine/account.py:100-106 | a closed trade books realized profit less fees and funding, and the position leaves the open ones |
| PaperAccounts.PaperAccount.ApplyFunding | backend/app/services/paper_engine/account.py:110-121 | one funding event; the flow returned is the change of the balance |
| PaperAccounts.PaperAccount.UnrealizedAt | backend/app/services/paper_engine/account.py:125-130 | the loop sums the unrealized profit of the marked open positions |
| PaperAccounts.PaperAccount.EquityAt | backend/app/services/paper_engine/account.py:132-133 | balance plus unrealized profit |
| PaperAccounts.PaperAccount.ExposureAt | backend/app/services/paper_engine/account.py:138-143 | the loop sums the notional of the open positions, at the mark or else at the entry |
| PaperAccounts.PaperAccount.RealizedPnlTotal | backend/app/services/paper_engine/account.py:145-146 | the sum of the closed profits |
| PaperAccounts.PaperAccount.SetProtections | backend/app/services/paper_engine/engine.py:138-144 | attaching a stop loss or take profit replaces only what the order carries |
| Accounting.FillMoves | backend/app/services/paper_engine/account.py:39-106 | whichever of the five things a positive fill does, cash plus cost basis falls by exactly fee and signed cost, and balance less closed and carried profit does not move |
| Accounting.FillRefines | backend/app/services/paper_engine/account.py:39-106 | a positive fill keeps the agreement between the average-cost account and a ledger of fees, funding, spending and inventory, and books its fee, its cost of slippage and its quantity to one position (or, when it flips, to the two it touches) |
| Accounting.FundingRefines | backend/app/services/paper_engine/account.py:110-121 | so does a funding event, which the ledger records as net quantity times mark times rate |
| Accounting.FundingIsPaidByLongs | backend/app/services/paper_engine/account.py:110-121 | the balance falls by the net quantity times mark times rate, so that longs pay a positive rate and shorts receive it; the position records it as paid |
| Accounting.EquityIsCashPlusInventory | backend/app/services/paper_engine/account.py:125-133 | whatever marks there are, equity is starting balance less fees plus funding less spending plus inventory at the marks, or at the average entry where there is none; the open symbols are those with an inventory |
| Accounting.ExposureIsGross | backend/app/services/paper_engine/account.py:138-143 | the exposure is the inventory of the ledger regardless of sign, at the marks or else at the entries |
| Accounting.AverageKeepsBasis | backend/app/services/paper_engine/account.py:70-75 | averaging keeps the cost basis: old basis plus cost of the fill |
| Accounting.ReduceKeepsBasis | backend/app/services/paper_engine/account.py:77-83 | reducing exchanges basis for cash: the basis changes by the profit realized plus the signed cost of the overlap |
| EngineTheorems.FullCloseRemoves | backend/app/services/paper_engine/account.py:77-106 | an opposite fill of the full size leaves one closed trade and no position |
| EngineTheorems.PositionAfterFill | backend/app/services/paper_engine/account.py:39-98 | what a fill makes of the position it meets: opened or flipped, at its price, unprotected, with the leverage of its order; closed; or kept with its leverage, time and protections, the average entry moving only on the same side |
| EngineTheorems.FillReducesExactly | backend/app/services/paper_engine/account.py:77-98 | a fill leaves the net quantity between zero and what it was if and only if an opposite position at least as large is open when it fills |
| EngineTheorems.AcceptedExactly | backend/app/services/paper_engine/engine.py:57-68 | an order is accepted if and only if its quantity is positive and, reduce-only, filling it whole at that moment would leave the net quantity between zero and what it was |
| PaperEngines.FillSimulator.TryFill | backend/app/services/paper_engine/fills.py:32-48 | the dispatch over the six order types, changing the order object as the value-level `Fills.TryFill` says |
| PaperEngines.FillSimulator.FillMarket | backend/app/services/paper_engine/fills.py:52-59 | a market fill of all that remains, at the touch plus slippage |
| PaperEngines.FillSimulator.FillLimit | backend/app/services/paper_engine/fills.py:63-98 | limit and post-only orders: maker, taker, partial and resting cases, the missing price and IOC |
| PaperEngines.FillSimulator.MaybeTriggerThenMarket | backend/app/services/paper_engine/fills.py:102-115 | stop and take-profit orders |
| PaperEngines.FillSimulator.MaybeTriggerStopLimit | backend/app/services/paper_engine/fills.py:117-122 | stop-limit orders |
| PaperEngines.FillSimulator.UpdateTrailing | backend/app/services/paper_engine/fills.py:126-139 | trailing stops: the running extreme and the trigger |
| Fills.RaisesExactly | backend/app/services/paper_engine/fills.py:63-139 | a handler raises if and only if the order lacks the price it comes to assert on that snapshot |
| OrderLife.TryFillSound | backend/app/services/paper_engine/fills.py:32-139 | every handler fills nothing or a positive part of what remains, and reports FILLED exactly when it filled all of it |
| OrderLife.ReportedSlippageIsApplied | backend/app/services/paper_engine/fills.py:143-162 | the slippage reported for a price is the slippage that was applied to the touch, for the three models |
| OrderLife.TryFillIsPriced | backend/app/services/paper_engine/fills.py:52-174 | every fill pays the fee of its role, a limit fill is at the touch or at its resting limit, any other fill reports the slippage of its model |
| OrderLife.MarketFillCosts | backend/app/services/paper_engine/fills.py:52-59 | a market fill takes all that remains at the far touch, worse by nothing, by the configured basis points, or by these and as many more for each level of the displayed size taken; for the taker fee |
| OrderLife.TriggerOrderFillsExactly | backend/app/services/paper_engine/fills.py:102-115 | a take-profit sell fills if and only if the mid is at or above its trigger, a buy at or below; a stop the other way round; otherwise the order is left as it was |
| OrderLife.SlippageIsAdverse | backend/app/services/paper_engine/fills.py:143-155 | with non-negative quotes and settings a slipped price is never better than the touch |
| OrderLife.LifeIsSound | backend/app/services/paper_engine/fills.py:32-139 | over any snapshots: filled quantity is the sum of the fills and at most the size, FILLED means nothing remains |
| OrderLife.LifeIsHonest | backend/app/services/paper_engine/fills.py:52-155 | over any snapshots every fill is honest: not better than the touch, within the limit, past the trigger, and maker only after an earlier snapshot found a post-only order non-marketable |
| LimitOrders.LimitFillsExactly | backend/app/services/paper_engine/fills.py:63-122 | a working limit or stop-limit order fills on a snapshot if and only if that snapshot reaches the trigger, if there is one, and is marketable (and, post-only, an earlier one let it rest); it is turned down if and only if it is post-only and does not rest, cancelled if and only if it is immediate-or-cancel and misses; a trigger reached earlier counts for nothing |
| LimitOrders.LifeFills | backend/app/services/paper_engine/fills.py:63-98 | over any snapshots shown to it while it works, its fills are one for each that it hits, of what it still wants or as much as is displayed, at the touch as taker, or resting at its limit as maker |
| LimitOrders.TriggeredStopLimitForgets | backend/app/services/paper_engine/fills.py:95-122 | a concrete order, triggered and resting, that a well marketable snapshot does not fill |
| TrailingStops.TrailingTracksExtreme | backend/app/services/paper_engine/fills.py:126-139 | the stored extreme starts afresh after a zero, and the order fills when the mid has come back from it by the offset |
| TrailingStops.ExtremeForgetsZero | backend/app/services/paper_engine/fills.py:130-136 | the stored extreme is the best mid, except that a best mid of zero gives way to the best mid since |
| TrailingStops.TrailingDepartsExactly | backend/app/services/paper_engine/fills.py:126-139 | the code departs from the trailing rule if and only if the best mid is zero and the mid has come back from it by the offset, but not from the best mid since the last zero |
| TrailingStops.TrailingFiresFirst | backend/app/services/paper_engine/fills.py:126-139 | over any snapshots a trailing stop fires on the first at which the rule holds, a forgotten zero aside, and on no earlier one |
| TrailingStops.RuleHoldsWithoutException | backend/app/services/paper_engine/fills.py:126-139 | the rule holds without exception where no mid is zero or on the wrong side of it; a sell with non-negative quotes never fails |
| TrailingStops.TrailingForgetsZero | backend/app/services/paper_engine/fills.py:126-139 | a concrete buy, with non-negative quotes, that does not fire |
| PaperEngines.PaperEngine.Submit | backend/app/services/paper_engine/engine.py:47-68 | submission on mutable order objects: rejected without a positive quantity or, reduce-only, without a position to reduce; otherwise pending |
| PaperEngines.PaperEngine.Cancel | backend/app/services/paper_engine/engine.py:70-76 | cancels a working order, and says whether it was working |
| PaperEngines.PaperEngine.CancelAll | backend/app/services/paper_engine/engine.py:78-83 | cancels the working orders of one symbol or of all |
| EngineTheorems.CancelsExactly | backend/app/services/paper_engine/engine.py:78-83 | cancelling a symbol, or everything, leaves exactly the working orders of the other symbols, as they were |
| PaperEngines.PaperEngine.OnBook | backend/app/services/paper_engine/engine.py:97-112 | one snapshot: the eligible orders in insertion order, then the protections; the fills returned are those logged; an assertion of a handler cuts it short |
| PaperEngines.PaperEngine.Settle | backend/app/services/paper_engine/engine.py:127-152 | a fill reaches the account, the protections attach, a terminal order leaves the working ones |
| EngineTheorems.AttachesExactly | backend/app/services/paper_engine/engine.py:136-144 | a fill attaches both protections its order carries to the position it leaves on the order's side, and to no other; what the order does not carry stays |
| PaperEngines.PaperEngine.CheckProtections | backend/app/services/paper_engine/engine.py:154-179 | a reached stop loss or take profit closes the position on that snapshot |
| PaperEngines.PaperEngine.FlattenAll | backend/app/services/paper_engine/engine.py:114-123 | cancels everything, then submits one close for each open position |
| EngineRuns.StepSound | backend/app/services/paper_engine/engine.py:47-179 | the engine invariant (the account agrees with the ledger, each order lived its life over snapshots it was eligible for) is kept by every submit, cancel, snapshot, flatten and funding event; that each eligible snapshot is met is `EngineBooks.BookShows` |
| EngineRuns.RunSound | backend/app/services/paper_engine/engine.py:47-179 | so it holds in every run from a fresh account |
| EngineBooks.BookShows | backend/app/services/paper_engine/engine.py:97-112 | a snapshot is added to the history of exactly the orders that work, are eligible, and are not behind one that raises |
| EngineBooks.EveryOrderKeepsItsContract | backend/app/services/paper_engine/engine.py:97-152 | in every run: fills add up to the filled quantity, at most the size; FILLED means nothing remains; working means non-terminal with something remaining; no fill before submission plus latency; every fill honest; and the order met exactly the snapshots that it was to be shown |
| EngineBooks.EveryOrderMeetsItsBooks | backend/app/services/paper_engine/engine.py:97-112 | in every run whose orders have their prices, each order meets the eligible snapshots that follow its submission, from the first and without a gap, for as long as it works |
| EngineBooks.MarketOrdersFillOnFirstBook | backend/app/services/paper_engine/engine.py:97-112 | in every such run a market order, unless turned away or cancelled, is filled whole by the first eligible snapshot |
| EngineBooks.LimitOrdersFillExactly | backend/app/services/paper_engine/engine.py:97-112 | in every such run the fills of a limit or stop-limit order of any time in force are one for each eligible snapshot that it hits until it wants no more, by the smaller of the remainder and the displayed size (all of it when resting, or when partial fills are off or nothing is displayed); if it was cancelled or turned down, up to then; only a post-only order that hits before it rests is turned down at work |
| EngineBooks.TriggersFireFirst | backend/app/services/paper_engine/engine.py:97-112 | in every such run a stop-market or take-profit order, unless turned away or cancelled, is filled whole by the first eligible snapshot whose mid is at its trigger or past it, on the side its type asks for, and only if there is one |
| EngineBooks.TrailingStopsFireFirst | backend/app/services/paper_engine/engine.py:97-112 | in every such run a trailing stop, unless turned away or cancelled, is filled by the first eligible snapshot on which the rule holds, and only if there is one |
| EngineTheorems.EndedIsFinal | backend/app/services/paper_engine/engine.py:70-152 | a filled, cancelled or rejected order never fills or changes again, whatever happens, as long as callers submit new orders only |
| EngineTheorems.ResubmittedWorksAgain | backend/app/services/paper_engine/engine.py:57-68 | submitted once more, an ended order works again if and only if it would be accepted as a new one |
| EngineTheorems.EveryRunBalances | backend/app/services/paper_engine/account.py:39-146 | in every run the equity and exposure reported are those of the ledger; the balance is starting balance plus closed profit plus what open positions carry; and every fee, funding payment, cost of slippage and quantity traded is booked to a position, open or closed |
| EngineTheorems.ProtectionsActExactly | backend/app/services/paper_engine/engine.py:154-179 | while the mid is strictly inside the protections of the position the check changes nothing; otherwise one fill on that snapshot closes the position whole |
| EngineTheorems.CheckedProtectionsHold | backend/app/services/paper_engine/engine.py:154-179 | after the protection check the mid is strictly inside the protections of a position still open |
| ProtectionExits.NoExitWithoutReason | backend/app/services/paper_engine/engine.py:154-179 | in every run each protection exit met one snapshot, whose mid was at the stop loss or take profit of its position or beyond, and closed that position there with one fill |
| EngineBooks.ProtectionsHoldAfterEveryBook | backend/app/services/paper_engine/engine.py:97-179 | in every run, after every snapshot for which no eligible working order lacks its price, the mid is strictly inside the stop loss and take profit of a position still open in the symbol |
| EngineBooks.PricedRunsAreProtected | backend/app/services/paper_engine/engine.py:97-179 | in every run whose submitted orders have the prices their types need, no snapshot is cut short, and this holds after every one |
| EngineBooks.BookRaisesExactly | backend/app/services/paper_engine/engine.py:97-112 | a snapshot is cut short if and only if an eligible working order lacks the price that its handler asserts |
| EngineBooks.StuckStaysStuck | backend/app/services/paper_engine/fills.py:63-64 | such an order lacks a price its type needs, and lacks it on every later snapshot too |
| Scenarios.UnpricedLimitDisablesStop | backend/app/services/paper_engine/engine.py:47-112 | a concrete run: one unpriced limit order, with a trigger price, keeps a stop loss from firing |
| Scenarios.StopInsideFlattenReopens | backend/app/services/paper_engine/engine.py:105-183 | a concrete run: a stop closes a long inside the latency of a flatten, and the close opens a short |
| Flattening.FlattenPendsOneClosePerPosition | backend/app/services/paper_engine/engine.py:114-123 | after a flatten the working orders are, one for one and in order, the accepted full-size closes of the open positions |
| Flattening.BookMoves | backend/app/services/paper_engine/engine.py:97-179 | a snapshot of any symbol moves the close of each position by one step: a late enough one closes it, an early one that reaches a protection orphans it, a late one after that reopens |
| Flattening.FlattenCompletes | backend/app/services/paper_engine/engine.py:97-123 | when the first snapshot of every open symbol is late enough, the account ends flat, nothing works, and balance is starting balance plus closed profit |
| Flattening.FlattenEndsFlatExactly | backend/app/services/paper_engine/engine.py:105-183 | with a late enough snapshot of every open symbol among any others, in any order: nothing works any more, and the account is flat if and only if no position had a protection reached before the first late enough snapshot of its symbol; else the close reopened it on the other side |
| KillSwitches.ServeConsistent | backend/app/services/risk/killswitch.py:60-106 | a request changes at most its own scope, by one lawful event or none |
| KillSwitches.LogReconstructsEverySwitch | backend/app/services/risk/killswitch.py:60-140 | in every history the event log alone gives state, level, reason and time of the trip of every scope, and armed means no level |
| KillSwitches.LevelNeverDrops | backend/app/services/risk/killswitch.py:65-106 | while a scope is not armed its level never drops |
| KillSwitches.ArmedHasNoLevel | backend/app/services/risk/killswitch.py:87-106 | along every lawful log, armed means no level |
| KillSwitches.HardTripNeedsAcknowledgeThenRearm | backend/app/services/risk/killswitch.py:79-106 | between a hard trip and a later armed state of the scope lie an acknowledgement and after it a re-arm of that scope |
| KillSwitches.GateFollowsLevels | backend/app/services/risk/killswitch.py:110-134 | a hard global switch blocks entries and exits; whatever blocks an exit blocks the entry |
| KillSwitches.BlockedExactly | backend/app/services/risk/killswitch.py:110-134 | an entry is blocked if and only if the global switch, that of its symbol or that of its strategy is not armed; an exit if and only if the global switch or that of its symbol is hard |
| KillSwitches.ScopesApart | backend/app/services/risk/killswitch.py:119-121 | the scopes of symbols, strategies and the whole system never coincide |
| KillSwitches.KillSwitchRegistry.TripScope | backend/app/services/risk/killswitch.py:65-77 | the registry object trips as the specification does, and fires its hook exactly on a transition |
| KillSwitches.KillSwitchRegistry.AcknowledgeScope | backend/app/services/risk/killswitch.py:79-85 | acknowledges from tripped only |
| KillSwitches.KillSwitchRegistry.RearmScope | backend/app/services/risk/killswitch.py:87-94 | re-arms from acknowledged only |
| KillSwitches.KillSwitchRegistry.AutoClearScope | backend/app/services/risk/killswitch.py:96-106 | clears an unacknowledged soft trip only |
| KillSwitches.KillSwitchRegistry.FirstBlockingEntry | backend/app/services/risk/killswitch.py:116-126 | an entry is blocked if and only if one of its scopes is not armed, and the first of them in order is returned |
| KillSwitches.KillSwitchRegistry.FirstBlockingExit | backend/app/services/risk/killswitch.py:128-134 | an exit is blocked if and only if the global or the symbol switch is hard and not armed, and the first of them is returned |
| Runtimes.HappensKeepsHalt | backend/app/runtime.py:257-330 | every event keeps: hard global switch means only flatten closes are working |
| Runtimes.HaltedMeansOnlyFlattenCloses | backend/app/runtime.py:257-330 | over every interleaving of trips, escalations, acknowledgements, re-arms, auto-clears, placed orders, cancels and ticks, while the global switch is hard and not re-armed every working order is a reduce-only close submitted by the flatten |
| Runtimes.HaltedFillsNothingOfCallers | backend/app/runtime.py:297-330 | while halted nothing a caller ordered fills, and a placed order does not reach the engine |
| Runtimes.RuntimeIsSound | backend/app/runtime.py:257-330 | whatever happens to the runtime, its engine keeps the engine invariant |
| Runtimes.HardTripFlattensExactly | backend/app/runtime.py:257-260 | a hard global trip from any such state, then any events that leave the runtime halted and the closes uncancelled, among them a late enough tick of every open symbol: nothing is left working, and the account ends flat if and only if no protection was reached too early |
| Runtimes.HaltEndsExactly | backend/app/services/risk/killswitch.py:87-106 | an event ends a halt if and only if it re-arms the global switch after an acknowledgement |
| Runtimes.HaltLasts | backend/app/services/risk/killswitch.py:87-106 | while nobody asks for that re-arm and no close is cancelled, the runtime is halted throughout, as `HardTripFlattensExactly` supposes |
| Runtimes.TradingRuntime.Place | backend/app/runtime.py:297-330 | the gateway object: kill switches, risk verdict, engine, then the current book, and whether that raised |
| Runtimes.PlacesExactly | backend/app/runtime.py:297-330 | an order reaches the engine if and only if its switches and, for an entry, the risk gate let it; what is blocked changes nothing, what is not is submitted and meets the latest book |
| Runtimes.TradingRuntime.TripAndHook | backend/app/runtime.py:257-260 | the trip with its hook: a hard global trip flattens |
| Backtests.BookQuotesTheClose | backend/app/services/backtest/engine.py:35-39 | the synthetic book is centred on the close, has the configured spread, and non-negative quotes |
| Backtests.RunBacktest | backend/app/services/backtest/engine.py:42-119 | the bar loop over a mutable engine ends with the account of the bar-by-bar specification |
| Backtests.ActOnSignal | backend/app/services/backtest/engine.py:68-117 | exit an opposing position first, enter only when flat |
| Backtests.EnterOnSignal | backend/app/services/backtest/engine.py:85-117 | size, quantize, ask the risk gate, submit |
| Backtests.FillsFollowSignals | backend/app/services/backtest/engine.py:68-117 | every fill of an order of a bar is a buy if that bar's signal is LONG and a sell if it is SHORT; there is none on a neutral one |
| Backtests.ExitsExactly | backend/app/services/backtest/engine.py:72-84 | from the warmup on, a bar submits an exit of the whole position if and only if its signal has a direction and a position against it is open |
| Backtests.EntersExactly | backend/app/services/backtest/engine.py:85-117 | from the warmup on, a bar that is flat, after its exit if it has one, submits an entry, and has it accepted, if and only if its signal has a direction and a stop, the rounded size is positive and the gate allows it; with the side, stop and target of the signal |
| Backtests.BacktestTradesInRoundTrips | backend/app/services/backtest/engine.py:56-117 | with bars at least the latency apart: one fill opens and one full-size fill closes each position, at most one order works between bars, each profit is price difference on the size less two fees |
| Backtests.BacktestIsRun | backend/app/services/backtest/engine.py:52-119 | a backtest is a proper run of a fresh engine by actions whose orders have their prices, so the run theorems hold of it |
| Backtests.BacktestFillsAreFromBars | backend/app/services/backtest/engine.py:52-117 | every fill, of a signal order or of a protection, is honest for the book of a bar after the warmup, and carries its time |
| Backtests.BacktestFillsAreCausal | backend/app/services/backtest/engine.py:56-117 | a fill of an order of bar k is honest for the book of a bar j, no earlier than bar k plus the latency; with latency, and bars at least that apart, j is later than k |
| Backtests.BacktestOnPrefixIsPrefix | backend/app/services/backtest/engine.py:56-117 | closed trades and log of a backtest on a prefix are a prefix of those on the whole series |
| Backtests.WarmupIsQuiet | backend/app/services/backtest/engine.py:62-63 | nothing is traded during the warmup |
| Backtests.FoldsPartition | backend/app/services/backtest/walkforward.py:56-66 | the fold windows are consecutive, at least thirty bars each, from the warmup to the end of the history, and all but the last of one length, the greatest possible |
| Backtests.FoldTradesInItsWindow | backend/app/services/backtest/walkforward.py:56-78 | every fill of a fold, of a signal order or of a protection, is priced from a bar of its own window |
| Backtests.RunFold | backend/app/services/backtest/walkforward.py:64-78 | a fold is the backtest on the history up to its end, with the warmup at its start |
| Backtests.WalkForward | backend/app/services/backtest/walkforward.py:47-78 | refuses exactly a history that is too short, raises exactly when the warmup starts before it, and otherwise returns every fold in order |
| RateLimits.RateLimiter.Check | backend/app/core/ratelimit.py:27-39 | each decision of the evicting deque is the rule "fewer than limit admissions in the window" over the whole history; the retry is that of the specification; a limit below one raises on an empty deque |
| RateLimits.RateLimiter.Evict | backend/app/core/ratelimit.py:31-34 | after eviction the deque holds exactly the admissions in the window |
| RateLimits.AdmitsExactly | backend/app/core/ratelimit.py:27-39 | the rule looks at one admission, the limit-th newest |
| RateLimits.NoWindowOverflows | backend/app/core/ratelimit.py:19-39 | no window of that length, wherever it ends, holds more than the limit |
| RateLimits.RetryIsExact | backend/app/core/ratelimit.py:35-37 | before the retry instant every check is refused, from it on admitted |
| RateLimits.WaitingIsNotLengthened | backend/app/core/ratelimit.py:27-39 | refused checks in between do not move that instant |
| Gaps.FindGaps | backend/app/services/market_data/reconciler.py:20-33 | the loop over the sorted distinct times |
| Gaps.GapDetection | backend/app/services/market_data/reconciler.py:20-37 | for times of one grid, in any order: ranges disjoint and ascending, standing for exactly the missing grid points; their count is span over step plus one less the distinct stored |
| Gaps.RepairClosesGaps | backend/app/services/market_data/reconciler.py:20-33 | once the missing times are added, no gap is found |
| Gaps.CandleReconciler.Reconcile | backend/app/services/market_data/reconciler.py:47-61 | fetches every gap from the provider and counts what came back |
| Gaps.GapsVanishExactly | backend/app/services/market_data/reconciler.py:20-33 | no gap is found in a list of times, in any order and with repeats, if and only if each but the latest has another within one interval after it |
| Gaps.ReconcileRepairs | backend/app/services/market_data/reconciler.py:47-61 | against a provider that has every candle of the grid over the stored span, and may return the one at the end of a range too, stored and fetched times together have no gap |
| Gaps.HistoryServes | backend/app/services/market_data/binance.py:62-88 | an exchange that answers with its candles from start to end, both included, is such a provider wherever its history has the whole grid |
| Hubs.MarketHub.MergeCandle | backend/app/services/market_data/hub.py:182-194 | merging one row into the bounded series of a known symbol |
| Hubs.MarketHub.MergeRows | backend/app/runtime.py:420-421 | the loop that merges the rows fetched |
| Hubs.ReconcileSymbol | backend/app/runtime.py:416-421 | reconciling one symbol: what is fetched for the gaps of its series is merged into it; under the conditions of `ReconcilingLeavesNoGap` no gap is left |
| Hubs.MergingKeepsNewest | backend/app/services/market_data/hub.py:182-194 | merging rows of distinct times into an ascending series leaves exactly the newest of the union, ascending, without repeats |
| Hubs.MergingIsOrderIndependent | backend/app/services/market_data/hub.py:182-194 | in whatever order they are merged |
| Hubs.MergingIsIdempotent | backend/app/services/market_data/hub.py:182-194 | and however often |
| Hubs.MergingOrders | backend/app/services/market_data/hub.py:182-194 | merging a row of a new time into any series, disordered or with repeats, leaves its newest candles in order of time |
| Hubs.MergingKeepsNewestTimes | backend/app/services/market_data/hub.py:182-194 | merging any rows into any series leaves the newest of all their times: none later than one kept is missing, and none at all while the series is not full |
| Hubs.ReconcilingLeavesNoGap | backend/app/runtime.py:416-421 | reconciling any series of one grid against a provider that has every candle of its span, and merging what came back, leaves a series without gaps |
| Sorting.SortSorts | backend/app/services/analytics/money.py:56 | `sorted` by a key keeps the elements, in ascending order, those of one key in the order in which they stood |
| Sorting.SortedIsUnique | backend/app/services/market_data/hub.py:193 | and this leaves one list only |
| Hubs.MarketHub.Klines | backend/app/services/market_data/hub.py:169-180 | a message of any number of bars: each updates the forming bar or is appended, the marked ones are handed on; an unknown symbol raises |
| Hubs.MarketHub.IngestPolledKlines | backend/app/services/market_data/hub.py:121-135 | one poll: the series, the bars confirmed, and the last start confirmed |
| Hubs.MarketHub.PollLoop | backend/app/services/market_data/hub.py:118-135 | a run of polls hands on exactly the confirmations that `EachBarClosesOnce` describes |
| Hubs.EachBarClosesOnce | backend/app/services/market_data/hub.py:121-135 | over any run of ascending polls the confirmations ascend, so none repeats, and are exactly the bars shown complete before any poll had shown a bar as late complete |
| Hubs.PollKeepsOrderExactly | backend/app/services/market_data/hub.py:169-180 | an ascending poll keeps an ascending series ascending if and only if it starts no earlier than the series ends, or replaces it altogether |
| Hubs.RepollingDisorders | backend/app/services/market_data/hub.py:169-180 | the ordinary overlapping poll that breaks the order |
| Risk.Check | backend/app/services/risk/limits.py:79-135 | the reasons are exactly the violated limits, in the order of the tests; reduce-only is always allowed |
| Risk.AllowedExactly | backend/app/services/risk/limits.py:79-135 | the whole gate written out: an intent passes if and only if it only reduces, or account, market and size are within every limit |
| Risk.CheckIsMonotone | backend/app/services/risk/limits.py:79-135 | shrinking the quantity of an allowed intent keeps it allowed |
| Risk.SizeRisksAtMost | backend/app/services/risk/limits.py:137-160 | the size risks exactly the percentage of equity, or less when the exposure cap binds, and respects the cap |
| Risk.SizesExactly | backend/app/services/risk/limits.py:137-160 | for every input: the percentage of equity at the stop, that of the limits where none is asked for, nothing without a distance; capped, the smaller of this and 95 percent of the permitted exposure |
| Risk.QuantizeNear | backend/app/services/autotrade.py:60-66 | half-even rounding to a step moves by at most half a step |
| Risk.RoundsToNearestTiesToEven | backend/app/services/autotrade.py:60-66 | rounding gives the one integer less than a half away, or the even one of two at exactly a half |
| Risk.QuantizeOfMultiple | backend/app/services/autotrade.py:60-66 | and leaves multiples of the step alone |
| Risk.PlannedSizePassesTheGate | backend/app/services/risk/limits.py:113-160 | the rounded size trips neither the exposure nor the risk limit when half a step fits the headroom and the unused risk |
| Risk.RoundingTripsRiskExactly | backend/app/services/risk/limits.py:118-126 | for every size, the rounded size is refused for its risk if and only if what rounding adds costs more at the stop than the size leaves of the limit |
| Risk.RoundingTripsExposureExactly | backend/app/services/risk/limits.py:113-114 | and for the symbol exposure if and only if what rounding adds is worth more than is left of that limit |
| Risk.WholeRiskIsRefusedExactlyWhenRoundedUp | backend/app/services/risk/limits.py:118-160 | planned at the whole limit, with the risk size binding, it is refused for its risk if and only if it rounds up |
| Risk.RoundingUpTripsTheGate | backend/app/services/risk/limits.py:118-160 | a concrete size that the planner accepts and the gate refuses |
| Risk.PlansExactly | backend/app/services/autotrade.py:30-78 | what is planned and when: skip, hold in the direction of the signal, enter when flat or flip; a buy if and only if LONG, with the rounded capped size, the stop and the target of the signal |
| Risk.PlanPassesTheGate | backend/app/services/autotrade.py:30-78 | a planned order never adds to a position, carries its stop, and passes the gate under the same provisos |
| Money.ClosedRows | backend/app/services/analytics/money.py:47-71 | one row per closed trade in the order of closing, each row starting with the cash of the one before, ending at starting balance plus all profit |
| Money.StakeIsMargin | backend/app/services/analytics/money.py:60-62 | the stake times the leverage is what went into the position at its average entry |
| Money.PnlTotalOfAnyOrder | backend/app/services/analytics/money.py:56-58 | the total does not depend on the sort order |
| Money.CashChainEndsAtBalance | backend/app/services/analytics/money.py:55-71 | the chain ends short of the balance by what open positions carry; when flat it ends at the balance |
| Indicators.Ema | backend/app/services/strategy/indicators.py:8-19 | the running value is the seeded exponential average of the series |
| Indicators.Sma | backend/app/services/strategy/indicators.py:22-31 | the rolling sum gives the mean of each window |
| Indicators.Rsi | backend/app/services/strategy/indicators.py:34-50 | the running averages give the strength index of the Wilder averages of gains and losses |
| Indicators.TrueRanges | backend/app/services/strategy/indicators.py:53-57 | the true range of each bar |
| Indicators.Atr | backend/app/services/strategy/indicators.py:60-71 | Wilder smoothing of the true ranges |
| Indicators.Adx | backend/app/services/strategy/indicators.py:74-99 | Wilder smoothing of the directional indices of decayed moves |
| Indicators.Macd | backend/app/services/strategy/indicators.py:132-147 | line, signal and histogram, the signal aligned with the line |
| Indicators.WilderStep | backend/app/services/strategy/indicators.py:68-70 | a Wilder step is exponential smoothing with weight one over the period |
| Indicators.AveragesAreCausal | backend/app/services/strategy/indicators.py:8-31 | the averages at a bar depend on no later value |
| Indicators.AveragesWithin | backend/app/services/strategy/indicators.py:8-31 | and never leave the range of the values |
| Indicators.RsiIsCausalAndBounded | backend/app/services/strategy/indicators.py:34-50 | causal, within 0 and 100, 100 exactly without losses, and the share of the average gain |
| Indicators.AtrIsCausalAndBounded | backend/app/services/strategy/indicators.py:60-71 | causal, between zero and any bound of the true ranges |
| Indicators.AdxIsCausalAndBounded | backend/app/services/strategy/indicators.py:74-99 | causal, and within 0 and 100 whatever the bars |
| Indicators.MacdIsCausal | backend/app/services/strategy/indicators.py:132-147 | line and signal are causal |
| Indicators.EmaMoves | backend/app/services/strategy/indicators.py:8-20 | each value moves the average by two parts in the period plus one of its distance from it |
| Indicators.RangeIsGreatest | backend/app/services/strategy/indicators.py:53-57 | a true range is the greatest of the distances high to low and either to the last close |
| Indicators.BarMoves | backend/app/services/strategy/indicators.py:81-84 | a bar moves up or down by how far it exceeds the last one, in the direction in which it exceeds it more, and never both ways |
| Indicators.OneWayIsWhole | backend/app/services/strategy/indicators.py:86-93 | the directional index is 100 when the bars moved one way only, and 0 when both ways alike |
| Indicators.OneWayStrength | backend/app/services/strategy/indicators.py:35-50 | the strength index is 100 when no close fell and 0 when none rose |
| Indicators.LineComparesAverages | backend/app/services/strategy/indicators.py:129-140 | the line is known where both averages are, and positive exactly where the fast one is above the slow one |

## Left out

- The 28-digit decimal context and floating-point rounding: all arithmetic is exact; only the quantization of sizes is modelled.
- PaperEngines.PaperEngine.Submit: two order objects with the same uuid are not modelled.
- EngineTheorems.EndedIsFinal: an ended order that is submitted again is excluded, because `submit` accepts it afresh (`EngineTheorems.ResubmittedWorksAgain`); the theorems on runs are about orders that are submitted once.
- PaperEngines.PaperEngine.OnBook: the hooks for fills and order updates are absent, so nothing re-enters the engine; a symbol trip by the slippage monitor is an event between snapshots.
- PaperAccounts.PaperAccount.ApplyFill: positions are values, so callers that hold on to a position object are not modelled; a same-side fill that brings the total to zero, where Python raises, stores a zero entry (only a negative fill does).
- Runtimes.TradingRuntime.Place: takes an order that is not working yet, as its callers construct one for each call; the risk verdict and the current book are parameters; the list of recent rejections, alerts and persistence are absent.
- Risk.QuantizeNear: rounding is to multiples of a step; in the source the step is given as a power of ten, of which only the exponent counts.
- Backtests.WalkForward: the change of the caller's configuration object and the rounded aggregates of the report are absent.
- Hubs.MarketHub.IngestPolledKlines: the receipt time stamp of the symbol is absent.
- Gaps.CandleReconciler.Reconcile: the provider is a function of the range that does not fail, and rows are candles without turnover; the synthetic replay provider, which returns candles of the present whatever the range, is not one that `ReconcileRepairs` is about.
- Gaps.HistoryServes: the paging of the exchange clients, and the caps on their requests, are not part of this model.
- Indicators.Atr: asks for at least one bar, like the indexing in the source; periods are at least one.
- Money.ClosedRows: the rows of open positions and rejections, and the final sort by descending time.
- Reason strings, strategy ids and confidences, fill notes, margin and liquidation price.
- Recovery of orders after a restart, persistence, audit, notifications, export.
- The strategies and the ensemble vote: any function of the candles seen so far stands for them.
- The indicators `vwap`, `bollinger`, `highest` and `lowest`, Monte Carlo, metrics and readiness: easy members.
- Exchange clients, streaming, routes, authentication, database and frontend: not part of this model.
