# Central controller: a verified model

A Dafny model of the trading system's central entity ledger and of the simulator around it, with the exit policy, the
genetic search, and four smaller algorithms. It proves what holds over whole runs: that ledger and broker never part,
where the money went, that slots and caps are kept, that the search loses nothing, that groups are as few as possible.

## What is modelled

- **Ledger** (`Ledger.dfy`, `EntityLedger.dfy`). One accounting position per entity; fills are booked from cumulative
  broker reports: intent, execution, fill delta, position. The class `EntityPositionLedger` updates its maps in place
  and is proved against functions on `LedgerState`.
- **Simulated broker** (`SimBroker.dfy`) with ticker-level holdings and cash, and the **scripted broker**
  (`MockBroker.dfy`) that reports partial fills.
- **Both sides together**. `Books.dfy` states the two balances: per ticker the ledger's open units are exactly the
  broker's holding; cash + open cost + commissions = capital + realized profit. `Trading.dfy` carries them through one
  trade, `RunInvariants.dfy` through slots, reconciles and the final account, `Drift.dfy` bounds how far ledger and
  scripted broker can differ under partial fills (`DriftOps.dfy` ties its events to the operations), and `Chunking.dfy` says
  exactly when the spacing of reports matters.
- **Allocation** (`Allocation.dfy`): greedy selection, weights, sizing, cap and capital bounds.
- **Daily loop** (`RunSpec.dfy`, `Steps.dfy`, `Swaps.dfy`, `StepFacts.dfy`, `SwapQueue.dfy`, `Backtester.dfy`): exits, score swaps, the swap queue,
  buys, reconcile and equity, over any number of days. Every step is specified as a relation between two stages of the run
  (positions, cash, log), and a run is a chain of such stages; with complete inputs no step raises.
- **Exit policy** (`ExitPolicy.dfy`): one bar, and runs of bars in two execution modes.
- **Genetic search** (`Genetic.dfy`, `GeneticSearch.dfy`, `Genes.dfy`) as a function of its random choices, with the
  memo around the fitness function.
- **Equity segments** (`Segments.dfy`), **time-window groups** (`Grouping.dfy`), the **lock of a pending buy**
  (`BuyLock.dfy`), the **approval index** (`Approvals.dfy`) and the **lagged lookup** (`FeatureLag.dfy`).

Shares are integers in units of 10^-6 share; the ledger's tolerance is one unit. Prices and money are exact reals, dates
and times integers. New ids are any not in use. Every random choice of the search is an argument of it. `Common.dfy`,
`Sums.dfy` and `Sorting.dfy` hold the shared vocabulary.

Where the code does less, or other, than its documentation suggests, the model follows the code and a lemma says exactly
how: a blocked ticker both sides have sold out of is never unblocked (`BlockedAfterReconcile`), which locks it for good
(`SoldOutForGood`, `LockedForGood`); reports that are not booked and sales of one unit too many make the figures depend on the polls
(`BuyPollsAgreeExactlyWhen`, `SalePollsAgreeExactlyWhen`, `OversellingByOneExactlyWhen`); the cash floor needs a commission
rate of at most one (`CashFloorNeedsRate`); the search result's `best` can miss the last children
(`BestAloneTopsExactlyWhen`, `BestAloneCanMiss`); seeds outside the gene ranges stay outside where they are not mutated
(`MutantInSpaceExactlyWhen`); an undated item can split a group of the calendar's first instant (`FewestExactlyWhen`,
`UndatedItemSplits`); a confirmation after re-evaluation revives a settled request (`ConfirmationRevives`); date keys with a
time behind them are selected and then missed (`LookupGivesNewestRow`, `LongKeyIsMissed`); a clock that is set back moves
the confirmation of a buy lock (`DroppedExactlyWhenFirstLookIsOld`); and the memoised index may be of keys that were
replaced (`MemoAgreesExactlyWhen`, `ReplacedKeyIsMissed`) yet never looks ahead (`NeverLooksAhead`).

## Reading order

`Backtester.RunCentralBacktest`, `Drift.DriftIsBounded`, `Chunking.BuyPollsAgreeExactlyWhen`, `Chunking.SalePollsAgreeExactlyWhen`,
`Allocation.DecideBuys`, `Allocation.RoomIsSpent`, `StepFacts.CappedOrderFills`, `ExitRuns.CoreRefinesBase`,
`ExitRuns.ExitExactlyWhen`, `GeneticFacts.ElitistSearchLosesNothing`, `GeneticSearch.RunGa`, `Segments.SegmentsArePeriods`,
`Segments.MonthsCompoundToQuarters`, `Grouping.FewestExactlyWhen`, `BuyLockFacts.DroppedExactlyWhenConfirmed`,
`ApprovalFacts.EveryRunIsConsistent`, `FeatureLagFacts.LookupGivesNewestRow` and `FeatureLagFacts.MemoAgreesExactlyWhen` are the
main results. Each operation computes with small functions; for these a lemma states outright, without naming them, what the
operation comes to (`StepFacts`, `SwapFacts`, `PriceFacts`, and the lemmas named `...Exactly` and `...ExactlyWhen`).

`dafny verify dfyconfig.toml` checks the project.

## Model

| member | source | states |
|---|---|---|
| EntityLedger.EntityPositionLedger.OpenIntent | engine/central/ledger.py:120-175 | The first failing check of the arguments is raised and changes nothing; a request still on its way for the same entity, ticker, side, purpose and target is returned instead of doubled; otherwise exactly one new open intent is added. |
| EntityLedger.EntityPositionLedger.RecordExecution | engine/central/ledger.py:194-230 | Recording a broker's answer to an intent, then booking its immediate fill, gives exactly the specified ledger; when the booking raises, the execution is on record and no position moved. |
| EntityLedger.EntityPositionLedger.ApplyFill | engine/central/ledger.py:232-271 | Booking a cumulative report: the ledger moves to the specified state, or an exception leaves it untouched. |
| EntityLedger.EntityPositionLedger.ApplyBuyFill | engine/central/ledger.py:347-393 | A buy creates its position or adds to its own one (counting an add-buy), and raises on a foreign or non-positive target without moving anything. |
| EntityLedger.EntityPositionLedger.ApplySellFill | engine/central/ledger.py:395-418 | A sale takes the filled units out of its own position, drops a residue of one unit and realizes the gain; a missing, foreign or too small position raises and nothing moves. |
| EntityLedger.EntityPositionLedger.UpdateExecutionFromOrder | engine/central/ledger.py:435-450 | The order's state reaches the execution and its intent, and the intent is linked only on a full fill. |
| EntityLedger.EntityPositionLedger.CountByTicker | engine/central/ledger.py:282-286 | The loop's per-ticker totals are the sums of the open units above the tolerance, for exactly the tickers that have any. |
| EntityLedger.EntityPositionLedger.Reconcile | engine/central/ledger.py:273-330 | The new blocked set and flags are those of `Reconciled`, and the answer is ok exactly when every listed ticker agrees to within one unit. |
| EntityLedger.EntityPositionLedger.OpenPositions | engine/central/ledger.py:106-118 | Lists each position above the tolerance once, and no other. |
| LedgerFacts.BuyCost | engine/central/ledger.py:380-384 | A buy adds exactly the money paid to cost less realized profit, whatever the blended average. |
| LedgerFacts.SellCost | engine/central/ledger.py:401-415 | A sale takes exactly its proceeds out of cost less realized profit; only a dropped one-unit residue leaves the books without a trade. |
| LedgerFacts.FirstFillPrice | engine/central/ledger.py:249-251 | The price recovered for a first fill is the price the broker reports. |
| LedgerFacts.SecondPollMovesNothing | engine/central/ledger.py:238-247 | Polling the same order again moves no position and applies nothing. |
| LedgerFacts.RecordedExactly | engine/central/ledger.py:194-230 | What goes on record when an order is sent: the request it answers, the order, what is reported filled and at which average, and nothing booked yet; nothing else changes. |
| LedgerFacts.FillExactly | engine/central/ledger.py:347-418 | The position a fill leaves: units open, ever bought and ever sold, add-buys, status, and the highest and lowest price paid; a new one starts at the price of its fill. |
| LedgerFacts.AgreesExactlyWhen | engine/central/ledger.py:273-290 | Ledger and broker agree on a ticker when what both count in it, holdings of more than a unit, differs by a unit at most; listed is what either counts. |
| LedgerFacts.FlaggedAfterReconcile | engine/central/ledger.py:312-320 | A reconcile flags the positions of tickers that disagree, unflags those of listed tickers that agree, and leaves the rest of every position alone. |
| LedgerFacts.BlockedAfterReconcile | engine/central/ledger.py:288-315 | After a reconcile a ticker is blocked exactly when it disagrees now, or was blocked and neither side holds it any more: a ticker both sides sold out of stays blocked. |
| Chunking.DeltaMoney | engine/central/ledger.py:249-253 | The price recovered for the new units, times their number, is the money the report stands for, also where the recovered price falls back to the average. |
| Chunking.DriftIsLost | engine/central/ledger.py:243-267 | Over any reports, the money booked is what the cumulative money grew by, less the drift: what reports that are not booked revalue booked units by. |
| Chunking.BuyStep | engine/central/ledger.py:243-267 | Any report of a buy passes exactly when its new units have a price; then it books exactly these units and their money, or nothing, and leaves the tally the reports alone determine. |
| Chunking.BuyPollsAgreeExactlyWhen | engine/central/ledger.py:232-271 | Polling a buy raises exactly when a booked report has no price. Else polling all reports and polling only the last end alike exactly when they book the same units and drift alike, up to what their recorded averages differ by (nothing, when the last report names an average; with growing money, when the drift is zero); when the last alone is not booked, exactly when none is. The condition is computed from the reports alone. |
| Chunking.DeferredReportExactlyWhen | engine/central/ledger.py:243-267 | A report that is not booked, before one that is, changes the figures exactly when units were booked before and it reports another average price; this covers the poll without new shares that overwrites the price. |
| Chunking.BuyChunkingDoesNotMatter | engine/central/ledger.py:232-271 | In particular, polling a buy through any well-behaved cumulative reports ends with the same open units, cost and profit as one poll of the last report. |
| Chunking.SellStep | engine/central/ledger.py:243-267 | Any report of a sale passes exactly when it has a price and sells at most one unit more than is open; then its new units, their money and the profit on them are booked, or nothing. |
| Chunking.AllPassExactlyWhen | engine/central/ledger.py:395-418 | The reports of a sale all pass exactly when in all they sell at most one unit too many and none but the last booked leaves a single unit open. |
| Chunking.SalePollsAgreeExactlyWhen | engine/central/ledger.py:232-271 | When polling all reports of a sale raises, when polling only the last does, and, when neither does, that both end alike exactly when they sell the same units for the same money: all told from the reports and the open units. |
| Chunking.SellChunkingDoesNotMatter | engine/central/ledger.py:232-271 | In particular, well-behaved reports of a sale of no more than is open end alike however they are spaced. |
| Chunking.OversellingByOneExactlyWhen | engine/central/ledger.py:395-415 | Well-behaved reports that sell one unit too many pass in one poll; polled in turn they raise exactly when one leaves a single unit open, and else end alike exactly when the last units went at the average price of all. |
| Chunking.SingleUnitStepsShiftTheCost | engine/central/ledger.py:243-247 | Both happen: a deferred unit replaces the average price, and the next fill is priced from it. |
| Chunking.OversellingByOneDependsOnPolls | engine/central/ledger.py:402-415 | And a sale of one unit more than is open goes through in one poll and raises when it comes in two. |
| SimBrokers.SimBroker.Submit | engine/central/sim_broker.py:157-218 | Raises exactly for non-positive shares or a missing price, changing nothing; otherwise cash, holdings and the order are those of the specified market order. |
| SimBrokers.SimBroker.ApplyFillToHoldings | engine/central/sim_broker.py:256-272 | A fill moves cash by notional and commission and the ticker's holding by its units; a holding that is sold out disappears. |
| SimBrokerSpec.CashMovesByNotional | engine/central/sim_broker.py:184-198 | Through every order, cash plus all commissions moves by exactly the traded notional. |
| SimBrokerSpec.OrderExactly | engine/central/sim_broker.py:157-272 | What an order does, in units, price and rate: a buy is turned down exactly when units times price with the commission exceed the cash by more than the tolerance, a sale exactly when it asks for over a unit more than is held; else cash and holding move by exactly that, and no other holding changes. |
| SimBrokerSpec.HoldingCost | engine/central/sim_broker.py:256-272 | A holding's cost is the average over the units bought, and sales leave it. |
| PriceFacts.RowOnExactly | engine/central/sim_broker.py:274-289 | The row of a day is the first dated so. |
| PriceFacts.MarkExactly | engine/central/sim_broker.py:132-134 | A holding is marked at the close of the day's row, or of the last row before; there is no mark exactly when no row is dated so early. |
| PriceFacts.QuoteExactly | engine/central/sim_broker.py:136-155 | The price of a market order: the day's close in that mode, else the next row's open, with the day's close where that is missing and the policy allows it; moved by the slippage against the trader; raised exactly when it is not positive. |
| PriceFacts.QuoteNeedsRow | engine/central/sim_broker.py:274-289 | There is no price where the data has no row of the day or before. |
| SimBrokerSpec.CashFloor | engine/central/sim_broker.py:184-195 | At a commission rate of at most one, no order takes the cash more than the tolerance below zero unless it was there before. |
| SimBrokerSpec.CashFloorNeedsRate | engine/central/sim_broker.py:256-267 | At every rate above one and every price a broker that starts with cash alone, buys and sells again ends below that floor, so the bound on the rate is exact. |
| Books.FilledOrderIsBooked | engine/central/ledger.py:177-271 | Dispatching an order that fills whole books exactly that fill into one position and resolves its intent. |
| Books.RejectedOrderIsRecorded | engine/central/ledger.py:194-230 | A rejected order leaves every position alone and resolves its intent. |
| Books.WholePositionCanBeSold | engine/central/sim_broker.py:171-183 | When ledger and broker agree, a sale of a whole position is never turned down. |
| Books.SharesStillAgree | engine/central/sim_broker.py:256-272 | If a position and the broker's holding of its ticker move by the same units, all ticker totals still agree. |
| Books.BuyKeepsBalance | engine/central/backtester.py:499-547 | A filled buy keeps the share agreement and the money balance. |
| Books.SellKeepsBalance | engine/central/backtester.py:464-482 | A filled sale of a whole position keeps both and empties the position. |
| Books.RejectKeepsBalance | engine/central/backtester.py:479-481 | A rejected order keeps both. |
| Trading.DispatchExecution | engine/central/ledger.py:177-230 | An intent that already has its execution is not sent again; a blocked ticker or missing intent raises; else exactly one order is placed and its answer recorded. |
| Trading.Trade | engine/central/backtester.py:464-482 | Intent, dispatch and extra poll together: one order at the day's quote, booked whole or rejected, with no other intent or position touched; and it raises nothing when the ledger has no complaint and the data give a positive price. |
| Trading.AnswerIsBooked | engine/central/ledger.py:194-271 | Whatever the broker answers to a trade the ledger has no complaint about, the ledger books it without raising. |
| Trading.PolledTrade | engine/central/backtester.py:482 | The extra poll after a fill moves no position and leaves resolved intents resolved. |
| Allocation.TickerExposure | engine/central/allocation_policy.py:260-279 | The loop's exposures are the money at cost of the open positions of each ticker, and the unknown set holds exactly the tickers with a position that cannot be valued. |
| Allocation.IndexEntities | engine/central/allocation_policy.py:81 | Every open entity is found under its own name, and nothing else is. |
| Allocation.EligibleRows | engine/central/allocation_policy.py:95-135 | The rows are exactly those of the candidates that pass every filter, in their order. |
| Allocation.EligibleExactlyWhen | engine/central/allocation_policy.py:95-135 | Who competes, told from candidate and positions: a confident, priced candidate with a positive score; an entity with an open position wants an add-buy that is enabled, not used up, in a ticker whose cost is known; else its ticker is free, unless tickers may be held twice. |
| Allocation.KeyOrderIsTotal | engine/central/allocation_policy.py:137 | The selection key (score, confidence, strength, entity) is a total order. |
| Allocation.KeysCompareInOrder | engine/central/allocation_policy.py:137 | A greater score goes first, then the greater confidence, strength and entity. |
| Allocation.SelectRows | engine/central/allocation_policy.py:138-165 | Greedy optimal selection: the selected rows stand in key order at distinct places; whoever is left out lost its ticker (or entity) to a row with at least its key, or every free slot went to such rows; no slot is taken twice. |
| Allocation.WeightsSplitTheWhole | engine/central/allocation_policy.py:220-228 | The sizing weights are non-negative and add up to one. |
| Allocation.WeightsByScore | engine/central/allocation_policy.py:174-228 | The selected rows get equal shares where that is asked for or no score is positive, else shares in proportion to their positive scores. |
| Allocation.SizeRowBounds | engine/central/allocation_policy.py:179-198 | One order stays within what its weight asks for and what the cap leaves, up to half a unit, and is never dust; `SizeRowExactly` gives its size. |
| Allocation.SizeRowExactly | engine/central/allocation_policy.py:179-198 | The order for a row, in capital, ratio, weight, cap, buffer and price: it costs what is asked for, or what the cap leaves less the buffer, to the nearest unit, or to the unit below where a buffer cut it; there is none exactly when nothing is left, or the money is not above the minimum or is dust. |
| Allocation.SizeRowFromBelow | engine/central/allocation_policy.py:179-198 | So a weight with room under the cap gets what it asks for up to half a unit either way, and one the cap cuts gets all that is left less the buffer, but for one unit. |
| Allocation.SizeRows | engine/central/allocation_policy.py:174-217 | Sizing row after row: exactly those rows get an order for which their weight, the cap and the orders before them allow one, and it has exactly that size; total new money is at most the investable capital plus half a unit per order, and no ticker ends above its cap by more than half a unit of an order in it. |
| Allocation.OneMoreSized | engine/central/allocation_policy.py:174-217 | One row more: its order is the one allowed on top of the orders before, and it changes none of them. |
| Allocation.DecideBuys | engine/central/allocation_policy.py:67-217 | `decide_buys` as a whole: `Decided` (the eligible rows by falling key, greedy selection, exact sizes, capital bound and cap bound) and that its entries fit the free slots and tickers of the open positions. |
| Allocation.RoomIsSpent | engine/central/allocation_policy.py:174-217 | When the selected rows are known, above minimum and dust, and their tickers have room for what their weights ask, every one of them gets an order and the money to invest, capital times ratio, is spent but for half a unit per order. |
| Slots.CloseKeepsSlots | engine/central/backtester.py:422-482 | Closing positions keeps the slot rule and never adds an open ticker. |
| Slots.OpenKeepsSlots | engine/central/backtester.py:913-925 | Opening one position in a free slot, in a ticker not yet held where that is the rule, keeps the slot rule. |
| Slots.TickersAtMostPositions | engine/central/allocation_policy.py:80-88 | Distinct open tickers never outnumber open positions, and are as many exactly when no ticker is held twice. |
| DayBooks.NeverOneUnit | engine/central/ledger.py:413-415 | The open units of a ticker are never exactly one, so the reconcile tolerance hides nothing. |
| DayBooks.ReconcileKeepsBalance | engine/central/ledger.py:273-330 | On balanced books a reconcile finds nothing, blocks nothing and keeps the balance. |
| DayBooks.AggregateValue | engine/central/backtester.py:1293-1301 | Holdings aggregated by ticker are worth exactly what the positions they aggregate are worth. |
| DayBooks.ProfitIsGainBeforeCommissions | engine/central/backtester.py:1304-1314 | Realized plus paper profit over all positions is cash plus marked holdings less the initial capital, plus all commissions. |
| Steps.SaleDone | engine/central/backtester.py:474-482 | What selling a whole position does to ledger, broker cash and slots. |
| Steps.OrderCharges | engine/central/backtester.py:479-496 | The commissions charged in all grow by the commission of an order that fills, and by nothing for one that does not. |
| Steps.SellAndLog | engine/central/backtester.py:464-496 | A sale is written down as a trade when the broker fills it and as a rejection when it does not. |
| Steps.SellPosition | engine/central/backtester.py:464-482 | Selling a whole open position at the day's quote always fills, so the log gains its trade and no rejection; it empties exactly that position, keeps all balances, and raises nothing when the day has a quote. |
| Steps.BuyShares | engine/central/backtester.py:514-531 | A buy fills exactly when the cash pays for it, and then into the position aimed at or a new one. |
| Steps.ProcessExit | engine/central/backtester.py:423-496 | One open position after its exit check: sold exactly when the policy says so, else carried on with the policy's new state; one sale record per sale. |
| Steps.ExitsClose | engine/central/backtester.py:422-496 | The exits of a day close exactly the positions that must go and change no owner. |
| Steps.ProcessExits | engine/central/backtester.py:422-496 | Every open position ends as its own verdict says, no other position changes, and the trades written down are exactly those sales. |
| Steps.CashCappedShares | engine/central/backtester.py:550-558 | Never more than asked for, and either nothing or more than dust; `StepFacts.CashCappedExactly` says how many. |
| Steps.ExecuteBuy | engine/central/backtester.py:499-547 | A decision is capped by the cash and then filled whole, with policy fields on a first entry, or turned down; cash moves by exactly its cost, and exactly one line is written down either way. With complete inputs nothing is raised. |
| StepFacts.CashCappedExactly | engine/central/backtester.py:550-558 | The cash caps a request, told from cash, ratio and close: the request itself when the money pays for it, else what the money pays for to the nearest unit, and nothing exactly when that is dust. |
| StepFacts.CappedOrderFills | engine/central/backtester.py:499-547 | A decision is bought, and not turned down, whenever quote and commission leave room within the cash for all that the buffer lets be spent and half a unit more: then it costs at the close no more than that money and half a unit, and is the request or as much as the money pays for. |
| StepFacts.DayFigures | engine/central/backtester.py:1329-1345 | The close and the ATR of a day are those of the first row dated so, and zero without one. |
| StepFacts.MustExitExactlyWhen | engine/central/backtester.py:422-461 | A position must go exactly when today's bar calls for an exit its strategy listens to, told from the bar, the record, the rows since its entry date and the rulebook. |
| StepFacts.AfterExitExactly | engine/central/backtester.py:461-482 | What is carried on is the peak and the trailing stop after the bar, and a position that must go is sold whole at the day's quote; without its entity or a bar it is left as it was. |
| StepFacts.EntryRecordExactly | engine/central/backtester.py:1234-1289 | A first entry's stop, target and trailing distance stand off the price paid by the rulebook's multiples of the ATR, or of two percent of the price without one; a later buy leaves them. |
| Swaps.HeldPool | engine/central/backtester.py:594-608 | The pool holds each open position in profit that may make way, with its score, once, weakest first. |
| Swaps.RankCandidates | engine/central/backtester.py:614 | All candidates, none ranking above one before it. |
| Swaps.NewcomerPool | engine/central/backtester.py:611-639 | Only free, tradable candidates, one for each ticker; every free tradable candidate is represented by one of its ticker that ranks no lower; strongest first. |
| Swaps.ExecuteSwapSell | engine/central/backtester.py:1069-1108 | The position is sold whole unless it is dust, and the proceeds are its notional. |
| Swaps.ExecuteSwapBuy | engine/central/backtester.py:1111-1136 | The proceeds, or the cash if less, buy the newcomer through `ExecuteBuy`, or nothing happens. |
| StepFacts.SwapBuysForProceeds | engine/central/backtester.py:1116-1124 | The newcomer is bought for the proceeds, or the cash if less, less the buffer, to the nearest unit, or not at all when that is dust. |
| Swaps.SwapOne | engine/central/backtester.py:642-651 | Sale and purchase as one step: positions, cash and log are exactly those of selling the one and spending what that brought on the other; no other position changes, and the slot rule holds. |
| Swaps.SwapPairs | engine/central/backtester.py:642-651 | Exactly the pairs at the front of both pools are swapped, one after another, for as long as the newcomer leads by the gap. |
| Swaps.ExecuteScoreSwaps | engine/central/backtester.py:561-652 | Only when all slots are taken: the weakest profitable positions are paired with the strongest newcomers for as long as the gap allows, and the run passes through exactly those swaps, one after another. |
| SwapFacts.HeldScoreExactly | engine/central/backtester.py:1053-1066 | A held position is worth what the last candidate of its entity is today, by confidence or by the weighted score; without one, what its entity's confidence gives; and nothing is known of an entity that is not of the run. |
| SwapFacts.WeakestGoesFirst | engine/central/backtester.py:641 | Of the positions that may make way the weakest goes first, among equals the one with the smaller id. |
| SwapFacts.LeadsExactlyWhen | engine/central/backtester.py:614 | A greater score goes first, among equals the greater entity, and the score swaps put a score of zero behind all others. |
| SwapFacts.NewcomersAreNew | engine/central/backtester.py:611-639 | A newcomer's ticker and entity are neither held nor decided on today, it has a price, enough confidence and a positive weighted score; whoever is all that is represented by one of its ticker that ranks no lower. |
| SwapFacts.MakesWayExactlyWhen | engine/central/backtester.py:594-608 | A position may make way exactly when the day's close is above what it cost, its score is known, and the guard does not spare it. |
| SwapQueue.RefreshQueue | engine/central/backtester.py:681-697 | A queued entity stays exactly when it is not too old and has a signal today. |
| SwapQueue.RefreshedExactly | engine/central/backtester.py:681-697 | A queued entity stays for as many days as asked for, and one at least, while it has a signal. |
| SwapQueue.EnqueueExactly | engine/central/backtester.py:888-910 | A newcomer waits from today on, unless it waits already; all others keep their day. |
| SwapQueue.AllowedExactlyWhen | engine/central/backtester.py:913-925 | An add-buy may still be carried out exactly when its position is open, an entry exactly when a slot is free and neither its entity nor its ticker is held. |
| SwapQueue.AllowedFits | engine/central/backtester.py:913-925 | An entry that is still allowed finds a free slot and a ticker that is not held. |
| SwapQueue.BuyIfAllowed | engine/central/backtester.py:866-873 | The decision is carried out exactly when it is still allowed and its entity is known. |
| SwapQueue.WaitingCandidates | engine/central/backtester.py:856-862 | The waiting candidates are exactly today's candidates of the queued entities. |
| SwapQueue.ExecuteQueuedEntries | engine/central/backtester.py:835-885 | Queued candidates are decided on only while slots are free; each decision in turn is carried out exactly when still allowed; exactly the entities carried out leave the queue. |
| SwapQueue.DecisionsArePlaceable | engine/central/allocation_policy.py:95-217 | Decisions are made on the given candidates only, and none aims at another entity's position. |
| SwapQueue.ExecuteSwapGuardQueue | engine/central/backtester.py:700-832 | After the queued entries: the strongest newcomer swaps with the weakest safe position, waits in the queue, or nothing happens, exactly as guards, pools and scores say. |
| Backtester.FitAfterSwaps | engine/central/backtester.py:212-256 | Decisions made before the swaps still fit the slots after them. |
| Backtester.ExecuteDecisions | engine/central/backtester.py:257-263 | The decisions in turn, each from the stage the one before left: carried out, except for positions swapped away (and, with the queue, those no longer allowed); the slot rule holds throughout. |
| Backtester.DecisionTaken | engine/central/backtester.py:257-263 | A decision that was carried out keeps the slot rule and leaves the decisions after it fitting. |
| Backtester.DecideForDay | engine/central/backtester.py:212-220 | By confidence, or by an outside score first and then among those chosen, the decisions are a greedy choice within capital and caps. |
| Backtester.ScoredExactly | engine/central/backtester.py:395-405 | For the first choice compete exactly the candidates with an outside score that are confident enough. |
| Backtester.ScoreDecidesFirst | engine/central/backtester.py:407-414 | There the outside score is the whole score, nobody is held back for confidence, and all get equal shares. |
| Backtester.OriginalsExactly | engine/central/backtester.py:415-420 | The second choice is among the last candidates of the entities first chosen, in that order. |
| Backtester.HoldingsWorth | engine/central/backtester.py:1293-1301 | The loop over the holdings gives their marked value. |
| Backtester.RunDay | engine/central/backtester.py:191-267 | One whole day is its exits, decisions, score swaps, queue and buys in this order, each as specified from the stage the one before left; it keeps the balance and the slot rule, passes its reconcile, rejects no sale and adds one equity point; every commission charged so far belongs to a trade written down. On complete inputs it raises nothing. |
| Backtester.TradeDay | engine/central/backtester.py:197-263 | What follows the exits: decisions made before the swaps, score swaps, queue, and the decisions carried out after them, in this order. |
| Backtester.CloseDay | engine/central/backtester.py:264-267 | The reconcile of the day passes and the equity point states the day's date, the broker's cash, its holdings at the marks of the day and at most `max_positions` open positions. |
| Backtester.HoldingsAreMarked | engine/central/backtester.py:1293-1301 | What the broker holds belongs to positions of entities of the run, so on a complete day all of it has a mark. |
| Backtester.EntityProfits | engine/central/backtester.py:1308-1314 | Every entity with a position, and no other, gets the realized and paper profit of its positions, and together that is the profit of all positions. |
| Backtester.FinalizeResult | engine/central/backtester.py:1304-1314 | Final equity is that of the last equity point, which is the broker's cash and marked holdings; every entity has the profit of its positions; and the profits are final equity less capital plus the commissions of the trades written down. |
| Backtester.RunCentralBacktest | engine/central/backtester.py:191-279 | A run is day after day as specified, each from the books the one before left. At the end of every day ledger and broker agree on every ticker, the money balances, the slot rule and the cash floor hold, and the equity point states date, cash and marked holdings; no reconcile fails, no sale is rejected. At the end final equity is that of the last point, every entity has the profit of its positions on the last day, and the profits are final equity less capital plus the commissions of the trades written down. When every entity's ticker is priced on every day and signals are those of the entities, the run raises nothing. |
| MockBrokers.MockBroker.Submit | engine/central/broker_port.py:182-219 | A submission takes the next scripted fate, books its initial fill and returns the order. |
| MockBrokerSpec.InitialFillExactly | engine/central/broker_port.py:168-181 | Without a scripted fill a filled order fills whole, a partial one half to the nearest unit, and any other nothing. |
| MockBrokers.MockBroker.GetOrder | engine/central/broker_port.py:150-160 | A poll plays the next scripted report and takes its new units into the holdings. |
| MockBrokers.MockBroker.ApplyCumulativeFillToHoldings | engine/central/broker_port.py:248-258 | Only the units beyond those applied before move the holding. |
| MockBrokers.MockBroker.ApplyDelta | engine/central/broker_port.py:260-276 | The ticker's holding moves by the units; sold out or oversold, it disappears. |
| DriftOps.SendRequest | engine/central/ledger.py:120-230 | A request through the objects, registered, sent to the scripted broker unless it is on its way already, and its first answer booked, is the step of its event, also where the ledger raises. |
| DriftOps.PollExecution | engine/central/ledger.py:232-271 | Polling an execution through the objects, the broker's next report and its booking, is the step of its event, also where the ledger raises. |
| Drift.ReportMovesHoldings | engine/central/broker_port.py:248-276 | A covered report moves the broker's holding by exactly its new units. |
| Drift.ReportMovesLedger | engine/central/ledger.py:232-271 | The same report moves the ledger by the applied units, one unit less only when a position closes. |
| Drift.LinksSurvive | engine/central/ledger.py:238-247 | When only one execution and its order move and it is not ahead of what the broker applied, no execution is. |
| Drift.PollKeepsLinks | engine/central/broker_port.py:150-160 | A poll the ledger books keeps every execution at most at what the broker applied and no position short. |
| Drift.PollMovesLittle | engine/central/ledger.py:395-415 | A poll moves the unexplained difference by at most one unit, and only by closing a position. |
| Drift.RequestKeepsLinks | engine/central/ledger.py:177-230 | A dispatched request the ledger books keeps the same links. |
| Drift.FailedPollMovesNothing | engine/central/ledger.py:238-271 | A poll the ledger raises on leaves the ledger as it was; what the broker applied only becomes pending. |
| Drift.FailedRequestMovesNothing | engine/central/ledger.py:194-230 | A request whose booking raises leaves its execution on record with its fill pending. |
| Drift.RunMovesLittle | engine/central/ledger.py:177-271 | Over any run in which no report sells more than the broker holds, whatever the ledger raises, the difference no pending report explains is at most the number of closings. |
| Drift.DriftIsBounded | engine/central/ledger.py:177-271 | After any such run from empty books no position is short; and when every execution is polled to its latest fill, ledger and broker differ in a ticker by at most one unit per execution plus one per closing. |
| Drift.BlockedUntilReleased | engine/central/ledger.py:288-315 | Over any run a blocked ticker stays blocked until a reconcile that finds it listed on one side and in agreement. |
| Drift.SoldOutForGood | engine/central/ledger.py:141-144 | A blocked ticker that is sold out on both sides, with nothing left to book, stays so over every run: every request in it is refused for ever. |
| Drift.SoldOutIsReached | engine/central/ledger.py:243-315 | That state is reached: two sales are first reported by one unit each, which the ledger defers; a reconcile then blocks the ticker, and both are filled. |
| Drift.LockedForGood | engine/central/ledger.py:141-315 | So there is a run from empty books after which every request in the ticker is refused, whatever follows. |
| ExitRuns.CoreExitImpliesExit | engine/core/exit_policy.py:446-471 | On one bar, whatever makes the conservative core exit makes every other mode exit. |
| ExitRuns.PlayCarries | engine/core/exit_policy.py:447-460 | Whatever the mode, a run carries the state that the bars alone determine. |
| ExitRuns.CoreExitsNoEarlier | engine/core/exit_policy.py:512-564 | Over any bars every other mode exits on the bar of the core's exit or earlier. |
| ExitRuns.CoreRefinesBase | engine/core/exit_policy.py:446-471 | Base and conservative core carry the same state until exit, and base exits no later. |
| ExitRuns.NoNewHighSameExit | engine/core/exit_policy.py:446-471 | A bar without a new high is judged alike in all modes. |
| ExitRuns.OnlyOwnHighSeparates | engine/core/exit_policy.py:446-471 | The modes part only on a bar with its own new high, and then base leaves by its trailing or breakeven stop. |
| ExitRuns.CoreIgnoresOwnHigh | engine/core/exit_policy.py:452-453 | Two bars that differ only in their high end alike in the core, unless take-profit is on. |
| ExitRuns.BaseSeesOwnHigh | engine/core/exit_policy.py:452-453 | Base does react to the bar's own high: a concrete pair of bars. |
| ExitRuns.TrailingClosedForm | engine/core/exit_policy.py:225-263 | Without add-buys, the peak is the maximum since entry and the trailing stop that peak less the entry distance. |
| ExitRuns.PeakIsMaximum | engine/core/exit_policy.py:447-450 | The closed form's peak bounds every price it ranges over and is one of them. |
| ExitRuns.TrailingStopNeverFalls | engine/core/exit_policy.py:266-302 | Through any mix of bars and add-buys neither trailing stop nor peak ever falls. |
| ExitRuns.GapFillIsConservative | engine/core/exit_policy.py:334-380 | Gap-aware fills: before slippage a stop fills at or below its trigger and a target at or above it. |
| ExitRuns.FirstInOrderIsTaken | engine/core/exit_policy.py:423-436 | Of the exits a bar triggers and the strategy listens to, exactly the first in the documented order is taken. |
| ExitRuns.ExitExactlyWhen | engine/core/exit_policy.py:441-564 | When each exit is taken, told from position, snapshot, market and settings: a bar ends a position for a reason, at a price, exactly when it triggers that exit, the strategy listens to it, and no exit that goes before is triggered too. |
| ExitRuns.StopEndsIt | engine/core/exit_policy.py:512-555 | In every mode a fixed or hybrid position leaves by its stop, at the stop, exactly on a bar whose low is at or below it. |
| ExitRuns.SurvivorsStayAboveStop | engine/core/exit_policy.py:512-564 | Over a run, every bar that a fixed or hybrid position survives kept its low above the stop, and it leaves no later than the first bar that did not. |
| ExitRuns.StopRunsEndOnTouch | engine/core/exit_policy.py:512-564 | Such a run ends by its stop exactly when the bar it ends on has its low at or below it. |
| ExitRuns.FillsExactlyAt | engine/core/exit_policy.py:334-380 | What an exit fills at in both scenarios: the open where a gap-aware mode finds it beyond the trigger, else the next open where it is used and known, else the trigger; less slippage. |
| ExitRuns.EntryLevels | engine/core/exit_policy.py:207-263 | A new position's stop, target and trailing distance stand off its entry by multiples of the ATR that weak, strong and nervous markets may replace. |
| ExitRuns.AddBuyPools | engine/core/exit_policy.py:266-302 | An add-buy pools shares and money and sets stop, target and distance as a new entry at the new average would; trailing stop and peak do not fall. |
| GeneticSpec.Fittest | engine/learning/genetic.py:203-206 | The tournament winner is a contender, and no contender is fitter. |
| GeneticFacts.FittestIsFirst | engine/learning/genetic.py:203-207 | Of equally fit contenders the first wins. |
| GeneticFacts.ParentsWin | engine/learning/genetic.py:286-291 | The parents of a child each win a tournament of their own among the contenders drawn for it. |
| GeneticFacts.EliteCountExactly | engine/learning/genetic.py:282-283 | The elite is the truncated share of the population, and at least one. |
| GeneticFacts.SeedsUsedExactly | engine/learning/genetic.py:237-249 | The seeds used are the first of them, as many as the truncated share of the population; a negative share leaves that many off the end. |
| GeneticFacts.MeanIsSumOverSize | engine/learning/genetic.py:266-267 | The mean fitness recorded times the size is the sum of all. |
| GeneticFacts.Ranking | engine/learning/genetic.py:263-265 | The ranked population has the same members with a fittest one first. |
| GeneticFacts.GenerationIsSound | engine/learning/genetic.py:262-295 | A generation keeps: everyone carries their own fitness, nothing evaluated is better than both the best on record and the population, and the bests never fall. |
| GeneticFacts.SizeIsKept | engine/learning/genetic.py:281-295 | Once at the configured size the population stays there. |
| GeneticFacts.PopulationSize | engine/learning/genetic.py:236-252 | The population has the configured size exactly when the seed share is not more than the whole, and then always. |
| GeneticFacts.ElitistSearchLosesNothing | engine/learning/genetic.py:47-92 | The one rulebook collected at the end is as fit as anything ever evaluated, for every random choice and early stop, and the per-generation bests never fall. |
| GeneticFacts.BestAloneSuffices | engine/learning/genetic.py:281-302 | In one run `GAResult.best` tops everything evaluated exactly when no member of the last population is fitter. |
| GeneticFacts.BestAloneTopsExactlyWhen | engine/learning/genetic.py:254-302 | For every chance and fitness `GAResult.best` tops everything evaluated exactly under the settings that breed nobody: no generation, an early stop of at most one, or an elite as large as the population. |
| GeneticFacts.RisingMisses | engine/learning/genetic.py:281-295 | Under all others a search whose children beat everyone before them misses its last children. |
| GeneticFacts.NothingBredNothingMissed | engine/learning/genetic.py:254-302 | Under those settings it does for genes of any kind. |
| GeneticFacts.BestAloneCanMiss | engine/learning/genetic.py:281-302 | It can miss a child of the last generation: a concrete search. |
| GeneticSearch.CollectTopRulebooks | engine/learning/genetic.py:47-92 | The result is the n best candidates of different hashes, in order; whoever is missing has a fitter namesake in it or ranks behind all of it. |
| GeneticSearch.GroupByHash | engine/learning/genetic.py:72-83 | The loop keeps, for every hash and no other, the first of its fittest candidates. |
| GeneticSearch.FirstGenes | engine/learning/genetic.py:236-252 | Mutated seeds first, then random rulebooks until the population is full. |
| GeneticSearch.Breed | engine/learning/genetic.py:285-295 | Elites first, then an evaluated child of two tournament winners for every open slot. |
| GeneticSearch.RunGa | engine/learning/genetic.py:210-302 | With the cache or without it the search is the same function of its random choices, and the cache is asked for exactly the rulebooks the search evaluates. |
| FitnessCaches.FitnessCache.Evaluate | engine/learning/fitness_cache.py:161-169 | The cached value is the raw one; a value is computed only for a key not seen before; each key once; hits and misses add up to the calls. |
| FitnessCaches.HitRemembers | engine/learning/fitness_cache.py:163-165 | A stored value answers a later question of the same key correctly. |
| FitnessCaches.MissRemembers | engine/learning/fitness_cache.py:166-169 | Storing a new value keeps every stored answer right. |
| FitnessCaches.KeysAsked | engine/learning/fitness_cache.py:42-44 | The number of misses is the number of different keys asked for. |
| Genes.FinalizeReachesNormalForm | engine/learning/genetic.py:151-155 | Finalizing reaches the normal form and changes nothing that is in it already. |
| Genes.FinalizedExactly | engine/learning/genetic.py:110-155 | Finalizing moves a gene behind a switch that is on into its range, resets those behind switches that are off, turns add-buys off and changes nothing else. |
| Genes.DisabledGenesLeaveNoTrace | engine/learning/genetic.py:133-148 | Rulebooks that differ only behind switches that are off, or in add-buys, become one. |
| Genes.MutantInSpaceExactlyWhen | engine/learning/genetic.py:171-188 | A mutant lies in the search space exactly when each independent gene was drawn anew or lay in its range before. |
| Genes.StepsStayInRange | engine/learning/genetic.py:171-184 | A mutation moves a numeric gene by its step as far as its range goes. |
| Genes.DaysMoveToNearest | engine/learning/genetic.py:176-179 | Holding days move to the nearest whole day between five and thirty, ties to the even one. |
| Genes.ChildInSpace | engine/learning/genetic.py:191-200 | Crossing two rulebooks of the search space stays in it and in normal form. |
| GeneLoops.Mutate | engine/learning/genetic.py:171-188 | The loops over the gene ranges and choices compute the specified mutant. |
| GeneLoops.Crossover | engine/learning/genetic.py:191-200 | The loops over the genes compute the specified child. |
| BredRulebooks.SearchKeeps | engine/learning/genetic.py:254-295 | What the first population has and breeding keeps holds of everything a search evaluates. |
| BredRulebooks.EveryBredRulebook | engine/learning/genetic.py:158-200 | Every rulebook a search evaluates is in normal form, and all lie in the search space when the seeds do. |
| Segments.CleanWhenNoComplaint | engine/central/policy_search.py:262-266 | The point checks pass exactly for dated points with positive equity. |
| Segments.GroupingPartitions | engine/central/policy_search.py:271-276 | The groups are non-empty, each under one label, and together are the curve in order. |
| Segments.LabelsRise | engine/central/policy_search.py:271-276 | On a date-sorted curve each label is used once, in calendar order. |
| Segments.CurveIsSorted | engine/central/policy_search.py:261-269 | The curve is the given points in date order. |
| Segments.CompoundingTelescopes | engine/central/policy_search.py:468-472 | Compounding returns that follow on from one another gives the last equity over the first. |
| Segments.SegmentsTelescope | engine/central/policy_search.py:278-304 | Monthly or quarterly, the segments use each label once, follow on from one another and compound to last equity over initial equity less one. |
| Segments.SegmentsArePeriods | engine/central/policy_search.py:261-304 | Told from the dates alone: every point lies in one segment and no other, two points lie in the same one exactly when their year and month agree (quarterly: their year, and both months lie in 1-3, 4-6, 7-9 or 10-12), under the label of that period; each segment runs from the first to the last date of its points, counts them and ends at the equity of the last; and there are as many as different periods. |
| Sorting.SortIsStable | engine/central/policy_search.py:269 | Sorting takes every element to one place, and rows that may stand either way round keep their order. |
| Segments.MonthGroupsMakeQuarterGroups | engine/central/policy_search.py:445-449 | Joining the month groups of a curve gives its quarter groups. |
| Segments.MonthsCompoundToQuarters | engine/central/policy_search.py:238-304 | Compounding the months of every quarter gives the quarterly split, record for record. |
| Segments.SplitEquityCurve | engine/central/policy_search.py:238-304 | The first failing check is raised; otherwise the loops compute the specified segments. There is a result exactly for at least two clean points, a positive initial equity and one of the two granularities, and it is cut by months for monthly and by quarters for quarterly. |
| Segments.CompoundReturnPct | engine/central/policy_search.py:468-472 | The loop compounds the returns. |
| Grouping.GroupPositions | scripts/reconstruct_entry_concentration_open_positions.py:62-88 | The groups cut the sorted items into windows, undated items alone, each group opened by the first item the one before does not cover. |
| Grouping.GroupsPartition | scripts/reconstruct_entry_concentration_open_positions.py:62-88 | Every given item is in exactly one group. |
| Grouping.NoGroupingHasFewer | scripts/reconstruct_entry_concentration_open_positions.py:62-88 | No grouping of the dated items within the window has fewer groups than `Needed`, which opens a group at each dated item the one before does not cover. |
| Grouping.SomeGroupingSuffices | scripts/reconstruct_entry_concentration_open_positions.py:62-88 | Some grouping has exactly that many, so `Needed` is the least number. |
| Grouping.GreedyMakes | scripts/reconstruct_entry_concentration_open_positions.py:66-87 | The loop makes one dated group per stretch that ends at the window or at an undated item. |
| Grouping.FewestExactlyWhen | scripts/reconstruct_entry_concentration_open_positions.py:62-88 | No other way to group the dated items within the window needs fewer groups, exactly when no undated item costs a group: one costs a group only when it stands behind an item of the calendar's first instant, and then exactly when another such item stands behind it or the later items need more groups with those of the first window than without. |
| Grouping.GreedyIsUnique | scripts/reconstruct_entry_concentration_open_positions.py:62-88 | The contract of `GroupPositions` allows one result only. |
| Grouping.UndatedItemSplits | scripts/reconstruct_entry_concentration_open_positions.py:63 | That happens: three items where the groups are not the fewest. |
| BuyLockFacts.ProbeMarksTheRun | engine/live/buy_reconciliation.py:263-307 | The probe remembers the earliest attempt since which every look saw nothing held. |
| BuyLockFacts.DroppedExactlyWhenConfirmed | engine/live/buy_reconciliation.py:200-307 | With a clock that never falls, the lock is dropped exactly when the retry limit is reached, nothing is held, the record can be finalized, and an earlier look at least the interval before saw nothing, with no failed lookup or holding in between. |
| BuyLockFacts.DroppedExactlyWhenFirstLookIsOld | engine/live/buy_reconciliation.py:200-307 | Whatever the clock does, the interval counts from the first look of the run of looks that saw nothing: the exact condition without the clock. |
| BuyLockFacts.ClockSetBackKeepsTheLock | engine/live/buy_reconciliation.py:263-295 | With a clock set back, two looks the interval apart are not enough. |
| BuyLockFacts.NeverDroppedUnconfirmed | engine/live/buy_reconciliation.py:200-307 | Whatever the clock does, no lock is dropped without two such looks. |
| BuyLocks.BuyReconciliationService.BrokerHoldingUnits | engine/live/buy_reconciliation.py:246-261 | The first row of the ticker decides; an unreadable row or failed call tells nothing; no row means nothing held. |
| BuyLocks.BuyReconciliationService.ConfirmRepeatedZeroHolding | engine/live/buy_reconciliation.py:263-295 | The probe after a look that saw nothing, and whether that look confirms. |
| BuyLocks.BuyReconciliationService.ClearZeroHoldingProbe | engine/live/buy_reconciliation.py:297-307 | The probe is reset. |
| BuyLocks.BuyReconciliationService.DropIfConfirmed | engine/live/buy_reconciliation.py:200-244 | One attempt: the new probe, whether the record is dropped, and that it is finalized exactly then. |
| ApprovalFacts.IndexNamesPending | engine/live/approval_manager.py:131-144 | The index built while loading names a pending request for exactly the tickers that have one. |
| ApprovalFacts.LatestIsThePending | engine/live/approval_manager.py:221-228 | Each ticker has at most one pending request, and `get_latest_pending` gives exactly it. |
| ApprovalFacts.ReloadKeepsAnswers | engine/live/approval_manager.py:131-157 | Reloading the saved requests, in any order, changes no answer. |
| ApprovalFacts.StepKeepsConsistent | engine/live/approval_manager.py:160-299 | Creating, approving, confirming, rejecting and reloading all keep the index right. |
| ApprovalFacts.EveryRunIsConsistent | engine/live/approval_manager.py:120-299 | So it is right after every run of operations from the empty manager. |
| ApprovalFacts.SettledUnlessConfirmed | engine/live/approval_manager.py:265-299 | A settled request is changed by `confirm_after_reeval` alone, which does not look at the status; nothing becomes pending again. |
| ApprovalFacts.ConfirmationRevives | engine/live/approval_manager.py:265-286 | From every request of every run, settled or not, a confirmation with a good signal makes an approved one. |
| ApprovalFacts.RejectedIsRevived | engine/live/approval_manager.py:265-286 | That happens to a rejected request: a concrete run. |
| ApprovalFacts.ApprovedInTime | engine/live/approval_manager.py:237-286 | An approval comes within a minute of the request or from a confirmation, and never changes another pending answer of the ticker. |
| ApprovalSpec.CreatesExactly | engine/live/approval_manager.py:160-218 | A new request stands open with the amounts its strength allows and nothing approved, the ticker's pending request before it expires, and no other changes. |
| Approvals.ApprovalManager.constructor | engine/live/approval_manager.py:123-142 | Loading gives the saved requests with the index of `Reload`. |
| Approvals.ApprovalManager.CreateRequest | engine/live/approval_manager.py:160-218 | The ticker's pending request expires and exactly one new pending request is indexed. |
| Approvals.ApprovalManager.GetLatestPending | engine/live/approval_manager.py:221-228 | The object of the ticker's pending request, or none. |
| Approvals.ApprovalManager.Approve | engine/live/approval_manager.py:237-263 | The answer and the new requests and index of the specified approval. |
| Approvals.ApprovalManager.ConfirmAfterReeval | engine/live/approval_manager.py:265-286 | The same for a confirmation after re-evaluation. |
| Approvals.ApprovalManager.Reject | engine/live/approval_manager.py:288-299 | The same for a rejection. |
| FeatureLag.BisectRight | engine/core/feature_lag.py:121 | The position that splits a sorted index at the cutoff. |
| FeatureLagFacts.ScanAfterSort | engine/core/feature_lag.py:85-87 | Sorting the keys does not change which entry a plain scan selects. |
| FeatureLagFacts.ScanOfSorted | engine/core/feature_lag.py:121-125 | In a sorted index that is the entry before the split. |
| FeatureLagFacts.ScanFindsNewest | engine/core/feature_lag.py:92-108 | The scan selects an entry not after the cutoff, and none of those is newer. |
| FeatureLagFacts.LookupGivesNewestRow | engine/core/feature_lag.py:92-136 | For every dict: the lookup gives a row exactly when it stands under the first ten characters of the last key of the newest date at or before the trade date less the lag (nothing for a negative one), and that date is not too old. |
| FeatureLagFacts.OneKeyForEachDate | engine/core/feature_lag.py:92-136 | With one key per date, exactly when that key has at most ten characters; a longer one is selected and then missed. |
| FeatureLagFacts.LagShifts | engine/core/feature_lag.py:57-136 | Looking up a day with a lag is looking up the day that much earlier without one, and a negative lag is none. |
| FeatureLagFacts.LongKeyIsMissed | engine/core/feature_lag.py:80-86 | That happens: a key with a time behind the date hides its own row and the one of the day before. |
| FeatureLagFacts.NeverLooksAhead | engine/core/feature_lag.py:72-136 | Whatever index was used, also a stale one, a row that is given stands under a key dated at or before the trade date less the lag, so never after the trade date, and before it when the lag is at least one; and not past the age limit. |
| FeatureLagFacts.MemoAgreesExactlyWhen | engine/core/feature_lag.py:75-89 | An index made from other keys gives the same row, at every cutoff and for every dict with the current keys, exactly when on every day with a key in either list both show the same key or none that is still there. |
| FeatureLagFacts.ReplacedKeyIsMissed | engine/core/feature_lag.py:75-89 | That fails when a key is replaced: the plain scan finds the new row, the memo nothing. |
| FeatureLagFacts.SelectsAlikeExactlyWhen | engine/core/feature_lag.py:75-89 | It even selects alike at every cutoff exactly when each date has the same last key. |
| FeatureLag.KeyCache.DailyDictIndex | engine/core/feature_lag.py:72-89 | The memo gives the sorted index of the keys seen when a dict of this length was first indexed, else of its own. |
| FeatureLag.KeyCache.LookupLagged | engine/core/feature_lag.py:92-136 | Binary search over the memo gives what the plain scan gives on those keys, and the plain lookup when they have not changed; no row it gives is dated after the trade date less the lag. |

## Left out

- Float rounding: prices and money are exact reals, so nothing is said about accumulated rounding error; share quantities keep their rounding to 10^-6.
- Records as shared objects: positions, executions and intents are values in the ledger's maps, so aliasing of a record by its callers is not modelled; approval requests and pending records are objects.
- Persistence of the ledger (`persist=True`, `_load_all`, atomic writes, flush): runs start from an empty ledger in memory; a failed save of the approvals file is not modelled either.
- The order of `open_positions`: exits and pools take the open positions in any order, the proofs hold for all of them; likewise for the order in which queued candidates are handed on.
- Client order ids, timestamps other than fill dates, log messages, statistics, diagnostics, candidate logs, drawdown and other report figures.
- Normalization of tickers, entity names and statuses (trimming, case): strings are taken as already normalized.
- Signals, and the turnover, churn and exit-imminence guards of the swap queue: outside inputs, and all theorems hold whatever they answer.
- Price frames: a sequence of complete daily bars per ticker; missing columns and non-numeric cells are not modelled.
- SimBrokerSpec.CashFloor: assumes a commission rate of at most one; `CashFloorNeedsRate` shows the floor fails at every higher rate.
- Chunking.BuyPollsAgreeExactlyWhen: asks that the execution aims at a position of its own owner, since the ledger raises otherwise.
- Chunking.SalePollsAgreeExactlyWhen: asks that the execution aims at an existing position of its own owner, since the ledger raises otherwise.
- Drift.DriftIsBounded: asks that no report sells more than the scripted broker holds, because an oversold holding is forgotten; average costs of the scripted broker are left out.
- GeneticSearch.RunGa: a population or tournament of zero raises in the program and is asked for as a precondition; equal hashes are assumed to mean equal fitness when the cache is used.
- Short positions (the exit policy raises on them), the live hard-stop guard, and `simulate_exit`.
- Segments: the partial-period flag and the calendar bounds, and the robustness scores computed from the returns.
- Approvals: classification of signal strength, hourly re-notification, and the descriptive fields of a request.
- BuyLocks: alerts, the saving of metadata, and the reconciliation of the fill itself.
- FeatureLag: keys that are not strings, lag or age arguments that are not numbers, and dates before the year 1000.
- Servers, dashboards, messaging, schedulers, market data, news, training queues and report builders.
