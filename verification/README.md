# ToyExchange in Dafny

A model of a small equity exchange, and proofs about it. Orders arrive over TCP as packed 50-byte
frames, a matching thread runs one price-time-priority engine per listed instrument, an inventory
thread settles the trades with average-cost accounting, a publisher sends every event as a 66-byte
datagram, and a Python listener rebuilds the books from those datagrams alone.

`dafny verify dfyconfig.toml` checks everything.

## How it is laid out

The parts that the program updates in place are classes and methods (`MatchingEngine`,
`MatchingEngineRouter`, `User`, `UserRegistry`, `OrderBook`, `Connection`, the wire encoders). Each
method is proved against a function on values, and the theorems are about those functions. The
threads and the seqlock are state machines over every interleaving of their statements: the matching
thread moves between an announcement, a trade handed on, a fill applied, a remainder queued and a
mid stored, and the inventory thread between the maker's fill, the taker's fill, the read of the mid
and the two marks.

| file | what is in it |
|---|---|
| `types.dfy`, `throughout.dfy` | orders, cancels, trades, events, the list of instruments; induction over runs |
| `quotes.dfy`, `levels.dfy` | one side of a book: as a flat list of quotes, and as price levels |
| `engine_model.dfy` | an engine as a value, and what every run keeps |
| `matching_engine.dfy` | the engine object with its nested matching loop |
| `reference.dfy` | a naive engine that scans all live orders, and the refinement |
| `runs.dfy` | conservation of volume, the mid price, trades fit to settle |
| `router_model.dfy`, `router.dfy`, `provenance.dfy` | one engine per instrument, and which orders its trades come from |
| `accounts_model.dfy`, `accounts.dfy`, `ledger.dfy` | average cost, P&L, the registry, and the same in shares and money |
| `replica_model.dfy`, `replica_agreement.dfy`, `replica_reuse.dfy`, `replica_midway.dfy`, `replica_runs.dfy`, `replica.dfy` | the listener's book and when it is right |
| `seqlock.dfy`, `slow_reads.dfy` | the mid price's seqlock, and why the pipeline may read a mid in one step |
| `matcher_task.dfy`, `settlement.dfy` | one command and one trade, statement by statement |
| `pipeline.dfy`, `pipeline_flow.dfy` | the threads, their queues, and what every step keeps |
| `interleavings.dfy`, `interleaved_accounts.dfy`, `tape.dfy`, `listener.dfy` | what holds at every moment: results, the running books, the registry, the tape, the listener |
| `shutdown.dfy`, `lost_trades.dfy`, `liveness.dfy`, `backpressure.dfy` | the ordered shutdown, what it can lose, that nothing gets stuck, and how much can wait |
| `wire.dfy`, `wire_layout.dfy`, `gateway.dfy` | encoders and decoders, the bytes at each offset, frame reassembly |
| `end_to_end.dfy` | from a client's bytes to a listener's book |

## Where the code does not do what is said of it

- "A shutdown never drops in-flight work" (the exchange's own README.md:141-143, exchange/main.cpp:82-86) is not true of
  the code. A worker's failed pop and its look at the finished flag are two steps; a push, the
  producer's exit, the join and the flag can all fall in between. `ShutdownCanDropWork` and
  `SnapshotCanMissTrades` are such runs (a command never matched; trades on the published tape and in
  nobody's account), and `DoneExactlyWhen` says exactly when nothing is lost.
- The listener "mirrors what the exchange does internally" (tools/orderbook_listener.py:26-32) only if
  every command is well behaved, because adds and cancels are published whether or not an engine
  took them and because the listener goes by order id alone. `ForeignCancelHides` is a stream on
  which it is wrong, and `FollowsExactlyWhen` is the condition, in both directions. Even then it is
  not right at every moment, because an add is published before it is matched and a trade before it
  is applied (common/workers/matching_engine_thread.cpp:43-51). With all market data out it is right
  between commands, before an add is announced or a cancel taken, once an add has nothing left to
  show (under a new id: once it is wholly filled) or has its remainder queued, and while a cancel
  that took nothing is being announced; at no other moment, see `ListenerExactlyWhen`. What it shows
  meanwhile is `ListenerMidAdd`, and `AddShownBeforeMatched` is such a run.
- Nothing stops an order id from being used again while it rests
  (common/engine/matching_engine.cpp:15). The facts that survive this are proved without any
  hypothesis on ids; `RunAgreesExactlyWhen` says when price-time priority over a run does.

## Model

| member | source | states |
|---|---|---|
| `Quotes.SweepTakesPrefix` | common/engine/matching_engine.hpp:94-133 | matching uses up a prefix of the flattened opposite book, in order, and changes nothing behind it except the volume of the first order left |
| `Quotes.SweepTrades` | common/engine/matching_engine.hpp:104-126 | the i-th trade is between the taker and the owner of the i-th quote, field by field, at the quote's price, which is at most the limit of a buy and at least that of a sell, for a positive volume, and for all of the quote's except possibly the last |
| `Quotes.SweepFillsExactly` | common/engine/matching_engine.hpp:94-133 | what stays unfilled is max(0, volume minus all that rests at asks up to a buy's limit, or bids down to a sell's); a non-positive volume does nothing; if anything is unfilled, every ask left is above the limit or every bid below it |
| `Quotes.SweepPricesWorsen` | common/engine/matching_engine.hpp:97-115 | one buy's successive prices never fall and one sell's never rise |
| `Quotes.SweepConserves` | common/engine/matching_engine.hpp:106-120 | volume balances for taker and makers |
| `Quotes.SweepKeepsOrder` | common/engine/matching_engine.hpp:94-133 | what matching leaves is still sorted with positive volumes |
| `Quotes.InsertPlace` | common/engine/matching_engine.cpp:7-13 | a resting remainder goes behind every order of equal or better price and ahead of every worse one, and moves nothing else |
| `Levels.FlattenInjective` | common/engine/matching_engine.hpp:58-62 | the flat list of quotes determines the price levels, so talking about quotes loses nothing |
| `Levels.LowerBound` | common/engine/matching_engine.cpp:8 | the place of a price among sorted levels |
| `Matching.MatchingEngine.constructor` | common/engine/matching_engine.hpp:86-89 | a new engine is valid, with empty books, an empty index and no mid |
| `Matching.MatchingEngine.Match` | common/engine/matching_engine.hpp:94-133 | the nested loop ends with the books, trades and remainder of the sweep, keeps levels strictly sorted and non-empty, erases exactly the used-up makers from the index, and prints no price above a buy's limit or below a sell's |
| `Matching.MatchingEngine.QueueAt` | common/engine/matching_engine.cpp:8-13 | appending to a level, or opening it, inserts one quote at its sorted place |
| `Matching.MatchingEngine.Rest` | common/engine/matching_engine.cpp:7-20 | the remainder is queued on its own side and the index entry overwritten; the other side is untouched |
| `Matching.MatchingEngine.EraseFromBook` | common/engine/matching_engine.cpp:22-35 | exactly the orders with that id at that price go; an emptied level goes with them |
| `Matching.MatchingEngine.UpdateMidPrice` | common/engine/matching_engine.cpp:54-64 | if anything rests the mid becomes half the sum of the highest bid and the lowest ask cut toward zero, or the one side's best price; else it stays |
| `Matching.MatchingEngine.OnOrderAdd` | common/engine/matching_engine.hpp:135-152 | an add on a valid engine yields the trades and state of the value model and leaves the engine valid |
| `Matching.MatchingEngine.OnOrderCancel` | common/engine/matching_engine.cpp:37-52 | likewise for a cancel; unknown id or wrong owner changes nothing |
| `Matching.Replay` | common/engine/matching_engine.hpp:135-152 | a new engine object driven by any commands follows the value model's run, valid throughout |
| `EngineModel.AddKeepsWellFormed` | common/engine/matching_engine.hpp:135-152 | any add, whatever its id, price or volume, keeps books sorted, positive and uncrossed, the index sound and the mid current |
| `EngineModel.CancelKeepsWellFormed` | common/engine/matching_engine.cpp:37-52 | so does any cancel |
| `EngineModel.RunWellFormed` | common/engine/matching_engine.hpp:94-152 | so every run from an empty engine ends uncrossed and sorted, with positive volumes and an index naming only resting orders with their side, price and owner |
| `EngineModel.IndexAfterAdd` | common/engine/matching_engine.cpp:15-19 | any add, its id reused or not, takes the used-up makers out of the index, writes its own entry over if anything of it rests, and leaves every other entry alone |
| `EngineModel.RunIndexComplete` | common/engine/matching_engine.cpp:15-52 | if no add reuses a resting id, every resting order rests once and is indexed at its own place |
| `EngineModel.RunIndexExact` | common/engine/matching_engine.cpp:15-52 | then the index domain is exactly the set of resting ids |
| `EngineModel.CancelRemovesExactlyOne` | common/engine/matching_engine.cpp:37-52 | then the owner's cancel takes out that one order and nothing else, and anyone else's does nothing |
| `EngineModel.CancelOfUnknown` | common/engine/matching_engine.cpp:38-41 | cancelling an id that does not rest changes nothing |
| `Reference.Pick` | common/engine/matching_engine.hpp:97-105 | the reference's choice among all live orders: best price, earliest arrival among equals; none only if none crosses |
| `Reference.ScanIsSweep` | common/engine/matching_engine.hpp:94-133 | scanning all live orders for each fill gives the trades, remainder and books of the level-by-level sweep |
| `Reference.CancelIsScan` | common/engine/matching_engine.cpp:22-52 | with a sound and complete index, cancelling through it erases what a scan for id and owner would |
| `Reference.EngineRefinesReference` | common/engine/matching_engine.hpp:94-152 | on every run without reuse of a resting id the engine prints the naive engine's trades, in order, and holds its orders |
| `Reference.CancelAgreesExactlyWhen` | common/engine/matching_engine.cpp:15-52 | in any state a cancel does what the naive engine does if and only if the orders under the id are the canceller's exactly when they queue at the indexed level |
| `Reference.RunAgreesExactlyWhen` | common/engine/matching_engine.cpp:15-52 | over any run, ids reused or not, the two agree after every command if and only if every cancel was unambiguous when it came |
| `Reference.ReusedIdDiverges` | common/engine/matching_engine.cpp:15 | a four-command stream on which a reused id makes them trade differently |
| `Runs.VolumeConserved` | common/engine/matching_engine.hpp:94-152 | on each side, over every run, positive volume added is volume traded plus cancelled plus resting |
| `Runs.MidFollowsBook` | common/engine/matching_engine.cpp:54-64 | the published mid is that of the latest between-command state with anything resting: half the sum of its highest bid and lowest ask cut toward zero, or the best price of the one side quoted |
| `EngineModel.MidUnique` | common/engine/matching_engine.cpp:54-64 | that description fits one price only |
| `Runs.MidAbsentUntilQuoted` | common/engine/matching_engine.cpp:54-68 | it is absent exactly while no order has ever rested |
| `Runs.MidWithinSpread` | common/engine/matching_engine.cpp:55-62 | after any commands, with both sides quoted it lies between best bid and best ask and is half their sum cut toward zero, prices of either sign; with one side quoted it is the best price there |
| `Runs.StepSettleable` | common/engine/matching_engine.hpp:106-117 | a command prints only positive trades on its own ticker between known users |
| `RouterModel.TickerIndexOfListed` | common/engine/matching_engine_router.hpp:17-22 | listed tickers have engines of their own |
| `RouterModel.FourInstruments` | common/core/types.hpp:43-48 | AAPL, GOOG, MSFT and AMZN have the engines 0 to 3, and no other ticker has one |
| `Provenance.RestingIsLeftOver` | common/engine/matching_engine.cpp:7-20 | after any commands every order resting in a ticker's book is what is left of an add for that ticker and side: its id, its owner, its price, a positive part of its volume |
| `Provenance.TradesAreAgreed` | common/engine/matching_engine.hpp:94-152 | after any commands every trade is between an earlier add and a later one, opposite sides of one ticker: their owners and ids, the earlier one's price, at most a buying taker's limit and at least a selling one's, and no more than either's volume |
| `RouterModel.ProjectionIsStandalone` | common/engine/matching_engine_router.hpp:25-51 | one ticker's book, index, mid and trades are those of a lone engine fed only its own commands, whatever else is mixed in |
| `RouterModel.RouterWellFormed` | common/engine/matching_engine_router.hpp:25-51 | every engine of every router run is well formed |
| `RouterModel.RouterTradesSettleable` | common/workers/inventory_thread.cpp:20-25 | every trade of a run has positive volume, a listed ticker and known users, so settlement is defined on it |
| `Routing.MatchingEngineRouter.constructor` | common/engine/matching_engine_router.hpp:49-50 | one distinct empty engine per instrument |
| `Routing.MatchingEngineRouter.OnOrderAdd` | common/engine/matching_engine_router.hpp:27-33 | only the ticker's engine changes, as the model says; unlisted tickers are dropped |
| `Routing.MatchingEngineRouter.OnOrderCancel` | common/engine/matching_engine_router.hpp:35-40 | likewise |
| `Routing.MatchingEngineRouter.MidPrice` | common/engine/matching_engine_router.hpp:44-47 | the mid of the ticker's engine, absent for an unlisted one |
| `Routing.ReplayRouted` | common/engine/matching_engine_router.hpp:25-51 | whole runs of the router object follow the model |
| `AccountsModel.FillMovesCash` | common/engine/user.hpp:54-82 | in all four branches a fill moves the position by its volume and realized P&L less open cost basis by minus its cost |
| `AccountsModel.FillSplits` | common/engine/user.hpp:60-81 | a fill may be split at one price anywhere, also across a close or a flip |
| `AccountsModel.RealizedOnClosed` | common/engine/user.hpp:66-72 | a closing fill realizes (price minus average), signed by direction, on the smaller of the two volumes |
| `AccountsModel.RealizedIsCashPlusBasis` | common/engine/user.hpp:54-82 | after any fills realized P&L is net cash plus average cost times position |
| `AccountsModel.NetIgnoresOrder` | common/engine/user.hpp:54-95 | position and total P&L at any mark depend only on the multiset of fills |
| `AccountsModel.RealizedDependsOnOrder` | common/engine/user.hpp:54-82 | the realized part alone does depend on their order |
| `AccountsModel.RealizedAgreesExactlyWhen` | common/engine/user.hpp:54-82 | two orders of the same fills realize the same if and only if the user ends flat or with the same average cost |
| `AccountsModel.FlatRealizesCash` | common/engine/user.hpp:54-82 | a user who ends flat has realized exactly the net cash of the fills |
| `AccountsModel.ZeroSum` | common/workers/inventory_thread.cpp:20-30 | after any trades, self-trades included, positions per ticker and total P&L at any common mark sum to zero over all users |
| `AccountsModel.HoldingIsOwnFills` | common/workers/inventory_thread.cpp:20-30 | each holding is that user's own fills of that ticker folded in order, plus the volume where they buy and minus where they sell, at the price in millionths of a dollar |
| `Ledger.PositionIsBoughtLessSold` | common/engine/user.hpp:54-82 | after any trades a user's position in a ticker is the volume bought less the volume sold, counted from maker, taker and taker side |
| `Ledger.ProfitIsCash` | common/engine/user.hpp:54-95 | after any trades and at any mark, realized P&L plus position times (mark less average cost) is money received less money paid plus position times mark, over 1000000 |
| `Ledger.RoundTripRealizes` | common/engine/user.hpp:66-72 | a user who has sold what was bought has realized what was received less what was paid, over 1000000 |
| `Ledger.ClosedHasNoCost` | common/engine/user.hpp:75-80 | and has no average cost left |
| `Ledger.SettleMarks` | common/workers/inventory_thread.cpp:20-30 | settling a trade with a mid leaves maker and taker alike with the position's gain at that mid as unrealized P&L, without one with the figure they had; no other user and no other ticker changes |
| `Ledger.MarkedAtLastTrade` | common/workers/inventory_thread.cpp:27-30 | after any trades a holding is marked at the mid read for its owner's last trade in the ticker |
| `Ledger.NeverTraded` | common/engine/user.hpp:54-55 | who was party to no trade in a ticker does not hold it |
| `Accounts.User.ApplyFill` | common/engine/user.hpp:54-82 | for any volume, zero and negative too, the in-place update equals the four-effect fill on that ticker, a buy adding to the position and a sell taking from it, and leaves other tickers alone |
| `Accounts.User.RealizedBy` | common/engine/user.hpp:68-71 | the realized P&L the code computes on the closed part is the model's |
| `Accounts.User.RefreshUnrealizedPnl` | common/engine/user.hpp:87-95 | realized plus unrealized becomes total P&L at the mid; an untraded ticker is left out |
| `Accounts.UserRegistry.constructor` | common/engine/user_registry.hpp:19-24 | one distinct user per id, all flat |
| `Accounts.UserRegistry.SettleTrade` | common/workers/inventory_thread.cpp:20-30 | maker then taker are filled on opposite sides, also when they are the same user; both are then marked at the mid, and nobody else and no other ticker changes |
| `Accounts.SettleStream` | common/workers/inventory_thread.cpp:10-34 | a stream of trades on a new registry ends in the fold of the model |
| `ReplicaModel.SweepReplayed` | tools/orderbook_listener.py:48-55 | replaying a sweep's trade events leaves the listener with what the sweep leaves |
| `ReplicaAgreement.NewOrderAgrees` | tools/orderbook_listener.py:37-55 | an add under a new id keeps the listener exact |
| `ReplicaAgreement.CancelAgreesExactlyWhen` | common/workers/matching_engine_thread.cpp:57-58 | after a cancel it is exact if and only if the id was open nowhere or named the sender's order on that ticker |
| `ReplicaReuse.ReusedIdAgreesExactlyWhen` | tools/orderbook_listener.py:39-55 | after an add under an open id it is exact if and only if the order with that id rests on the other side at a price the add accepts, the add covers it and all ahead of it, and everything that crosses covers the add |
| `ReplicaReuse.FillsNamesakeExactlyWhen` | common/engine/matching_engine.hpp:94-133 | that condition on the book before the add says exactly that both orders will be used up |
| `ReplicaMidway.ShownMidAdd` | tools/orderbook_listener.py:37-55 | after the add event and any first part of the trade events of any add, the listener shows the books with those fills applied, and under the add's id only what is left of it by its own count |
| `ReplicaMidway.RightBetweenFills` | tools/orderbook_listener.py:37-55 | between two fills of a well-behaved add that is right if and only if nothing of the add is left and no older order under its id still rests |
| `ReplicaMidway.WrongWithFillInHand` | common/workers/matching_engine_thread.cpp:45-51 | with a trade published and its fill not yet applied it is never right, whatever the id |
| `ReplicaRuns.AgreesExactlyWhen` | tools/orderbook_listener.py:37-55 | one command from any agreeing state: still exact if and only if the command was well behaved |
| `ReplicaRuns.ReplicaFollows` | tools/orderbook_listener.py:26-55 | on a well-behaved stream the listener holds exactly the resting orders of all engines |
| `ReplicaRuns.FollowsExactlyWhen` | tools/orderbook_listener.py:26-55 | over any stream at all it was exact after every command if and only if every command was well behaved |
| `ReplicaRuns.ForeignCancelHides` | common/workers/matching_engine_thread.cpp:57-58 | a cancel by somebody else makes it drop an order the engine keeps |
| `ReplicaModel.EventMeans` | tools/orderbook_listener.py:37-55 | for any id: an add puts the whole order there, a cancel removes it, a trade takes its volume off once per side the order is on and removes it as soon as nothing is left; other ids keep their entries |
| `Replica.OrderBook.Apply` | tools/orderbook_listener.py:37-55 | the in-place update is the event applied to the dictionary |
| `Replica.OrderBook.Levels` | tools/orderbook_listener.py:57-64 | both maps have exactly the prices with an open order of the ticker, each with its total volume |
| `Replica.LevelsAreTheBook` | tools/orderbook_listener.py:57-64 | after a well-behaved stream those are the engine's prices and volumes per price |
| `Seqlock.StepKeepsInv` | common/core/seqlock.hpp:26-43 | every atomic step keeps: half the counter counts completed stores, and a copy whose counter still stands agrees with the current value as far as it goes; words are written and copied in any order |
| `Seqlock.LoadReturnsCurrent` | common/core/seqlock.hpp:33-43 | in every interleaving a load returns a whole value that was current at some moment between its call and its return |
| `Seqlock.LoadsNeverGoBack` | common/core/seqlock.hpp:33-43 | of two loads, by any readers, the later one returns the same version or a newer one |
| `Seqlock.ReaderNeverGoesBack` | common/core/seqlock.hpp:33-43 | one reader's results never go back |
| `Seqlock.LoadSeesCompletedStores` | common/core/seqlock.hpp:26-43 | a load is never older than the last store completed before it began |
| `Seqlock.TornCopyReachable` | common/core/seqlock.hpp:37-41 | torn copies do occur inside a load, so the retry is needed |
| `SlowReads.ReadCommutes` | common/workers/inventory_thread.cpp:27-30 | a read that returned a given mid could have come before any step of another thread, with the same outcome |
| `SlowReads.SlowReadsAreAtomic` | common/workers/inventory_thread.cpp:27-30 | with reads that take time and return any mid current between call and return, the pipeline reaches only states it reaches with reads in one step |
| `MatcherTask.OutputsCarry` | common/workers/matching_engine_thread.cpp:38-59 | what is pushed for one command carries exactly its trades and exactly its published events |
| `MatcherTask.FillProceeds` | common/engine/matching_engine.hpp:104-126 | making one fill leaves the rest of the add as it was going to be |
| `MatcherTask.BeginAhead` | common/workers/matching_engine_thread.cpp:38-59 | what lies ahead of a command's first statement is what the sequential router prints and leaves for it |
| `MatcherTask.PushAhead` | common/workers/matching_engine_thread.cpp:43-58 | each push takes its message off the front of what lies ahead |
| `MatcherTask.WorkKeepsAhead` | common/engine/matching_engine.hpp:97-151 | every other statement (loop test, fill, rest, mid, cancel) leaves what lies ahead as it was |
| `MatcherTask.AllFilled` | common/engine/matching_engine.hpp:94-133 | all fills of an add applied one by one are its match |
| `Settlement.StageReaches` | common/workers/inventory_thread.cpp:20-30 | maker's fill, taker's fill, read and marks one after the other are the settlement (whose marks are `Ledger.SettleMarks`), with or without a mid |
| `Settlement.ReachedTotals` | common/workers/inventory_thread.cpp:24-25 | part way through a trade the totals are off by exactly the maker's fill between the two fills, and not at all elsewhere |
| `PipelineFlow.StepInv` | common/workers/matching_engine_thread.cpp:28-60 | every statement of any thread keeps: queues lose and reorder nothing, the engines are the sequential ones with the command in hand part done, the registry is the settled trades with the trade in hand part done, exits follow flags |
| `PipelineFlow.RunInv` | common/workers/inventory_thread.cpp:10-34 | so every reachable state does |
| `Interleavings.ResultsAreSequential` | common/workers/inventory_thread.cpp:10-34 | at every moment the commands consumed, trades settled and events published are prefixes of the sequential ones; between commands the engines, and between trades the registry, are the sequential ones |
| `Interleavings.MidAddAlways` | common/workers/matching_engine_thread.cpp:43-51 | in the middle of an add the engines are the sequential ones before it with exactly the fills made so far applied to its book; those are its first trades, and they and the one in hand are what has been pushed for it |
| `InterleavedAccounts.TotalsAlways` | common/workers/inventory_thread.cpp:20-30 | at every moment positions per ticker and total P&L at any mark sum to zero, except between the two fills of a trade, when they sum to the maker's fill and its value |
| `InterleavedAccounts.TradesAreMarkedFreshly` | common/workers/inventory_thread.cpp:27-30 | in every interleaving a settled trade was marked, and with a mid its engine had published and that was current when the trade's own command began, or newer |
| `InterleavedAccounts.AccountsAlways` | common/workers/inventory_thread.cpp:20-30 | at every moment there are 100 accounts, and each, except in the ticker of its owner's trade in hand, holds shares bought less shares sold in the settled trades and is worth what those trades brought in |
| `InterleavedAccounts.HoldingsAreMarked` | common/workers/inventory_thread.cpp:27-30 | at every moment each such account is marked at the mid read for its owner's last settled trade in the ticker, a fresh one in the sense above |
| `Tape.TapeIsTheTrades` | common/workers/matching_engine_thread.cpp:43-51 | the trade events of any commands are the trades their engines print, in order |
| `Tape.EveryCommandAnnounced` | common/workers/matching_engine_thread.cpp:43-58 | the other events of any commands are those commands, unchanged and in order, whether an engine took them or not |
| `Tape.TapeFirst` | common/workers/matching_engine_thread.cpp:50-51 | at every moment the trades handed on for settlement are those announced, except one announced and about to be handed on; so nothing is settled that was not announced |
| `Backpressure.QueuesBounded` | common/net/queues.hpp:10-20 | no queue ever holds more than 4096 messages |
| `Backpressure.GatewayWaits` | common/net/gateway.cpp:172-178 | any 4096 commands can wait at once; the gateway then holds the next one back until one is taken |
| `Shutdown.NobodyLeavesEarly` | exchange/main.cpp:110-120 | no consumer has exited while its producer still runs, and the gateway has not closed before the signal |
| `Shutdown.LeftoverIsLate` | common/workers/matching_engine_thread.cpp:30-36 | what a worker leaves in its queue was pushed after its last failed pop |
| `Shutdown.DoneExactlyWhen` | exchange/main.cpp:110-122 | when the snapshot is written every command is matched, every trade settled and every event published if and only if nothing was pushed to a worker after its last failed pop |
| `Shutdown.FlagFirstMeansDone` | exchange/main.cpp:110-122 | that is so if each last failed pop came after the upstream flag was set |
| `Shutdown.ShutdownCanDropWork` | exchange/main.cpp:82-86 | for any command there is a run that ends with that command dispatched and never matched |
| `LostTrades.SnapshotCanMissTrades` | common/workers/inventory_thread.cpp:12-14 | for any commands whose trades fit in the queue some run matches them all, publishes every event and settles nothing, up to and including the snapshot |
| `LostTrades.TradeCanBeLost` | common/workers/inventory_thread.cpp:12-14 | so any sell and buy that meet can trade with the trade on the tape and in nobody's account |
| `Liveness.ShutdownCanFinish` | exchange/main.cpp:110-122 | from any state reached once shutdown has begun, some schedule reaches the snapshot |
| `Liveness.EveryOtherStepCloser` | exchange/main.cpp:110-122 | in every reachable state every step but a new command and an idle poll lowers one well-founded measure |
| `Liveness.OnlyPollsLeft` | common/workers/matching_engine_thread.cpp:28-36 | without new input every endless run comes to consist of idle polls only |
| `Liveness.EndlessShutdownIsUnfair` | exchange/main.cpp:110-122 | a shutdown without new input that never finished would have some step always possible from some moment on and never taken: under every fair schedule it finishes |
| `Liveness.GatewayNeverStuck` | common/net/gateway.cpp:172-178 | from any reachable state with a command to dispatch, steps of the workers alone make room for it |
| `Liveness.MatcherNeverStuck` | common/workers/matching_engine_thread.cpp:13-21 | from any reachable state in the middle of a command, steps of the two drainers alone let it go on |
| `Wire.IntRoundTrip` | common/net/wire.hpp:108-125 | every 64-bit integer survives the little-endian layout |
| `Wire.IntBytesRoundTrip` | common/net/wire.hpp:108-125 | every eight bytes are the encoding of one 64-bit integer |
| `Wire.EncodeTicker` | common/net/wire.hpp:99-102 | for any 15-byte ticker the field becomes the ticker followed by NULs, and nothing outside the record changes |
| `Wire.TickerDecodes` | common/net/wire.hpp:104-106 | any ticker comes back from C++ cut at its first NUL, and from Python too if that is ASCII, else Python raises |
| `Wire.InboundRoundTrip` | tools/wire.py:55-66 | whatever the Python client can send is 50 bytes and decodes in C++ to the command with its ticker cut at the first NUL: the same command exactly when there is none |
| `Wire.DecodableExactlyWhen` | common/net/wire.hpp:104-134 | a frame decodes if and only if its ticker field holds a NUL |
| `Wire.EncodeOrderAddEvent` | common/net/wire.hpp:136-146 | the bytes written are the packed add event, kind byte 0 and side byte 0 or 1; the rest of the union keeps its bytes |
| `Wire.EncodeOrderCancelEvent` | common/net/wire.hpp:148-155 | likewise for a cancel event, kind byte 1 |
| `Wire.EncodeTradeEvent` | common/net/wire.hpp:157-169 | likewise for a trade event, kind byte 2, which fills the union |
| `Wire.MarketRoundTrip` | tools/wire.py:89-133 | an event with any C++ ticker decodes in Python to the same event exactly when the ticker is ASCII and NUL-free, whatever the unused bytes are; otherwise it is cut at the NUL or Python raises |
| `WireLayout.PyLayout` | tools/wire.py:26-66 | what the Python client sends is 50 bytes: kind 0 or 1, then each integer's two's-complement digits low byte first, the NUL-padded ticker and the side as 0 or 1 at their offsets, and zeros behind a cancel |
| `WireLayout.PySendsExactlyWhen` | tools/wire.py:26-30 | it sends exactly the commands whose numbers have 64 bits and whose ticker is at most 15 ASCII characters |
| `WireLayout.CppLayout` | common/net/wire.hpp:51-96 | what the exchange publishes is 66 bytes: kind 0, 1 or 2 and the fields of that record, in the same encoding, at their offsets |
| `WireLayout.CppReads` | common/net/wire.hpp:104-134 | what the gateway reads in any 50 bytes: kind, side, integers and ticker from those offsets, any non-zero kind a cancel, any non-zero side a sell, and a throw only without a NUL in the ticker |
| `WireLayout.PyReads` | tools/wire.py:89-133 | what the listener reads in any datagram, and that it raises only for a wrong length or a ticker outside ASCII |
| `Gateway.Connection.Accept` | common/net/gateway.cpp:133-138 | a chunk extends the partial frame or completes and empties it |
| `Gateway.Connection.ReadFrom` | common/net/gateway.cpp:123-152 | the frames dispatched are the bytes taken in cut every 50, the tail stays in the buffer, and a zero read means the peer has closed and nothing is unread |
| `Gateway.ChunkingIrrelevant` | common/net/gateway.cpp:130-141 | any chunking of a stream gives the same frames and tail |
| `Gateway.Serve` | common/net/gateway.cpp:118-152 | over repeated wake-ups what is dispatched and held is a session over the chunks read, and those and the bytes still in the socket are what arrived |
| `Gateway.ClientToEngine` | common/net/gateway.cpp:123-178 | commands encoded by a client and split in any way are dispatched as the same commands, in order, with nothing left over |
| `EndToEnd.FeedFits` | common/workers/matching_engine_thread.cpp:43-58 | if the commands fit the wire format and have plain tickers so does every event they cause |
| `EndToEnd.ClientToListener` | tools/orderbook_listener.py:26-55 | from a client's bytes to a listener's dictionary: the commands arrive, and on a well-behaved stream the decoded datagrams rebuild the engines' resting orders |
| `Listener.ListenerCatchesUp` | common/net/market_data_publisher.cpp:61-81 | in any interleaving, between commands with all market data out and the earlier commands well behaved, the listener holds what the running engines hold if and only if the last command was well behaved too |
| `Listener.ListenerMidAdd` | common/workers/matching_engine_thread.cpp:43-51 | after well-behaved commands, in the middle of any add, under a new id or a used one, at every moment from its announcement to the queuing of its remainder and with all market data out, it shows the running books with the trade in hand applied too, and under the add's id only what is left of it by the listener's own count |
| `Listener.ListenerExactlyWhen` | common/workers/matching_engine_thread.cpp:38-59 | in the middle of any cancel or well-behaved add after well-behaved commands, with all market data out, it has the running books if and only if the add is not yet announced or the cancel not yet taken, or the add has nothing left to show between two fills, or its remainder is queued, or the cancel took nothing |
| `Listener.RightAtNewId` | common/workers/matching_engine_thread.cpp:43-51 | for an add under a new id having nothing left to show between two fills means being wholly filled, which it never is with a trade still to announce |
| `Listener.AddShownBeforeMatched` | common/workers/matching_engine_thread.cpp:43-44 | a run in which all market data is out, the listener shows an order and no engine holds it |

## Left out

- Sockets, epoll, accept and close, the map of connections, multicast setup and signals: `read` is any chunk no longer than asked, the market-data feed is lossless and in order.
- The memory model: the seqlock and the pipeline are sequentially consistent interleavings; the plain storage of the seqlock is copied word by word, in any order.
- Wrap-around of the seqlock counter and 64-bit overflow of volumes, positions and the sum of two prices: integers are unbounded inside the engine and range-checked on the wire.
- Floating point: money is `real`, so rounding of average cost and P&L, and of the price conversions, is not modelled.
- The internals of the lock-free queues, flat maps, hash maps and the memory arena: bounded FIFOs, sorted sequences and maps.
- The worker loops as loops: they never return while the exchange serves, so they are step systems; `Accounts.SettleStream` and `Matching.Replay` are their finite forms.
- Fairness of the scheduler is not modelled: `Liveness.EndlessShutdownIsUnfair` says what an unfair one would have to do.
- Input during shutdown: a gateway that keeps receiving is not shown to close.
- Users outside 0 to 99 and inbound tickers without a NUL, both of which throw in the program: the pipeline takes commands from known users, and `Wire.DecodableExactlyWhen` says which frames throw.
- The pipeline does not contain the seqlock's own steps: `Seqlock.LoadReturnsCurrent` shows what a load returns, and `SlowReads.SlowReadsAreAtomic` that such a load may be taken as one step.
- What `unrealizedPnl_` holds between trades is not stated beyond `Accounts.User.RefreshUnrealizedPnl`.
- Statements that no other thread can observe separately are one step: the field updates inside one fill, one queued remainder or one cancel.
- Replica streams that become right again: `ReplicaRuns.FollowsExactlyWhen` is about being right after every command, not about recovering after having been wrong.
- The CSV snapshot, logging, the order generator, the listener's printing, `Instrument::CalcPnl`, the strong-type wrappers and the demo queue: only easy members.
